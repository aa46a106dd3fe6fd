/**
 * The route's email shape test, the pattern `^[^\s@]+@[^\s@]+\.[^\s@]+$`.
 * MatchesPattern states the pattern by positions; IsValidEmail is the scan
 * the route runs; IsValidEmailMatchesPattern proves them equal.
 */
module Email {
  import opened Text

  /** A character of the class `[^\s@]`. */
  predicate Plain(c: char)
  {
    !IsSpace(c) && c != '@'
  }

  /** Every character of s[lo..hi] is in `[^\s@]`. */
  predicate PlainRange(s: string, lo: int, hi: int)
    requires 0 <= lo <= hi <= |s|
  {
    forall k | lo <= k < hi :: Plain(s[k])
  }

  /** The pattern with its `@` at `at` and the chosen `.` at `dot`: three non-empty runs of `[^\s@]`. */
  predicate PatternAt(s: string, at: int, dot: int)
  {
    && 0 < at && at + 1 < dot && dot + 1 < |s|
    && s[at] == '@' && s[dot] == '.'
    && PlainRange(s, 0, at) && PlainRange(s, at + 1, dot) && PlainRange(s, dot + 1, |s|)
  }

  /** The pattern by positions: some `@` and `.` split s as PatternAt says. */
  ghost predicate MatchesPattern(s: string)
  {
    exists at, dot :: PatternAt(s, at, dot)
  }

  /** The position of the first `c` in s, or |s| when there is none. */
  function IndexOf(s: string, c: char): (i: nat)
    ensures i <= |s|
    ensures i < |s| ==> s[i] == c
    ensures forall k | 0 <= k < i :: s[k] != c
  {
    if s == [] then 0 else if s[0] == c then 0 else 1 + IndexOf(s[1..], c)
  }

  /** Number of occurrences of c in s. */
  function Count(s: string, c: char): nat
  {
    if s == [] then 0 else (if s[0] == c then 1 else 0) + Count(s[1..], c)
  }

  /** A `.` with at least one character before it and one after it. */
  predicate HasInnerDot(domain: string)
  {
    |domain| >= 3 && IndexOf(domain[1..|domain| - 1], '.') < |domain| - 2
  }

  /**
   * `isValidEmail`: no white space, the first `@` is not at the start, no
   * second `@` follows it, and the domain after it has a `.` with at least one
   * character on each side.
   */
  predicate IsValidEmail(email: string)
    ensures IsValidEmail(email) ==> |email| >= 5 && email[0] != '@' && email[|email| - 1] != '@'
  {
    var at := IndexOf(email, '@');
    && (forall k | 0 <= k < |email| :: !IsSpace(email[k]))
    && 0 < at < |email|
    && IndexOf(email[at + 1..], '@') == |email| - at - 1
    && HasInnerDot(email[at + 1..])
  }

  lemma ValidEmailMatchesPattern(email: string)
    requires IsValidEmail(email)
    ensures MatchesPattern(email)
  {
    var at := IndexOf(email, '@');
    var dom := email[at + 1..];
    assert forall k | 0 <= k < |dom| :: dom[k] != '@';
    var mid := dom[1..|dom| - 1];
    var j := IndexOf(mid, '.');
    var dot := at + 2 + j;
    assert mid[j] == dom[1 + j] == email[dot];
    assert PlainRange(email, at + 1, |email|) by {
      forall k | at + 1 <= k < |email| ensures Plain(email[k]) {
        assert dom[k - at - 1] == email[k];
      }
    }
    assert PatternAt(email, at, dot);
  }

  /** Under the pattern, the only `@` is the one at `at`, and there is no white space. */
  lemma PatternAtPlainElsewhere(email: string, at: int, dot: int)
    requires PatternAt(email, at, dot)
    ensures forall k | 0 <= k < |email| && k != at :: Plain(email[k])
  {
    forall k | 0 <= k < |email| && k != at
      ensures Plain(email[k])
    {
      if k < at {
        assert PlainRange(email, 0, at);
      } else if k < dot {
        assert PlainRange(email, at + 1, dot);
      } else if k > dot {
        assert PlainRange(email, dot + 1, |email|);
      }
    }
  }

  lemma PatternAtIsValid(email: string, at: int, dot: int)
    requires PatternAt(email, at, dot)
    ensures IsValidEmail(email)
  {
    PatternAtPlainElsewhere(email, at, dot);
    assert IndexOf(email, '@') == at;
    var dom := email[at + 1..];
    assert forall k | 0 <= k < |dom| :: dom[k] != '@' by {
      forall k | 0 <= k < |dom| ensures dom[k] != '@' {
        assert dom[k] == email[at + 1 + k];
      }
    }
    assert IndexOf(dom, '@') == |dom|;
    var mid := dom[1..|dom| - 1];
    assert mid[dot - at - 2] == '.';
    assert HasInnerDot(dom);
  }

  lemma PatternIsValidEmail(email: string)
    requires MatchesPattern(email)
    ensures IsValidEmail(email)
  {
    var at, dot :| PatternAt(email, at, dot);
    PatternAtIsValid(email, at, dot);
  }

  /** The scan accepts exactly the strings the pattern matches. */
  lemma IsValidEmailMatchesPattern(email: string)
    ensures IsValidEmail(email) <==> MatchesPattern(email)
  {
    if IsValidEmail(email) {
      ValidEmailMatchesPattern(email);
    }
    if MatchesPattern(email) {
      PatternIsValidEmail(email);
    }
  }

  lemma {:induction false} CountAbsent(s: string, c: char)
    requires forall k | 0 <= k < |s| :: s[k] != c
    ensures Count(s, c) == 0
  {
    if s != [] {
      CountAbsent(s[1..], c);
    }
  }

  lemma {:induction false} CountSplit(a: string, b: string, c: char)
    ensures Count(a + b, c) == Count(a, c) + Count(b, c)
  {
    if a != [] {
      assert (a + b)[0] == a[0];
      assert (a + b)[1..] == a[1..] + b;
      CountSplit(a[1..], b, c);
    } else {
      assert a + b == b;
    }
  }

  /** A valid address has exactly one `@`, and a non-empty part before it. */
  lemma ValidEmailHasOneAt(email: string)
    requires IsValidEmail(email)
    ensures Count(email, '@') == 1
    ensures email[0] != '@'
  {
    var at := IndexOf(email, '@');
    var dom := email[at + 1..];
    assert forall k | 0 <= k < |dom| :: dom[k] != '@';
    assert email[at] == '@';
    assert email == email[..at] + ([email[at]] + dom);
    CountAbsent(email[..at], '@');
    CountAbsent(dom, '@');
    CountSplit(email[..at], [email[at]] + dom, '@');
    CountSplit([email[at]], dom, '@');
  }
}
