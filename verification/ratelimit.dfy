/**
 * The contact route's in-memory, fixed-window, per-address rate limiter:
 * at most MaxRequestsPerWindow admitted calls per address in a window of
 * WindowMs milliseconds that starts at the address's first call.
 */
module RateLimit {

  const WindowMs: int := 10 * 60 * 1000
  const MaxRequestsPerWindow: int := 5

  /** One address's entry: calls counted in the current window and when it began. */
  datatype RateState = RateState(count: int, windowStart: int)

  /** What one check answers. */
  datatype Verdict = Verdict(limited: bool, remaining: int)

  type Store = map<string, RateState>

  /** The entry for `ip` does not exist or its window has run out at `now` (strictly longer than WindowMs ago). */
  predicate WindowExpired(store: Store, ip: string, now: int)
  {
    ip !in store || now - store[ip].windowStart > WindowMs
  }

  /** Every stored count lies in 1..MaxRequestsPerWindow. */
  predicate CountsInRange(store: Store)
  {
    forall ip | ip in store :: 1 <= store[ip].count <= MaxRequestsPerWindow
  }

  /**
   * One call of the limiter for `ip` at `now`: the new store and the verdict.
   * A fresh or expired window restarts at count 1; a full window refuses and
   * leaves the store as it was; otherwise the count rises by one. No other
   * address's entry is touched.
   */
  function Check(store: Store, ip: string, now: int): (res: (Store, Verdict))
    ensures WindowExpired(store, ip, now) ==>
      res.0 == store[ip := RateState(1, now)] && res.1 == Verdict(false, MaxRequestsPerWindow - 1)
    ensures !WindowExpired(store, ip, now) && store[ip].count >= MaxRequestsPerWindow ==>
      res.0 == store && res.1 == Verdict(true, 0)
    ensures !WindowExpired(store, ip, now) && store[ip].count < MaxRequestsPerWindow ==>
      && res.0 == store[ip := RateState(store[ip].count + 1, store[ip].windowStart)]
      && res.1 == Verdict(false, MaxRequestsPerWindow - res.0[ip].count)
    ensures res.1.limited <==> !WindowExpired(store, ip, now) && store[ip].count >= MaxRequestsPerWindow
    ensures res.0.Keys == store.Keys + {ip}
    ensures forall k | k in store && k != ip :: res.0[k] == store[k]
  {
    if WindowExpired(store, ip, now) then
      (store[ip := RateState(1, now)], Verdict(false, MaxRequestsPerWindow - 1))
    else if store[ip].count >= MaxRequestsPerWindow then
      (store, Verdict(true, 0))
    else
      var next := RateState(store[ip].count + 1, store[ip].windowStart);
      (store[ip := next], Verdict(false, MaxRequestsPerWindow - next.count))
  }

  /** The limiter keeps every count in 1..5 and answers a remaining quota in 0..4. */
  lemma CheckKeepsCountsInRange(store: Store, ip: string, now: int)
    requires CountsInRange(store)
    ensures CountsInRange(Check(store, ip, now).0)
    ensures 0 <= Check(store, ip, now).1.remaining <= MaxRequestsPerWindow - 1
    ensures !Check(store, ip, now).1.limited ==>
      Check(store, ip, now).1.remaining == MaxRequestsPerWindow - Check(store, ip, now).0[ip].count
  {
  }

  /** A sequence of calls for one address at the given times: the final store and the verdicts in order. */
  function Run(store: Store, ip: string, times: seq<int>): (res: (Store, seq<Verdict>))
    ensures |res.1| == |times|
    decreases |times|
  {
    if times == [] then (store, [])
    else
      var (s1, v) := Check(store, ip, times[0]);
      var (s2, vs) := Run(s1, ip, times[1..]);
      (s2, [v] + vs)
  }

  function Min(a: int, b: int): int
  {
    if a <= b then a else b
  }

  /**
   * Calls inside the window of an entry that holds `c` calls: call i (from 0)
   * is refused exactly when c + i has reached the cap, and the entry ends at
   * the cap or at c plus the number of calls, whichever is smaller.
   */
  lemma {:induction false} RunInsideWindow(store: Store, ip: string, times: seq<int>, c: int, w: int)
    requires ip in store && store[ip] == RateState(c, w)
    requires 1 <= c <= MaxRequestsPerWindow
    requires forall i | 0 <= i < |times| :: times[i] - w <= WindowMs
    ensures var (s, vs) := Run(store, ip, times);
      && s == store[ip := RateState(Min(MaxRequestsPerWindow, c + |times|), w)]
      && forall i | 0 <= i < |times| ::
           vs[i] == if c + i >= MaxRequestsPerWindow then Verdict(true, 0)
                    else Verdict(false, MaxRequestsPerWindow - (c + i + 1))
    decreases |times|
  {
    if times != [] {
      var (s1, v) := Check(store, ip, times[0]);
      var c1 := Min(MaxRequestsPerWindow, c + 1);
      assert s1 == store[ip := RateState(c1, w)];
      RunInsideWindow(s1, ip, times[1..], c1, w);
      var (s2, vs) := Run(s1, ip, times[1..]);
      assert Run(store, ip, times).1 == [v] + vs;
      if c == MaxRequestsPerWindow {
        assert s1 == store;
      }
    }
  }

  /**
   * From an empty store, calls for one address that all fall inside the window
   * opened by the first: calls 1 to 5 are admitted with 4, 3, 2, 1, 0 left, and
   * every later call is refused.
   */
  lemma SixthCallInWindowIsLimited(ip: string, times: seq<int>)
    requires |times| >= 1
    requires forall i | 0 <= i < |times| :: times[i] - times[0] <= WindowMs
    ensures var vs := Run(map[], ip, times).1;
      forall i | 0 <= i < |times| ::
        (vs[i].limited <==> i >= MaxRequestsPerWindow)
        && (i < MaxRequestsPerWindow ==> vs[i].remaining == MaxRequestsPerWindow - 1 - i)
  {
    var (s1, v) := Check(map[], ip, times[0]);
    RunInsideWindow(s1, ip, times[1..], 1, times[0]);
    assert Run(map[], ip, times).1 == [v] + Run(s1, ip, times[1..]).1;
  }

  /** Once the window has run out, the next call starts a new one at count 1, however full the old one was. */
  lemma ExpiredWindowResets(store: Store, ip: string, now: int)
    requires ip in store && now - store[ip].windowStart > WindowMs
    ensures Check(store, ip, now).0[ip] == RateState(1, now)
    ensures Check(store, ip, now).1 == Verdict(false, MaxRequestsPerWindow - 1)
  {
  }

  /** The limiter's store, updated in place by each check. */
  class RateLimiter {
    var store: Store

    constructor ()
      ensures store == map[]
    {
      store := map[];
    }

    /** `isRateLimited`, with the clock reading passed in as `now`. */
    method IsRateLimited(ip: string, now: int) returns (v: Verdict)
      modifies this
      ensures (store, v) == Check(old(store), ip, now)
    {
      if ip !in store || now - store[ip].windowStart > WindowMs {
        store := store[ip := RateState(1, now)];
        return Verdict(false, MaxRequestsPerWindow - 1);
      }
      var cur := store[ip];
      if cur.count >= MaxRequestsPerWindow {
        return Verdict(true, 0);
      }
      cur := cur.(count := cur.count + 1);
      store := store[ip := cur];
      return Verdict(false, MaxRequestsPerWindow - cur.count);
    }
  }
}
