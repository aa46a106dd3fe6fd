/**
 * The client and the route together: the modal's opening time travels as
 * `startedAt` into the route's time-on-form check, and a run of posts from
 * one address meets the rate limiter in order.
 */
module Submission {
  import opened Wrappers
  import opened Values
  import opened RateLimit
  import opened ModalHook
  import opened ContactForm
  import opened ContactRoute

  /** What the route reads from a body the client posted: every field present. */
  function Received(b: SubmitBody): (req: ContactRequestBody)
    ensures req.email == Some(b.email) && req.message == Some(b.message) && req.name == Some(b.name)
    ensures req.hp == Some(b.hp) && req.startedAt == Some(b.startedAt)
  {
    ContactRequestBody(Some(b.name), Some(b.email), Some(b.message), Some(b.hp), Some(b.startedAt))
  }

  /**
   * A form opened at t0, sent at t1 and checked by the route at t2 passes the
   * time-on-form check exactly when at least 3000 ms passed since t0.
   */
  lemma OpenToSubmitTiming(v: ModalView, t0: int, t1: int, t2: int, name: string, email: string,
                           message: string, honeypotInput: Option<string>)
    requires t0 != 0
    ensures var body := BuildBody(name, email, message, honeypotInput, Open(v, t0).formStart, t1);
      !SubmittedTooQuickly(Received(body).startedAt, t2) <==> t2 - t0 >= MinFillMs
  {
  }

  /** Re-opening the modal at t0' measures from t0', whatever happened before. */
  lemma ReopenRestartsTiming(v: ModalView, t0: int, t0': int, t1: int, t2: int)
    requires t0' != 0
    ensures !SubmittedTooQuickly(Some(StartedAt(Open(Open(v, t0), t0').formStart, t1)), t2)
      <==> t2 - t0' >= MinFillMs
  {
    ReopenRestartsClock(v, t0, t0');
  }

  /** A page whose honeypot field is absent or left empty never trips the route's spam check. */
  lemma UntouchedHoneypotPasses(name: string, email: string, message: string,
                                honeypotInput: Option<string>, formStart: Option<int>, now: int)
    requires honeypotInput.None? || honeypotInput.value == ""
    ensures !IsHoneypotHit(Received(BuildBody(name, email, message, honeypotInput, formStart, now)).hp)
  {
  }

  /** Posts from one set of headers at the given times: the answers in order and the limiter's final store. */
  function PostRun(reqs: seq<ContactRequestBody>, headers: Headers, times: seq<int>, env: Env, store: Store,
                   upstream: Outbound -> Upstream, parse: string -> Option<Value>): (res: (seq<Response>, Store))
    requires |reqs| == |times|
    ensures |res.0| == |times|
    decreases |times|
  {
    if times == [] then ([], store)
    else
      var (r, s1) := Handle(Success(reqs[0]), headers, times[0], env, store, upstream, parse);
      var (rs, s2) := PostRun(reqs[1..], headers, times[1..], env, s1, upstream, parse);
      ([r] + rs, s2)
  }

  /** What the route answers once the limiter has let a request through. */
  function Admitted(req: ContactRequestBody, now: int, env: Env,
                    upstream: Outbound -> Upstream, parse: string -> Option<Value>): Response
  {
    match Validate(req, now, env)
    case Failure(rejection) => rejection
    case Success(out) => Normalize(out.targetUrl, upstream(out), parse)
  }

  /**
   * Posts without a honeypot hit drive the limiter exactly as a run of checks
   * does: the final store is the run's, a refused check answers 429, and an
   * admitted one goes on to the field checks and the relay.
   */
  lemma {:induction false} PostRunFollowsLimiter(reqs: seq<ContactRequestBody>, headers: Headers, times: seq<int>,
                                                 env: Env, store: Store,
                                                 upstream: Outbound -> Upstream, parse: string -> Option<Value>)
    requires |reqs| == |times|
    requires forall i | 0 <= i < |reqs| :: !IsHoneypotHit(reqs[i].hp)
    ensures var (rs, s) := PostRun(reqs, headers, times, env, store, upstream, parse);
      var (s', vs) := Run(store, ClientIp(headers), times);
      && s == s'
      && forall i | 0 <= i < |times| ::
           rs[i] == if vs[i].limited then Reject(429, TooManyRequests)
                    else Admitted(reqs[i], times[i], env, upstream, parse)
    decreases |times|
  {
    if times != [] {
      var ip := ClientIp(headers);
      var (r, s1) := Handle(Success(reqs[0]), headers, times[0], env, store, upstream, parse);
      var (c1, v) := Check(store, ip, times[0]);
      assert s1 == c1;
      PostRunFollowsLimiter(reqs[1..], headers, times[1..], env, s1, upstream, parse);
      var rs := PostRun(reqs, headers, times, env, store, upstream, parse).0;
      var vs := Run(store, ip, times).1;
      assert rs == [r] + PostRun(reqs[1..], headers, times[1..], env, s1, upstream, parse).0;
      assert vs == [v] + Run(c1, ip, times[1..]).1;
    }
  }

  /**
   * From a fresh limiter, posts from one address inside one window: the first
   * five reach the field checks (valid or not), every later one is refused
   * with 429.
   */
  lemma SixthPostInWindowIsRefused(reqs: seq<ContactRequestBody>, headers: Headers, times: seq<int>, env: Env,
                                   upstream: Outbound -> Upstream, parse: string -> Option<Value>)
    requires |reqs| == |times| >= 1
    requires forall i | 0 <= i < |reqs| :: !IsHoneypotHit(reqs[i].hp)
    requires forall i | 0 <= i < |times| :: times[i] - times[0] <= WindowMs
    ensures var rs := PostRun(reqs, headers, times, env, map[], upstream, parse).0;
      forall i | 0 <= i < |times| ::
        rs[i] == if i >= MaxRequestsPerWindow then Reject(429, TooManyRequests)
                 else Admitted(reqs[i], times[i], env, upstream, parse)
  {
    PostRunFollowsLimiter(reqs, headers, times, env, map[], upstream, parse);
    SixthCallInWindowIsLimited(ClientIp(headers), times);
  }
}
