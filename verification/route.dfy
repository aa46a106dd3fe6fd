/**
 * The `POST /api/contact` handler: honeypot, per-address rate limit, field
 * checks, time-on-form, configuration, then a relay to the upstream
 * `contact-email` function whose answer is normalised for the client.
 * The clock, the environment, the upstream call and JSON.parse are inputs.
 */
module ContactRoute {
  import opened Wrappers
  import opened Text
  import opened Values
  import opened RateLimit
  import opened Email

  /** The parsed request body; every field may be missing. */
  datatype ContactRequestBody = ContactRequestBody(
    name: Option<string>,
    email: Option<string>,
    message: Option<string>,
    hp: Option<string>,
    startedAt: Option<int>)

  /** The two request headers the route reads; None when the header is absent. */
  datatype Headers = Headers(forwardedFor: Option<string>, realIp: Option<string>)

  /** The four environment variables, public name first. */
  datatype Env = Env(
    publicUrl: Option<string>,
    url: Option<string>,
    publicAnonKey: Option<string>,
    anonKey: Option<string>)

  /** The relay request: target, Authorization header, JSON body. */
  datatype Outbound = Outbound(targetUrl: string, authorization: string, body: Value)

  /** What the upstream call gives back: a reply, or the error fetch throws. */
  datatype Upstream = Reply(status: int, text: string) | NetworkError(message: string)

  datatype Response = Response(status: int, body: Value)

  const MinMessageLength: int := 5
  const MinFillMs: int := 3000
  const FunctionPath: string := "/functions/v1/contact-email"

  const SpamDetected: string := "Spam detected"
  const TooManyRequests: string := "Too many requests. Please try again later."
  const FieldsRequired: string := "Email and message are required"
  const InvalidEmail: string := "Please enter a valid email address"
  const MessageTooShort: string := "Message is too short"
  const TooQuick: string := "Form submitted too quickly"
  const MissingConfig: string := "Missing Supabase configuration on server"
  const SendFailed: string := "Failed to send message"
  const Unauthorized: string :=
    "Unauthorized calling Supabase function. Check NEXT_PUBLIC_SUPABASE_ANON_KEY and function JWT settings."
  const NotFoundPrefix: string := "Supabase function 'contact-email' not found at "
  const NotFoundSuffix: string :=
    ". Verify your SUPABASE URL points to the project where the function is deployed."
  /** The message of the TypeError JSON.stringify throws on a BigInt. */
  const BigIntError: string := "Do not know how to serialize a BigInt"

  /** JavaScript truthiness of an optional string: present and not empty. */
  predicate Truthy(s: Option<string>)
  {
    s.Some? && s.value != ""
  }

  function Reject(status: int, message: string): Response
  {
    Response(status, ErrorBody(message))
  }

  /**
   * `getClientIp`: the first comma-separated entry of x-forwarded-for when that
   * header is non-empty, else x-real-ip when non-empty, both trimmed; else
   * "unknown".
   */
  function ClientIp(h: Headers): (ip: string)
    ensures Truthy(h.forwardedFor) ==> ip == Trim(FirstSegment(h.forwardedFor.value))
    ensures !Truthy(h.forwardedFor) && Truthy(h.realIp) ==> ip == Trim(h.realIp.value)
    ensures !Truthy(h.forwardedFor) && !Truthy(h.realIp) ==> ip == "unknown"
  {
    if Truthy(h.forwardedFor) then Trim(FirstSegment(h.forwardedFor.value))
    else if Truthy(h.realIp) then Trim(h.realIp.value)
    else "unknown"
  }

  /**
   * The resolved address never has white space at either end, and one taken
   * from x-forwarded-for holds no comma.
   */
  lemma ClientIpIsTight(h: Headers)
    ensures Tight(ClientIp(h))
    ensures Truthy(h.forwardedFor) ==> ',' !in ClientIp(h)
  {
    if Truthy(h.forwardedFor) {
      TrimKeepsOut(FirstSegment(h.forwardedFor.value), ',');
    }
  }

  /** `hp && hp.trim().length > 0`: the hidden field holds something other than white space. */
  function IsHoneypotHit(hp: Option<string>): (hit: bool)
    ensures hit <==> hp.Some? && !AllSpace(hp.value)
  {
    Truthy(hp) && |Trim(hp.value)| > 0
  }

  /** `!startedAt || now - startedAt < 3000`: no start time, a zero one, or under 3 s ago. */
  function SubmittedTooQuickly(startedAt: Option<int>, now: int): (quick: bool)
    ensures !quick <==> startedAt.Some? && startedAt.value != 0 && startedAt.value <= now - MinFillMs
  {
    startedAt.None? || startedAt.value == 0 || now - startedAt.value < MinFillMs
  }

  /** `first || second`, then the route's own truthiness test. */
  function Setting(first: Option<string>, second: Option<string>): (r: Option<string>)
    ensures r.Some? <==> Truthy(first) || Truthy(second)
    ensures r.Some? ==> r.value != "" && r.value == (if Truthy(first) then first.value else second.value)
  {
    if Truthy(first) then first else if Truthy(second) then second else None
  }

  /**
   * `JSON.stringify({ name, email, message })` as a value: only those three
   * keys, a missing name left out as JSON.stringify leaves out undefined.
   */
  function RelayBody(name: Option<string>, email: string, message: string): (v: Value)
    ensures v.Obj?
    ensures Get(v.fields, "email") == Some(Str(email))
    ensures Get(v.fields, "message") == Some(Str(message))
    ensures Get(v.fields, "name") == (if name.Some? then Some(Str(name.value)) else None)
    ensures forall i | 0 <= i < |v.fields| :: v.fields[i].0 in ["name", "email", "message"]
  {
    var tail := [("email", Str(email)), ("message", Str(message))];
    assert tail[1..] == [("message", Str(message))];
    assert Get(tail, "message") == Some(Str(message));
    if name.Some? then
      var fields := [("name", Str(name.value))] + tail;
      assert fields[1..] == tail;
      assert Get(fields, "message") == Get(tail, "message");
      Obj(fields)
    else Obj(tail)
  }

  /** Every check after the rate limit passes for `req` at `now`. */
  predicate PassesChecks(req: ContactRequestBody, now: int)
  {
    && Truthy(req.email) && Truthy(req.message)
    && IsValidEmail(req.email.value)
    && Utf16Length(Trim(req.message.value)) >= MinMessageLength
    && !SubmittedTooQuickly(req.startedAt, now)
  }

  /**
   * The checks that follow the rate limit, in the route's order; the first
   * that fails decides the answer. When all pass, the relay request.
   */
  function Validate(req: ContactRequestBody, now: int, env: Env): (r: Result<Outbound, Response>)
    ensures r == Failure(Reject(400, FieldsRequired)) <==>
      !Truthy(req.email) || !Truthy(req.message)
    ensures r == Failure(Reject(400, InvalidEmail)) <==>
      Truthy(req.email) && Truthy(req.message) && !IsValidEmail(req.email.value)
    ensures r == Failure(Reject(400, MessageTooShort)) <==>
      && Truthy(req.email) && Truthy(req.message) && IsValidEmail(req.email.value)
      && Utf16Length(Trim(req.message.value)) < MinMessageLength
    ensures r == Failure(Reject(400, TooQuick)) <==>
      && Truthy(req.email) && Truthy(req.message) && IsValidEmail(req.email.value)
      && Utf16Length(Trim(req.message.value)) >= MinMessageLength
      && SubmittedTooQuickly(req.startedAt, now)
    ensures r == Failure(Reject(500, MissingConfig)) <==>
      PassesChecks(req, now) && (Setting(env.publicUrl, env.url).None? || Setting(env.publicAnonKey, env.anonKey).None?)
    ensures r.Success? <==>
      PassesChecks(req, now) && Setting(env.publicUrl, env.url).Some? && Setting(env.publicAnonKey, env.anonKey).Some?
    ensures r.Failure? ==> r.error.status == 400 || r.error.status == 500
    ensures r.Success? ==>
      && r.value.targetUrl == Setting(env.publicUrl, env.url).value + FunctionPath
      && r.value.authorization == "Bearer " + Setting(env.publicAnonKey, env.anonKey).value
      && r.value.body == RelayBody(req.name, req.email.value, req.message.value)
  {
    if !Truthy(req.email) || !Truthy(req.message) then Failure(Reject(400, FieldsRequired))
    else if !IsValidEmail(req.email.value) then Failure(Reject(400, InvalidEmail))
    else if Utf16Length(Trim(req.message.value)) < MinMessageLength then Failure(Reject(400, MessageTooShort))
    else if SubmittedTooQuickly(req.startedAt, now) then Failure(Reject(400, TooQuick))
    else
      var url := Setting(env.publicUrl, env.url);
      var key := Setting(env.publicAnonKey, env.anonKey);
      if url.None? || key.None? then Failure(Reject(500, MissingConfig))
      else Success(Outbound(url.value + FunctionPath, "Bearer " + key.value,
                            RelayBody(req.name, req.email.value, req.message.value)))
  }

  /** `upstreamResponse.ok`. */
  predicate IsOk(status: int)
  {
    200 <= status < 300
  }

  /** The upstream text as JSON, or `{ raw: text }` when it does not parse. */
  function ParseOrRaw(text: string, parse: string -> Option<Value>): (v: Value)
    ensures parse(text).Some? ==> v == parse(text).value
    ensures parse(text).None? ==> v.Obj? && Get(v.fields, "raw") == Some(Str(text))
  {
    match parse(text)
    case Some(v) => v
    case None => Obj([("raw", Str(text))])
  }

  /**
   * The friendly message for a failed relay, by precedence: 404 names the
   * target, 401 and 403 blame the key, then the body's own `error` (kept if a
   * string, stringified if not), then the generic text. None when the
   * stringification throws.
   */
  function Friendly(status: int, targetUrl: string, body: Value): (r: Option<string>)
    ensures status == 404 ==> r == Some(NotFoundPrefix + targetUrl + NotFoundSuffix)
    ensures status == 401 || status == 403 ==> r == Some(Unauthorized)
    ensures status != 404 && status != 401 && status != 403 ==>
      r == (if !HasError(body) then Some(SendFailed)
            else match Get(body.fields, "error").value
              case Str(s) => Some(s)
              case err => Stringify(err))
    ensures r.None? <==>
      status != 404 && status != 401 && status != 403 && HasError(body)
      && ContainsBigInt(Get(body.fields, "error").value)
  {
    if status == 404 then Some(NotFoundPrefix + targetUrl + NotFoundSuffix)
    else if status == 401 || status == 403 then Some(Unauthorized)
    else if HasError(body) then
      match Get(body.fields, "error").value
      case Str(s) => Some(s)
      case err => Stringify(err)
    else Some(SendFailed)
  }

  /** The 404 message contains the target URL it was sent to. */
  lemma NotFoundMessageNamesTarget(targetUrl: string, body: Value)
    ensures var m := Friendly(404, targetUrl, body).value;
      && |m| == |NotFoundPrefix| + |targetUrl| + |NotFoundSuffix|
      && m[|NotFoundPrefix|..|NotFoundPrefix| + |targetUrl|] == targetUrl
      && m[|m| - |NotFoundSuffix|..] == NotFoundSuffix
  {
    var m := Friendly(404, targetUrl, body).value;
    assert m == NotFoundPrefix + targetUrl + NotFoundSuffix;
  }

  /**
   * The answer made from the upstream reply: a 2xx body passes through with
   * status 200; any other status is mirrored with `{ error, status }`; a
   * thrown error becomes a 500 with its message.
   */
  function Normalize(targetUrl: string, reply: Upstream, parse: string -> Option<Value>): (resp: Response)
    ensures reply.NetworkError? ==> resp == Reject(500, reply.message)
    ensures reply.Reply? && IsOk(reply.status) ==> resp == Response(200, ParseOrRaw(reply.text, parse))
    ensures reply.Reply? && !IsOk(reply.status) ==>
      match Friendly(reply.status, targetUrl, ParseOrRaw(reply.text, parse))
      case Some(f) => resp == Response(reply.status, Obj([("error", Str(f)), ("status", Num(reply.status))]))
      case None => resp == Reject(500, BigIntError)
    ensures resp.status == 200 ==> reply.Reply? && IsOk(reply.status)
  {
    match reply
    case NetworkError(message) => Reject(500, message)
    case Reply(status, text) =>
      var body := ParseOrRaw(text, parse);
      if IsOk(status) then Response(200, body)
      else match Friendly(status, targetUrl, body)
        case Some(f) => Response(status, Obj([("error", Str(f)), ("status", Num(status))]))
        case None => Reject(500, BigIntError)
  }

  /**
   * The whole handler: the answer and the limiter's new store. `body` is the
   * parsed request or the message of the parse error; `upstream` answers the
   * relay request; `parse` is JSON.parse.
   */
  function Handle(body: Result<ContactRequestBody, string>, headers: Headers, now: int, env: Env,
                  store: Store, upstream: Outbound -> Upstream, parse: string -> Option<Value>)
    : (res: (Response, Store))
    ensures body.Failure? ==> res == (Reject(500, body.error), store)
    ensures body.Success? && IsHoneypotHit(body.value.hp) ==> res == (Reject(400, SpamDetected), store)
    ensures body.Success? && !IsHoneypotHit(body.value.hp) ==>
      var (store', v) := Check(store, ClientIp(headers), now);
      && res.1 == store'
      && (v.limited ==> res.0 == Reject(429, TooManyRequests))
      && (!v.limited ==> match Validate(body.value, now, env)
            case Failure(rejection) => res.0 == rejection
            case Success(out) => res.0 == Normalize(out.targetUrl, upstream(out), parse))
  {
    match body
    case Failure(message) => (Reject(500, message), store)
    case Success(req) =>
      if IsHoneypotHit(req.hp) then (Reject(400, SpamDetected), store)
      else
        var (store', v) := Check(store, ClientIp(headers), now);
        if v.limited then (Reject(429, TooManyRequests), store')
        else match Validate(req, now, env)
          case Failure(rejection) => (rejection, store')
          case Success(out) => (Normalize(out.targetUrl, upstream(out), parse), store')
  }

  /** A filled honeypot is refused whatever else the request holds, and uses no quota. */
  lemma HoneypotConsumesNoQuota(req: ContactRequestBody, headers: Headers, now: int, env: Env,
                                store: Store, upstream: Outbound -> Upstream, parse: string -> Option<Value>)
    requires req.hp.Some? && !AllSpace(req.hp.value)
    ensures Handle(Success(req), headers, now, env, store, upstream, parse) == (Reject(400, SpamDetected), store)
  {
  }

  /** Past the honeypot, every request is counted, including those later refused as invalid. */
  lemma InvalidRequestsConsumeQuota(req: ContactRequestBody, headers: Headers, now: int, env: Env,
                                    store: Store, upstream: Outbound -> Upstream, parse: string -> Option<Value>)
    requires !IsHoneypotHit(req.hp)
    ensures Handle(Success(req), headers, now, env, store, upstream, parse).1
         == Check(store, ClientIp(headers), now).0
  {
  }

  /** The client sees status 200 only when every check passed and the upstream answered 2xx. */
  lemma AcceptedOnlyAfterEveryCheck(body: Result<ContactRequestBody, string>, headers: Headers, now: int, env: Env,
                                    store: Store, upstream: Outbound -> Upstream, parse: string -> Option<Value>)
    ensures Handle(body, headers, now, env, store, upstream, parse).0.status == 200 ==>
      && body.Success? && !IsHoneypotHit(body.value.hp)
      && !Check(store, ClientIp(headers), now).1.limited
      && PassesChecks(body.value, now)
      && Validate(body.value, now, env).Success?
      && var reply := upstream(Validate(body.value, now, env).value);
         reply.Reply? && IsOk(reply.status)
  {
  }

  /** The route's process-wide state: its rate limiter. */
  class ContactRoute {
    const limiter: RateLimiter

    constructor ()
      ensures fresh(limiter) && limiter.store == map[]
    {
      limiter := new RateLimiter();
    }

    /** `POST`, with the clock, environment, upstream call and JSON.parse as inputs. */
    method Post(body: Result<ContactRequestBody, string>, headers: Headers, now: int, env: Env,
                upstream: Outbound -> Upstream, parse: string -> Option<Value>)
      returns (resp: Response)
      modifies limiter
      ensures (resp, limiter.store) == Handle(body, headers, now, env, old(limiter.store), upstream, parse)
    {
      if body.Failure? {
        return Reject(500, body.error);
      }
      var req := body.value;
      if IsHoneypotHit(req.hp) {
        return Reject(400, SpamDetected);
      }
      var ip := ClientIp(headers);
      var rl := limiter.IsRateLimited(ip, now);
      if rl.limited {
        return Reject(429, TooManyRequests);
      }
      var checked := Validate(req, now, env);
      if checked.Failure? {
        return checked.error;
      }
      var out := checked.value;
      resp := Normalize(out.targetUrl, upstream(out), parse);
    }
  }
}
