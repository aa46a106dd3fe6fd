# Contact-submission gate, modelled in Dafny

This project models the contact pipeline of a portfolio site. The site's
contact modal posts a form to `POST /api/contact`. That route applies these
checks in order:

- a honeypot field;
- a fixed-window rate limit per client address (5 requests per 10 minutes);
- required fields and the email shape;
- the message length;
- a minimum time-on-form of 3 seconds;
- the server configuration.

If all pass, the route relays name, email and message to an upstream
`contact-email` function. It turns the upstream's answer into a 200
pass-through or into a friendly `{ error, status }`. Back in the browser,
the modal reads the error, shows a toast, and either clears the form and
closes the modal (success) or keeps everything as it was (failure).

Modules:

- `Wrappers`: Option and Result.
- `Text`: JavaScript white space, `trim`, the first `split(",")` part, and UTF-16 `length`.
- `Values`: the JavaScript values the pipeline parses, and `JSON.stringify`.
- `RateLimit`: the limiter. `Check` is the specification function; the class `RateLimiter` holds the store and updates it in place.
- `Email`: the email pattern stated by positions, and the scan that decides it.
- `ContactRoute`: the route. `Handle` is the decision function; the class `ContactRoute` owns the limiter and its `Post` method follows `Handle`.
- `ModalHook`: the open/close hook.
- `ContactForm`: the modal's body assembly, error extraction and submit transitions.
- `Submission`: lemmas that connect the client and the route.

The clock (`now`), the environment variables, the upstream call
(`upstream: Outbound -> Upstream`) and `JSON.parse` (`parse`) are inputs.
Three details follow the code's JavaScript semantics:

- a `startedAt` of 0 is rejected as "too quickly", because it is falsy;
- the message length counts UTF-16 code units;
- an `error` field holding the empty string falls back to "Failed to send message" on the client.

## Model

| member | source | states |
|---|---|---|
| `Text.Trim` | app/api/contact/route.ts:22 | `trim` leaves no white space at either end, and gives "" exactly for an all-white-space input |
| `Text.TrimOfPadded` | app/api/contact/route.ts:24 | trimming white-space padding off a value that is tight at both ends gives that value back, so `Trim` is determined by its meaning |
| `Text.TrimKeepsOut` | app/api/contact/route.ts:22 | trimming introduces no character absent from the input |
| `Text.FirstSegment` | app/api/contact/route.ts:22 | `split(",")[0]` is a comma-free prefix that ends at the first comma or at the end of the input |
| `Text.Utf16Length` | app/api/contact/route.ts:80 | JavaScript `length` lies between the number of code points and twice that |
| `Values.Get` | app/api/contact/route.ts:136-137 | an object lookup finds a value exactly when some field has the key, and the value is that field's |
| `Values.HasError` | app/api/contact/route.ts:162-164 | an answer carries an error exactly when it is an object with some field named `error` |
| `Values.Stringify` | app/api/contact/route.ts:138 | `JSON.stringify` throws exactly on values that hold a BigInt, and otherwise never yields the empty text |
| `RateLimit.Check` | app/api/contact/route.ts:28-41 | a fresh or expired window (strictly more than 600000 ms) restarts at count 1 with 4 left; a full window refuses with 0 left and leaves the store unchanged; otherwise the count rises by exactly 1 with 5 minus the new count left; no other address's entry changes |
| `RateLimit.CheckKeepsCountsInRange` | app/api/contact/route.ts:31-40 | every stored count stays in 1..5 and `remaining` in 0..4 |
| `RateLimit.RunInsideWindow` | app/api/contact/route.ts:35-40 | starting from an entry with count c, call i inside the window is refused exactly when c + i reaches 5; the entry ends at min(5, c + calls) with its window start kept |
| `RateLimit.SixthCallInWindowIsLimited` | app/api/contact/route.ts:12-41 | from an empty store, calls 1 to 5 inside one window are admitted with 4, 3, 2, 1, 0 left, and the sixth and later calls are refused |
| `RateLimit.ExpiredWindowResets` | app/api/contact/route.ts:31-33 | after the window has run out, the entry restarts at count 1 however full it was |
| `RateLimit.RateLimiter.constructor` | app/api/contact/route.ts:16-18 | the process-wide store starts empty |
| `RateLimit.RateLimiter.IsRateLimited` | app/api/contact/route.ts:28-41 | the in-place map update leaves exactly the store and verdict that `Check` gives |
| `Email.IndexOf` | app/api/contact/route.ts:44 | the position of the first occurrence of a character, or the length when there is none |
| `Email.ValidEmailMatchesPattern` | app/api/contact/route.ts:44 | every address the scan accepts matches `^[^\s@]+@[^\s@]+\.[^\s@]+$` |
| `Email.PatternIsValidEmail` | app/api/contact/route.ts:44 | every string matching the pattern is accepted by the scan |
| `Email.IsValidEmail` | app/api/contact/route.ts:43-45 | an accepted address has at least five characters and neither starts nor ends with `@` |
| `Email.IsValidEmailMatchesPattern` | app/api/contact/route.ts:43-45 | `isValidEmail` holds if and only if the pattern matches |
| `Email.ValidEmailHasOneAt` | app/api/contact/route.ts:43-45 | a valid address has exactly one `@`, and it is not the first character |
| `ContactRoute.ClientIp` | app/api/contact/route.ts:20-26 | a non-empty x-forwarded-for wins, and its first comma-separated entry is trimmed; else a non-empty x-real-ip, trimmed; else "unknown" |
| `ContactRoute.ClientIpIsTight` | app/api/contact/route.ts:20-26 | the resolved address never has white space at either end, and one taken from x-forwarded-for holds no comma |
| `ContactRoute.IsHoneypotHit` | app/api/contact/route.ts:52 | the honeypot trips exactly when `hp` is present and holds something other than white space |
| `ContactRoute.SubmittedTooQuickly` | app/api/contact/route.ts:88 | the time-on-form check passes exactly when `startedAt` is present, non-zero and at least 3000 ms old (exactly 3000 passes) |
| `ContactRoute.Setting` | app/api/contact/route.ts:95-100 | the public variable is used when non-empty, else the private one; the setting is missing only when both are empty or absent |
| `ContactRoute.RelayBody` | app/api/contact/route.ts:116 | the relay body holds only name, email and message; a missing name is left out |
| `ContactRoute.Validate` | app/api/contact/route.ts:66-118 | after the rate limit: missing email or message, then invalid email, then trimmed message under 5 units, then too quick, then missing configuration (500); the first failing check decides; when all pass, the relay goes to `{url}/functions/v1/contact-email` with `Bearer {key}` |
| `ContactRoute.ParseOrRaw` | app/api/contact/route.ts:120-126 | an upstream body that is not JSON becomes `{ raw: text }` |
| `ContactRoute.Friendly` | app/api/contact/route.ts:129-139 | 404 names the target URL; 401 and 403 give the fixed unauthorized text; otherwise the body's `error`, kept if a string and stringified if not; else "Failed to send message"; None exactly when the stringification throws |
| `ContactRoute.NotFoundMessageNamesTarget` | app/api/contact/route.ts:130-132 | the 404 message holds the target URL, followed by the advice to verify the project where the function is deployed |
| `ContactRoute.Normalize` | app/api/contact/route.ts:120-159 | a 2xx reply passes its parsed body through with status 200; any other status is mirrored with `{ error, status }`; a thrown error (network, BigInt stringification) becomes a 500 with its message |
| `ContactRoute.Handle` | app/api/contact/route.ts:47-160 | an unparsable body gives a 500; a honeypot hit gives 400 "Spam detected" before the limiter is consulted; then the limiter, with 429 when refused; then `Validate`, then the relay and `Normalize` |
| `ContactRoute.HoneypotConsumesNoQuota` | app/api/contact/route.ts:52-58 | a filled honeypot is refused whatever else the request holds, and leaves the limiter's store unchanged |
| `ContactRoute.InvalidRequestsConsumeQuota` | app/api/contact/route.ts:56-71 | past the honeypot, every request updates the limiter, including those later refused as invalid |
| `ContactRoute.AcceptedOnlyAfterEveryCheck` | app/api/contact/route.ts:47-154 | status 200 reaches the client only when every check passed and the upstream answered 2xx |
| `ContactRoute.ContactRoute.constructor` | app/api/contact/route.ts:16-18 | the route starts with a fresh, empty limiter |
| `ContactRoute.ContactRoute.Post` | app/api/contact/route.ts:47-160 | the handler's answer and the limiter's new store are exactly those `Handle` gives |
| `ModalHook.Initial` | hooks/useContactModal.ts:7-8 | the modal starts closed with no start time |
| `ModalHook.Open` | hooks/useContactModal.ts:10-13 | opening sets the modal open and the start time to `now` |
| `ModalHook.Close` | hooks/useContactModal.ts:15-18 | closing sets the modal closed and the start time to null |
| `ModalHook.TransitionsKeepConsistent` | hooks/useContactModal.ts:6-18 | a start time is recorded exactly while the modal is open, initially and after either transition |
| `ModalHook.CloseIsIdempotent` | hooks/useContactModal.ts:15-18 | closing twice gives the same state as closing once |
| `ModalHook.ReopenRestartsClock` | hooks/useContactModal.ts:10-13 | opening again keeps only the latest opening time |
| `ModalHook.ModalState.constructor` | hooks/useContactModal.ts:7-8 | the hook's fields start in the initial state |
| `ModalHook.ModalState.OpenModal` | hooks/useContactModal.ts:10-13 | the fields become `Open` of their old values |
| `ModalHook.ModalState.CloseModal` | hooks/useContactModal.ts:15-18 | the fields become `Close` of their old values |
| `ContactForm.StartedAt` | components/ContactModal.tsx:36 | `startedAt` is the opening time when it is present and non-zero, else the current time |
| `ContactForm.HoneypotValue` | components/ContactModal.tsx:35 | `hp` is the hidden input's value, or "" when the input is not in the page |
| `ContactForm.BuildBody` | components/ContactModal.tsx:31-37 | the posted body carries the three fields unchanged, the honeypot value and `startedAt` |
| `ContactForm.ExtractErrorMessage` | components/ContactModal.tsx:62-77 | a string `error` is returned unchanged; a non-string one as its JSON text, or undefined when stringification throws; undefined for anything without an `error` key |
| `ContactForm.FailureMessage` | components/ContactModal.tsx:40-44 | the thrown message is the extracted message when that is non-empty, and "Failed to send message" when there is none or it is empty |
| `ContactForm.FallbackOnlyWithoutUsableError` | components/ContactModal.tsx:40-77 | the thrown message is "Failed to send message" when the body has no `error` key, an empty-string `error`, or one that cannot be stringified; otherwise it is the error string itself, or the JSON text of a non-string error |
| `ContactForm.SuccessToastAsWrittenShowsEntity` | components/ContactModal.tsx:48 | the success toast as written shows the six characters `&apos;` where an apostrophe belongs, and contains no apostrophe |
| `ContactForm.SuccessToast` | components/ContactModal.tsx:48 | the intended toast is the written one with the entity replaced by an apostrophe, and has no `&` |
| `ContactForm.Outcome` | components/ContactModal.tsx:40-56 | success exactly for an ok answer; otherwise "Unable to send message. " followed by the extracted or fallback message, or by the fetch error's message |
| `ContactForm.ContactForm.constructor` | components/ContactModal.tsx:16-19 | the fields start empty and the form is not submitting |
| `ContactForm.ContactForm.BeginSubmit` | components/ContactModal.tsx:24-38 | the form becomes submitting, keeps its fields, and posts `BuildBody` of them |
| `ContactForm.ContactForm.FinishSubmit` | components/ContactModal.tsx:40-59 | on success the modal is closed and all three fields are cleared; on failure neither the fields nor the modal change; in every case `isSubmitting` ends false |
| `Submission.Received` | app/api/contact/route.ts:49 | the route receives every field the client posted |
| `Submission.OpenToSubmitTiming` | components/ContactModal.tsx:36 | a form opened at t0 and checked at t2 passes the time-on-form check exactly when t2 - t0 >= 3000 |
| `Submission.ReopenRestartsTiming` | hooks/useContactModal.ts:10-13 | after re-opening at t0', the time-on-form is measured from t0' |
| `Submission.UntouchedHoneypotPasses` | components/ContactModal.tsx:35 | a page whose honeypot input is absent or empty never trips the route's spam check |
| `Submission.PostRun` | app/api/contact/route.ts:47-64 | a run of posts yields one answer per post |
| `Submission.PostRunFollowsLimiter` | app/api/contact/route.ts:52-64 | posts without a honeypot hit leave the limiter in the state a run of checks leaves; a refused check answers 429, and an admitted post goes on to the field checks and the relay |
| `Submission.SixthPostInWindowIsRefused` | app/api/contact/route.ts:56-71 | from a fresh limiter, the first five posts from one address inside one window reach the field checks, valid or not, and every later one gets 429 |

## Left out

- Concurrency: overlapping requests racing on the shared store are not modelled. The route runs one request at a time.
- Persistence: the store's `globalThis` hot-reload persistence (app/api/contact/route.ts:16-18) is not modelled. The store belongs to one `ContactRoute` object.
- Clock: `Date.now()` is a `now` parameter. The route's two clock reads (the limiter and the time-on-form check) are modelled as one reading.
- Upstream call: `fetch` to the upstream function is the `upstream` parameter. The request method and the `Content-Type` header are not modelled. A thrown fetch error is modelled only by its message.
- JSON.parse: it is the `parse` parameter. A request body whose fields have other JSON types (a numeric `hp` makes `trim` throw, giving a 500) is not modelled. The model types the fields as in `ContactRequestBody`.
- Numbers: they are integers. Floating-point numbers, NaN and `Number()` conversion of `startedAt` are left out.
- JSON.stringify on cyclic objects is left out, because parsed JSON is never cyclic. BigInt stands for the values it throws on.
- Repeated request headers, which `headers.get` joins with ", ", are not modelled. Each header is one optional string.
- Side channels: `console.error` logging, the loading toast, and `toast.dismiss` are left out. The final toast is returned as a `Notice` value.
- `handleSubmit` is split at its `await` into `BeginSubmit` and `FinishSubmit`. `e.preventDefault()` is left out.
- The inputs' `onChange` setters, rendering (`if (!isOpen) return null`) and the Escape-key handler in app/page.tsx are not modelled. They only assign a field or draw the page.
- ContactForm.Outcome: the success notice (and so `FinishSubmit`'s) is the intended text `SuccessToast`, not the `&apos;` literal the component renders; the as-written text is `SuccessToastAsWritten` (see Findings).
- BigInt branches: `JSON.parse` never yields a BigInt, so the `None`/500 path of `Friendly` and `Normalize` and the `undefined` branch of `ExtractErrorMessage` cannot be reached in the running program. They are kept because the model's `parse` may return any `Value`.
- Duplicate keys: `parse` is assumed to yield objects with unique keys. `Get` takes the first field with a key, whereas `JSON.parse` keeps the last.
- Client and server clocks: `Submission.OpenToSubmitTiming` treats the browser's `Date.now()` (hooks/useContactModal.ts:12) and the server's (app/api/contact/route.ts:88) as one clock. Clock skew between them is not modelled.
- Theme handling, the presentational components and lib/constants.ts are not part of this model.

## Findings

| source | as written | input that shows it | evidently intended | confidence | as-written member | corrected member |
|---|---|---|---|---|---|---|
| components/ContactModal.tsx:48 | the success toast text is a plain JavaScript string holding the HTML entity `&apos;`; it is not JSX, so the entity is not decoded | any submission the route accepts: the toast reads "Message sent! I&apos;ll get back to you within 24 hours." | "Message sent! I'll get back to you within 24 hours." | high; not executed | `ContactForm.SuccessToastAsWrittenShowsEntity` | `ContactForm.SuccessToast` |
