/**
 * The client side of the contact form: the request body it posts, how it
 * reads an error answer, and what a finished submission does to the form
 * fields, the submitting flag and the modal.
 */
module ContactForm {
  import opened Wrappers
  import opened Values
  import opened ModalHook

  /** The JSON body posted to `/api/contact`. */
  datatype SubmitBody = SubmitBody(name: string, email: string, message: string, hp: string, startedAt: int)

  /** The answer to the post: a status with its body (None when it is not JSON), or the error fetch throws. */
  datatype ClientReply = Answered(ok: bool, body: Option<Value>) | FetchFailed(message: string)

  /** The toast a finished submission shows. */
  datatype Notice = Sent(text: string) | Failed(text: string)

  const SendFailed: string := "Failed to send message"
  const FailurePrefix: string := "Unable to send message. "

  /** `formStart || Date.now()`: the opening time, unless it is missing or zero. */
  function StartedAt(formStart: Option<int>, now: int): (t: int)
    ensures formStart.Some? && formStart.value != 0 ==> t == formStart.value
    ensures formStart.None? || formStart.value == 0 ==> t == now
  {
    if formStart.Some? && formStart.value != 0 then formStart.value else now
  }

  /** `input?.value || ""`: the hidden field's text, or "" when the field is not in the page. */
  function HoneypotValue(input: Option<string>): (hp: string)
    ensures input.None? ==> hp == ""
    ensures input.Some? ==> hp == input.value
  {
    if input.Some? then input.value else ""
  }

  /** The body `handleSubmit` posts. */
  function BuildBody(name: string, email: string, message: string,
                     honeypotInput: Option<string>, formStart: Option<int>, now: int): (b: SubmitBody)
    ensures b.name == name && b.email == email && b.message == message
    ensures b.hp == HoneypotValue(honeypotInput)
    ensures b.startedAt == StartedAt(formStart, now)
  {
    SubmitBody(name, email, message, HoneypotValue(honeypotInput), StartedAt(formStart, now))
  }

  /**
   * `extractErrorMessage`: for an object with an `error` key, that value if it
   * is a string, else its JSON text (None when stringifying throws); None for
   * anything without an `error` key.
   */
  function ExtractErrorMessage(value: Value): (r: Option<string>)
    ensures !HasError(value) ==> r.None?
    ensures HasError(value) && Get(value.fields, "error").value.Str? ==>
      r == Some(Get(value.fields, "error").value.s)
    ensures HasError(value) && !Get(value.fields, "error").value.Str? ==>
      r == Stringify(Get(value.fields, "error").value)
  {
    if HasError(value) then
      match Get(value.fields, "error").value
      case Str(s) => Some(s)
      case err => Stringify(err)
    else None
  }

  /** What `res.json().catch(() => ({}))` yields: the parsed body, or `{}` when it is not JSON. */
  function ReadBody(body: Option<Value>): (v: Value)
    ensures body.Some? ==> v == body.value
    ensures body.None? ==> v == Obj([]) && !HasError(v)
  {
    if body.Some? then body.value else Obj([])
  }

  /** `msg || "Failed to send message"`: the extracted message when it is non-empty, else the generic text. */
  function FailureMessage(body: Option<Value>): (m: string)
    ensures m != ""
    ensures var msg := ExtractErrorMessage(ReadBody(body));
      msg.Some? && msg.value != "" ==> m == msg.value
    ensures var msg := ExtractErrorMessage(ReadBody(body));
      msg.None? || msg == Some("") ==> m == SendFailed
  {
    match ExtractErrorMessage(ReadBody(body))
    case Some(msg) => if msg != "" then msg else SendFailed
    case None => SendFailed
  }

  /**
   * The thrown message is the generic text whenever the answer has no usable
   * `error` (no JSON body, no `error` key, an empty string, or a value
   * JSON.stringify refuses), and otherwise the error's own text: the string
   * itself, or the JSON text of any other value.
   */
  lemma FallbackOnlyWithoutUsableError(body: Option<Value>)
    ensures var value := ReadBody(body);
      !HasError(value) || Get(value.fields, "error").value == Str("")
      || ContainsBigInt(Get(value.fields, "error").value)
      ==> FailureMessage(body) == SendFailed
    ensures var value := ReadBody(body);
      HasError(value) && Get(value.fields, "error").value != Str("")
      && !ContainsBigInt(Get(value.fields, "error").value)
      ==> FailureMessage(body) == match Get(value.fields, "error").value
            case Str(s) => s
            case err => Stringify(err).value
  {
    var value := ReadBody(body);
    if HasError(value) {
      var err := Get(value.fields, "error").value;
      if !err.Str? {
        assert Stringify(err).Some? ==> Stringify(err).value != "";
      }
    }
  }

  const ToastHead: string := "Message sent! I"
  const ToastTail: string := "ll get back to you within 24 hours."

  /** The success toast as the source spells it: an HTML entity inside a plain string literal. */
  function SuccessToastAsWritten(): string
  {
    ToastHead + "&apos;" + ToastTail
  }

  /** The as-written toast shows the six characters of the entity where the apostrophe belongs, and no apostrophe at all. */
  lemma SuccessToastAsWrittenShowsEntity()
    ensures SuccessToastAsWritten()[|ToastHead|..|ToastHead| + 6] == "&apos;"
    ensures '\'' !in SuccessToastAsWritten()
  {
    var t := SuccessToastAsWritten();
    assert t[|ToastHead|..|ToastHead| + 6] == "&apos;";
    assert '\'' !in ToastHead && '\'' !in ToastTail;
  }

  /** The success toast as intended: the as-written text with the entity replaced by an apostrophe. */
  function SuccessToast(): (t: string)
    ensures |t| == |SuccessToastAsWritten()| - 5 && t[|ToastHead|] == '\''
    ensures '&' !in t
    ensures t[..|ToastHead|] == SuccessToastAsWritten()[..|ToastHead|]
    ensures t[|ToastHead| + 1..] == SuccessToastAsWritten()[|ToastHead| + 6..]
  {
    var t := ToastHead + "'" + ToastTail;
    assert '&' !in ToastHead && '&' !in ToastTail;
    assert t[..|ToastHead|] == ToastHead == SuccessToastAsWritten()[..|ToastHead|];
    assert t[|ToastHead| + 1..] == ToastTail == SuccessToastAsWritten()[|ToastHead| + 6..];
    t
  }

  predicate Succeeded(reply: ClientReply)
  {
    reply.Answered? && reply.ok
  }

  /** The toast for a finished submission: success, or the failure prefix and the error message. */
  function Outcome(reply: ClientReply): (n: Notice)
    ensures Succeeded(reply) <==> n.Sent?
    ensures n.Sent? ==> n.text == SuccessToast()
    ensures reply.Answered? && !reply.ok ==> n == Failed(FailurePrefix + FailureMessage(reply.body))
    ensures reply.FetchFailed? ==> n == Failed(FailurePrefix + reply.message)
  {
    match reply
    case Answered(ok, body) => if ok then Sent(SuccessToast()) else Failed(FailurePrefix + FailureMessage(body))
    case FetchFailed(message) => Failed(FailurePrefix + message)
  }

  /** The modal's form fields and its submitting flag. */
  class ContactForm {
    var formName: string
    var formEmail: string
    var formMessage: string
    var isSubmitting: bool

    constructor ()
      ensures formName == "" && formEmail == "" && formMessage == "" && !isSubmitting
    {
      formName, formEmail, formMessage := "", "", "";
      isSubmitting := false;
    }

    /** The first half of `handleSubmit`: mark the form as submitting and assemble the body. */
    method BeginSubmit(honeypotInput: Option<string>, formStart: Option<int>, now: int) returns (body: SubmitBody)
      modifies this
      ensures isSubmitting
      ensures formName == old(formName) && formEmail == old(formEmail) && formMessage == old(formMessage)
      ensures body == BuildBody(formName, formEmail, formMessage, honeypotInput, formStart, now)
    {
      isSubmitting := true;
      body := SubmitBody(formName, formEmail, formMessage, HoneypotValue(honeypotInput), StartedAt(formStart, now));
    }

    /**
     * The second half, once the answer is in: on success close the modal and
     * clear the fields; on failure leave both alone. Either way the form is
     * no longer submitting.
     */
    method FinishSubmit(reply: ClientReply, modal: ModalState) returns (notice: Notice)
      modifies this, modal
      ensures !isSubmitting
      ensures notice == Outcome(reply)
      ensures Succeeded(reply) ==>
        formName == "" && formEmail == "" && formMessage == "" && modal.View() == Close(old(modal.View()))
      ensures !Succeeded(reply) ==>
        && formName == old(formName) && formEmail == old(formEmail) && formMessage == old(formMessage)
        && modal.View() == old(modal.View())
    {
      if Succeeded(reply) {
        notice := Sent(SuccessToast());
        modal.CloseModal();
        formName, formEmail, formMessage := "", "", "";
      } else if reply.Answered? {
        notice := Failed(FailurePrefix + FailureMessage(reply.body));
      } else {
        notice := Failed(FailurePrefix + reply.message);
      }
      isSubmitting := false;
    }
  }
}
