/**
  What the form sends and how the answer is read: the JSON body of the POST,
  the mapping from an HTTP status and the server's optional `message` to an
  outcome, and the text of the popup shown afterwards.
 */
module Submission {
  import opened Wrappers
  import opened Text
  import opened Rules

  /** The tag every request carries in its `source` field. */
  const SourceTag := "website_contact_form"

  /** The JSON body `{name, email, message, source}`. */
  datatype Payload = Payload(name: string, email: string, message: string, source: string)

  /** The body is built from the trimmed field values and the fixed tag. */
  function BuildPayload(name: string, email: string, message: string): (p: Payload)
    ensures p.source == SourceTag
  {
    Payload(Trim(name), Trim(email), Trim(message), SourceTag)
  }

  /** For a form that passed validation, every field of the body is non-empty and free of
      surrounding white space, and the email is sent exactly as typed. */
  lemma ValidFormPayload(name: string, email: string, message: string)
    requires ValidName(name) && ValidEmail(email) && ValidMessage(message)
    ensures var p := BuildPayload(name, email, message);
      && p.name != [] && p.email != [] && p.message != []
      && !IsSpace(p.name[0]) && !IsSpace(p.name[|p.name| - 1])
      && !IsSpace(p.message[0]) && !IsSpace(p.message[|p.message| - 1])
      && !IsSpace(p.email[0]) && !IsSpace(p.email[|p.email| - 1])
      && p.email == email
      && p.source == SourceTag
  {
    TrimNotBlank(name);
    TrimNotBlank(message);
    EmailShapeHasNoSpace(email);
    TrimUnchanged(email);
  }

  /** Padding counts toward the length rule but is trimmed off before sending,
      so an accepted name can reach the server shorter than five characters. */
  lemma PaddedNameSentShort()
    ensures NameError("  ab ") == ""
    ensures BuildPayload("  ab ", "a@b.c", "Hello").name == "ab"
  {
    NamePaddedExample();
    var v := "  ab ";
    TrimBetween(v, 2, 4);
    assert v[2..4] == "ab";
  }

  // ---------------------------------------------------------------------
  // Response classification

  const ValidationFallback := "Validation error"
  const RateLimited := "Too many requests. Please try again later."
  const ServerFallback := "Server error"
  const TransportFallback := "Failed to send message. Please try again."

  /** What the request yields: a parsed response (its status and the `message` field of its
      JSON body, if any), or a rejection (the network failed or the body was not JSON)
      carrying the error's message text. */
  datatype Reply = Response(status: int, message: Option<string>) | Rejected(error: string)

  datatype Outcome = Delivered | Failed(reason: string)

  /** `data.message || fallback`: the server's message when present and non-empty. */
  function MessageOr(message: Option<string>, fallback: string): (r: string)
    ensures message.Some? && message.value != "" ==> r == message.value
    ensures message == None || message == Some("") ==> r == fallback
  {
    if message.Some? && message.value != "" then message.value else fallback
  }

  /** The status branch of the first continuation. */
  function Classify(status: int, message: Option<string>): (o: Outcome)
    ensures o.Delivered? <==> status == 200 || status == 201
    ensures o.Failed? ==> o.reason != ""
  {
    if status == 200 || status == 201 then Delivered
    else if status == 400 then Failed(MessageOr(message, ValidationFallback))
    else if status == 429 then Failed(RateLimited)
    else Failed(MessageOr(message, ServerFallback))
  }

  /** A rejected request skips the status branch and arrives at the error handler. */
  function Resolve(reply: Reply): (o: Outcome)
  {
    match reply
    case Response(status, message) => Classify(status, message)
    case Rejected(error) => Failed(error)
  }

  datatype Popup = SuccessPopup | ErrorPopup(text: string)

  /** The popup the handlers show: success, or the failure's message with a generic fallback. */
  function PopupFor(o: Outcome): (p: Popup)
    ensures p.SuccessPopup? <==> o.Delivered?
    ensures p.ErrorPopup? ==> p.text != ""
  {
    match o
    case Delivered => SuccessPopup
    case Failed(reason) => ErrorPopup(if reason == "" then TransportFallback else reason)
  }

  /** 400 shows the server's message, or "Validation error" when it gave none. */
  lemma BadRequestOutcome(message: Option<string>)
    ensures message.Some? && message.value != "" ==> Classify(400, message) == Failed(message.value)
    ensures message == None || message == Some("") ==> Classify(400, message) == Failed(ValidationFallback)
  {
  }

  /** 429 always gives the fixed rate-limit text, whatever the server said. */
  lemma RateLimitIgnoresServer(m1: Option<string>, m2: Option<string>)
    ensures Classify(429, m1) == Classify(429, m2) == Failed(RateLimited)
  {
  }

  /** Any other non-success status shows the server's message, or "Server error". */
  lemma OtherStatusOutcome(status: int, message: Option<string>)
    requires status != 200 && status != 201 && status != 400 && status != 429
    ensures Classify(status, message) == Failed(MessageOr(message, ServerFallback))
    ensures message == None || message == Some("") ==> Classify(status, message) == Failed(ServerFallback)
  {
  }

  /** For every answer the server gives, the popup says exactly what classification decided:
      the generic "Failed to send" text is reached only by a rejected request. */
  lemma ResponsePopupIsClassification(status: int, message: Option<string>)
    ensures PopupFor(Resolve(Response(status, message))) ==
      match Classify(status, message)
      case Delivered => SuccessPopup
      case Failed(reason) => ErrorPopup(reason)
  {
  }
}
