/**
  The shared `errors` object of the contact form and the operations that
  update it in place: one validator per field, clearing, validating the
  whole form, the submit pass that decides whether a request goes out, and
  the handling of the request's outcome.

  Field values are parameters: reading them from the page is not modelled.
 */
module Form {
  import opened Wrappers
  import opened Text
  import opened Rules
  import opened Submission

  /** The three error slots as one value; "" in a slot means "no error". */
  datatype Errors = Errors(name: string, email: string, message: string)

  const NoErrors := Errors("", "", "")

  /** The slots the validators leave after running on the three values. */
  function ErrorsFor(name: string, email: string, message: string): (e: Errors)
  {
    Errors(NameError(name), EmailError(email), MessageError(message))
  }

  /** The form is error-free exactly when every value passes its own validator. */
  lemma ErrorsForClearIff(name: string, email: string, message: string)
    ensures ErrorsFor(name, email, message) == NoErrors <==>
            ValidName(name) && ValidEmail(email) && ValidMessage(message)
  {
    NameOutcome(name);
    EmailOutcome(email);
    MessageOutcome(message);
  }

  class FormErrors {
    var name: string
    var email: string
    var message: string

    function Current(): (e: Errors)
      reads this
    {
      Errors(name, email, message)
    }

    /** All slots start empty. */
    constructor ()
      ensures Current() == NoErrors
    {
      name, email, message := "", "", "";
    }

    /** `validators.name`: writes the first failing rule's message into the name slot,
        or empties it, and reports whether the value passed. */
    method ValidateName(value: string) returns (valid: bool)
      modifies this
      ensures name == NameError(value)
      ensures valid <==> name == ""
      ensures valid <==> ValidName(value)
      ensures email == old(email) && message == old(message)
    {
      NameOutcome(value);
      name := "";
      if IsBlank(value) {
        name := NameRequired;
        return false;
      }
      if |value| < NameMinLength {
        name := NameTooShort;
        return false;
      }
      if |value| > NameMaxLength {
        name := NameTooLong;
        return false;
      }
      if !MatchesNamePattern(value) {
        name := NameBadChars;
        return false;
      }
      return true;
    }

    /** `validators.email`, on the email slot. */
    method ValidateEmail(value: string) returns (valid: bool)
      modifies this
      ensures email == EmailError(value)
      ensures valid <==> email == ""
      ensures valid <==> ValidEmail(value)
      ensures name == old(name) && message == old(message)
    {
      EmailOutcome(value);
      email := "";
      if IsBlank(value) {
        email := EmailRequired;
        return false;
      }
      if |value| < EmailMinLength {
        email := EmailTooShort;
        return false;
      }
      if |value| > EmailMaxLength {
        email := EmailTooLong;
        return false;
      }
      if !HasEmailShape(value) {
        email := EmailMalformed;
        return false;
      }
      return true;
    }

    /** `validators.message`, on the message slot. */
    method ValidateMessage(value: string) returns (valid: bool)
      modifies this
      ensures message == MessageError(value)
      ensures valid <==> message == ""
      ensures valid <==> ValidMessage(value)
      ensures name == old(name) && email == old(email)
    {
      MessageOutcome(value);
      message := "";
      if IsBlank(value) {
        message := MessageRequired;
        return false;
      }
      if |value| < MessageMinLength {
        message := MessageTooShort;
        return false;
      }
      if |value| > MessageMaxLength {
        message := MessageTooLong;
        return false;
      }
      return true;
    }

    /** `clearErrors` (and the error part of `resetForm`): every slot becomes empty. */
    method Clear()
      modifies this
      ensures Current() == NoErrors
    {
      name := "";
      email := "";
      message := "";
    }

    /** `validateForm`: all three validators run, none skipped after a failure, so each
        slot ends up reflecting its own value alone, whatever the slots held before. */
    method ValidateForm(nameValue: string, emailValue: string, messageValue: string) returns (valid: bool)
      modifies this
      ensures Current() == ErrorsFor(nameValue, emailValue, messageValue)
      ensures valid <==> Current() == NoErrors
      ensures valid <==> ValidName(nameValue) && ValidEmail(emailValue) && ValidMessage(messageValue)
    {
      var nameValid := ValidateName(nameValue);
      var emailValid := ValidateEmail(emailValue);
      var messageValid := ValidateMessage(messageValue);
      valid := nameValid && emailValid && messageValid;
    }

    /** The submit handler's validation pass: the three validators run, and only a form
        that passed all of them yields a request body, built from the trimmed values. */
    method Submit(nameValue: string, emailValue: string, messageValue: string) returns (request: Option<Payload>)
      modifies this
      ensures Current() == ErrorsFor(nameValue, emailValue, messageValue)
      ensures request.Some? <==> Current() == NoErrors
      ensures request.Some? ==> request.value == BuildPayload(nameValue, emailValue, messageValue)
    {
      var nameValid := ValidateName(nameValue);
      var emailValid := ValidateEmail(emailValue);
      var messageValid := ValidateMessage(messageValue);
      if nameValid && emailValid && messageValid {
        request := Some(BuildPayload(nameValue, emailValue, messageValue));
      } else {
        request := None;
      }
    }

    /** The continuations after the request: on a delivered message the success popup is
        shown and the errors cleared; on any failure the error popup carries the failure's
        text and the slots are left as they were. */
    method Settle(reply: Reply) returns (popup: Popup)
      modifies this
      ensures popup == PopupFor(Resolve(reply))
      ensures Resolve(reply).Delivered? ==> Current() == NoErrors
      ensures Resolve(reply).Failed? ==> Current() == old(Current())
    {
      var outcome := Resolve(reply);
      match outcome
      case Delivered =>
        popup := SuccessPopup;
        Clear();
      case Failed(reason) =>
        popup := ErrorPopup(if reason == "" then TransportFallback else reason);
    }
  }

  /** The popups a submit attempt shows, in order: none for a form that fails validation,
      otherwise the one popup for the request's outcome. */
  function PopupsShown(valid: bool, reply: Reply): (popups: seq<Popup>)
  {
    if valid then [PopupFor(Resolve(reply))] else []
  }

  /** The popups the submit handler shows as written: right after dispatching the request it
      also shows the success popup, before any answer has arrived. */
  function PopupsShownAsWritten(valid: bool, reply: Reply): (popups: seq<Popup>)
  {
    if valid then [SuccessPopup, PopupFor(Resolve(reply))] else []
  }

  /** The success popup appears exactly when the form was valid and the message was delivered. */
  lemma SuccessShownOnlyWhenDelivered(valid: bool, reply: Reply)
    ensures SuccessPopup in PopupsShown(valid, reply) <==> valid && Resolve(reply).Delivered?
    ensures |PopupsShown(valid, reply)| <= 1
  {
    if valid {
      assert PopupsShown(valid, reply)[0] == PopupFor(Resolve(reply));
    }
  }

  /** As written, a valid form answered with 429 shows the success popup as well as the
      rate-limit error. */
  lemma RateLimitedShowsSuccessAsWritten()
    ensures Resolve(Response(429, None)).Failed?
    ensures PopupsShownAsWritten(true, Response(429, None)) == [SuccessPopup, ErrorPopup(RateLimited)]
  {
  }

  /** The submit handler: validate every field; if the form is valid, send the trimmed values
      and show the popup for the outcome, clearing the errors only on delivery. */
  method SubmitAndSettle(form: FormErrors, nameValue: string, emailValue: string, messageValue: string,
                         reply: Reply) returns (popups: seq<Popup>)
    modifies form
    ensures popups == PopupsShown(ValidName(nameValue) && ValidEmail(emailValue) && ValidMessage(messageValue), reply)
    ensures popups == [] ==> form.Current() == ErrorsFor(nameValue, emailValue, messageValue)
    ensures popups != [] ==> form.Current() == NoErrors
  {
    var request := form.Submit(nameValue, emailValue, messageValue);
    ErrorsForClearIff(nameValue, emailValue, messageValue);
    if request.Some? {
      var shown := form.Settle(reply);
      popups := [shown];
    } else {
      popups := [];
    }
  }

  /** The submit handler as written: after dispatching the request it shows the success popup
      and clears the errors at once, then the continuation shows the outcome's popup. */
  method SubmitAndSettleAsWritten(form: FormErrors, nameValue: string, emailValue: string, messageValue: string,
                                  reply: Reply) returns (popups: seq<Popup>)
    modifies form
    ensures popups == PopupsShownAsWritten(ValidName(nameValue) && ValidEmail(emailValue) && ValidMessage(messageValue), reply)
    ensures popups == [] ==> form.Current() == ErrorsFor(nameValue, emailValue, messageValue)
    ensures popups != [] ==> form.Current() == NoErrors
  {
    var request := form.Submit(nameValue, emailValue, messageValue);
    ErrorsForClearIff(nameValue, emailValue, messageValue);
    if request.Some? {
      form.Clear();
      var shown := form.Settle(reply);
      popups := [SuccessPopup, shown];
    } else {
      popups := [];
    }
  }
}
