# Contact-form validation and submission, modelled in Dafny

This project models the logic of a browser contact form (`valid.js`). The form has
three fields: a full name, an email address and a message. A shared `errors` object
holds one error text per field, where the empty string means "no error". Each field's
validator applies its rules in a fixed order and records the first rule that fails:

1. required, checked on the trimmed value;
2. minimum length, counted on the raw value;
3. maximum length, counted on the raw value;
4. format: a character class for the name, a `local@domain.tld` shape for the email.

On submit all three validators run, without stopping at the first failure. Only a fully
valid form is sent: the body holds the three trimmed values and the tag
`website_contact_form`. The HTTP status of the answer and the server's optional `message`
then decide between a success popup (which also clears the errors) and an error popup.

Files and modules:

- `wrappers.dfy` (`Wrappers`): `Option`, for the server's optional `message` field.
- `text.dfy` (`Text`): the ECMAScript white-space set, which is shared by the regex class
  `\s` and by `trim()`; trimming; and the first index of a character.
- `rules.dfy` (`Rules`):
  - the "first failing rule" semantics (`FirstFailure`);
  - the three validators as pure specifications (`NameError`, `EmailError`, `MessageError`);
  - both regular expressions as predicates;
  - worked examples.
- `submission.dfy` (`Submission`): the request body, the status classification and the
  popup text.
- `form.dfy` (`Form`): the `errors` object as the class `FormErrors`. Its methods update the
  three slots in place. Each method is proved against the pure specifications.

## Model

| member | source | states |
|---|---|---|
| `Text.TrimStartCuts` | valid.js:21 | The leading trim keeps a suffix of the value that does not begin with white space, and everything it cuts is white space |
| `Text.TrimEndCuts` | valid.js:21 | The trailing trim keeps a prefix that does not end with white space, and everything it cuts is white space |
| `Text.BlankIffTrimEmpty` | valid.js:21-24 | `!value.trim()` holds exactly when every character of the value is white space |
| `Text.TrimNotBlank` | valid.js:192-194 | A non-blank value trims to a non-empty string with no white space at either end |
| `Text.TrimUnchanged` | valid.js:193 | A value with no white space at either end is its own trim |
| `Text.TrimStartAt` | valid.js:192 | The leading trim cuts exactly the white space before the first non-space character |
| `Text.TrimEndAt` | valid.js:192 | The trailing trim cuts exactly the white space after the last non-space character |
| `Text.TrimBetween` | valid.js:192 | `trim()` returns exactly the slice from the first to the last non-space character |
| `Text.FirstIndex` | valid.js:63 | The result is the position of the first occurrence of the character, or the length when it is absent; no earlier position holds it |
| `Rules.FirstFailure` | valid.js:18-42 | For a list of rules in order: the result is "" when all hold, and otherwise the message of the first rule that fails |
| `Rules.ShapeToRegex` | valid.js:63 | Every value that passes the split-at-'@' scan matches `^[^\s@]+@[^\s@]+\.[^\s@]+$` |
| `Rules.RegexToShape` | valid.js:63 | Every match of the email regex passes the scan: the regex's '@' is the first '@', and the domain is free of white space and '@' and has an inner '.' |
| `Rules.EmailShapeMatchesRegex` | valid.js:63 | The scan and the email regex accept the same strings (both directions) |
| `Rules.EmailShapeHasNoSpace` | valid.js:63 | A well-formed email contains no white space anywhere |
| `Rules.NoAtNoShape` | valid.js:63 | A value without '@' is never a well-formed email |
| `Rules.NameOutcome` | valid.js:18-42 | Required, then too short (< 5), then too long (> 50), then bad characters; "" exactly when the name is non-blank, 5..50 long and matches the name class |
| `Rules.EmailOutcome` | valid.js:45-69 | Required, then too short, then too long, then malformed; "" exactly when the email is non-blank, 5..50 long and well-formed |
| `Rules.MessageOutcome` | valid.js:72-91 | Required, then too short (< 5), then too long (> 300); "" exactly when the message is non-blank and 5..300 long |
| `Rules.WhitespaceOnlyIsRequired` | valid.js:21-24 | A value made only of white space gets each validator's "required" message, whatever its length |
| `Rules.NameAcceptance` | valid.js:36 | A name is accepted iff it has a non-space character, is 5..50 long counting padding, and every character is a Latin or Cyrillic (incl. ё/Ё) letter, white space, '-' or an apostrophe |
| `Rules.EmailAcceptance` | valid.js:53-66 | An email is accepted iff it is 5..50 long and matches the email regex |
| `Rules.LengthBoundaries` | valid.js:26-34 | For non-blank values the bounds are inclusive on the raw length: 4 is too short for all three fields, 51 is too long for name and email, 301 is too long for the message, and a message is accepted iff its length is 5..300 |
| `Rules.NameTooShortExample` | valid.js:26-29 | "Jo" gets the too-short message |
| `Rules.NameHyphenApostropheExample` | valid.js:36 | "Jo-Anne O'Neil" is accepted |
| `Rules.NameCyrillicExample` | valid.js:36 | "Анна Ёлкина" is accepted |
| `Rules.NamePaddedExample` | valid.js:26-36 | "  ab " is accepted because padding counts toward the length |
| `Rules.NameDigitExample` | valid.js:36-39 | "Agent 007" gets the bad-characters message |
| `Rules.EmailAcceptedExample` | valid.js:63 | "a@b.c" is accepted |
| `Rules.EmailNoAtExample` | valid.js:63-66 | "not-an-email" gets the malformed-email message |
| `Rules.EmailLeadingDotExample` | valid.js:63-66 | "ab@.cd", whose only dot starts the domain, gets the malformed-email message |
| `Rules.EmailShortExample` | valid.js:53-56 | "a@.c" fails the minimum length before the format is checked |
| `Rules.MessageExamples` | valid.js:80-88 | A message of 5 characters passes; 4 characters and 301 characters fail with the matching length message |
| `Submission.BuildPayload` | valid.js:191-196 | The body carries the source tag `website_contact_form` |
| `Submission.ValidFormPayload` | valid.js:191-196 | For a valid form, every body field is non-empty with no white space at either end, and the email is sent exactly as typed |
| `Submission.PaddedNameSentShort` | valid.js:192 | The accepted name "  ab " is sent as "ab", which is shorter than the 5-character minimum |
| `Submission.MessageOr` | valid.js:204 | The server's message when present and non-empty, otherwise the fallback |
| `Submission.Classify` | valid.js:201-209 | Success iff the status is 200 or 201; every failure carries a non-empty reason |
| `Submission.BadRequestOutcome` | valid.js:203-204 | 400 gives the server's message, or "Validation error" when the server sent none |
| `Submission.RateLimitIgnoresServer` | valid.js:205-206 | 429 gives "Too many requests. Please try again later." whatever the server sent |
| `Submission.OtherStatusOutcome` | valid.js:207-208 | Any other non-success status gives the server's message, or "Server error" |
| `Submission.PopupFor` | valid.js:211-221 | The success popup appears iff the outcome is delivered; an error popup's text is never empty |
| `Submission.ResponsePopupIsClassification` | valid.js:198-221 | For every server answer, the popup shows exactly the classification's reason: the generic "Failed to send message" fallback is never substituted for it |
| `Form.ErrorsForClearIff` | valid.js:314-320 | After validation all slots are empty iff all three values are valid |
| `Form.FormErrors.constructor` | valid.js:9-13 | All three slots start empty |
| `Form.FormErrors.ValidateName` | valid.js:18-42 | The name slot becomes the first failing rule's message; returns true iff that slot is "" iff the name is valid; the other two slots are unchanged |
| `Form.FormErrors.ValidateEmail` | valid.js:45-69 | Likewise for the email slot; the name and message slots are unchanged |
| `Form.FormErrors.ValidateMessage` | valid.js:72-91 | Likewise for the message slot; the name and email slots are unchanged |
| `Form.FormErrors.Clear` | valid.js:121-124 | All three slots become "" |
| `Form.FormErrors.ValidateForm` | valid.js:314-321 | Every slot reflects only its own value, whatever the slots held before; the result is true iff all slots are empty iff all three values are valid |
| `Form.FormErrors.Submit` | valid.js:167-197 | Runs all three validators; a request body (the trimmed values and the tag) exists iff every slot is empty |
| `Form.FormErrors.Settle` | valid.js:211-225 | The popup is the one for the resolved outcome; delivery clears every slot, and any failure leaves the slots unchanged |
| `Form.SuccessShownOnlyWhenDelivered` | valid.js:211-221 | With the corrected flow, the success popup is shown iff the form was valid and the message was delivered, and at most one popup is shown |
| `Form.RateLimitedShowsSuccessAsWritten` | valid.js:228-232 | As written, a valid form answered with 429 shows both the success popup and the rate-limit error |
| `Form.SubmitAndSettle` | valid.js:167-225 | The corrected submit handler shows the popups of `PopupsShown`; errors are left as validated for an invalid form and are empty afterwards for a valid one |
| `Form.SubmitAndSettleAsWritten` | valid.js:167-233 | The handler as written shows the popups of `PopupsShownAsWritten` |

## Left out

- DOM lookups, event wiring and rendering are not modelled (valid.js:2-6, 94-118, 126-164). This covers `showErrors`, the CSS classes and the focus handler that hides an error span. Field values enter the model as parameters.
- `fetch`, the request headers, `JSON.stringify` and `response.json()` are not modelled. A body that is not JSON, and a network failure, both become `Reply.Rejected` with the error's message.
- The `message` field of the server's answer is modelled as an optional string. A truthy non-string value, and a `null` body, are not modelled.
- The submit button's busy label and disabled state are not modelled (valid.js:180-183, 222-225). They are DOM state.
- `form.reset()` clears the page's input values; the model keeps no input values. The `clearErrors()` call that follows it (valid.js:214-215, 231-232, 325-326) is modelled by `Form.FormErrors.Clear`.
- `console.log` and `console.error` are not modelled.
- Popup construction, the Escape-key listener and the timed removal are not modelled (valid.js:237-311). They are DOM manipulation and timers.
- `showErrorPopup`, called at valid.js:220, is defined neither in `valid.js` nor in `Modal/modal.js`. The model assumes a function of that name, defined elsewhere on the page, that shows its argument as an error popup (`Submission.PopupFor`, `Form.FormErrors.Settle`, `Form.PopupsShownAsWritten`). Without such a definition the `.catch` handler throws a ReferenceError: no error popup appears, `.finally` still runs, and the rejection is unhandled; that behaviour is not modelled.
- `Modal/modal.js` is not part of this model. It only toggles display and scrolling on click events.
- Strings are sequences of Unicode scalar values. JavaScript's `.length` counts UTF-16 code units, and a non-`u` regex matches code units. The two agree except for characters outside the Basic Multilingual Plane, which are not modelled.
- White space is the ECMAScript WhiteSpace and LineTerminator set, written out in `Text.IsSpace`. The model assumes it is the same for `\s` and `trim()`.
- The asynchronous interleaving of continuations is not modelled. The submit handler's synchronous tail runs before any continuation, so the flows are modelled as a fixed order of popups.

## Findings

| source | as written | input that shows it | evidently intended | confidence | as-written member | corrected member |
|---|---|---|---|---|---|---|
| valid.js:228-232 | After dispatching the request, the handler immediately shows the success popup and resets the form and its errors, whatever the server later answers | A valid form answered with status 429: the success popup appears at once, whatever the answer (and then, if `showErrorPopup` is defined on the page, the "Too many requests" popup) | Show success and reset only in the confirmed-success continuation (valid.js:211-216) | high (not executed) | `Form.RateLimitedShowsSuccessAsWritten` | `Form.SuccessShownOnlyWhenDelivered` |
