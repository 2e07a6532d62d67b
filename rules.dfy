/**
  The three field validators of the contact form, as pure specifications.

  Every validator checks its rules in a fixed order (required, minimum
  length, maximum length, format) and reports the message of the first rule
  that fails; the empty string means the value is accepted. "Required" looks
  at the trimmed value, the length rules at the raw value.
 */
module Rules {
  import opened Text

  /** One validation rule applied to one value: whether it holds, and what to report when it does not. */
  datatype Rule = Rule(holds: bool, message: string)

  /** The message of the first rule that fails, or "" when every rule holds. */
  function FirstFailure(rules: seq<Rule>): (r: string)
    ensures (forall i :: 0 <= i < |rules| ==> rules[i].holds) ==> r == ""
    ensures forall i :: 0 <= i < |rules| && !rules[i].holds && (forall j :: 0 <= j < i ==> rules[j].holds)
                        ==> r == rules[i].message
  {
    if rules == [] then ""
    else if !rules[0].holds then rules[0].message
    else FirstFailure(rules[1..])
  }

  const NameMinLength := 5
  const NameMaxLength := 50
  const EmailMinLength := 5
  const EmailMaxLength := 50
  const MessageMinLength := 5
  const MessageMaxLength := 300

  const NameRequired := "Full Name is required"
  const NameTooShort := "Name must be at least 5 characters"
  const NameTooLong := "Name must be less than 50 characters"
  const NameBadChars := "Name can only contain letters, spaces, hyphens and apostrophes"

  const EmailRequired := "Email is required"
  const EmailTooShort := "Email must be at least 5 characters"
  const EmailTooLong := "Email must be less than 50 characters"
  const EmailMalformed := "Please enter a valid email address"

  const MessageRequired := "Message is required"
  const MessageTooShort := "Message must be at least 5 characters"
  const MessageTooLong := "Message must be less than 300 characters"

  // ---------------------------------------------------------------------
  // Name format: /^[a-zA-Zа-яА-ЯёЁ\s\-']+$/

  /** Latin letters, the Cyrillic blocks а-я (U+0430..U+044F) and А-Я (U+0410..U+042F),
      ё (U+0451), Ё (U+0401), white space, hyphen and apostrophe. */
  predicate IsNameChar(c: char)
  {
    || ('a' <= c <= 'z') || ('A' <= c <= 'Z')
    || ('\U{0430}' <= c <= '\U{044F}') || ('\U{0410}' <= c <= '\U{042F}')
    || c == '\U{0451}' || c == '\U{0401}'
    || IsSpace(c) || c == '-' || c == '\''
  }

  /** One or more characters, all from the name class. */
  predicate MatchesNamePattern(s: string)
  {
    |s| > 0 && forall i :: 0 <= i < |s| ==> IsNameChar(s[i])
  }

  // ---------------------------------------------------------------------
  // Email format: /^[^\s@]+@[^\s@]+\.[^\s@]+$/

  /** `[^\s@]*`: no white space and no '@'. */
  predicate NoSpaceOrAt(s: string)
  {
    forall i :: 0 <= i < |s| ==> !IsSpace(s[i]) && s[i] != '@'
  }

  /** `[^\s@]+` */
  predicate EmailAtom(s: string)
  {
    |s| > 0 && NoSpaceOrAt(s)
  }

  /** The regular expression read literally: three atoms, the first two separated
      by '@', the last two by '.'. */
  ghost predicate MatchesEmailRegex(s: string)
  {
    exists at, dot :: 0 <= at < dot < |s| && s[at] == '@' && s[dot] == '.'
      && EmailAtom(s[..at]) && EmailAtom(s[at + 1..dot]) && EmailAtom(s[dot + 1..])
  }

  /** The domain has a '.' that is neither its first nor its last character. */
  predicate HasInnerDot(d: string)
  {
    exists k :: 0 < k < |d| - 1 && d[k] == '.'
  }

  /** The shape the regular expression accepts, checked by splitting at the first '@':
      a non-empty local part and a domain, neither holding white space or '@',
      the domain with an inner '.'. */
  predicate HasEmailShape(s: string)
  {
    var at := FirstIndex(s, '@');
    0 < at < |s| && NoSpaceOrAt(s[..at]) && NoSpaceOrAt(s[at + 1..]) && HasInnerDot(s[at + 1..])
  }

  /** The scan accepts only strings the regular expression accepts. */
  lemma ShapeToRegex(s: string)
    requires HasEmailShape(s)
    ensures MatchesEmailRegex(s)
  {
    var at := FirstIndex(s, '@');
    var d := s[at + 1..];
    var k :| 0 < k < |d| - 1 && d[k] == '.';
    var dot := at + 1 + k;
    assert s[at + 1..dot] == d[..k];
    assert s[dot + 1..] == d[k + 1..];
    assert EmailAtom(s[..at]);
    assert EmailAtom(s[at + 1..dot]);
    assert EmailAtom(s[dot + 1..]);
  }

  /** Every string the regular expression accepts passes the scan: its '@' is the first one,
      and the domain after it is free of white space and '@' and has an inner '.'. */
  lemma RegexToShape(s: string, at: nat, dot: nat)
    requires at < dot < |s| && s[at] == '@' && s[dot] == '.'
    requires EmailAtom(s[..at]) && EmailAtom(s[at + 1..dot]) && EmailAtom(s[dot + 1..])
    ensures HasEmailShape(s)
  {
    assert FirstIndex(s, '@') == at by {
      assert forall j :: 0 <= j < at ==> s[j] == s[..at][j];
    }
    var d := s[at + 1..];
    assert NoSpaceOrAt(d) by {
      forall j | 0 <= j < |d| ensures !IsSpace(d[j]) && d[j] != '@' {
        if at + 1 + j < dot {
          assert d[j] == s[at + 1..dot][j];
        } else if at + 1 + j > dot {
          assert d[j] == s[dot + 1..][j - (dot - at)];
        }
      }
    }
    assert d[dot - at - 1] == '.';
  }

  /** The scan and the regular expression accept the same strings. */
  lemma EmailShapeMatchesRegex(s: string)
    ensures HasEmailShape(s) <==> MatchesEmailRegex(s)
  {
    if HasEmailShape(s) {
      ShapeToRegex(s);
    }
    if MatchesEmailRegex(s) {
      var at, dot :| 0 <= at < dot < |s| && s[at] == '@' && s[dot] == '.'
        && EmailAtom(s[..at]) && EmailAtom(s[at + 1..dot]) && EmailAtom(s[dot + 1..]);
      RegexToShape(s, at, dot);
    }
  }

  /** A well-formed email holds no white space anywhere. */
  lemma EmailShapeHasNoSpace(s: string)
    requires HasEmailShape(s)
    ensures forall i :: 0 <= i < |s| ==> !IsSpace(s[i])
  {
    var at := FirstIndex(s, '@');
    forall i | 0 <= i < |s| ensures !IsSpace(s[i]) {
      if i < at {
        assert s[i] == s[..at][i];
      } else if i > at {
        assert s[i] == s[at + 1..][i - at - 1];
      }
    }
  }

  // ---------------------------------------------------------------------
  // The validators

  function NameRules(value: string): (rules: seq<Rule>)
  {
    [ Rule(!IsBlank(value), NameRequired),
      Rule(|value| >= NameMinLength, NameTooShort),
      Rule(|value| <= NameMaxLength, NameTooLong),
      Rule(MatchesNamePattern(value), NameBadChars) ]
  }

  function EmailRules(value: string): (rules: seq<Rule>)
  {
    [ Rule(!IsBlank(value), EmailRequired),
      Rule(|value| >= EmailMinLength, EmailTooShort),
      Rule(|value| <= EmailMaxLength, EmailTooLong),
      Rule(HasEmailShape(value), EmailMalformed) ]
  }

  function MessageRules(value: string): (rules: seq<Rule>)
  {
    [ Rule(!IsBlank(value), MessageRequired),
      Rule(|value| >= MessageMinLength, MessageTooShort),
      Rule(|value| <= MessageMaxLength, MessageTooLong) ]
  }

  /** The message `validators.name` leaves in `errors.name`. */
  function NameError(value: string): (r: string)
  {
    FirstFailure(NameRules(value))
  }

  /** The message `validators.email` leaves in `errors.email`. */
  function EmailError(value: string): (r: string)
  {
    FirstFailure(EmailRules(value))
  }

  /** The message `validators.message` leaves in `errors.message`. */
  function MessageError(value: string): (r: string)
  {
    FirstFailure(MessageRules(value))
  }

  predicate ValidName(value: string)
  {
    !IsBlank(value) && NameMinLength <= |value| <= NameMaxLength && MatchesNamePattern(value)
  }

  predicate ValidEmail(value: string)
  {
    !IsBlank(value) && EmailMinLength <= |value| <= EmailMaxLength && HasEmailShape(value)
  }

  predicate ValidMessage(value: string)
  {
    !IsBlank(value) && MessageMinLength <= |value| <= MessageMaxLength
  }

  /** Which message the name validator reports, case by case, in rule order. */
  lemma NameOutcome(value: string)
    ensures IsBlank(value) ==> NameError(value) == NameRequired
    ensures !IsBlank(value) && |value| < NameMinLength ==> NameError(value) == NameTooShort
    ensures !IsBlank(value) && |value| > NameMaxLength ==> NameError(value) == NameTooLong
    ensures !IsBlank(value) && NameMinLength <= |value| <= NameMaxLength && !MatchesNamePattern(value)
            ==> NameError(value) == NameBadChars
    ensures NameError(value) == "" <==> ValidName(value)
  {
    var r := NameRules(value);
    assert r[0].holds ==> r[1].holds ==> r[2].holds ==> r[3].holds ==> forall i :: 0 <= i < |r| ==> r[i].holds;
  }

  /** Which message the email validator reports, case by case, in rule order. */
  lemma EmailOutcome(value: string)
    ensures IsBlank(value) ==> EmailError(value) == EmailRequired
    ensures !IsBlank(value) && |value| < EmailMinLength ==> EmailError(value) == EmailTooShort
    ensures !IsBlank(value) && |value| > EmailMaxLength ==> EmailError(value) == EmailTooLong
    ensures !IsBlank(value) && EmailMinLength <= |value| <= EmailMaxLength && !HasEmailShape(value)
            ==> EmailError(value) == EmailMalformed
    ensures EmailError(value) == "" <==> ValidEmail(value)
  {
    var r := EmailRules(value);
    assert r[0].holds ==> r[1].holds ==> r[2].holds ==> r[3].holds ==> forall i :: 0 <= i < |r| ==> r[i].holds;
  }

  /** Which message the message validator reports, case by case, in rule order. */
  lemma MessageOutcome(value: string)
    ensures IsBlank(value) ==> MessageError(value) == MessageRequired
    ensures !IsBlank(value) && |value| < MessageMinLength ==> MessageError(value) == MessageTooShort
    ensures !IsBlank(value) && |value| > MessageMaxLength ==> MessageError(value) == MessageTooLong
    ensures MessageError(value) == "" <==> ValidMessage(value)
  {
    var r := MessageRules(value);
    assert r[0].holds ==> r[1].holds ==> r[2].holds ==> forall i :: 0 <= i < |r| ==> r[i].holds;
  }

  /** A value made only of white space gets the "required" message from every validator,
      however long it is: required is checked before any length rule. */
  lemma WhitespaceOnlyIsRequired(value: string)
    requires IsBlank(value)
    ensures NameError(value) == NameRequired
    ensures EmailError(value) == EmailRequired
    ensures MessageError(value) == MessageRequired
  {
    NameOutcome(value);
    EmailOutcome(value);
    MessageOutcome(value);
  }

  /** The name is accepted exactly when it is non-blank, 5..50 characters long counting padding,
      and made only of name characters. */
  lemma NameAcceptance(value: string)
    ensures NameError(value) == "" <==>
      (exists i :: 0 <= i < |value| && !IsSpace(value[i]))
      && 5 <= |value| <= 50
      && forall i :: 0 <= i < |value| ==> IsNameChar(value[i])
  {
    NameOutcome(value);
  }

  /** The email is accepted exactly when it is 5..50 characters long and has the `local@domain` shape
      (such a value is never blank). */
  lemma EmailAcceptance(value: string)
    ensures EmailError(value) == "" <==> 5 <= |value| <= 50 && MatchesEmailRegex(value)
  {
    EmailOutcome(value);
    EmailShapeMatchesRegex(value);
    if HasEmailShape(value) {
      EmailShapeHasNoSpace(value);
      assert !IsSpace(value[0]);
    }
  }

  /** Both length bounds are inclusive and count the untrimmed value. */
  lemma LengthBoundaries(value: string)
    requires !IsBlank(value)
    ensures |value| == 4 ==> NameError(value) == NameTooShort && EmailError(value) == EmailTooShort
                             && MessageError(value) == MessageTooShort
    ensures |value| == 51 ==> NameError(value) == NameTooLong && EmailError(value) == EmailTooLong
    ensures |value| == 301 ==> MessageError(value) == MessageTooLong
    ensures 5 <= |value| <= 300 <==> MessageError(value) == ""
  {
    NameOutcome(value);
    EmailOutcome(value);
    MessageOutcome(value);
  }

  // ---------------------------------------------------------------------
  // Worked examples

  /** "Jo" is too short for a name. */
  lemma NameTooShortExample()
    ensures NameError("Jo") == NameTooShort
  {
    NameOutcome("Jo");
    assert !IsSpace("Jo"[0]);
  }

  /** A hyphenated name with an apostrophe is accepted. */
  lemma NameHyphenApostropheExample()
    ensures NameError("Jo-Anne O'Neil") == ""
  {
    var v := "Jo-Anne O'Neil";
    assert !IsSpace(v[0]);
    assert MatchesNamePattern(v) by {
      assert forall i :: 0 <= i < |v| ==>
        ('A' <= v[i] <= 'Z') || ('a' <= v[i] <= 'z') || v[i] == ' ' || v[i] == '-' || v[i] == '\'';
    }
    NameOutcome(v);
  }

  /** A Cyrillic name with Ё ("Анна Ёлкина") is accepted. */
  lemma NameCyrillicExample()
    ensures NameError("\U{0410}\U{043D}\U{043D}\U{0430} \U{0401}\U{043B}\U{043A}\U{0438}\U{043D}\U{0430}") == ""
  {
    var v := "\U{0410}\U{043D}\U{043D}\U{0430} \U{0401}\U{043B}\U{043A}\U{0438}\U{043D}\U{0430}";
    assert !IsSpace(v[0]);
    assert MatchesNamePattern(v) by {
      assert forall i :: 0 <= i < |v| ==> ('\U{0410}' <= v[i] <= '\U{044F}') || v[i] == ' ' || v[i] == '\U{0401}';
    }
    NameOutcome(v);
  }

  /** White-space padding counts toward the length: "  ab " has five characters and is accepted. */
  lemma NamePaddedExample()
    ensures NameError("  ab ") == ""
  {
    var v := "  ab ";
    assert !IsSpace(v[2]);
    assert MatchesNamePattern(v) by {
      assert forall i :: 0 <= i < |v| ==> v[i] == ' ' || 'a' <= v[i] <= 'z';
    }
    NameOutcome(v);
  }

  /** A digit is refused by the format rule. */
  lemma NameDigitExample()
    ensures NameError("Agent 007") == NameBadChars
  {
    var v := "Agent 007";
    NameOutcome(v);
    assert !IsSpace(v[0]);
    assert !IsNameChar(v[6]);
  }

  /** "a@b.c" is a well-formed email. */
  lemma EmailAcceptedExample()
    ensures EmailError("a@b.c") == ""
  {
    var v := "a@b.c";
    RegexToShape(v, 1, 3);
    EmailOutcome(v);
    assert !IsSpace(v[0]);
  }

  /** A string without '@' never has the email shape. */
  lemma NoAtNoShape(s: string)
    requires forall i :: 0 <= i < |s| ==> s[i] != '@'
    ensures !HasEmailShape(s)
  {
    assert FirstIndex(s, '@') == |s|;
  }

  /** "not-an-email" has no '@' and fails the format rule. */
  lemma EmailNoAtExample()
    ensures EmailError("not-an-email") == EmailMalformed
  {
    var v := "not-an-email";
    assert !HasEmailShape(v) by {
      assert forall i :: 0 <= i < |v| ==> v[i] != '@';
      NoAtNoShape(v);
    }
    assert !IsSpace(v[0]);
    EmailOutcome(v);
  }

  /** "ab@.cd" has its only '.' first in the domain and fails the format rule. */
  lemma EmailLeadingDotExample()
    ensures EmailError("ab@.cd") == EmailMalformed
  {
    var v := "ab@.cd";
    assert FirstIndex(v, '@') == 2;
    assert !HasInnerDot(v[3..]);
    EmailOutcome(v);
    assert !IsSpace(v[0]);
  }

  /** "a@.c" has four characters and fails the minimum length before the format is looked at. */
  lemma EmailShortExample()
    ensures EmailError("a@.c") == EmailTooShort
  {
    EmailOutcome("a@.c");
    assert !IsSpace("a@.c"[0]);
  }

  /** Five characters pass, four and 301 do not. */
  lemma MessageExamples()
    ensures MessageError("Hello") == ""
    ensures MessageError("Hell") == MessageTooShort
    ensures MessageError(seq(301, _ => 'x')) == MessageTooLong
  {
    MessageOutcome("Hello");
    assert !IsSpace("Hello"[0]);
    MessageOutcome("Hell");
    assert !IsSpace("Hell"[0]);
    var long: string := seq(301, _ => 'x');
    MessageOutcome(long);
    assert !IsSpace(long[0]);
  }
}
