/**
 * The contact form (src/components/sections/ContactSection.tsx): three text
 * fields, a required-field check, an email pattern check, and the status
 * of a simulated submission.
 */
module Contact {
  import opened Common
  import opened Text

  const RequiredError := "All fields are required"
  const InvalidEmailError := "Please enter a valid email address"

  // ---------------------------------------------------------------------
  // The email pattern ^[^\s@]+@[^\s@]+\.[^\s@]+$
  // ---------------------------------------------------------------------

  /** Every character matches `[^\s@]`. */
  predicate Plain(t: string) {
    forall i :: 0 <= i < |t| ==> !IsSpace(t[i]) && t[i] != '@'
  }

  /** The pattern matched with its `@` at `at` and its `\.` at `dot`: three
      non-empty runs of plain characters around them. */
  predicate EmailShape(s: string, at: int, dot: int) {
    0 < at && at + 1 < dot && dot + 1 < |s| && s[at] == '@' && s[dot] == '.'
    && Plain(s[..at]) && Plain(s[at + 1..dot]) && Plain(s[dot + 1..])
  }

  /** `emailRegex.test(s)`: some placement of `@` and `.` matches. */
  ghost predicate EmailRegexMatches(s: string) {
    exists at, dot :: EmailShape(s, at, dot)
  }

  /** The index of the first `c` in `s`. */
  function IndexOf(s: string, c: char): (r: Option<nat>)
    ensures r.None? <==> c !in s
    ensures r.Some? ==> r.value < |s| && s[r.value] == c && c !in s[..r.value]
  {
    if s == [] then None
    else if s[0] == c then Some(0)
    else
      var r := IndexOf(s[1..], c);
      if r.None? then None
      else
        assert s[..r.value + 1] == [s[0]] + s[1..][..r.value];
        Some(r.value + 1)
  }

  /** The domain has a dot with at least one character on each side. */
  predicate DotInside(d: string) {
    |d| >= 3 && '.' in d[1..|d| - 1]
  }

  /** The check the pattern performs, spelled out: no whitespace anywhere,
      exactly one `@` with something before it, and a domain after it that
      holds a dot which neither starts nor ends it. */
  predicate ValidEmail(s: string)
    ensures ValidEmail(s) ==> '@' in s && forall i :: 0 <= i < |s| ==> !IsSpace(s[i])
  {
    var at := IndexOf(s, '@');
    at.Some? && at.value > 0 && Plain(s[..at.value]) && Plain(s[at.value + 1..]) && DotInside(s[at.value + 1..])
  }

  /** The spelled-out check accepts exactly what the pattern matches. */
  lemma EmailCheckIsRegex(s: string)
    ensures ValidEmail(s) <==> EmailRegexMatches(s)
  {
    if ValidEmail(s) {
      ValidEmailMatches(s);
    }
    if EmailRegexMatches(s) {
      var at, dot :| EmailShape(s, at, dot);
      MatchIsValidEmail(s, at, dot);
    }
  }

  lemma ValidEmailMatches(s: string)
    requires ValidEmail(s)
    ensures EmailRegexMatches(s)
  {
    var at := IndexOf(s, '@').value;
    var d := s[at + 1..];
    var j :| 1 <= j < |d| - 1 && d[j] == '.';
    var dot := at + 1 + j;
    assert s[at + 1..dot] == d[..j];
    assert s[dot + 1..] == d[j + 1..];
    assert EmailShape(s, at, dot);
  }

  lemma MatchIsValidEmail(s: string, at: int, dot: int)
    requires EmailShape(s, at, dot)
    ensures ValidEmail(s)
  {
    assert '@' !in s[..at];
    assert IndexOf(s, '@') == Some(at);
    var d := s[at + 1..];
    assert d == s[at + 1..dot] + ['.'] + s[dot + 1..];
    assert Plain(d);
    assert d[dot - at - 1] == '.';
    assert d[1..|d| - 1][dot - at - 2] == '.';
  }

  /** The email is tested untrimmed: a leading or trailing space makes it
      fail, although the required-field check trims. */
  lemma PaddedEmailFails(s: string)
    ensures !ValidEmail([' '] + s)
    ensures !ValidEmail(s + [' '])
  {
    var t := [' '] + s;
    var at := IndexOf(t, '@');
    if at.Some? && at.value > 0 {
      assert t[..at.value][0] == ' ';
    }
    var u := s + [' '];
    var at2 := IndexOf(u, '@');
    if at2.Some? {
      assert u[at2.value + 1..][|u| - at2.value - 2] == ' ';
    }
  }

  // ---------------------------------------------------------------------
  // The form
  // ---------------------------------------------------------------------

  /** The names of the three inputs. */
  datatype Field = Name | Email | MessageText

  datatype FormState = FormState(name: string, email: string, message: string)

  datatype FormStatus = Idle | Submitting | Success | Failed

  /** `handleChange` on the input named `field`. */
  function WithField(form: FormState, field: Field, value: string): (r: FormState)
    ensures field == Name ==> r == FormState(value, form.email, form.message)
    ensures field == Email ==> r == FormState(form.name, value, form.message)
    ensures field == MessageText ==> r == FormState(form.name, form.email, value)
  {
    match field
    case Name => form.(name := value)
    case Email => form.(email := value)
    case MessageText => form.(message := value)
  }

  /** The validation in `handleSubmit`: the error it reports, or `None` when
      the form may be sent. The required check comes first. */
  function Validate(form: FormState): (r: Option<string>)
    ensures IsBlank(form.name) || IsBlank(form.email) || IsBlank(form.message) ==> r == Some(RequiredError)
    ensures !(IsBlank(form.name) || IsBlank(form.email) || IsBlank(form.message)) ==>
      (r == Some(InvalidEmailError) <==> !EmailRegexMatches(form.email))
    ensures r == None <==>
      !IsBlank(form.name) && !IsBlank(form.email) && !IsBlank(form.message) && EmailRegexMatches(form.email)
  {
    EmailCheckIsRegex(form.email);
    if IsBlank(form.name) || IsBlank(form.email) || IsBlank(form.message) then Some(RequiredError)
    else if !ValidEmail(form.email) then Some(InvalidEmailError)
    else None
  }

  /** The submit button is disabled while a submission is in flight or its
      success is shown. */
  function SubmitDisabled(status: FormStatus): (r: bool)
    ensures r <==> status == Submitting || status == Success
  {
    match status
    case Submitting => true
    case Success => true
    case _ => false
  }

  /** The component's form state, updated in place. */
  class ContactForm {
    var form: FormState
    var status: FormStatus
    var errorMessage: Option<string>

    /** The first render: empty fields, idle, no error. */
    constructor ()
      ensures form == FormState("", "", "") && status == Idle && errorMessage == None
    {
      form := FormState("", "", "");
      status := Idle;
      errorMessage := None;
    }

    /** `handleChange`: only the named field changes. */
    method HandleChange(field: Field, value: string)
      modifies this
      ensures form == WithField(old(form), field, value)
      ensures status == old(status) && errorMessage == old(errorMessage)
    {
      match field {
        case Name => form := form.(name := value);
        case Email => form := form.(email := value);
        case MessageText => form := form.(message := value);
      }
    }

    /** `handleSubmit` up to its `await`: a rejected form keeps its fields
        and status and shows the error; an accepted one starts submitting. */
    method HandleSubmit() returns (accepted: bool)
      modifies this
      ensures accepted <==> Validate(old(form)) == None
      ensures form == old(form)
      ensures !accepted ==> errorMessage == Validate(old(form)) && status == old(status)
      ensures accepted ==> status == Submitting && errorMessage == old(errorMessage)
    {
      EmailCheckIsRegex(form.email);
      if IsBlank(form.name) || IsBlank(form.email) || IsBlank(form.message) {
        errorMessage := Some(RequiredError);
        return false;
      }
      if !ValidEmail(form.email) {
        errorMessage := Some(InvalidEmailError);
        return false;
      }
      status := Submitting;
      return true;
    }

    /** The continuation after the simulated 1.5 second request. */
    method CompleteSubmission()
      modifies this
      ensures form == FormState("", "", "") && status == Success && errorMessage == None
    {
      form := FormState("", "", "");
      status := Success;
      errorMessage := None;
    }

    /** The timer 5 seconds after a success. */
    method ResetStatus()
      modifies this
      ensures status == Idle && form == old(form) && errorMessage == old(errorMessage)
    {
      status := Idle;
    }
  }
}
