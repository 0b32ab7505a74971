/**
 The contact form: the validation schema for its five fields, the sanitising step
 applied before the document is created, the classification of failures into the
 message shown to the user, and the form object that a submission updates.

 Foreign pieces are parameters: `emailOk` stands for the schema library's e-mail
 check, `purify` for the HTML sanitiser, and the outcome of the document-store
 create call is passed in as `None` (it succeeded) or `Some(e)` (it threw `e`).
 */
module Contact {
  import opened Wrappers
  import opened JsText

  /** The values of the five form fields. */
  datatype ContactValues = ContactValues(
    name: string, email: string, phone: string, services: string, message: string)

  /** The values the form starts with and is reset to: every field empty. */
  const Defaults := ContactValues("", "", "", "", "")

  datatype Field = Name | Email | Phone | Services | Message

  /** One failed check of the schema: the field it is about and its message. */
  datatype Issue = Issue(field: Field, message: string)

  const NameTooShort := "Name must be at least 2 characters"
  const NameTooLong := "Name cannot exceed 50 characters"
  const NameBadChars := "Name can only contain letters and spaces"
  const EmailInvalid := "Please enter a valid email address"
  const PhoneInvalid := "Please enter a valid phone number"
  const MessageTooShort := "Message must be at least 10 characters"
  const MessageTooLong := "Message cannot exceed 500 characters"

  // ---------------------------------------------------------------------------
  // The rules, stated directly

  /** A name has 2 to 50 characters, each an ASCII letter or a white character. */
  predicate NameRule(s: string) {
    2 <= |s| <= 50 && forall i :: 0 <= i < |s| ==> IsAsciiLetter(s[i]) || IsWhite(s[i])
  }

  /** The digits of a phone number: what follows an optional leading '+'. */
  function PhoneDigits(s: string): string {
    if |s| > 0 && s[0] == '+' then s[1..] else s
  }

  /** A phone number is an optional '+' and then 2 to 15 ASCII digits, the first
      of which is not 0. */
  predicate PhoneRule(s: string) {
    var d := PhoneDigits(s);
    2 <= |d| <= 15 && d[0] != '0' && forall i :: 0 <= i < |d| ==> IsDigit(d[i])
  }

  /** A message has 10 to 800 UTF-16 code units. */
  predicate MessageRule(s: string) {
    10 <= Utf16Length(s) <= 800
  }

  // ---------------------------------------------------------------------------
  // The schema as the validation library runs it

  /** `^[a-zA-Z\s]+$` */
  predicate NamePattern(s: string) {
    |s| >= 1 && forall i :: 0 <= i < |s| ==> IsAsciiLetter(s[i]) || IsWhite(s[i])
  }

  /** `\d{1,14}$` */
  predicate DigitRun(t: string) {
    1 <= |t| <= 14 && forall i :: 0 <= i < |t| ==> IsDigit(t[i])
  }

  /** `[1-9]\d{1,14}$` */
  predicate LeadDigitThenRun(t: string) {
    |t| >= 1 && '1' <= t[0] <= '9' && DigitRun(t[1..])
  }

  /** `^\+?[1-9]\d{1,14}$`: the optional '+' is tried first, then skipped. */
  predicate PhonePattern(s: string) {
    (|s| >= 1 && s[0] == '+' && LeadDigitThenRun(s[1..])) || LeadDigitThenRun(s)
  }

  /** The failed checks of the name, in the order the schema lists them: the string
      checks do not stop at the first failure. Lengths are `length`, in code units. */
  function NameIssues(s: string): seq<string> {
    (if Utf16Length(s) < 2 then [NameTooShort] else [])
    + (if Utf16Length(s) > 50 then [NameTooLong] else [])
    + (if !NamePattern(s) then [NameBadChars] else [])
  }

  function EmailIssues(s: string, emailOk: string -> bool): seq<string> {
    if emailOk(s) then [] else [EmailInvalid]
  }

  function PhoneIssues(s: string): seq<string> {
    if PhonePattern(s) then [] else [PhoneInvalid]
  }

  /** The failed checks of the message. The upper limit is 800 code units, although
      the message reporting it speaks of 500 characters. */
  function MessageIssues(s: string): seq<string> {
    (if Utf16Length(s) < 10 then [MessageTooShort] else [])
    + (if Utf16Length(s) > 800 then [MessageTooLong] else [])
  }

  function Tag(f: Field, messages: seq<string>): (issues: seq<Issue>)
    ensures |issues| == |messages|
    ensures forall i :: 0 <= i < |issues| ==> issues[i] == Issue(f, messages[i])
  {
    if messages == [] then [] else [Issue(f, messages[0])] + Tag(f, messages[1..])
  }

  /** Every failed check of the schema, field by field in the schema's order.
      `services` is a plain string with no check. */
  function Validate(v: ContactValues, emailOk: string -> bool): seq<Issue> {
    Tag(Name, NameIssues(v.name))
    + Tag(Email, EmailIssues(v.email, emailOk))
    + Tag(Phone, PhoneIssues(v.phone))
    + Tag(Message, MessageIssues(v.message))
  }

  /** The message shown under a field: the first failed check about it, if any. */
  function FieldError(issues: seq<Issue>, f: Field): (r: Option<string>)
    ensures r.None? <==> forall i :: 0 <= i < |issues| ==> issues[i].field != f
    ensures r.Some? ==> exists i :: 0 <= i < |issues| && issues[i] == Issue(f, r.value)
  {
    if issues == [] then None
    else if issues[0].field == f then Some(issues[0].message)
    else FieldError(issues[1..], f)
  }

  // ---------------------------------------------------------------------------
  // What the schema accepts

  /** Each name check reports its own failure and nothing else. */
  lemma NameChecks(s: string)
    ensures NameTooShort in NameIssues(s) <==> Utf16Length(s) < 2
    ensures NameTooLong in NameIssues(s) <==> Utf16Length(s) > 50
    ensures NameBadChars in NameIssues(s) <==> !NamePattern(s)
    ensures forall m :: m in NameIssues(s) ==> m in {NameTooShort, NameTooLong, NameBadChars}
  {
  }

  /** Each message check reports its own failure and nothing else. */
  lemma MessageChecks(s: string)
    ensures MessageTooShort in MessageIssues(s) <==> Utf16Length(s) < 10
    ensures MessageTooLong in MessageIssues(s) <==> Utf16Length(s) > 800
    ensures forall m :: m in MessageIssues(s) ==> m in {MessageTooShort, MessageTooLong}
  {
  }

  /** The name checks all pass exactly when the name follows the name rule. */
  lemma NameAccepted(s: string)
    ensures NameIssues(s) == [] <==> NameRule(s)
  {
    if NamePattern(s) || NameRule(s) {
      Utf16LengthBmp(s);
      assert Utf16Length(s) == |s|;
    }
  }

  /** The phone pattern accepts exactly the strings that follow the phone rule. */
  lemma PhoneAccepted(s: string)
    ensures PhoneIssues(s) == [] <==> PhoneRule(s)
  {
    var d := PhoneDigits(s);
    if PhoneRule(s) {
      assert LeadDigitThenRun(d);
    }
  }

  /** Every phone number of the rule's shape is accepted, with or without '+'. */
  lemma PhoneFromDigits(d: string, plus: bool)
    requires 2 <= |d| <= 15 && d[0] != '0'
    requires forall i :: 0 <= i < |d| ==> IsDigit(d[i])
    ensures PhoneIssues(if plus then "+" + d else d) == []
  {
    var s := if plus then "+" + d else d;
    assert PhoneDigits(s) == d;
    PhoneAccepted(s);
  }

  /** The message checks all pass exactly when the message follows the rule. */
  lemma MessageAccepted(s: string)
    ensures MessageIssues(s) == [] <==> MessageRule(s)
  {
  }

  /** A form passes validation exactly when every constrained field follows its rule;
      `services` may be anything. */
  lemma ValidateAcceptsIff(v: ContactValues, emailOk: string -> bool)
    ensures Validate(v, emailOk) == []
      <==> NameRule(v.name) && emailOk(v.email) && PhoneRule(v.phone) && MessageRule(v.message)
  {
    NameAccepted(v.name);
    PhoneAccepted(v.phone);
    MessageAccepted(v.message);
  }

  /** Whatever `services` holds, the outcome of validation is the same. */
  lemma ServicesUnconstrained(v: ContactValues, services: string, emailOk: string -> bool)
    ensures Validate(v.(services := services), emailOk) == Validate(v, emailOk)
    ensures FieldError(Validate(v, emailOk), Services) == None
  {
    var w := v.(services := services);
    assert w.name == v.name && w.email == v.email && w.phone == v.phone && w.message == v.message;
    ValidateFieldErrors(v, emailOk);
  }

  /** The message shown for `f` comes from the first part holding an issue about it. */
  lemma {:induction false} FieldErrorConcat(a: seq<Issue>, b: seq<Issue>, f: Field)
    ensures FieldError(a + b, f) == if FieldError(a, f).Some? then FieldError(a, f) else FieldError(b, f)
  {
    if a == [] {
      assert a + b == b;
    } else {
      assert (a + b)[0] == a[0];
      assert (a + b)[1..] == a[1..] + b;
      FieldErrorConcat(a[1..], b, f);
    }
  }

  /** Within the issues of one field, the first message is the one shown. */
  lemma FieldErrorOfTag(g: Field, messages: seq<string>, f: Field)
    ensures FieldError(Tag(g, messages), f) == if g == f && messages != [] then Some(messages[0]) else None
  {
  }

  /** The message shown for each field is the first failed check of that field. */
  lemma ValidateFieldErrors(v: ContactValues, emailOk: string -> bool)
    ensures FieldError(Validate(v, emailOk), Name) == First(NameIssues(v.name))
    ensures FieldError(Validate(v, emailOk), Email) == First(EmailIssues(v.email, emailOk))
    ensures FieldError(Validate(v, emailOk), Phone) == First(PhoneIssues(v.phone))
    ensures FieldError(Validate(v, emailOk), Services) == None
    ensures FieldError(Validate(v, emailOk), Message) == First(MessageIssues(v.message))
  {
    var a, b := Tag(Name, NameIssues(v.name)), Tag(Email, EmailIssues(v.email, emailOk));
    var c, d := Tag(Phone, PhoneIssues(v.phone)), Tag(Message, MessageIssues(v.message));
    forall f: Field
      ensures FieldError(Validate(v, emailOk), f)
        == Pick(Pick(Pick(FieldError(a, f), FieldError(b, f)), FieldError(c, f)), FieldError(d, f))
    {
      FieldErrorConcat(a, b, f);
      FieldErrorConcat(a + b, c, f);
      FieldErrorConcat(a + b + c, d, f);
    }
    forall f: Field ensures FieldError(a, f) == (if f == Name then First(NameIssues(v.name)) else None) {
      FieldErrorOfTag(Name, NameIssues(v.name), f);
    }
    forall f: Field ensures FieldError(b, f) == (if f == Email then First(EmailIssues(v.email, emailOk)) else None) {
      FieldErrorOfTag(Email, EmailIssues(v.email, emailOk), f);
    }
    forall f: Field ensures FieldError(c, f) == (if f == Phone then First(PhoneIssues(v.phone)) else None) {
      FieldErrorOfTag(Phone, PhoneIssues(v.phone), f);
    }
    forall f: Field ensures FieldError(d, f) == (if f == Message then First(MessageIssues(v.message)) else None) {
      FieldErrorOfTag(Message, MessageIssues(v.message), f);
    }
  }

  function First(messages: seq<string>): Option<string> {
    if messages == [] then None else Some(messages[0])
  }

  function Pick(x: Option<string>, y: Option<string>): Option<string> {
    if x.Some? then x else y
  }

  /** The empty form is refused: its name, phone and message fail, and the message
      shown under each is the one for its first failed check. */
  lemma DefaultsRejected(emailOk: string -> bool)
    ensures Validate(Defaults, emailOk) != []
    ensures FieldError(Validate(Defaults, emailOk), Name) == Some(NameTooShort)
    ensures FieldError(Validate(Defaults, emailOk), Phone) == Some(PhoneInvalid)
    ensures FieldError(Validate(Defaults, emailOk), Message) == Some(MessageTooShort)
  {
    ValidateFieldErrors(Defaults, emailOk);
    assert NameIssues("") == [NameTooShort, NameBadChars];
  }

  /** The upper limit on the message is 800 code units: 800 characters pass, 801 fail
      with a message that names 500. */
  lemma MessageLimitIs800()
    ensures MessageIssues(seq(800, _ => 'a')) == []
    ensures MessageIssues(seq(801, _ => 'a')) == [MessageTooLong]
  {
    var short, long := seq(800, _ => 'a'), seq(801, _ => 'a');
    Utf16LengthBmp(short);
    Utf16LengthBmp(long);
    assert Utf16Length(short) == 800;
    assert Utf16Length(long) == 801;
  }

  // ---------------------------------------------------------------------------
  // Sanitising

  /** Each field trimmed, then passed through the sanitiser, under its own name. */
  function SanitizeInput(v: ContactValues, purify: string -> string): ContactValues {
    ContactValues(
      name := purify(Trim(v.name)),
      email := purify(Trim(v.email)),
      phone := purify(Trim(v.phone)),
      services := purify(Trim(v.services)),
      message := purify(Trim(v.message)))
  }

  /** No field is dropped, added or swapped: each sanitised field depends on the
      same-named input field only, through trim and then the sanitiser. Trimming
      comes first: sanitising is trimming alone followed by the sanitiser, so what
      the sanitiser returns is stored as it is, without a second trim. */
  lemma SanitizeFieldwise(v: ContactValues, w: ContactValues, purify: string -> string)
    ensures v.name == w.name ==> SanitizeInput(v, purify).name == SanitizeInput(w, purify).name
    ensures v.email == w.email ==> SanitizeInput(v, purify).email == SanitizeInput(w, purify).email
    ensures v.phone == w.phone ==> SanitizeInput(v, purify).phone == SanitizeInput(w, purify).phone
    ensures v.services == w.services
      ==> SanitizeInput(v, purify).services == SanitizeInput(w, purify).services
    ensures v.message == w.message
      ==> SanitizeInput(v, purify).message == SanitizeInput(w, purify).message
    ensures SanitizeInput(v, s => s)
      == ContactValues(Trim(v.name), Trim(v.email), Trim(v.phone), Trim(v.services), Trim(v.message))
    ensures SanitizeInput(v, purify) == SanitizeInput(SanitizeInput(v, s => s), purify)
    ensures var t := SanitizeInput(v, s => s);
      SanitizeInput(v, purify)
        == ContactValues(purify(t.name), purify(t.email), purify(t.phone), purify(t.services), purify(t.message))
  {
    TrimIdempotent(v.name);
    TrimIdempotent(v.email);
    TrimIdempotent(v.phone);
    TrimIdempotent(v.services);
    TrimIdempotent(v.message);
  }

  /** The sanitiser's result is not trimmed again: a sanitiser that deletes markup
      from "<b></b> a" leaves " a", and " a", leading space included, is what is sent. */
  lemma SanitizedValueNotRetrimmed(v: ContactValues)
    requires v.name == "<b></b> a"
    ensures SanitizeInput(v, s => if s == "<b></b> a" then " a" else s).name == " a"
  {
    assert Leading(v.name, IsWhite) == 0;
    assert Trailing(v.name, IsWhite) == 0;
  }

  /** For a form that passed validation, the sanitiser receives the phone number
      unchanged and a name and message no longer than their limits. */
  lemma SanitizerInputsOfValidForm(v: ContactValues, emailOk: string -> bool)
    requires Validate(v, emailOk) == []
    ensures Trim(v.phone) == v.phone
    ensures Utf16Length(Trim(v.name)) <= 50
    ensures Utf16Length(Trim(v.message)) <= 800
  {
    ValidateAcceptsIff(v, emailOk);
    assert PhoneRule(v.phone) && NameRule(v.name) && MessageRule(v.message);
    PhoneHasNoWhite(v.phone);
    TrimNoWhite(v.phone);
    TrimShortens(v.name);
    TrimShortens(v.message);
  }

  lemma PhoneHasNoWhite(s: string)
    requires PhoneRule(s)
    ensures forall i :: 0 <= i < |s| ==> !IsWhite(s[i])
  {
    var d := PhoneDigits(s);
    forall i | 0 <= i < |s| ensures !IsWhite(s[i]) {
      if |s| > 0 && s[0] == '+' && i > 0 {
        assert s[i] == d[i - 1];
      }
    }
  }

  /** Validation runs before trimming, so what is stored can break the schema: the
      name " a" passes, and "a" is what reaches the sanitiser. */
  lemma TrimmedNameMayBreakRule()
    ensures NameRule(" a") && NameIssues(" a") == []
    ensures Trim(" a") == "a" && !NameRule(Trim(" a"))
  {
    NameAccepted(" a");
    assert Leading(" a", IsWhite) == 1;
    assert Trailing(" a", IsWhite) == 0;
  }

  // ---------------------------------------------------------------------------
  // Failures of the create call

  /** What the create call can throw: the document store's own exception, with its
      `type`, or anything else. */
  datatype Thrown = AppwriteException(kind: string) | OtherError

  const DuplicateMessage := "This email has already been used"
  const DatabaseMessage := "Database error occurred. Please try again."
  const UnexpectedMessage := "An unexpected error occurred. Please try again later."

  /** The message shown for a failed submission: one of exactly three. */
  function HandleServerError(e: Thrown): (msg: string)
    ensures msg in [DuplicateMessage, DatabaseMessage, UnexpectedMessage]
    ensures msg == DuplicateMessage
      <==> e.AppwriteException? && e.kind == "document_already_exists"
    ensures msg == DatabaseMessage
      <==> e.AppwriteException? && e.kind != "document_already_exists"
    ensures msg == UnexpectedMessage <==> e.OtherError?
  {
    match e
    case AppwriteException(kind) =>
      if kind == "document_already_exists" then DuplicateMessage else DatabaseMessage
    case OtherError => UnexpectedMessage
  }

  // ---------------------------------------------------------------------------
  // The form

  /** A notification: its title, its text, and whether it is the destructive kind. */
  datatype Toast = Toast(title: Option<string>, description: string, destructive: bool)

  const ThankYou := Toast(None, "Thank you for your message. We will get back to you soon.", false)

  function ErrorToast(e: Thrown): Toast {
    Toast(Some("Submission Error"), HandleServerError(e), true)
  }

  /** What the form holds and what it has done: the field values, the failed checks
      shown, every create call made (with the data passed to it) and every
      notification shown. */
  datatype FormState = FormState(
    values: ContactValues, errors: seq<Issue>, createCalls: seq<ContactValues>, toasts: seq<Toast>)

  /** The submit handler, given values that passed validation: one create call with
      the sanitised values; if it succeeds, a thank-you notification and a reset to
      the empty defaults; if it throws, the classified message and nothing else. */
  function AfterCreate(
    st: FormState, submitted: ContactValues, purify: string -> string, outcome: Option<Thrown>)
    : FormState
  {
    var calls := st.createCalls + [SanitizeInput(submitted, purify)];
    match outcome
    case None => FormState(Defaults, [], calls, st.toasts + [ThankYou])
    case Some(e) => st.(createCalls := calls, toasts := st.toasts + [ErrorToast(e)])
  }

  /** Submitting the form: validate the current values; if a check fails, show the
      failures and do nothing else; otherwise clear them and run the submit handler
      on the current values. */
  function AfterSubmit(
    st: FormState, emailOk: string -> bool, purify: string -> string, outcome: Option<Thrown>)
    : FormState
  {
    var issues := Validate(st.values, emailOk);
    if issues != [] then st.(errors := issues)
    else AfterCreate(st.(errors := []), st.values, purify, outcome)
  }

  /** A submission makes exactly one create call, with the sanitised values, when
      validation passes, and none otherwise. */
  lemma SubmitCreatesOnlyWhenValid(
    st: FormState, emailOk: string -> bool, purify: string -> string, outcome: Option<Thrown>)
    ensures var after := AfterSubmit(st, emailOk, purify, outcome);
      after.createCalls == st.createCalls
        + (if Validate(st.values, emailOk) == [] then [SanitizeInput(st.values, purify)] else [])
  {
  }

  /** A refused submission only shows the failed checks. */
  lemma RefusedSubmitShowsErrors(
    st: FormState, emailOk: string -> bool, purify: string -> string, outcome: Option<Thrown>)
    requires Validate(st.values, emailOk) != []
    ensures AfterSubmit(st, emailOk, purify, outcome)
      == st.(errors := Validate(st.values, emailOk))
    ensures AfterSubmit(st, emailOk, purify, outcome).errors != []
  {
  }

  /** An accepted submission clears the errors shown and runs the submit handler on
      the values as they were. */
  lemma AcceptedSubmitCreates(
    st: FormState, emailOk: string -> bool, purify: string -> string, outcome: Option<Thrown>)
    requires Validate(st.values, emailOk) == []
    ensures AfterSubmit(st, emailOk, purify, outcome)
      == AfterCreate(st.(errors := []), st.values, purify, outcome)
  {
  }

  /** After a create call that succeeds, the form is back to its empty defaults with
      no error shown, the call made is recorded with the sanitised values, and the
      user is thanked after every earlier notification. */
  lemma CreateSuccessResets(st: FormState, submitted: ContactValues, purify: string -> string)
    ensures var after := AfterCreate(st, submitted, purify, None);
      && after.values == Defaults && after.errors == []
      && after.createCalls == st.createCalls + [SanitizeInput(submitted, purify)]
      && after.toasts == st.toasts + [ThankYou]
      && !after.toasts[|after.toasts| - 1].destructive
  {
  }

  /** After a create call that throws, the field values and the errors shown are
      untouched, and the notification carries the classified message. */
  lemma CreateFailureKeepsForm(
    st: FormState, submitted: ContactValues, purify: string -> string, e: Thrown)
    ensures var after := AfterCreate(st, submitted, purify, Some(e));
      && after.values == st.values && after.errors == st.errors
      && after.createCalls == st.createCalls + [SanitizeInput(submitted, purify)]
      && after.toasts == st.toasts + [ErrorToast(e)]
      && ErrorToast(e).title == Some("Submission Error")
      && ErrorToast(e).description == HandleServerError(e) && ErrorToast(e).destructive
  {
  }

  /** The form object of the page. */
  class ContactForm {
    const emailOk: string -> bool
    const purify: string -> string
    var values: ContactValues
    var errors: seq<Issue>
    var createCalls: seq<ContactValues>
    var toasts: seq<Toast>

    function State(): FormState
      reads this
    {
      FormState(values, errors, createCalls, toasts)
    }

    constructor (emailOk: string -> bool, purify: string -> string)
      ensures this.emailOk == emailOk && this.purify == purify
      ensures State() == FormState(Defaults, [], [], [])
    {
      this.emailOk := emailOk;
      this.purify := purify;
      values := Defaults;
      errors := [];
      createCalls := [];
      toasts := [];
    }

    /** The user changes what the fields hold. */
    method Edit(v: ContactValues)
      modifies this
      ensures State() == old(State()).(values := v)
    {
      values := v;
    }

    /** The submit handler. */
    method OnSubmit(submitted: ContactValues, outcome: Option<Thrown>)
      modifies this
      ensures State() == AfterCreate(old(State()), submitted, purify, outcome)
    {
      var sanitized := SanitizeInput(submitted, purify);
      createCalls := createCalls + [sanitized];
      match outcome
      case None =>
        toasts := toasts + [ThankYou];
        values := Defaults;
        errors := [];
      case Some(e) =>
        toasts := toasts + [ErrorToast(e)];
    }

    /** The form's submit event: validation, then the submit handler. */
    method HandleSubmit(outcome: Option<Thrown>)
      modifies this
      ensures State() == AfterSubmit(old(State()), emailOk, purify, outcome)
    {
      var issues := Validate(values, emailOk);
      if issues != [] {
        ShowIssues(issues, outcome);
      } else {
        SubmitAccepted(outcome);
      }
    }

    /** A refused submission: the failed checks are shown. */
    method ShowIssues(issues: seq<Issue>, outcome: Option<Thrown>)
      requires issues == Validate(values, emailOk) && issues != []
      modifies this
      ensures State() == AfterSubmit(old(State()), emailOk, purify, outcome)
    {
      RefusedSubmitShowsErrors(State(), emailOk, purify, outcome);
      errors := issues;
    }

    /** An accepted submission: the errors are cleared and the submit handler runs. */
    method SubmitAccepted(outcome: Option<Thrown>)
      requires Validate(values, emailOk) == []
      modifies this
      ensures State() == AfterSubmit(old(State()), emailOk, purify, outcome)
    {
      AcceptedSubmitCreates(State(), emailOk, purify, outcome);
      errors := [];
      OnSubmit(values, outcome);
    }
  }

  /** A form that has just been opened and is submitted as it is makes no create
      call and shows the name failure first. */
  method SubmitUntouchedForm(emailOk: string -> bool, purify: string -> string, outcome: Option<Thrown>)
    returns (calls: seq<ContactValues>, nameError: Option<string>)
    ensures calls == [] && nameError == Some(NameTooShort)
  {
    var form := new ContactForm(emailOk, purify);
    DefaultsRejected(emailOk);
    form.HandleSubmit(outcome);
    calls := form.createCalls;
    nameError := FieldError(form.errors, Name);
  }
}
