/**
 * The contact page's form: validation of the eight form fields, and the
 * small state machine that edits the form and submits it. What the network
 * answers is a parameter: `None` when the request threw, `Some(ok)` for
 * the response's `ok` flag.
 */
module ContactClient {
  import opened Common

  datatype Field = Name | Email | Company | Subject | Message | ProjectType | Budget | Timeline

  datatype FormData = FormData(
    name: string, email: string, company: string, subject: string,
    message: string, projectType: string, budget: string, timeline: string)
  {
    function Get(f: Field): string {
      match f
      case Name => name
      case Email => email
      case Company => company
      case Subject => subject
      case Message => message
      case ProjectType => projectType
      case Budget => budget
      case Timeline => timeline
    }

    /** `{ ...prev, [field]: value }`: only the edited field changes. */
    function With(f: Field, value: string): (r: FormData)
      ensures r.Get(f) == value
      ensures forall g :: g != f ==> r.Get(g) == Get(g)
    {
      match f
      case Name => this.(name := value)
      case Email => this.(email := value)
      case Company => this.(company := value)
      case Subject => this.(subject := value)
      case Message => this.(message := value)
      case ProjectType => this.(projectType := value)
      case Budget => this.(budget := value)
      case Timeline => this.(timeline := value)
    }
  }

  const EmptyForm := FormData("", "", "", "", "", "", "", "")

  datatype SubmitStatus = Idle | Success | Error

  // ---------------------------------------------------------------------
  // E-mail shape
  // ---------------------------------------------------------------------

  /** A character the class `[^\s@]` accepts. */
  predicate Plain(c: char) {
    !IsSpace(c) && c != '@'
  }

  predicate AllPlain(s: string) {
    forall i | 0 <= i < |s| :: Plain(s[i])
  }

  /** `s` splits as `[^\s@]+ @ [^\s@]+ \. [^\s@]+` with '@' at `i` and '.' at `j`. */
  predicate RegexSplit(s: string, i: int, j: int) {
    && 0 < i && i + 1 < j && j + 1 < |s|
    && s[i] == '@' && s[j] == '.'
    && AllPlain(s[..i]) && AllPlain(s[i + 1..j]) && AllPlain(s[j + 1..])
  }

  /** The anchored pattern `^[^\s@]+@[^\s@]+\.[^\s@]+$` matches `s`. */
  predicate EmailRegex(s: string) {
    exists i, j | 0 <= i < |s| && 0 <= j < |s| :: RegexSplit(s, i, j)
  }

  /**
   * The same language, said directly: no whitespace, exactly one '@', which
   * is not first, and a '.' after it that is neither next to it nor last.
   */
  predicate EmailLooksValid(s: string) {
    exists k | 0 < k < |s| ::
      && s[k] == '@'
      && (forall i | 0 <= i < |s| && i != k :: Plain(s[i]))
      && (exists j | k + 1 < j < |s| - 1 :: s[j] == '.')
  }

  lemma EmailRegexIff(s: string)
    ensures EmailRegex(s) <==> EmailLooksValid(s)
  {
    if EmailRegex(s) {
      var i, j :| 0 <= i < |s| && 0 <= j < |s| && RegexSplit(s, i, j);
      forall p | 0 <= p < |s| && p != i
        ensures Plain(s[p])
      {
        if p < i {
          assert s[..i][p] == s[p];
        } else if p < j {
          assert s[i + 1..j][p - i - 1] == s[p];
        } else if p > j {
          assert s[j + 1..][p - j - 1] == s[p];
        }
      }
    }
    if EmailLooksValid(s) {
      var k :| 0 < k < |s| && s[k] == '@'
        && (forall i | 0 <= i < |s| && i != k :: Plain(s[i]))
        && (exists j | k + 1 < j < |s| - 1 :: s[j] == '.');
      var j :| k + 1 < j < |s| - 1 && s[j] == '.';
      assert RegexSplit(s, k, j);
    }
  }

  // ---------------------------------------------------------------------
  // Validation
  // ---------------------------------------------------------------------

  predicate Blank(s: string) {
    Trim(s) == ""
  }

  /** The message `validateForm` records for one field, if any. */
  function FieldError(form: FormData, f: Field): Option<string> {
    match f
    case Name => if Blank(form.name) then Some("Name is required") else None
    case Email =>
      if Blank(form.email) then Some("Email is required")
      else if !EmailLooksValid(form.email) then Some("Please enter a valid email address")
      else None
    case Subject => if Blank(form.subject) then Some("Subject is required") else None
    case Message =>
      if Blank(form.message) then Some("Message is required")
      else if |Trim(form.message)| < 10 then Some("Message must be at least 10 characters long")
      else None
    case _ => None
  }

  const AllFields: set<Field> := {Name, Email, Company, Subject, Message, ProjectType, Budget, Timeline}
  const CheckedFields: set<Field> := {Name, Email, Subject, Message}

  /** Adds the field's message to the errors object when it has one. */
  function Record(e: map<Field, string>, f: Field, err: Option<string>): map<Field, string> {
    if err.Some? then e[f := err.value] else e
  }

  /** The errors object `validateForm` builds, field after field. */
  function FormErrors(form: FormData): (e: map<Field, string>)
    ensures e.Keys <= CheckedFields
  {
    var e1 := Record(map[], Name, FieldError(form, Name));
    var e2 := Record(e1, Email, FieldError(form, Email));
    var e3 := Record(e2, Subject, FieldError(form, Subject));
    Record(e3, Message, FieldError(form, Message))
  }

  /** The error of a checked field out of the four, `None` for the others. */
  function Pick(g: Field, name: Option<string>, email: Option<string>, subject: Option<string>, message: Option<string>): Option<string> {
    match g
    case Name => name
    case Email => email
    case Subject => subject
    case Message => message
    case _ => None
  }

  /** Recording the four fields in turn keeps exactly the fields with an error, each with its message. */
  lemma RecordFour(name: Option<string>, email: Option<string>, subject: Option<string>, message: Option<string>)
    ensures var m := Record(Record(Record(Record(map[], Name, name), Email, email), Subject, subject), Message, message);
      && (forall g :: g in m <==> Pick(g, name, email, subject, message).Some?)
      && (forall g :: g in m ==> m[g] == Pick(g, name, email, subject, message).value)
  {
  }

  /** It holds one entry per field that has an error, with that field's message. */
  lemma FormErrorsPerField(form: FormData)
    ensures forall f :: f in FormErrors(form) <==> FieldError(form, f).Some?
    ensures forall f :: f in FormErrors(form) ==> FormErrors(form)[f] == FieldError(form, f).value
  {
    var name, email := FieldError(form, Name), FieldError(form, Email);
    var subject, message := FieldError(form, Subject), FieldError(form, Message);
    RecordFour(name, email, subject, message);
    forall g ensures FieldError(form, g) == Pick(g, name, email, subject, message) {
      match g
      case Name =>
      case Email =>
      case Subject =>
      case Message =>
      case _ =>
    }
  }

  /** Only name, e-mail, subject and message decide the errors. */
  lemma ErrorsReadCheckedFields(a: FormData, b: FormData)
    requires a.name == b.name && a.email == b.email && a.subject == b.subject && a.message == b.message
    ensures FormErrors(a) == FormErrors(b)
  {
    assert forall g :: FieldError(a, g) == FieldError(b, g);
  }

  /** Company, project type, budget and timeline never get an error, whatever they hold. */
  lemma OnlyCheckedFieldsBlock(form: FormData, f: Field, value: string)
    ensures FormErrors(form).Keys <= CheckedFields
    ensures f !in CheckedFields ==> FormErrors(form.With(f, value)) == FormErrors(form)
  {
    if f !in CheckedFields {
      var form' := form.With(f, value);
      assert form'.Get(Name) == form.Get(Name) && form'.Get(Email) == form.Get(Email);
      assert form'.Get(Subject) == form.Get(Subject) && form'.Get(Message) == form.Get(Message);
      ErrorsReadCheckedFields(form', form);
    }
  }

  function RequiredMessage(f: Field): string
    requires f in CheckedFields
  {
    match f
    case Name => "Name is required"
    case Email => "Email is required"
    case Subject => "Subject is required"
    case Message => "Message is required"
  }

  /** A blank checked field gets its "is required" message, whatever else is wrong with it. */
  lemma BlankTakesPrecedence(form: FormData, f: Field)
    requires f in CheckedFields && Blank(form.Get(f))
    ensures f in FormErrors(form) && FormErrors(form)[f] == RequiredMessage(f)
  {
    FormErrorsPerField(form);
  }

  /** A non-blank e-mail is accepted exactly when the pattern matches it. */
  lemma EmailAcceptance(form: FormData)
    requires !Blank(form.email)
    ensures Email !in FormErrors(form) <==> EmailRegex(form.email)
  {
    EmailRegexIff(form.email);
  }

  /** A non-blank message is accepted exactly when its trimmed length is at least ten. */
  lemma MessageAcceptance(form: FormData)
    requires !Blank(form.message)
    ensures Message !in FormErrors(form) <==> |Trim(form.message)| >= 10
  {
  }

  /** The form left behind by a successful send does not validate. */
  lemma EmptyFormIsRejected()
    ensures FormErrors(EmptyForm).Keys == CheckedFields
  {
    assert Blank(EmptyForm.name) && Blank(EmptyForm.email);
    assert Blank(EmptyForm.subject) && Blank(EmptyForm.message);
  }

  // ---------------------------------------------------------------------
  // The component's state
  // ---------------------------------------------------------------------

  class ContactForm {
    var formData: FormData
    var errors: map<Field, string>
    var isSubmitting: bool
    var submitStatus: SubmitStatus

    constructor ()
      ensures formData == EmptyForm && errors == map[]
      ensures !isSubmitting && submitStatus == Idle
    {
      formData := EmptyForm;
      errors := map[];
      isSubmitting := false;
      submitStatus := Idle;
    }

    /**
     * `validateForm`: stores the errors object built field by field and
     * reports whether it stayed empty.
     */
    method ValidateForm() returns (ok: bool)
      modifies this
      ensures errors == FormErrors(formData)
      ensures ok <==> errors == map[]
      ensures formData == old(formData) && isSubmitting == old(isSubmitting)
      ensures submitStatus == old(submitStatus)
    {
      var newErrors := FormErrors(formData);
      errors := newErrors;
      EmptyMapIff(newErrors);
      ok := |newErrors| == 0;
    }

    /**
     * `handleInputChange`: the edited field takes the new value, and its
     * error, if it has a non-empty one, is cleared to "".
     */
    method HandleInputChange(f: Field, value: string)
      modifies this
      ensures formData == old(formData).With(f, value)
      ensures old(f in errors && errors[f] != "") ==> errors == old(errors)[f := ""]
      ensures old(f !in errors || errors[f] == "") ==> errors == old(errors)
      ensures isSubmitting == old(isSubmitting) && submitStatus == old(submitStatus)
    {
      formData := formData.With(f, value);
      if f in errors && errors[f] != "" {
        errors := errors[f := ""];
      }
    }

    /**
     * `handleSubmit`: validates first and sends nothing for an invalid form.
     * Otherwise it posts the form (`sent` is the body), and once the
     * response is in, it is no longer submitting; an ok response means
     * success and an emptied form, anything else (a failed response or a
     * thrown fetch) an error with the form kept.
     */
    method HandleSubmit(response: Option<bool>) returns (sent: Option<FormData>)
      modifies this
      ensures errors == FormErrors(old(formData))
      ensures errors != map[] ==>
        sent == None && formData == old(formData)
        && isSubmitting == old(isSubmitting) && submitStatus == old(submitStatus)
      ensures errors == map[] ==> sent == Some(old(formData)) && !isSubmitting
      ensures errors == map[] && response == Some(true) ==> submitStatus == Success && formData == EmptyForm
      ensures errors == map[] && response != Some(true) ==> submitStatus == Error && formData == old(formData)
    {
      var ok := ValidateForm();
      if !ok {
        return None;
      }
      isSubmitting := true;
      submitStatus := Idle;
      sent := Some(formData);
      if response == Some(true) {
        submitStatus := Success;
        formData := EmptyForm;
      } else {
        submitStatus := Error;
      }
      isSubmitting := false;
    }
  }

  /** Editing one field leaves every other field's value and error alone. */
  method EditLeavesOthers(c: ContactForm, f: Field, g: Field, value: string)
    requires g != f
    modifies c
    ensures c.formData.Get(g) == old(c.formData.Get(g))
    ensures g in c.errors <==> g in old(c.errors)
    ensures g in c.errors ==> c.errors[g] == old(c.errors[g])
  {
    c.HandleInputChange(f, value);
  }
}
