/** The contact form (components/contact-form.tsx): the schema, the default values,
    the submit status machine and the submit button. */
module Contact {
  import opened Types

  datatype Field = FirstName | LastName | Email | Subject | Message | Privacy

  datatype FieldError = FieldError(field: Field, message: string)

  /** The error the schema attaches to a field. */
  function ErrorFor(f: Field): FieldError
  {
    match f
    case FirstName => FieldError(FirstName, "First name must be at least 2 characters")
    case LastName => FieldError(LastName, "Last name must be at least 2 characters")
    case Email => FieldError(Email, "Please enter a valid email address")
    case Subject => FieldError(Subject, "Please select a subject")
    case Message => FieldError(Message, "Message must be at least 10 characters")
    case Privacy => FieldError(Privacy, "You must agree to the privacy policy")
  }

  /** JavaScript's `length`, which zod's `min` compares: the number of UTF-16 code units,
      two for each character above U+FFFF and one for every other character. */
  function Utf16Length(s: string): (n: nat)
    ensures |s| <= n <= 2 * |s|
    ensures n == 0 <==> s == []
  {
    if s == [] then 0 else (if s[0] as int > 0xFFFF then 2 else 1) + Utf16Length(s[1..])
  }

  /** On text without characters above U+FFFF the two lengths agree. */
  lemma {:induction false} Utf16LengthBmp(s: string)
    requires forall i :: 0 <= i < |s| ==> s[i] as int <= 0xFFFF
    ensures Utf16Length(s) == |s|
  {
    if s != [] {
      assert forall i :: 0 <= i < |s[1..]| ==> s[1..][i] == s[i + 1];
      Utf16LengthBmp(s[1..]);
    }
  }

  /** The rule the schema checks for a field. Whether a string is an email address is
      decided by the validation library; `isEmail` stands for that decision. */
  predicate Passes(d: ContactFormData, f: Field, isEmail: string -> bool)
  {
    match f
    case FirstName => Utf16Length(d.firstName) >= 2
    case LastName => Utf16Length(d.lastName) >= 2
    case Email => isEmail(d.email)
    case Subject => Utf16Length(d.subject) >= 1
    case Message => Utf16Length(d.message) >= 10
    case Privacy => d.privacy
  }

  /** A single emoji is two code units long, so it is an acceptable first name. */
  lemma EmojiFirstName(d: ContactFormData, isEmail: string -> bool)
    requires d.firstName == "\U{1F600}"
    ensures Passes(d, FirstName, isEmail)
  {
    assert Utf16Length(d.firstName) == 2 + Utf16Length(d.firstName[1..]);
  }

  const FieldOrder: seq<Field> := [FirstName, LastName, Email, Subject, Message, Privacy]

  /** The errors of every failing field, in the order the schema declares the fields. */
  function Errors(fields: seq<Field>, d: ContactFormData, isEmail: string -> bool): (r: seq<FieldError>)
    ensures |r| <= |fields|
    ensures forall e :: e in r ==> exists f :: f in fields && !Passes(d, f, isEmail) && e == ErrorFor(f)
  {
    if fields == [] then []
    else (if Passes(d, fields[0], isEmail) then [] else [ErrorFor(fields[0])]) + Errors(fields[1..], d, isEmail)
  }

  /** What `contactSchema` reports for a form. */
  function ValidationErrors(d: ContactFormData, isEmail: string -> bool): seq<FieldError>
  {
    Errors(FieldOrder, d, isEmail)
  }

  predicate IsValid(d: ContactFormData, isEmail: string -> bool)
  {
    ValidationErrors(d, isEmail) == []
  }

  lemma {:induction false} ErrorsReport(fields: seq<Field>, d: ContactFormData, isEmail: string -> bool, f: Field)
    ensures ErrorFor(f) in Errors(fields, d, isEmail) <==> f in fields && !Passes(d, f, isEmail)
  {
    if fields != [] {
      ErrorsReport(fields[1..], d, isEmail, f);
      assert ErrorFor(fields[0]).field == fields[0];
      assert ErrorFor(f).field == f;
    }
  }

  /** A field's message is shown exactly when its rule fails. */
  lemma FieldErrorShown(d: ContactFormData, isEmail: string -> bool, f: Field)
    ensures ErrorFor(f) in ValidationErrors(d, isEmail) <==> !Passes(d, f, isEmail)
  {
    ErrorsReport(FieldOrder, d, isEmail, f);
  }

  /** The form is valid exactly when every rule holds. */
  lemma ValidIff(d: ContactFormData, isEmail: string -> bool)
    ensures IsValid(d, isEmail) <==>
      && Utf16Length(d.firstName) >= 2 && Utf16Length(d.lastName) >= 2 && isEmail(d.email)
      && d.subject != [] && Utf16Length(d.message) >= 10 && d.privacy
  {
    FieldErrorShown(d, isEmail, FirstName);
    FieldErrorShown(d, isEmail, LastName);
    FieldErrorShown(d, isEmail, Email);
    FieldErrorShown(d, isEmail, Subject);
    FieldErrorShown(d, isEmail, Message);
    FieldErrorShown(d, isEmail, Privacy);
    if !IsValid(d, isEmail) {
      var e := ValidationErrors(d, isEmail)[0];
      assert e in ValidationErrors(d, isEmail);
      var f :| f in FieldOrder && !Passes(d, f, isEmail) && e == ErrorFor(f);
      match f {
        case FirstName =>
        case LastName =>
        case Email =>
        case Subject =>
        case Message =>
        case Privacy =>
      }
    }
  }

  const DefaultValues := ContactFormData("", "", "", "", "", false)

  /** The empty form never passes, whatever the email check says: the names are too
      short, there is no subject or message, and privacy is not agreed to. */
  lemma DefaultValuesInvalid(isEmail: string -> bool)
    ensures !IsValid(DefaultValues, isEmail)
    ensures ErrorFor(FirstName) in ValidationErrors(DefaultValues, isEmail)
    ensures ErrorFor(LastName) in ValidationErrors(DefaultValues, isEmail)
    ensures ErrorFor(Subject) in ValidationErrors(DefaultValues, isEmail)
    ensures ErrorFor(Message) in ValidationErrors(DefaultValues, isEmail)
    ensures ErrorFor(Privacy) in ValidationErrors(DefaultValues, isEmail)
  {
    FieldErrorShown(DefaultValues, isEmail, FirstName);
    FieldErrorShown(DefaultValues, isEmail, LastName);
    FieldErrorShown(DefaultValues, isEmail, Subject);
    FieldErrorShown(DefaultValues, isEmail, Message);
    FieldErrorShown(DefaultValues, isEmail, Privacy);
  }

  /** The errors of fields other than `f`. */
  function OtherFields(es: seq<FieldError>, f: Field): (r: seq<FieldError>)
    ensures forall e :: e in r <==> e in es && e.field != f
  {
    if es == [] then [] else (if es[0].field == f then [] else [es[0]]) + OtherFields(es[1..], f)
  }

  /** Re-validation of one edited field: its error is recomputed from the new values and
      every other field keeps the error it had. */
  function Refreshed(es: seq<FieldError>, f: Field, d: ContactFormData, isEmail: string -> bool): (r: seq<FieldError>)
    ensures ErrorFor(f) in r <==> !Passes(d, f, isEmail)
    ensures forall e :: e in r && e.field == f ==> e == ErrorFor(f)
    ensures forall e: FieldError :: e.field != f ==> (e in r <==> e in es)
  {
    assert ErrorFor(f).field == f;
    OtherFields(es, f) + (if Passes(d, f, isEmail) then [] else [ErrorFor(f)])
  }

  datatype Status = Idle | Success | Error

  /** The four faces of the submit button, in the priority order the markup tests them. */
  datatype Face = Sending | Sent | Failed | Ready

  function ButtonFace(isSubmitting: bool, status: Status): (face: Face)
    ensures face == Sending <==> isSubmitting
    ensures face == Sent <==> !isSubmitting && status == Success
    ensures face == Failed <==> !isSubmitting && status == Error
    ensures face == Ready <==> !isSubmitting && status == Idle
  {
    if isSubmitting then Sending
    else
      match status
      case Success => Sent
      case Error => Failed
      case Idle => Ready
  }

  function Label(face: Face): string
  {
    match face
    case Sending => "Sending..."
    case Sent => "Message Sent!"
    case Failed => "Failed to Send"
    case Ready => "Send Message"
  }

  function Background(face: Face): string
  {
    match face
    case Sending => "bg-gray-400 cursor-not-allowed"
    case Sent => "bg-green-600 hover:bg-green-700"
    case Failed => "bg-red-600 hover:bg-red-700"
    case Ready => "bg-blue-600 hover:bg-blue-700"
  }

  /** The button's `className` ternary, tested in the same order as the label's. */
  function ButtonClass(isSubmitting: bool, status: Status): (c: string)
    ensures c == Background(ButtonFace(isSubmitting, status))
    ensures c == "bg-gray-400 cursor-not-allowed" <==> isSubmitting
    ensures c == "bg-green-600 hover:bg-green-700" <==> !isSubmitting && status == Success
    ensures c == "bg-red-600 hover:bg-red-700" <==> !isSubmitting && status == Error
    ensures c == "bg-blue-600 hover:bg-blue-700" <==> !isSubmitting && status == Idle
  {
    if isSubmitting then "bg-gray-400 cursor-not-allowed"
    else if status == Success then "bg-green-600 hover:bg-green-700"
    else if status == Error then "bg-red-600 hover:bg-red-700"
    else "bg-blue-600 hover:bg-blue-700"
  }

  /** The button is disabled exactly while it reads "Sending...". */
  lemma DisabledIffSending(isSubmitting: bool, status: Status)
    ensures isSubmitting <==> Label(ButtonFace(isSubmitting, status)) == "Sending..."
  {
  }

  /** The state of `ContactForm`: its hooks and the form's current values and errors.
      `submitted` is the form library's record that a submit has been attempted; from
      then on (its default re-validation on change) every edit re-validates the edited field. */
  class ContactForm {
    var isSubmitting: bool
    var submitStatus: Status
    var values: ContactFormData
    var errors: seq<FieldError>
    var submitted: bool

    constructor ()
      ensures !isSubmitting && submitStatus == Idle && values == DefaultValues && errors == []
      ensures !submitted
    {
      submitted := false;
      isSubmitting := false;
      submitStatus := Idle;
      values := DefaultValues;
      errors := [];
    }

    /** The user edits field `f`, giving the values `d`. Before the first submit the errors
        stay as they are; after it the edited field's error follows its rule. */
    method Edit(f: Field, d: ContactFormData, isEmail: string -> bool)
      modifies this`values, this`errors
      ensures values == d
      ensures !submitted ==> errors == old(errors)
      ensures submitted ==> errors == Refreshed(old(errors), f, d, isEmail)
    {
      values := d;
      if submitted {
        errors := Refreshed(errors, f, d, isEmail);
      }
    }

    /** The start of `onSubmit`, before the simulated delay. */
    method BeginSubmit()
      modifies this`isSubmitting, this`submitStatus
      ensures isSubmitting && submitStatus == Idle
    {
      isSubmitting := true;
      submitStatus := Idle;
    }

    /** The end of `onSubmit`: `succeeded` stands for the random draw. Success resets the form. */
    method FinishSubmit(succeeded: bool)
      modifies this`isSubmitting, this`submitStatus, this`values, this`errors
      ensures !isSubmitting
      ensures submitStatus == if succeeded then Success else Error
      ensures values == if succeeded then DefaultValues else old(values)
      ensures errors == if succeeded then [] else old(errors)
    {
      if succeeded {
        submitStatus := Success;
        values := DefaultValues;
        errors := [];
      } else {
        submitStatus := Error;
      }
      isSubmitting := false;
    }

    /** `handleSubmit(onSubmit)`: validates, and runs `onSubmit` only for a valid form. */
    method HandleSubmit(isEmail: string -> bool, succeeded: bool)
      modifies this
      ensures submitted
      ensures !IsValid(old(values), isEmail) ==>
        && errors == ValidationErrors(old(values), isEmail)
        && submitStatus == old(submitStatus) && values == old(values) && isSubmitting == old(isSubmitting)
      ensures IsValid(old(values), isEmail) ==>
        && !isSubmitting
        && submitStatus == (if succeeded then Success else Error)
        && values == (if succeeded then DefaultValues else old(values))
        && errors == []
    {
      errors := ValidationErrors(values, isEmail);
      if errors == [] {
        BeginSubmit();
        FinishSubmit(succeeded);
      }
      submitted := true;
    }
  }
}
