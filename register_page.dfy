/** The self-registration form (src/pages/auth/RegisterPage.tsx): its fields,
    the classification of a failed registration into one message, and the
    state a submit leaves behind. */
module RegisterPage {
  import opened Wrappers
  import opened Http
  import opened Text
  import Lists

  datatype Field = Name | Email | Password | Phone | Address | Role

  datatype RegisterForm = RegisterForm(
    name: string, email: string, password: string,
    phone: string, address: string, role: string)

  /** The blank form: empty text fields and the `READER` role. */
  const InitialForm := RegisterForm("", "", "", "", "", "READER")

  function Get(form: RegisterForm, f: Field): string {
    match f
    case Name => form.name
    case Email => form.email
    case Password => form.password
    case Phone => form.phone
    case Address => form.address
    case Role => form.role
  }

  /** `{ ...prev, [name]: value }`: the named field takes the value, every other keeps its own. */
  function With(form: RegisterForm, f: Field, value: string): (r: RegisterForm)
    ensures Get(r, f) == value
    ensures forall g :: g != f ==> Get(r, g) == Get(form, g)
  {
    match f
    case Name => form.(name := value)
    case Email => form.(email := value)
    case Password => form.(password := value)
    case Phone => form.(phone := value)
    case Address => form.(address := value)
    case Role => form.(role := value)
  }

  /** Setting a field back to the value it had leaves the form as it was. */
  lemma WithOwnValue(form: RegisterForm, f: Field)
    ensures With(form, f, Get(form, f)) == form
  {
  }

  // ---------------------------------------------------------------- error message

  const ConflictMessage := "E-mail já cadastrado."
  const GenericMessage := "Erro ao registrar. Tente novamente."

  /** `${e.field}: ${e.message}`. */
  function Describe(e: FieldError): string {
    e.field + ": " + e.message
  }

  /** The message a failed registration shows: 409 first, then the server's
      field-error list (present, even when empty), then the generic text. */
  function ErrorMessage(f: HttpFailure): string {
    if f.status == Some(409) then ConflictMessage
    else if f.errors.Some? then Join(Lists.Map(f.errors.value, Describe), ", ")
    else GenericMessage
  }

  /** A 409 wins over any field-error list the body carries. */
  lemma ConflictWins(errors: Option<seq<FieldError>>)
    ensures ErrorMessage(HttpFailure(Some(409), errors)) == ConflictMessage
  {
  }

  /** A failure with neither a 409 nor a field-error list (a network error
      among them) shows the generic text. */
  lemma GenericOtherwise(status: Option<int>)
    requires status != Some(409)
    ensures ErrorMessage(HttpFailure(status, None)) == GenericMessage
  {
  }

  /** One field error reads "field: message". */
  lemma SingleFieldError(status: Option<int>, e: FieldError)
    requires status != Some(409)
    ensures ErrorMessage(HttpFailure(status, Some([e]))) == e.field + ": " + e.message
  {
    assert Lists.Map([e], Describe) == [Describe(e)];
  }

  /** Two lists of field errors give their two messages joined by ", ", in list order. */
  lemma FieldErrorsConcatenate(status: Option<int>, a: seq<FieldError>, b: seq<FieldError>)
    requires status != Some(409) && |a| > 0 && |b| > 0
    ensures ErrorMessage(HttpFailure(status, Some(a + b)))
         == ErrorMessage(HttpFailure(status, Some(a))) + ", " + ErrorMessage(HttpFailure(status, Some(b)))
  {
    assert Lists.Map(a + b, Describe) == Lists.Map(a, Describe) + Lists.Map(b, Describe);
    JoinAppend(Lists.Map(a, Describe), Lists.Map(b, Describe), ", ");
  }

  /** An empty field-error list is still a list: the message is empty, so the
      page shows no error at all. */
  lemma EmptyFieldErrorsShowNothing(status: Option<int>)
    requires status != Some(409)
    ensures ErrorMessage(HttpFailure(status, Some([]))) == ""
  {
  }

  // ---------------------------------------------------------------- the page

  class Page {
    var form: RegisterForm
    var success: bool
    var error: string
    var saving: bool

    constructor()
      ensures form == InitialForm && !success && error == "" && !saving
    {
      form := InitialForm;
      success := false;
      error := "";
      saving := false;
    }

    /** `handleChange`. */
    method HandleChange(f: Field, value: string)
      modifies this
      ensures form == With(old(form), f, value)
      ensures success == old(success) && error == old(error) && saving == old(saving)
    {
      form := With(form, f, value);
    }

    /** `handleSubmit`: `sent` is the form posted to `/auth/register`,
        `toLogin` whether the delayed redirect to the login page is scheduled. */
    method HandleSubmit(reply: Reply<()>) returns (sent: RegisterForm, toLogin: bool)
      modifies this
      ensures sent == old(form) && !saving
      ensures success <==> reply.Ok?
      ensures toLogin <==> reply.Ok?
      ensures reply.Ok? ==> form == InitialForm && error == ""
      ensures reply.Fail? ==> form == old(form) && error == ErrorMessage(reply.failure)
    {
      saving := true;
      success := false;
      error := "";
      sent := form;
      match reply {
        case Ok(_) =>
          success := true;
          form := InitialForm;
          toLogin := true;
        case Fail(failure) =>
          error := ErrorMessage(failure);
          toLogin := false;
      }
      saving := false;
    }
  }
}
