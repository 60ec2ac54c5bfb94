/** The create/edit user form (src/pages/users/UserFormPage.tsx): a partial
    user record, the role/status normalisation applied on load and before
    saving, and the create-or-update submit. */
module UserFormPage {
  import opened Wrappers
  import opened Http
  import opened Text
  import opened Entities
  import FormMode
  import CredentialStore

  /** `Partial<UserDTO>` as the form holds it; `password` is a form field the
      record may carry. */
  datatype UserDraft = UserDraft(
    id: Option<int>,
    name: Option<string>,
    email: Option<string>,
    password: Option<string>,
    role: Option<string>,
    status: Option<string>)

  /** The fields the form's inputs are named after. */
  datatype Field = Name | Email | Password | Role | Status

  /** The blank form: empty name and e-mail, role `reader`, status `active`. */
  const InitialDraft := UserDraft(None, Some(""), Some(""), None, Some("reader"), Some("active"))

  /** A user as the API returns it, as a form record. */
  function DraftOf(u: UserDto): UserDraft {
    UserDraft(u.id, Some(u.name), Some(u.email), None, u.role, u.status)
  }

  /** `value ? value.toLowerCase() : fallback`. */
  function LowerOr(value: Option<string>, fallback: string): (r: string)
    ensures CredentialStore.Truthy(value) ==> r == Lower(value.value)
    ensures !CredentialStore.Truthy(value) ==> r == fallback
  {
    if CredentialStore.Truthy(value) then Lower(value.value) else fallback
  }

  /** `normalizeUserData`, and `prepareForApi`, which has the same body:
      lower-cases `role` and `status`, defaulting to `reader` and `active`,
      and copies everything else. */
  function Normalize(d: UserDraft): (r: UserDraft)
    ensures r.id == d.id && r.name == d.name && r.email == d.email && r.password == d.password
    ensures r.role.Some? && r.status.Some?
    ensures r.role.value == LowerOr(d.role, "reader") && r.status.value == LowerOr(d.status, "active")
  {
    d.(role := Some(LowerOr(d.role, "reader")), status := Some(LowerOr(d.status, "active")))
  }

  /** Lower-casing keeps a value truthy. */
  lemma LowerOrOfLower(value: Option<string>, fallback: string)
    requires fallback != "" && Lower(fallback) == fallback
    ensures LowerOr(Some(LowerOr(value, fallback)), fallback) == LowerOr(value, fallback)
  {
    if CredentialStore.Truthy(value) {
      LowerIdempotent(value.value);
    }
  }

  /** Normalising twice is normalising once. */
  lemma NormalizeIdempotent(d: UserDraft)
    ensures Normalize(Normalize(d)) == Normalize(d)
  {
    assert Lower("reader") == "reader";
    assert Lower("active") == "active";
    LowerOrOfLower(d.role, "reader");
    LowerOrOfLower(d.status, "active");
  }

  /** The blank form is already in normal form. */
  lemma InitialDraftNormal()
    ensures Normalize(InitialDraft) == InitialDraft
  {
    assert Lower("reader") == "reader";
    assert Lower("active") == "active";
  }

  /** A user loaded with an upper-case role shows the lower-case value the select offers. */
  lemma LoadedRoleLowered(u: UserDto)
    requires u.role == Some("ADMIN")
    ensures Normalize(DraftOf(u)).role == Some("admin")
  {
    assert Lower("ADMIN") == "admin";
  }

  function Get(d: UserDraft, f: Field): Option<string> {
    match f
    case Name => d.name
    case Email => d.email
    case Password => d.password
    case Role => d.role
    case Status => d.status
  }

  /** `{ ...prev, [name]: value }`. */
  function With(d: UserDraft, f: Field, value: string): (r: UserDraft)
    ensures Get(r, f) == Some(value)
    ensures forall g :: g != f ==> Get(r, g) == Get(d, g)
    ensures r.id == d.id
  {
    match f
    case Name => d.(name := Some(value))
    case Email => d.(email := Some(value))
    case Password => d.(password := Some(value))
    case Role => d.(role := Some(value))
    case Status => d.(status := Some(value))
  }

  const LoadError := "Erro ao carregar dados do usuário."
  const SaveError := "Erro ao salvar usuário."

  class Page {
    const routeId: Option<string>
    var user: UserDraft
    var loading: bool
    var saving: bool
    var error: string

    constructor(routeId: Option<string>)
      ensures this.routeId == routeId
      ensures user == InitialDraft && !loading && !saving && error == ""
    {
      this.routeId := routeId;
      user := InitialDraft;
      loading := false;
      saving := false;
      error := "";
    }

    /** The load effect: only an edit page fetches, and what it fetches is normalised. */
    method Load(reply: Reply<UserDto>) returns (requested: bool)
      modifies this
      ensures requested <==> FormMode.IsEdit(routeId)
      ensures !requested ==> user == old(user) && error == old(error) && loading == old(loading)
      ensures requested ==> !loading
      ensures requested && reply.Ok? ==> user == Normalize(DraftOf(reply.value)) && error == old(error)
      ensures requested && reply.Fail? ==> user == old(user) && error == LoadError
      ensures saving == old(saving)
    {
      requested := FormMode.IsEdit(routeId);
      if !requested {
        return;
      }
      loading := true;
      match reply {
        case Ok(data) => user := Normalize(DraftOf(data));
        case Fail(_) => error := LoadError;
      }
      loading := false;
    }

    /** `handleChange`. */
    method HandleChange(f: Field, value: string)
      modifies this
      ensures user == With(old(user), f, value)
      ensures loading == old(loading) && saving == old(saving) && error == old(error)
    {
      user := With(user, f, value);
    }

    /** `handleSubmit`: the normalised record goes to `update` on an edit page
        and to `create` otherwise; `toList` says whether the page navigates back. */
    method HandleSubmit(reply: Reply<()>) returns (call: FormMode.SaveCall<UserDraft>, toList: bool)
      modifies this
      ensures call == FormMode.SaveCallFor(routeId, Normalize(old(user)))
      ensures toList <==> reply.Ok?
      ensures error == (if reply.Ok? then "" else SaveError)
      ensures !saving && user == old(user) && loading == old(loading)
    {
      saving := true;
      error := "";
      call := FormMode.SaveCallFor(routeId, Normalize(user));
      toList := reply.Ok?;
      if reply.Fail? {
        error := SaveError;
      }
      saving := false;
    }
  }
}
