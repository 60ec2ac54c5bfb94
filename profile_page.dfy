/** The signed-in user's profile page (src/pages/profiles/ProfilePage.tsx):
    exact-match role and status switches, the profile load, the avatar
    upload, and what the page shows. */
module ProfilePage {
  import opened Wrappers
  import opened Http
  import opened Entities
  import CredentialStore
  import UserListPage
  import Text

  // ---------------------------------------------------------------- switches

  /** `value || '-'`. */
  function OrDash(value: Option<string>): string {
    if CredentialStore.Truthy(value) then value.value else "-"
  }

  /** `roleLabel`: exact lower-case matches; any other role shown as it is. */
  function RoleLabel(role: Option<string>): string {
    match role
    case Some("admin") => "Administrador"
    case Some("librarian") => "Bibliotecário"
    case Some("reader") => "Leitor"
    case _ => OrDash(role)
  }

  /** `statusLabel`. */
  function StatusLabel(status: Option<string>): string {
    match status
    case Some("active") => "Ativo"
    case Some("inactive") => "Inativo"
    case _ => OrDash(status)
  }

  /** `statusColor`. */
  function StatusColor(status: Option<string>): string {
    if status == Some("active") then "success" else "default"
  }

  /** An unrecognised role is shown verbatim, and `-` stands for a missing one. */
  lemma RoleLabelFallback(role: Option<string>)
    requires role !in {Some("admin"), Some("librarian"), Some("reader")}
    ensures CredentialStore.Truthy(role) ==> RoleLabel(role) == role.value
    ensures !CredentialStore.Truthy(role) ==> RoleLabel(role) == "-"
  {
  }

  lemma StatusLabelFallback(status: Option<string>)
    requires status !in {Some("active"), Some("inactive")}
    ensures CredentialStore.Truthy(status) ==> StatusLabel(status) == status.value
    ensures !CredentialStore.Truthy(status) ==> StatusLabel(status) == "-"
  {
  }

  /** Green goes with the "Ativo" label, except for a raw status that is
      itself the text "Ativo": it is shown as "Ativo" but not green. */
  lemma StatusColorOnlyActive(status: Option<string>)
    ensures StatusColor(status) == "success" <==> StatusLabel(status) == "Ativo" && status != Some("Ativo")
  {
  }

  /** On the lower-case roles the user list and the profile page agree ... */
  lemma AgreesWithUserListOnLowerCase(role: string)
    requires role == "admin" || role == "librarian" || role == "reader"
    ensures RoleLabel(Some(role)) == UserListPage.RoleLabel(Some(role))
  {
    UserListPage.UpperCaseRolesRecognised();
    assert Text.Lower("admin") == "admin";
    assert Text.Lower("librarian") == "librarian";
    assert Text.Lower("reader") == "reader";
  }

  /** ... but an upper-case role is translated on the list and shown raw here. */
  lemma DiffersFromUserListOnUpperCase()
    ensures RoleLabel(Some("ADMIN")) == "ADMIN"
    ensures UserListPage.RoleLabel(Some("ADMIN")) == "Administrador"
  {
    UserListPage.UpperCaseRolesRecognised();
  }

  // ---------------------------------------------------------------- display

  const LoadError := "Erro ao carregar perfil."
  const UploadError := "Erro ao enviar imagem."

  datatype View = Spinner | ErrorAlert(message: string) | Card(user: UserDto)

  /** The spinner while loading; then an alert for an error or a missing
      profile, with the load message when the error text is empty; then the card. */
  function ViewFor(loading: bool, error: string, user: Option<UserDto>): (v: View)
    ensures v.Spinner? <==> loading
    ensures v.ErrorAlert? <==> !loading && (error != "" || user.None?)
    ensures v.Card? <==> !loading && error == "" && user.Some?
    ensures v.ErrorAlert? ==> v.message == (if error != "" then error else LoadError) && v.message != ""
    ensures v.Card? ==> v.user == user.value
  {
    if loading then Spinner
    else if error != "" || user.None? then ErrorAlert(if error != "" then error else LoadError)
    else Card(user.value)
  }

  // ---------------------------------------------------------------- the page

  class Page {
    var user: Option<UserDto>
    var loading: bool
    var error: string
    var uploading: bool

    constructor()
      ensures user == None && loading && error == "" && !uploading
    {
      user := None;
      loading := true;
      error := "";
      uploading := false;
    }

    function Shown(): View
      reads this
    {
      ViewFor(loading, error, user)
    }

    /** The mount effect: `/users/me` fills the page or sets the load error. */
    method FetchMe(reply: Reply<UserDto>)
      modifies this
      ensures !loading && uploading == old(uploading)
      ensures reply.Ok? ==> user == Some(reply.value) && error == old(error)
      ensures reply.Fail? ==> user == old(user) && error == LoadError
    {
      match reply {
        case Ok(data) => user := Some(data);
        case Fail(_) => error := LoadError;
      }
      loading := false;
    }

    /** `handleAvatarChange`: nothing without a selected file; otherwise the
        uploaded profile replaces the shown one, or the upload error is set. */
    method HandleAvatarChange(fileSelected: bool, reply: Reply<UserDto>)
      modifies this
      ensures !fileSelected ==>
        user == old(user) && error == old(error) && uploading == old(uploading)
      ensures fileSelected ==> !uploading
      ensures fileSelected && reply.Ok? ==> user == Some(reply.value) && error == old(error)
      ensures fileSelected && reply.Fail? ==> user == old(user) && error == UploadError
      ensures loading == old(loading)
    {
      if !fileSelected {
        return;
      }
      uploading := true;
      match reply {
        case Ok(updated) => user := Some(updated);
        case Fail(_) => error := UploadError;
      }
      uploading := false;
    }
  }

  /** A failed upload does not merely report an error beside the profile: the
      error replaces the whole card until the page is reloaded. */
  method UploadFailureHidesProfile(p: Page, failure: HttpFailure)
    requires !p.loading && p.error == "" && p.user.Some?
    modifies p
    ensures old(p.Shown()).Card?
    ensures p.Shown() == ErrorAlert(UploadError)
  {
    p.HandleAvatarChange(true, Fail(failure));
  }
}
