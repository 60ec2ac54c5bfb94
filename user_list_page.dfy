/** The user list (src/pages/users/UserListPage.tsx): case-insensitive role
    and status switches, and the delete handler. */
module UserListPage {
  import opened Wrappers
  import opened Http
  import opened Text
  import opened Entities
  import Lists

  // ---------------------------------------------------------------- switches

  /** `getRoleLabel`: switches on `role?.toLowerCase()`; an absent or unknown role is a plain user. */
  function RoleLabel(role: Option<string>): string {
    if role.None? then "Usuário"
    else match Lower(role.value)
      case "admin" => "Administrador"
      case "librarian" => "Bibliotecário"
      case "reader" => "Leitor"
      case _ => "Usuário"
  }

  /** `getRoleColor`. */
  function RoleColor(role: Option<string>): string {
    if role.None? then "default"
    else match Lower(role.value)
      case "admin" => "secondary"
      case "librarian" => "primary"
      case _ => "default"
  }

  /** `getStatusLabel`. */
  function StatusLabel(status: Option<string>): string {
    if status.None? then "-"
    else match Lower(status.value)
      case "active" => "Ativo"
      case "inactive" => "Inativo"
      case _ => "-"
  }

  /** `getStatusColor`. */
  function StatusColor(status: Option<string>): string {
    if status.Some? && Lower(status.value) == "active" then "success" else "default"
  }

  /** The switches see a role or status only through its lower-case form, so
      they give the same answer whatever the case it is written in. */
  lemma SwitchesIgnoreCase(s: string)
    ensures RoleLabel(Some(Upper(s))) == RoleLabel(Some(s))
    ensures RoleColor(Some(Upper(s))) == RoleColor(Some(s))
    ensures StatusLabel(Some(Upper(s))) == StatusLabel(Some(s))
    ensures StatusColor(Some(Upper(s))) == StatusColor(Some(s))
  {
    LowerOfUpper(s);
  }

  /** The upper-case roles the API may send are recognised. */
  lemma UpperCaseRolesRecognised()
    ensures RoleLabel(Some("ADMIN")) == "Administrador"
    ensures RoleLabel(Some("LIBRARIAN")) == "Bibliotecário"
    ensures RoleLabel(Some("READER")) == "Leitor"
  {
    assert Lower("ADMIN") == "admin";
    assert Lower("LIBRARIAN") == "librarian";
    assert Lower("READER") == "reader";
  }

  /** The colour singles out exactly the administrators and the librarians. */
  lemma RoleColorFollowsLabel(role: Option<string>)
    ensures RoleColor(role) == "secondary" <==> RoleLabel(role) == "Administrador"
    ensures RoleColor(role) == "primary" <==> RoleLabel(role) == "Bibliotecário"
  {
  }

  /** Only a recognised status gets a label, and only an active one is green. */
  lemma StatusColorFollowsLabel(status: Option<string>)
    ensures StatusColor(status) == "success" <==> StatusLabel(status) == "Ativo"
    ensures StatusLabel(None) == "-" && RoleLabel(None) == "Usuário"
  {
  }

  // ---------------------------------------------------------------- delete filter

  /** `prev.filter(user => user.id !== id)`: users without an id are kept. */
  function WithoutUser(users: seq<UserDto>, id: int): seq<UserDto> {
    Lists.Filter(users, (u: UserDto) => u.id != Some(id))
  }

  lemma WithoutUserRemovesExactly(users: seq<UserDto>, id: int)
    ensures forall i :: 0 <= i < |WithoutUser(users, id)| ==> WithoutUser(users, id)[i].id != Some(id)
    ensures forall i :: 0 <= i < |WithoutUser(users, id)| ==> WithoutUser(users, id)[i] in users
    ensures forall i :: 0 <= i < |users| && users[i].id != Some(id) ==> users[i] in WithoutUser(users, id)
  {
  }

  lemma WithoutUserKeepsOrder(front: seq<UserDto>, back: seq<UserDto>, id: int)
    ensures WithoutUser(front + back, id) == WithoutUser(front, id) + WithoutUser(back, id)
  {
    Lists.FilterAppend(front, back, (u: UserDto) => u.id != Some(id));
  }

  /** Deleting the same id twice is deleting it once. */
  lemma WithoutUserTwice(users: seq<UserDto>, id: int)
    ensures WithoutUser(WithoutUser(users, id), id) == WithoutUser(users, id)
  {
    Lists.FilterIdempotent(users, (u: UserDto) => u.id != Some(id));
  }

  /** A delete shortens the list by exactly the number of users carrying that id. */
  lemma WithoutUserCount(users: seq<UserDto>, id: int)
    ensures |WithoutUser(users, id)| + |Lists.Filter(users, (u: UserDto) => u.id == Some(id))| == |users|
  {
    Lists.FilterSplitsLength(users, (u: UserDto) => u.id != Some(id), (u: UserDto) => u.id == Some(id));
  }

  // ---------------------------------------------------------------- the page

  const LoadError := "Erro ao carregar usuários."
  const DeleteSuccess := "Usuário excluído com sucesso!"
  const DeleteError := "Erro ao excluir usuário."

  class Page {
    var users: seq<UserDto>
    var loading: bool
    var error: string
    var success: string
    var openSnackbar: bool
    var actionLoadingId: Option<int>

    constructor()
      ensures users == [] && loading && error == "" && success == ""
      ensures !openSnackbar && actionLoadingId == None
    {
      users := [];
      loading := true;
      error := "";
      success := "";
      openSnackbar := false;
      actionLoadingId := None;
    }

    /** `loadUsers`. */
    method LoadUsers(reply: Reply<seq<UserDto>>)
      modifies this
      ensures !loading
      ensures reply.Ok? ==> users == reply.value && error == ""
      ensures reply.Fail? ==> users == old(users) && error == LoadError
      ensures success == old(success) && openSnackbar == old(openSnackbar)
      ensures actionLoadingId == old(actionLoadingId)
    {
      loading := true;
      match reply {
        case Ok(data) =>
          users := data;
          error := "";
        case Fail(_) =>
          error := LoadError;
      }
      loading := false;
    }

    /** `handleDelete`. */
    method HandleDelete(id: int, confirmed: bool, reply: Reply<()>)
      modifies this
      ensures !confirmed ==>
        users == old(users) && error == old(error) && success == old(success)
        && actionLoadingId == old(actionLoadingId) && openSnackbar == old(openSnackbar)
      ensures confirmed ==> actionLoadingId == None
      ensures confirmed && reply.Ok? ==>
        users == WithoutUser(old(users), id) && success == DeleteSuccess && openSnackbar
        && error == old(error)
      ensures confirmed && reply.Fail? ==>
        users == old(users) && error == DeleteError && success == old(success)
        && openSnackbar == old(openSnackbar)
      ensures loading == old(loading)
    {
      if !confirmed {
        return;
      }
      actionLoadingId := Some(id);
      match reply {
        case Ok(_) =>
          users := WithoutUser(users, id);
          success := DeleteSuccess;
          openSnackbar := true;
        case Fail(_) =>
          error := DeleteError;
      }
      actionLoadingId := None;
    }

    /** The delete button of a row: `user.id !== undefined && handleDelete(user.id)`. */
    method ClickDelete(row: UserDto, confirmed: bool, reply: Reply<()>)
      modifies this
      ensures row.id.None? || !confirmed ==>
        users == old(users) && error == old(error) && success == old(success)
        && actionLoadingId == old(actionLoadingId) && openSnackbar == old(openSnackbar)
      ensures row.id.Some? && confirmed ==> actionLoadingId == None
      ensures row.id.Some? && confirmed && reply.Ok? ==>
        users == WithoutUser(old(users), row.id.value) && success == DeleteSuccess && openSnackbar
        && error == old(error)
      ensures row.id.Some? && confirmed && reply.Fail? ==>
        users == old(users) && error == DeleteError && success == old(success)
        && openSnackbar == old(openSnackbar)
      ensures loading == old(loading)
    {
      if row.id.Some? {
        HandleDelete(row.id.value, confirmed, reply);
      }
    }
  }
}
