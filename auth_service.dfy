/** The stateless session helpers of src/services/authService.ts: they read
    and write the "token" and "user" keys of the browser store directly. */
module AuthService {
  import opened Wrappers
  import opened Http
  import opened Entities
  import opened CredentialStore
  import ProfileJson

  /** What `getCurrentUser` yields: `null` for a missing or empty entry, the
      parsed profile, or the exception `JSON.parse` throws on other text. */
  datatype Current = Absent | Present(user: User) | Malformed

  /** `getCurrentUser` on a snapshot of the store. */
  function CurrentUserOf(items: map<string, string>): (r: Current)
    ensures r.Absent? <==> !Truthy(Lookup(items, UserKey))
    ensures r.Present? ==> UserKey in items && items[UserKey] == ProfileJson.Serialize(r.user)
  {
    var text := Lookup(items, UserKey);
    if !Truthy(text) then Absent
    else match ProfileJson.Parse(text.value)
      case Some(u) => (ProfileJson.ParseSerialize(u); ParsedIsSerialized(text.value, u); Present(u))
      case None => Malformed
  }

  /** Text that parses as a profile is exactly that profile's serialisation. */
  lemma ParsedIsSerialized(s: string, u: User)
    requires ProfileJson.Parse(s) == Some(u)
    ensures s == ProfileJson.Serialize(u)
  {
    ProfileJson.ParseOnlySerialized(s);
  }

  method GetToken(store: Storage) returns (r: Option<string>)
    ensures r == Lookup(store.items, TokenKey)
  {
    r := store.GetItem(TokenKey);
  }

  method GetCurrentUser(store: Storage) returns (r: Current)
    ensures r == CurrentUserOf(store.items)
  {
    var text := store.GetItem(UserKey);
    if text.None? || text.value == "" {
      return Absent;
    }
    match ProfileJson.Parse(text.value) {
      case Some(u) => r := Present(u);
      case None => r := Malformed;
    }
  }

  /** `logout`: removes both keys and nothing else. */
  method Logout(store: Storage)
    modifies store
    ensures store.items == WithoutSession(old(store.items))
  {
    store.RemoveItem(TokenKey);
    store.RemoveItem(UserKey);
  }

  /** `login`: the token is stored as soon as `/auth/login` answers, before
      the profile is asked for; only a profile that arrives is stored, and it
      is what the call resolves with. Either failure rejects the call. */
  method Login(store: Storage, loginReply: Reply<string>, profileReply: Reply<User>)
    returns (r: Reply<User>)
    modifies store
    ensures loginReply.Fail? ==> r == Fail(loginReply.failure) && store.items == old(store.items)
    ensures loginReply.Ok? && profileReply.Fail? ==>
      r == Fail(profileReply.failure)
      && store.items == old(store.items)[TokenKey := loginReply.value]
    ensures loginReply.Ok? && profileReply.Ok? ==>
      r == Ok(profileReply.value)
      && store.items == old(store.items)[TokenKey := loginReply.value]
                                        [UserKey := ProfileJson.Serialize(profileReply.value)]
  {
    match loginReply {
      case Fail(f) =>
        return Fail(f);
      case Ok(t) =>
        store.SetItem(TokenKey, t);
    }
    match profileReply {
      case Fail(f) =>
        r := Fail(f);
      case Ok(profile) =>
        store.SetItem(UserKey, ProfileJson.Serialize(profile));
        r := Ok(profile);
    }
  }

  // ---------------------------------------------------------------- properties

  /** After a logout both getters report nothing. */
  lemma NothingAfterLogout(items: map<string, string>)
    ensures Lookup(WithoutSession(items), TokenKey) == None
    ensures CurrentUserOf(WithoutSession(items)) == Absent
  {
  }

  /** The profile a successful login stores is the one `getCurrentUser` reads back. */
  lemma CurrentUserAfterLogin(items: map<string, string>, t: string, u: User)
    ensures CurrentUserOf(items[TokenKey := t][UserKey := ProfileJson.Serialize(u)]) == Present(u)
    ensures Lookup(items[TokenKey := t][UserKey := ProfileJson.Serialize(u)], TokenKey) == Some(t)
  {
    ProfileJson.ParseSerialize(u);
    assert ProfileJson.Serialize(u) != "" by {
      assert ProfileJson.Serialize(u)[0] == '{';
    }
  }

  /** A failed profile request leaves the token stored and the previous
      "user" entry, if any, in place. */
  lemma ProfileFailureKeepsOldUser(items: map<string, string>, t: string)
    ensures Lookup(items[TokenKey := t], TokenKey) == Some(t)
    ensures CurrentUserOf(items[TokenKey := t]) == CurrentUserOf(items)
  {
    assert Lookup(items[TokenKey := t], UserKey) == Lookup(items, UserKey);
  }

  /** Logging in and then reading the store back: the session is the one the
      login resolved with. */
  method LoginThenRead(store: Storage, loginReply: Reply<string>, profileReply: Reply<User>)
    returns (r: Reply<User>, token: Option<string>, current: Current)
    modifies store
    ensures r.Ok? ==> loginReply.Ok? && token == Some(loginReply.value) && current == Present(r.value)
    ensures loginReply.Fail? ==> token == old(Lookup(store.items, TokenKey))
  {
    r := Login(store, loginReply, profileReply);
    if r.Ok? {
      CurrentUserAfterLogin(old(store.items), loginReply.value, r.value);
    }
    token := GetToken(store);
    current := GetCurrentUser(store);
  }
}
