/** The session controller mounted by the application
    (src/components/contexts/AuthContext.tsx): `user`, `token` and `loading`
    state, kept in step with the "token" and "user" keys of the browser store.
    Each asynchronous handler is one method: the server's answers come in as
    `Reply` parameters, the decoded `exp` claim as `Option<int>` and the clock
    as `now`. */
module AuthContext {
  import opened Wrappers
  import opened Http
  import opened Text
  import opened Entities
  import opened CredentialStore
  import ProfileJson
  import Token

  // ---------------------------------------------------------------- derived flags

  /** `!!user`. */
  predicate IsAuthenticated(user: Option<User>) {
    user.Some?
  }

  /** `user?.role?.toUpperCase() === 'ADMIN'`. */
  predicate IsAdmin(user: Option<User>) {
    user.Some? && user.value.role.Some? && Upper(user.value.role.value) == "ADMIN"
  }

  /** `user?.role?.toUpperCase() === 'LIBRARIAN' || isAdmin`. */
  predicate IsLibrarian(user: Option<User>) {
    (user.Some? && user.value.role.Some? && Upper(user.value.role.value) == "LIBRARIAN")
    || IsAdmin(user)
  }

  /** The admin flag is a case-insensitive comparison of the role with "admin". */
  lemma AdminIgnoresCase(u: User)
    ensures IsAdmin(Some(u)) <==> u.role.Some? && Lower(u.role.value) == "admin"
  {
    assert Upper("admin") == "ADMIN";
    assert Lower("admin") == "admin";
    if u.role.Some? {
      SameUpperIffSameLower(u.role.value, "admin");
    }
  }

  /** Every admin is a librarian and every librarian is signed in. */
  lemma FlagsNested(user: Option<User>)
    ensures IsAdmin(user) ==> IsLibrarian(user)
    ensures IsLibrarian(user) ==> IsAuthenticated(user)
  {
  }

  // ---------------------------------------------------------------- the provider

  class AuthProvider {
    const store: Storage
    var user: Option<User>
    var token: Option<string>
    var loading: bool

    /** The first render: `token` is read from the store, `user` starts out
        null and `loading` true until the first initialisation finishes. */
    constructor(store: Storage)
      ensures this.store == store
      ensures user == None && token == Lookup(store.items, TokenKey) && loading
    {
      var stored := store.GetItem(TokenKey);
      this.store := store;
      user := None;
      token := stored;
      loading := true;
    }

    /** A token-less session holds no user (the invariant the design asks for;
        `SyncAuth` can break it, see `TokenRemovalKeepsUser`). */
    predicate Consistent()
      reads this
    {
      token.None? ==> user.None?
    }

    /** `logout`: both state fields and both store keys are cleared. */
    method Logout()
      modifies this, store
      ensures user == None && token == None && loading == old(loading)
      ensures store.items == WithoutSession(old(store.items))
      ensures Consistent()
    {
      user := None;
      token := None;
      store.RemoveItem(TokenKey);
      store.RemoveItem(UserKey);
    }

    /** `fetchUser`: asks `/users/me` for the profile; a failure is not rethrown
        but ends the session. */
    method FetchUser(t: string, reply: Reply<User>)
      modifies this, store
      ensures loading == old(loading)
      ensures reply.Ok? ==>
        user == Some(reply.value) && token == old(token)
        && store.items == old(store.items)[UserKey := ProfileJson.Serialize(reply.value)]
      ensures reply.Fail? ==>
        user == None && token == None && store.items == WithoutSession(old(store.items))
    {
      match reply
      case Ok(profile) =>
        user := Some(profile);
        store.SetItem(UserKey, ProfileJson.Serialize(profile));
      case Fail(_) =>
        Logout();
    }

    /** `initializeAuth`, run on mount and whenever `token` changes. `decoded`
        is what `jwtDecode` makes of the current token and `reply` what
        `/users/me` would answer. `requested` says whether that request is
        made; `timer` is the delay of the automatic logout it schedules. */
    method InitializeAuth(now: int, decoded: Option<int>, reply: Reply<User>)
      returns (requested: bool, timer: Option<int>)
      modifies this, store
      ensures !loading
      ensures requested <==> Truthy(old(token)) && Token.Live(decoded, now)
                             && !Truthy(Lookup(old(store.items), UserKey))
      // no token: nothing is asked and nothing is stored
      ensures !Truthy(old(token)) ==>
        user == None && token == old(token) && store.items == old(store.items) && timer == None
      // undecodable or expired token: logout
      ensures Truthy(old(token)) && !Token.Live(decoded, now) ==>
        user == None && token == None && store.items == WithoutSession(old(store.items))
        && timer == None
      // live token and a stored profile: the profile comes from the store
      ensures Truthy(old(token)) && Token.Live(decoded, now) && Truthy(Lookup(old(store.items), UserKey)) ==>
        match ProfileJson.Parse(Lookup(old(store.items), UserKey).value)
        case Some(stored) =>
          user == Some(stored) && token == old(token) && store.items == old(store.items)
          && timer == Some(Token.ExpiryDelay(decoded.value, now))
        case None =>
          user == None && token == None && store.items == WithoutSession(old(store.items))
          && timer == None
      // live token and no stored profile: the profile comes from the server
      ensures requested ==>
        match reply
        case Ok(profile) =>
          user == Some(profile) && token == old(token)
          && store.items == old(store.items)[UserKey := ProfileJson.Serialize(profile)]
          && timer == Some(Token.ExpiryDelay(decoded.value, now))
        case Fail(_) =>
          user == None && token == None && store.items == WithoutSession(old(store.items))
          && timer == None
    {
      requested, timer := false, None;
      if token.None? || token.value == "" {
        user := None;
        loading := false;
        return;
      }
      if !Token.Live(decoded, now) {
        // a token that does not decode lands in the catch block; an expired
        // one takes the explicit branch: both log out
        Logout();
        loading := false;
        return;
      }
      var storedUser := store.GetItem(UserKey);
      if storedUser.Some? && storedUser.value != "" {
        match ProfileJson.Parse(storedUser.value)
        case Some(stored) =>
          user := Some(stored);
        case None =>
          // JSON.parse throws: the catch block logs out
          Logout();
          loading := false;
          return;
      } else {
        requested := true;
        match reply
        case Ok(profile) =>
          user := Some(profile);
          store.SetItem(UserKey, ProfileJson.Serialize(profile));
        case Fail(_) =>
          Logout();
          loading := false;
          return;
      }
      timer := Some(Token.ExpiryDelay(decoded.value, now));
      loading := false;
    }

    /** `login`: `/auth/login` answers with a token, which is put in state and
        in the store before the profile is fetched. A rejected login logs out
        and rethrows (`rejected`); a failed profile fetch is swallowed by
        `FetchUser`, so login then resolves with no user. */
    method Login(loginReply: Reply<string>, profileReply: Reply<User>) returns (rejected: bool)
      modifies this, store
      ensures !loading
      ensures rejected <==> loginReply.Fail?
      ensures loginReply.Fail? ==>
        user == None && token == None && store.items == WithoutSession(old(store.items))
      ensures loginReply.Ok? && profileReply.Ok? ==>
        token == Some(loginReply.value) && user == Some(profileReply.value)
        && store.items == old(store.items)[TokenKey := loginReply.value]
                                          [UserKey := ProfileJson.Serialize(profileReply.value)]
      ensures loginReply.Ok? && profileReply.Fail? ==>
        user == None && token == None && store.items == WithoutSession(old(store.items))
    {
      loading := true;
      match loginReply {
        case Fail(_) =>
          Logout();
          rejected := true;
        case Ok(t) =>
          token := Some(t);
          store.SetItem(TokenKey, t);
          FetchUser(t, profileReply);
          WithoutSessionForgetsWrites(old(store.items), TokenKey, t);
          rejected := false;
      }
      loading := false;
    }

    /** `register`: posts to `/auth/register` and rethrows a failure; it has no
        `modifies` clause because it changes neither the session nor the store. */
    method Register(reply: Reply<()>) returns (rejected: bool)
      ensures rejected <==> reply.Fail?
    {
      rejected := reply.Fail?;
    }

    /** `syncAuth`: a `storage` event from another tab. A "token" event copies
        the new value; a "user" event parses it, or clears the user when the
        key was removed; `JSON.parse` throwing (`thrown`) leaves everything as
        it was. Other keys are ignored. The store itself is not touched: the
        other tab has already written it. */
    method SyncAuth(key: string, newValue: Option<string>) returns (thrown: bool)
      modifies this
      ensures loading == old(loading)
      ensures thrown <==> key == UserKey && Truthy(newValue) && ProfileJson.Parse(newValue.value).None?
      ensures key == TokenKey ==> token == newValue && user == old(user)
      ensures key == UserKey && !Truthy(newValue) ==> token == old(token) && user == None
      ensures key == UserKey && Truthy(newValue) ==>
        token == old(token)
        && user == (if thrown then old(user) else ProfileJson.Parse(newValue.value))
      ensures key != TokenKey && key != UserKey ==> token == old(token) && user == old(user)
    {
      thrown := false;
      if key == TokenKey {
        token := newValue;
      }
      if key == UserKey {
        if newValue.Some? && newValue.value != "" {
          var parsed := ProfileJson.Parse(newValue.value);
          if parsed.None? {
            thrown := true;
          } else {
            user := parsed;
          }
        } else {
          user := None;
        }
      }
    }
  }

  // ---------------------------------------------------------------- scenarios

  /** Logging out twice leaves the same state and store as logging out once. */
  method LogoutTwice(p: AuthProvider)
    modifies p, p.store
    ensures p.user == None && p.token == None && p.loading == old(p.loading)
    ensures p.store.items == WithoutSession(old(p.store.items))
  {
    p.Logout();
    p.Logout();
    WithoutSessionIdempotent(old(p.store.items));
  }

  /** A live token and a stored profile: the profile is restored from the store
      and persisted back unchanged, with no request and no logout. */
  method RestoreStoredSession(store: Storage, u: User, t: string, exp: int, now: int, reply: Reply<User>)
    returns (p: AuthProvider)
    requires t != "" && !Token.Expired(exp, now)
    requires store.items == map[TokenKey := t, UserKey := ProfileJson.Serialize(u)]
    modifies store
    ensures p.user == Some(u) && p.token == Some(t) && !p.loading
    ensures store.items == old(store.items)
  {
    p := new AuthProvider(store);
    ProfileJson.ParseSerialize(u);
    var requested, timer := p.InitializeAuth(now, Some(exp), reply);
    assert !requested;
  }

  /** Another tab logs out: its "token" and "user" removals reach this tab as
      storage events, the token change re-runs initialisation, and this tab
      ends signed out. */
  method CrossTabLogout(store: Storage, here: AuthProvider, other: AuthProvider,
                        now: int, decoded: Option<int>, reply: Reply<User>)
    requires here.store == store && other.store == store && here != other
    modifies store, here, other
    ensures !IsAuthenticated(here.user) && here.token == None && !here.loading
    ensures store.items == WithoutSession(old(store.items))
  {
    other.Logout();
    var _ := here.SyncAuth(TokenKey, None);
    var _ := here.SyncAuth(UserKey, None);
    var _, _ := here.InitializeAuth(now, decoded, reply);
  }

  /** A "token" removal event alone leaves the user in place: until the
      re-run initialisation clears it, the session holds a user without a token. */
  method TokenRemovalKeepsUser(p: AuthProvider)
    requires p.user.Some?
    modifies p
    ensures p.user == old(p.user) && p.token == None && !p.Consistent()
  {
    var _ := p.SyncAuth(TokenKey, None);
  }
}
