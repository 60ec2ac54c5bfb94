/** The second session controller (src/contexts/AuthContext.tsx), the one the
    access guard and the login page read. It keeps only `user` and `token`:
    there is no `loading` flag, no expiry timer and no cross-tab listener, its
    startup check runs once on mount, and its role flags compare the role
    exactly, without upper-casing. */
module AuthContextPlain {
  import opened Wrappers
  import opened Http
  import opened Text
  import opened Entities
  import opened CredentialStore
  import ProfileJson
  import Token
  import AuthContext

  // ---------------------------------------------------------------- derived flags

  /** `!!user`. */
  predicate IsAuthenticated(user: Option<User>) {
    user.Some?
  }

  /** `user?.role === 'ADMIN'`. */
  predicate IsAdmin(user: Option<User>) {
    user.Some? && user.value.role == Some("ADMIN")
  }

  /** `user?.role === 'LIBRARIAN' || isAdmin`. */
  predicate IsLibrarian(user: Option<User>) {
    (user.Some? && user.value.role == Some("LIBRARIAN")) || IsAdmin(user)
  }

  /** The exact flags are stricter than the case-insensitive ones of the
      mounted controller: whoever is admin (librarian) here is admin
      (librarian) there. */
  lemma FlagsStricterThanMounted(user: Option<User>)
    ensures IsAdmin(user) ==> AuthContext.IsAdmin(user)
    ensures IsLibrarian(user) ==> AuthContext.IsLibrarian(user)
    ensures IsAuthenticated(user) == AuthContext.IsAuthenticated(user)
  {
    assert Upper("ADMIN") == "ADMIN";
    assert Upper("LIBRARIAN") == "LIBRARIAN";
  }

  /** The converse fails: a lower-case "admin" role is admin for the mounted
      controller and not for this one. */
  lemma LowerCaseAdminDiffers(u: User)
    requires u.role == Some("admin")
    ensures AuthContext.IsAdmin(Some(u)) && !IsAdmin(Some(u))
  {
    assert Upper("admin") == "ADMIN";
  }

  // ---------------------------------------------------------------- the provider

  class AuthProvider {
    const store: Storage
    var user: Option<User>
    var token: Option<string>

    /** The first render: `token` is read from the store, `user` is null. */
    constructor(store: Storage)
      ensures this.store == store
      ensures user == None && token == Lookup(store.items, TokenKey)
    {
      var stored := store.GetItem(TokenKey);
      this.store := store;
      user := None;
      token := stored;
    }

    /** `logout`: both state fields and both store keys are cleared. */
    method Logout()
      modifies this, store
      ensures user == None && token == None
      ensures store.items == WithoutSession(old(store.items))
    {
      user := None;
      token := None;
      store.RemoveItem(TokenKey);
      store.RemoveItem(UserKey);
    }

    /** `fetchUser`: a failure is swallowed and ends the session. */
    method FetchUser(t: string, reply: Reply<User>)
      modifies this, store
      ensures reply.Ok? ==>
        user == Some(reply.value) && token == old(token)
        && store.items == old(store.items)[UserKey := ProfileJson.Serialize(reply.value)]
      ensures reply.Fail? ==>
        user == None && token == None && store.items == WithoutSession(old(store.items))
    {
      match reply
      case Ok(profile) =>
        user := Some(profile);
        store.SetItem(UserKey, ProfileJson.Serialize(profile));
      case Fail(_) =>
        Logout();
    }

    /** The mount effect. The call to `fetchUser` it may start is not awaited:
        the effect returns first, so the model hands back the token it would
        fetch with (`pendingFetch`) and the caller runs `FetchUser` later. */
    method Startup(now: int, decoded: Option<int>) returns (pendingFetch: Option<string>)
      modifies this, store
      ensures pendingFetch.Some? <==> Truthy(old(token)) && Token.Live(decoded, now)
                                      && !Truthy(Lookup(old(store.items), UserKey))
      ensures pendingFetch.Some? ==> pendingFetch == old(token)
      // no token: nothing changes
      ensures !Truthy(old(token)) ==>
        user == old(user) && token == old(token) && store.items == old(store.items)
      // undecodable or expired token: logout
      ensures Truthy(old(token)) && !Token.Live(decoded, now) ==>
        user == None && token == None && store.items == WithoutSession(old(store.items))
      // live token: the stored profile, if any, is parsed; a parse failure logs out
      ensures Truthy(old(token)) && Token.Live(decoded, now) && Truthy(Lookup(old(store.items), UserKey)) ==>
        match ProfileJson.Parse(Lookup(old(store.items), UserKey).value)
        case Some(stored) =>
          user == Some(stored) && token == old(token) && store.items == old(store.items)
        case None =>
          user == None && token == None && store.items == WithoutSession(old(store.items))
      ensures pendingFetch.Some? ==>
        user == old(user) && token == old(token) && store.items == old(store.items)
    {
      pendingFetch := None;
      if token.Some? && token.value != "" {
        if !Token.Live(decoded, now) {
          Logout();
          return;
        }
        var storedUser := store.GetItem(UserKey);
        if storedUser.Some? && storedUser.value != "" {
          match ProfileJson.Parse(storedUser.value) {
            case Some(stored) =>
              user := Some(stored);
            case None =>
              Logout();
          }
        } else {
          pendingFetch := token;
        }
      }
    }

    /** `login`: the token goes to state and to the store before the profile
        is fetched; a rejected login logs out and rethrows (`rejected`). */
    method Login(loginReply: Reply<string>, profileReply: Reply<User>) returns (rejected: bool)
      modifies this, store
      ensures rejected <==> loginReply.Fail?
      ensures loginReply.Fail? ==>
        user == None && token == None && store.items == WithoutSession(old(store.items))
      ensures loginReply.Ok? && profileReply.Ok? ==>
        token == Some(loginReply.value) && user == Some(profileReply.value)
        && store.items == old(store.items)[TokenKey := loginReply.value]
                                          [UserKey := ProfileJson.Serialize(profileReply.value)]
      ensures loginReply.Ok? && profileReply.Fail? ==>
        user == None && token == None && store.items == WithoutSession(old(store.items))
    {
      match loginReply {
        case Fail(_) =>
          Logout();
          rejected := true;
        case Ok(t) =>
          token := Some(t);
          store.SetItem(TokenKey, t);
          FetchUser(t, profileReply);
          WithoutSessionForgetsWrites(old(store.items), TokenKey, t);
          rejected := false;
      }
    }

    /** `register` rethrows a failure and changes no state. */
    method Register(reply: Reply<()>) returns (rejected: bool)
      ensures rejected <==> reply.Fail?
    {
      rejected := reply.Fail?;
    }
  }

  /** Mounting with a live token and no stored profile: the deferred fetch
      runs afterwards and, when it succeeds, the session ends up signed in
      with the fetched profile persisted. */
  method MountThenFetch(store: Storage, t: string, exp: int, now: int, profile: User)
    returns (p: AuthProvider)
    requires t != "" && !Token.Expired(exp, now)
    requires Lookup(store.items, TokenKey) == Some(t) && Lookup(store.items, UserKey) == None
    modifies store
    ensures IsAuthenticated(p.user) && p.user == Some(profile) && p.token == Some(t)
    ensures store.items == old(store.items)[UserKey := ProfileJson.Serialize(profile)]
  {
    p := new AuthProvider(store);
    var pending := p.Startup(now, Some(exp));
    p.FetchUser(pending.value, Ok(profile));
  }

  /** Logging out twice leaves the same state and store as logging out once. */
  method LogoutTwice(p: AuthProvider)
    modifies p, p.store
    ensures p.user == None && p.token == None
    ensures p.store.items == WithoutSession(old(p.store.items))
  {
    p.Logout();
    p.Logout();
    WithoutSessionIdempotent(old(p.store.items));
  }
}
