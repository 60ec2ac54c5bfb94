/** `window.localStorage` as the session code uses it: string keys, string
    values, and the two keys "token" (the raw bearer token) and "user" (the
    profile as JSON text). */
module CredentialStore {
  import opened Wrappers

  const TokenKey := "token"
  const UserKey := "user"

  /** `getItem(key)` on a snapshot of the store: `null` for a missing key. */
  function Lookup(items: map<string, string>, key: string): (r: Option<string>)
    ensures r.Some? <==> key in items
    ensures r.Some? ==> r.value == items[key]
  {
    if key in items then Some(items[key]) else None
  }

  /** JavaScript truthiness of a stored value: `null` and `""` are falsy. */
  predicate Truthy(v: Option<string>) {
    v.Some? && v.value != ""
  }

  /** The store after removing both session keys: what every logout leaves. */
  function WithoutSession(items: map<string, string>): (r: map<string, string>)
    ensures Lookup(r, TokenKey) == None && Lookup(r, UserKey) == None
    ensures forall k :: k != TokenKey && k != UserKey ==> Lookup(r, k) == Lookup(items, k)
  {
    items - {TokenKey, UserKey}
  }

  /** Clearing the session a second time changes nothing. */
  lemma WithoutSessionIdempotent(items: map<string, string>)
    ensures WithoutSession(WithoutSession(items)) == WithoutSession(items)
  {
  }

  /** Whatever was written under the session keys, clearing them leaves the same store. */
  lemma WithoutSessionForgetsWrites(items: map<string, string>, key: string, value: string)
    requires key == TokenKey || key == UserKey
    ensures WithoutSession(items[key := value]) == WithoutSession(items)
  {
  }

  /** The browser's store for this origin, shared by every open tab. */
  class Storage {
    var items: map<string, string>

    constructor(initial: map<string, string>)
      ensures items == initial
    {
      items := initial;
    }

    method GetItem(key: string) returns (r: Option<string>)
      ensures r == Lookup(items, key)
    {
      r := if key in items then Some(items[key]) else None;
    }

    method SetItem(key: string, value: string)
      modifies this
      ensures items == old(items)[key := value]
    {
      items := items[key := value];
    }

    method RemoveItem(key: string)
      modifies this
      ensures items == old(items) - {key}
    {
      items := items - {key};
    }
  }
}

/** Expiry of the bearer token. `jwtDecode` is a library call: the model takes
    its result as `Option<int>`, the `exp` claim in seconds, or `None` when the
    token does not decode. `now` is `Date.now()` in milliseconds. */
module Token {
  import opened Wrappers

  /** `decoded.exp * 1000 < Date.now()`. */
  predicate Expired(exp: int, now: int) {
    exp * 1000 < now
  }

  /** The token decodes and is not expired. */
  predicate Live(decoded: Option<int>, now: int) {
    decoded.Some? && !Expired(decoded.value, now)
  }

  /** `decoded.exp * 1000 - Date.now()`: the delay of the automatic-logout timer. */
  function ExpiryDelay(exp: int, now: int): (d: int)
    requires !Expired(exp, now)
    ensures d >= 0 && now + d == exp * 1000
  {
    exp * 1000 - now
  }

  /** At the expiry instant itself the token is still live; one millisecond later it is not. */
  lemma ExpiryBoundary(exp: int)
    ensures Live(Some(exp), exp * 1000)
    ensures !Live(Some(exp), exp * 1000 + 1)
  {
  }

  /** A token live now was live at every earlier instant. */
  lemma LiveEarlier(decoded: Option<int>, earlier: int, now: int)
    requires earlier <= now && Live(decoded, now)
    ensures Live(decoded, earlier)
  {
  }
}
