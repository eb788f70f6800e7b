/**
 * `UserDefaultAppState` of AppState.swift: the credential state of the app
 * (bearer token, its expiry, the login credentials and the user id), cached
 * in memory and mirrored into a key-value store (UserDefaults).
 *
 * The store is a map from key to a typed value. The clock (`Date.now`) is
 * an integer number of seconds held in the field `now`. The token expires
 * lazily: reading it once the expiry has passed clears the cached token but
 * leaves the store alone.
 *
 * `Snapshot` is the abstract state; the pure functions below say what each
 * operation does to it, and the class's methods are proved to do exactly
 * that.
 */
module AppState {
  import opened Wrappers

  newtype Int32 = x: int | -0x8000_0000 <= x < 0x8000_0000

  datatype Credentials = Credentials(password: string, login: string)

  /** A value kept in the store, with the type it was written as. */
  datatype Stored =
    | Text(text: string)
    | Integer(integer: int)
    | Date(seconds: int)
    | Data(json: seq<(string, string)>)

  type Store = map<string, Stored>

  const TokenExpirationKey := "token_expiration"
  const UserCredentialsKey := "user_credentials"
  const TokenKey := "token"
  const UserIdKey := "user_id"

  // The JSON form of `Credentials`, as a list of key/value members.

  function EncodeCredentials(c: Credentials): seq<(string, string)> {
    [("password", c.password), ("login", c.login)]
  }

  function Member(json: seq<(string, string)>, key: string): (r: Option<string>)
    ensures r.Some? ==> (key, r.value) in json
    ensures r.None? ==> forall i :: 0 <= i < |json| ==> json[i].0 != key
  {
    if json == [] then None
    else if json[0].0 == key then Some(json[0].1)
    else Member(json[1..], key)
  }

  /** `JSONDecoder().decode(Credentials.self, from:)`; fails when a member is missing. */
  function DecodeCredentials(json: seq<(string, string)>): (r: Option<Credentials>)
    ensures r.Some? ==> ("password", r.value.password) in json && ("login", r.value.login) in json
  {
    var p, l := Member(json, "password"), Member(json, "login");
    if p.Some? && l.Some? then Some(Credentials(p.value, l.value)) else None
  }

  lemma CredentialsRoundTrip(c: Credentials)
    ensures DecodeCredentials(EncodeCredentials(c)) == Some(c)
  {
    var json := EncodeCredentials(c);
    assert Member(json, "password") == Some(c.password);
    assert json[0].0 != "login" by { assert json[0].0[0] != "login"[0]; }
    assert json[1..] == [("login", c.login)];
    assert Member(json[1..], "login") == Some(c.login);
    assert Member(json, "login") == Some(c.login);
  }

  // What `init(with:)` reads back from the store (the `as?` casts fail on a value of another type).

  function LoadCredentials(store: Store): (r: Option<Credentials>)
    ensures r.Some? ==> UserCredentialsKey in store && store[UserCredentialsKey].Data?
  {
    if UserCredentialsKey in store && store[UserCredentialsKey].Data? then
      DecodeCredentials(store[UserCredentialsKey].json)
    else None
  }

  function LoadToken(store: Store): (r: Option<string>)
    ensures r.Some? <==> TokenKey in store && store[TokenKey].Text?
    ensures r.Some? ==> store[TokenKey] == Text(r.value)
  {
    if TokenKey in store && store[TokenKey].Text? then Some(store[TokenKey].text) else None
  }

  function LoadExpiration(store: Store): (r: Option<int>)
    ensures r.Some? <==> TokenExpirationKey in store && store[TokenExpirationKey].Date?
    ensures r.Some? ==> store[TokenExpirationKey] == Date(r.value)
  {
    if TokenExpirationKey in store && store[TokenExpirationKey].Date? then
      Some(store[TokenExpirationKey].seconds)
    else None
  }

  function LoadUserId(store: Store): (r: Option<int>)
    ensures r.Some? <==> UserIdKey in store && store[UserIdKey].Integer?
    ensures r.Some? ==> store[UserIdKey] == Integer(r.value)
  {
    if UserIdKey in store && store[UserIdKey].Integer? then Some(store[UserIdKey].integer) else None
  }

  /** The abstract state: the store, the in-memory fields and the clock. */
  datatype Snapshot = Snapshot(
    store: Store,
    token: Option<string>,
    expiration: Option<int>,
    credentials: Option<Credentials>,
    userId: Option<int>,
    now: int)

  /** `init(with:)` */
  function Load(store: Store, now: int): (s: Snapshot)
    ensures s.store == store && s.now == now
  {
    Snapshot(store, LoadToken(store), LoadExpiration(store), LoadCredentials(store), LoadUserId(store), now)
  }

  predicate Expired(s: Snapshot) {
    s.expiration.Some? && s.expiration.value <= s.now
  }

  /** The `token` getter: its result, and the state after the read. */
  function ReadToken(s: Snapshot): (Option<string>, Snapshot) {
    if Expired(s) then (None, s.(token := None)) else (s.token, s)
  }

  /** `setToken(_:expirationDate:)` */
  function AfterSetToken(s: Snapshot, t: string, lifetime: Option<Int32>): (r: Snapshot)
    ensures r.credentials == s.credentials && r.userId == s.userId && r.now == s.now
  {
    if lifetime.Some? then
      var at := s.now + lifetime.value as int;
      s.(store := s.store[TokenKey := Text(t)][TokenExpirationKey := Date(at)],
         expiration := Some(at), token := Some(t))
    else
      s.(store := s.store[TokenKey := Text(t)], token := Some(t))
  }

  /** `setCredentials(_:)` */
  function AfterSetCredentials(s: Snapshot, c: Option<Credentials>): (r: Snapshot)
    ensures r.token == s.token && r.expiration == s.expiration && r.userId == s.userId && r.now == s.now
  {
    var store := if c.None? then s.store - {UserCredentialsKey}
                 else s.store[UserCredentialsKey := Data(EncodeCredentials(c.value))];
    s.(store := store, credentials := c)
  }

  /** `setUserId(_:)` */
  function AfterSetUserId(s: Snapshot, id: int): (r: Snapshot) {
    s.(store := s.store[UserIdKey := Integer(id)], userId := Some(id))
  }

  /**
   * The in-memory fields agree with the store, except that a token the
   * getter has already cleared because it expired is still in the store.
   */
  predicate Persisted(s: Snapshot) {
    && s.credentials == LoadCredentials(s.store)
    && s.expiration == LoadExpiration(s.store)
    && s.userId == LoadUserId(s.store)
    && (s.token == LoadToken(s.store) || (s.token.None? && Expired(s)))
  }

  /** Reading the token when the expiry has passed gives nothing and forgets the cached token. */
  lemma ReadTokenExpired(s: Snapshot)
    requires s.expiration.Some? && s.expiration.value <= s.now
    ensures ReadToken(s).0.None? && ReadToken(s).1 == s.(token := None)
  {
  }

  /** Otherwise the read returns the cached token and changes nothing. */
  lemma ReadTokenLive(s: Snapshot)
    requires s.expiration.None? || s.expiration.value > s.now
    ensures ReadToken(s) == (s.token, s)
  {
  }

  /** Reading twice reads the same, as the first read already did the clearing. */
  lemma ReadTokenIdempotent(s: Snapshot)
    ensures ReadToken(ReadToken(s).1) == ReadToken(s)
  {
  }

  /** After `setToken(t, e)` the token reads as `t` exactly while the lifetime `e` is positive. */
  lemma SetTokenThenRead(s: Snapshot, t: string, e: Int32)
    ensures ReadToken(AfterSetToken(s, t, Some(e))).0 == if e > 0 then Some(t) else None
    ensures AfterSetToken(s, t, Some(e)).expiration == Some(s.now + e as int)
  {
  }

  /** `setToken("", -1)` invalidates the token: the next read is nil. */
  lemma InvalidateToken(s: Snapshot)
    ensures ReadToken(AfterSetToken(s, "", Some(-1))).0.None?
  {
  }

  /** Without a lifetime the expiry is left as it was, so an expired session stays expired. */
  lemma SetTokenKeepsExpiry(s: Snapshot, t: string)
    ensures AfterSetToken(s, t, None).expiration == s.expiration
    ensures ReadToken(AfterSetToken(s, t, None)).0 == if Expired(s) then None else Some(t)
  {
  }

  /** `setCredentials(nil)` removes the stored credentials; any other value is stored and reads back. */
  lemma SetCredentialsStores(s: Snapshot, c: Option<Credentials>)
    ensures c.None? ==> UserCredentialsKey !in AfterSetCredentials(s, c).store
    ensures LoadCredentials(AfterSetCredentials(s, c).store) == c
    ensures AfterSetCredentials(s, c).credentials == c
  {
    if c.Some? {
      CredentialsRoundTrip(c.value);
    }
  }

  /** `setUserId` changes the user id and its stored entry and nothing else. */
  lemma SetUserIdChangesOnlyUserId(s: Snapshot, id: int)
    ensures AfterSetUserId(s, id).userId == Some(id)
    ensures AfterSetUserId(s, id).(userId := s.userId, store := s.store) == s
    ensures forall k :: k in s.store && k != UserIdKey ==> k in AfterSetUserId(s, id).store && AfterSetUserId(s, id).store[k] == s.store[k]
    ensures AfterSetUserId(s, id).store.Keys == s.store.Keys + {UserIdKey}
  {
  }

  /** A value of the wrong type under the credentials key loads as no credentials. */
  lemma UndecodableCredentials(store: Store)
    requires UserCredentialsKey in store && !store[UserCredentialsKey].Data?
    ensures LoadCredentials(store).None?
  {
  }

  /** A freshly loaded state is persisted. */
  lemma LoadPersisted(store: Store, now: int)
    ensures Persisted(Load(store, now))
  {
  }

  /** Reading the token and the passing of time keep the state persisted. */
  lemma ReadTokenPersisted(s: Snapshot, dt: nat)
    requires Persisted(s)
    ensures Persisted(ReadToken(s).1)
    ensures Persisted(s.(now := s.now + dt))
  {
  }

  /** `setToken` keeps the state persisted. */
  lemma SetTokenPersisted(s: Snapshot, t: string, e: Option<Int32>)
    requires Persisted(s)
    ensures Persisted(AfterSetToken(s, t, e))
  {
    var r := AfterSetToken(s, t, e);
    assert LoadCredentials(r.store) == LoadCredentials(s.store);
    assert LoadUserId(r.store) == LoadUserId(s.store);
    assert LoadToken(r.store) == Some(t);
  }

  /** `setCredentials` keeps the state persisted. */
  lemma SetCredentialsPersisted(s: Snapshot, c: Option<Credentials>)
    requires Persisted(s)
    ensures Persisted(AfterSetCredentials(s, c))
  {
    var r := AfterSetCredentials(s, c);
    SetCredentialsStores(s, c);
    assert LoadUserId(r.store) == LoadUserId(s.store);
    assert LoadToken(r.store) == LoadToken(s.store);
    assert LoadExpiration(r.store) == LoadExpiration(s.store);
  }

  /** `setUserId` keeps the state persisted. */
  lemma SetUserIdPersisted(s: Snapshot, id: int)
    requires Persisted(s)
    ensures Persisted(AfterSetUserId(s, id))
  {
    var r := AfterSetUserId(s, id);
    assert LoadCredentials(r.store) == LoadCredentials(s.store);
    assert LoadToken(r.store) == LoadToken(s.store);
    assert LoadExpiration(r.store) == LoadExpiration(s.store);
  }

  /**
   * A new instance over the same store, at the same time, reads back what
   * the current one holds: the token the getter would give, the expiry, the
   * credentials and the user id.
   */
  lemma {:induction false} ReloadAgrees(s: Snapshot)
    requires Persisted(s)
    ensures var loaded := Load(s.store, s.now);
            && ReadToken(loaded).0 == ReadToken(s).0
            && loaded.expiration == s.expiration
            && loaded.credentials == s.credentials
            && loaded.userId == s.userId
  {
    if s.token != LoadToken(s.store) {
      assert Expired(s);
    }
  }

  /** The store-backed credential state of the app. */
  class UserDefaultAppState {
    var store: Store
    var cachedToken: Option<string>
    var expirationDate: Option<int>
    var userCredentials: Option<Credentials>
    var userId: Option<int>
    var now: int

    function Snap(): Snapshot
      reads this
    {
      Snapshot(store, cachedToken, expirationDate, userCredentials, userId, now)
    }

    /** `init(with:)`: loads every field from the store. */
    constructor (credentialsStorage: Store, clock: int)
      ensures Snap() == Load(credentialsStorage, clock)
      ensures Persisted(Snap())
    {
      store := credentialsStorage;
      now := clock;
      userCredentials := LoadCredentials(credentialsStorage);
      cachedToken := LoadToken(credentialsStorage);
      expirationDate := LoadExpiration(credentialsStorage);
      userId := LoadUserId(credentialsStorage);
    }

    /** The `token` getter, which clears the cached token once it has expired. */
    method Token() returns (t: Option<string>)
      modifies this
      ensures (t, Snap()) == ReadToken(old(Snap()))
    {
      if expirationDate.Some? && expirationDate.value <= now {
        cachedToken := None;
      }
      t := cachedToken;
    }

    /** `setToken(_:expirationDate:)` */
    method SetToken(t: string, lifetime: Option<Int32>)
      modifies this
      ensures Snap() == AfterSetToken(old(Snap()), t, lifetime)
    {
      store := store[TokenKey := Text(t)];
      if lifetime.Some? {
        store := store[TokenExpirationKey := Date(now + lifetime.value as int)];
        expirationDate := Some(now + lifetime.value as int);
      }
      cachedToken := Some(t);
    }

    /** `setCredentials(_:)` */
    method SetCredentials(c: Option<Credentials>)
      modifies this
      ensures Snap() == AfterSetCredentials(old(Snap()), c)
    {
      if c.None? {
        store := store - {UserCredentialsKey};
      } else {
        store := store[UserCredentialsKey := Data(EncodeCredentials(c.value))];
      }
      userCredentials := c;
    }

    /** `setUserId(_:)` */
    method SetUserId(id: int)
      modifies this
      ensures Snap() == AfterSetUserId(old(Snap()), id)
    {
      store := store[UserIdKey := Integer(id)];
      userId := Some(id);
    }

    /** The passing of time, which `Date.now` reads. */
    method Tick(seconds: nat)
      modifies this
      ensures Snap() == old(Snap()).(now := old(now) + seconds)
    {
      now := now + seconds;
    }
  }
}
