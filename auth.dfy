/**
 * The browser session store: an access token and the signed-in user, kept in
 * localStorage under two fixed keys. Storage is a string map; the browser
 * window is a flag (on the server there is none). JSON.stringify/JSON.parse of
 * the user record is a codec given as a pair of functions.
 */
module Auth {
  import opened Wrappers

  /** The signed-in user as the backend returns it. */
  datatype User = User(id: int, username: string, role: string)

  /** JSON.stringify of a User, and JSON.parse of stored text (None when it throws). */
  datatype UserCodec = UserCodec(encode: User -> string, decode: string -> Option<User>)

  /** The codec behaves like JSON on users: an encoding is never empty and parses back. */
  ghost predicate RoundTrips(codec: UserCodec)
  {
    forall u :: codec.encode(u) != "" && codec.decode(codec.encode(u)) == Some(u)
  }

  const TokenKey := "ai_cpa_token"
  const UserKey := "ai_cpa_user"

  /** getToken: null without a window, otherwise the stored token (null when absent). */
  function TokenLookup(hasWindow: bool, storage: map<string, string>): (r: Option<string>)
    ensures r.Some? <==> hasWindow && TokenKey in storage
    ensures r.Some? ==> r.value == storage[TokenKey]
  {
    if hasWindow && TokenKey in storage then Some(storage[TokenKey]) else None
  }

  /**
   * getUser: null without a window, when the user key is absent or empty, or
   * when the stored text does not parse; otherwise the parsed user.
   */
  function UserLookup(hasWindow: bool, storage: map<string, string>, codec: UserCodec): (r: Option<User>)
    ensures !hasWindow || UserKey !in storage || storage[UserKey] == "" ==> r.None?
    ensures hasWindow && UserKey in storage && storage[UserKey] != "" ==> r == codec.decode(storage[UserKey])
  {
    if !hasWindow then None
    else if UserKey !in storage then None
    else
      var raw := storage[UserKey];
      if raw == "" then None else codec.decode(raw)
  }

  /** The storage after setAuth(token, user): the two keys written, every other entry kept. */
  function Stored(storage: map<string, string>, token: string, user: User, codec: UserCodec): (r: map<string, string>)
    ensures TokenKey in r && r[TokenKey] == token
    ensures UserKey in r && r[UserKey] == codec.encode(user)
    ensures forall k :: k != TokenKey && k != UserKey ==> (k in r <==> k in storage)
    ensures forall k :: k in storage && k != TokenKey && k != UserKey ==> r[k] == storage[k]
  {
    storage[TokenKey := token][UserKey := codec.encode(user)]
  }

  /** The storage after clearAuth(): both keys gone, every other entry kept. */
  function Cleared(storage: map<string, string>): (r: map<string, string>)
    ensures TokenKey !in r && UserKey !in r
    ensures forall k :: k != TokenKey && k != UserKey ==> (k in r <==> k in storage)
    ensures forall k :: k in r ==> r[k] == storage[k]
  {
    storage - {TokenKey, UserKey}
  }

  /** The window's localStorage, as seen through the session helpers. */
  class SessionStore {
    var storage: map<string, string>
    const hasWindow: bool
    const codec: UserCodec

    constructor(hasWindow: bool, codec: UserCodec, storage: map<string, string>)
      ensures this.hasWindow == hasWindow && this.codec == codec && this.storage == storage
    {
      this.hasWindow := hasWindow;
      this.codec := codec;
      this.storage := storage;
    }

    /** getToken: the stored token, null without a window or when absent. */
    function GetToken(): (r: Option<string>)
      reads this
      ensures r.Some? <==> hasWindow && TokenKey in storage
      ensures r.Some? ==> r.value == storage[TokenKey]
    {
      TokenLookup(hasWindow, storage)
    }

    /** getUser: null without a window or when the user entry is absent or empty, else the decoded entry. */
    function GetUser(): (r: Option<User>)
      reads this
      ensures !hasWindow || UserKey !in storage || storage[UserKey] == "" ==> r.None?
      ensures hasWindow && UserKey in storage && storage[UserKey] != "" ==> r == codec.decode(storage[UserKey])
    {
      UserLookup(hasWindow, storage, codec)
    }

    /**
     * setAuth: writes the token, then the encoded user. Without a window the
     * first write throws, so nothing is stored and ok is false.
     */
    method SetAuth(token: string, user: User) returns (ok: bool)
      modifies this
      ensures ok == hasWindow
      ensures ok ==> storage == Stored(old(storage), token, user, codec)
      ensures !ok ==> storage == old(storage)
    {
      ok := hasWindow;
      if ok {
        storage := storage[TokenKey := token];
        storage := storage[UserKey := codec.encode(user)];
      }
    }

    /** clearAuth: removes the token, then the user; without a window it throws and nothing changes. */
    method ClearAuth() returns (ok: bool)
      modifies this
      ensures ok == hasWindow
      ensures ok ==> storage == Cleared(old(storage))
      ensures !ok ==> storage == old(storage)
    {
      ok := hasWindow;
      if ok {
        storage := storage - {TokenKey};
        storage := storage - {UserKey};
        assert storage == Cleared(old(storage));
      }
    }
  }

  /** After setAuth(t, u), getToken() returns t. */
  lemma TokenAfterSet(storage: map<string, string>, token: string, user: User, codec: UserCodec)
    ensures TokenLookup(true, Stored(storage, token, user, codec)) == Some(token)
  {
  }

  /** After setAuth(t, u), getUser() returns u, for a codec that round-trips. */
  lemma UserAfterSet(storage: map<string, string>, token: string, user: User, codec: UserCodec)
    requires RoundTrips(codec)
    ensures UserLookup(true, Stored(storage, token, user, codec), codec) == Some(user)
  {
    assert codec.encode(user) != "" && codec.decode(codec.encode(user)) == Some(user);
  }

  /** After clearAuth(), neither getter finds anything, whatever was stored before. */
  lemma NothingAfterClear(hasWindow: bool, storage: map<string, string>, codec: UserCodec)
    ensures TokenLookup(hasWindow, Cleared(storage)).None?
    ensures UserLookup(hasWindow, Cleared(storage), codec).None?
  {
  }

  /** Clearing after a sign-in leaves exactly what clearing alone would. */
  lemma ClearUndoesSet(storage: map<string, string>, token: string, user: User, codec: UserCodec)
    ensures Cleared(Stored(storage, token, user, codec)) == Cleared(storage)
  {
    var a := Cleared(Stored(storage, token, user, codec));
    var b := Cleared(storage);
    assert forall k :: k in a <==> k in b;
  }

  /** A second sign-in replaces the first one entirely. */
  lemma SetOverwrites(storage: map<string, string>, t1: string, u1: User, t2: string, u2: User, codec: UserCodec)
    ensures Stored(Stored(storage, t1, u1, codec), t2, u2, codec) == Stored(storage, t2, u2, codec)
  {
    var a := Stored(Stored(storage, t1, u1, codec), t2, u2, codec);
    var b := Stored(storage, t2, u2, codec);
    assert forall k :: k in a <==> k in b;
  }

  /** The helper methods of the class agree with the lookups: sign-in then read back. */
  method SignInThenRead(store: SessionStore, token: string, user: User) returns (t: Option<string>, u: Option<User>)
    requires store.hasWindow && RoundTrips(store.codec)
    modifies store
    ensures t == Some(token) && u == Some(user)
  {
    var ok := store.SetAuth(token, user);
    TokenAfterSet(old(store.storage), token, user, store.codec);
    UserAfterSet(old(store.storage), token, user, store.codec);
    t := store.GetToken();
    u := store.GetUser();
  }
}
