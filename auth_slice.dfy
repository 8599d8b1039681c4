/**
  The `auth` slice of the store: the signed-in user, the bearer token and
  the authenticated flag, initialised from `localStorage` and mirrored
  back into it by the reducers.
*/
module AuthSlice {
  import opened JsValues
  import opened JsStrings
  import opened Storage

  datatype User = User(id: string, fullName: string, email: string, role: string)

  const UserKey: string := "user"
  const TokenKey: string := "token"

  /** Hexadecimal digit, lower case as `JSON.stringify` writes it. */
  function HexDigit(d: nat): char
    requires d < 16
  {
    "0123456789abcdef"[d]
  }

  /** The body of a JSON string literal for `s`, escaped as `JSON.stringify` escapes it. */
  function JsonEscape(s: string): string
    decreases |s|
  {
    if s == "" then ""
    else
      var c := s[0];
      var e :=
        if c == '"' then "\\\""
        else if c == '\\' then "\\\\"
        else if c == '\U{0008}' then "\\b"
        else if c == '\t' then "\\t"
        else if c == '\n' then "\\n"
        else if c == '\U{000C}' then "\\f"
        else if c == '\r' then "\\r"
        else if (c as int) < 0x20 then "\\u00" + [HexDigit(c as int / 16), HexDigit(c as int % 16)]
        else [c];
      e + JsonEscape(s[1..])
  }

  function JsonString(s: string): string {
    "\"" + JsonEscape(s) + "\""
  }

  /** `JSON.stringify(user)`, keys in the order the `User` interface lists them. */
  function UserJson(u: User): string {
    "{\"id\":" + JsonString(u.id) + ",\"fullName\":" + JsonString(u.fullName)
    + ",\"email\":" + JsonString(u.email) + ",\"role\":" + JsonString(u.role) + "}"
  }

  /** `localStorage.getItem("token") || null`: an empty stored token counts as none. */
  function StoredToken(stored: Option<string>): (r: Option<string>)
    ensures r.Some? <==> stored.Some? && stored.value != ""
    ensures r.Some? ==> r == stored
  {
    if stored.Some? && stored.value != "" then stored else None
  }

  class AuthState {
    var user: Option<User>
    var token: Option<string>
    var isAuthenticated: bool
    const storage: LocalStorage

    /** The slice's invariant: authenticated exactly when a token is held. */
    predicate Valid()
      reads this
    {
      isAuthenticated <==> token.Some?
    }

    /**
      `initialState`, read from storage. `parseUser` stands for `JSON.parse`
      of the stored user text.
    */
    constructor (storage: LocalStorage, parseUser: string -> Option<User>)
      ensures this.storage == storage
      ensures Valid()
      ensures token == StoredToken(storage.GetItem(TokenKey))
      ensures isAuthenticated <==> storage.GetItem(TokenKey).Some? && storage.GetItem(TokenKey).value != ""
      ensures user == (var s := storage.GetItem(UserKey); if s.Some? && s.value != "" then parseUser(s.value) else None)
    {
      this.storage := storage;
      var storedUser := storage.GetItem(UserKey);
      user := if storedUser.Some? && storedUser.value != "" then parseUser(storedUser.value) else None;
      token := StoredToken(storage.GetItem(TokenKey));
      var storedToken := storage.GetItem(TokenKey);
      isAuthenticated := storedToken.Some? && storedToken.value != "";
    }

    method SetCredentials(u: User, t: string)
      requires Valid()
      modifies this, storage
      ensures Valid()
      ensures user == Some(u) && token == Some(t) && isAuthenticated
      ensures storage.items == old(storage.items)[UserKey := UserJson(u)][TokenKey := t]
    {
      user := Some(u);
      token := Some(t);
      isAuthenticated := true;
      storage.SetItem(UserKey, UserJson(u));
      storage.SetItem(TokenKey, t);
    }

    method Logout()
      requires Valid()
      modifies this, storage
      ensures Valid()
      ensures user == None && token == None && !isAuthenticated
      ensures storage.items == old(storage.items) - {UserKey, TokenKey}
    {
      user := None;
      token := None;
      isAuthenticated := false;
      storage.RemoveItem(UserKey);
      storage.RemoveItem(TokenKey);
    }

    method UpdateUser(u: User)
      requires Valid()
      modifies this, storage
      ensures Valid()
      ensures user == Some(u)
      ensures token == old(token) && isAuthenticated == old(isAuthenticated)
      ensures storage.items == old(storage.items)[UserKey := UserJson(u)]
    {
      user := Some(u);
      storage.SetItem(UserKey, UserJson(u));
    }
  }

  /** Logging out twice leaves the same state and storage as logging out once. */
  method LogoutTwice(auth: AuthState)
    requires auth.Valid()
    modifies auth, auth.storage
    ensures auth.Valid() && auth.user == None && auth.token == None && !auth.isAuthenticated
    ensures auth.storage.items == old(auth.storage.items) - {UserKey, TokenKey}
  {
    auth.Logout();
    auth.Logout();
    assert auth.storage.items == old(auth.storage.items) - {UserKey, TokenKey} - {UserKey, TokenKey};
  }

  /**
    A reload after `setCredentials` with a non-empty token restores the same
    session from storage, given that `JSON.parse` inverts `JSON.stringify`.
  */
  method ReloadAfterCredentials(auth: AuthState, u: User, t: string, parseUser: string -> Option<User>)
    returns (reloaded: AuthState)
    requires auth.Valid() && t != ""
    requires forall v :: parseUser(UserJson(v)) == Some(v)
    modifies auth, auth.storage
    ensures reloaded.user == Some(u) && reloaded.token == Some(t) && reloaded.isAuthenticated
  {
    auth.SetCredentials(u, t);
    assert UserJson(u) != "";
    reloaded := new AuthState(auth.storage, parseUser);
  }

  /** A reload after `logout` starts signed out. */
  method ReloadAfterLogout(auth: AuthState, parseUser: string -> Option<User>)
    returns (reloaded: AuthState)
    requires auth.Valid()
    modifies auth, auth.storage
    ensures reloaded.user == None && reloaded.token == None && !reloaded.isAuthenticated
  {
    auth.Logout();
    reloaded := new AuthState(auth.storage, parseUser);
  }
}
