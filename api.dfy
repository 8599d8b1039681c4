/**
  The shared HTTP client: its base URL, the request interceptor that adds
  the bearer token kept in `localStorage`, and the table of endpoint paths
  per resource.
*/
module Api {
  import opened JsValues
  import opened Storage
  import AuthSlice
  import DashboardLayout
  import AddUser

  const DefaultBaseUrl: string := "http://localhost:5000/api"

  /** `VITE_SERVER_URL || default`: an unset or empty variable falls back to the local server. */
  function BaseUrl(env: Option<string>): (r: string)
    ensures env.Some? && env.value != "" ==> r == env.value
    ensures env.None? || env.value == "" ==> r == DefaultBaseUrl
  {
    StoredOr(env, DefaultBaseUrl)
  }

  // ---- Endpoints ----

  const LoginPath: string := "/auth/login"
  const SignupAdminPath: string := "/auth/signup/admin"
  const SignupRefereePath: string := "/auth/signup/referee"

  datatype Collection = Users | Clubs | Players

  /** The `getAll` path of each resource. */
  function ListPath(c: Collection): string {
    match c
    case Users => "/users"
    case Clubs => "/clubs"
    case Players => "/players"
  }

  /** The three per-item builders, `getById`, `update` and `delete`. */
  datatype ItemOperation = GetById | Update | Delete

  function ItemPath(c: Collection, op: ItemOperation, id: string): string {
    match (c, op)
    case (Users, GetById) => "/users/" + id
    case (Users, Update) => "/users/" + id
    case (Users, Delete) => "/users/" + id
    case (Clubs, GetById) => "/clubs/" + id
    case (Clubs, Update) => "/clubs/" + id
    case (Clubs, Delete) => "/clubs/" + id
    case (Players, GetById) => "/players/" + id
    case (Players, Update) => "/players/" + id
    case (Players, Delete) => "/players/" + id
  }

  /** The `create` path; the users resource has none. */
  function CreatePath(c: Collection): Option<string> {
    match c
    case Users => None
    case Clubs => Some("/clubs")
    case Players => Some("/players")
  }

  /**
    Reading, updating and deleting an item share one path: the list path,
    a "/" and the id, whichever the id.
  */
  lemma ItemPathsAgree(c: Collection, id: string)
    ensures ItemPath(c, GetById, id) == ItemPath(c, Update, id) == ItemPath(c, Delete, id)
    ensures ItemPath(c, GetById, id) == ListPath(c) + "/" + id
    ensures |ItemPath(c, GetById, id)| == |ListPath(c)| + 1 + |id|
  {
  }

  /** Creating posts to the list path, for every resource that can be created. */
  lemma CreateIsListPath(c: Collection)
    ensures CreatePath(c).Some? <==> c != Users
    ensures CreatePath(c).Some? ==> CreatePath(c).value == ListPath(c)
  {
  }

  /** The sign-up paths are the ones the "Add User" page chooses between. */
  lemma SignupPathsMatchForm(role: string)
    ensures AddUser.SignupEndpoint(role) == (if role == "administrator" then SignupAdminPath else SignupRefereePath)
  {
  }

  // ---- The request interceptor ----

  /** The part of an axios request configuration the interceptor touches. */
  class RequestConfig {
    var headers: map<string, string>

    constructor (headers: map<string, string>)
      ensures this.headers == headers
    {
      this.headers := headers;
    }
  }

  /**
    A truthy stored token adds `Authorization: Bearer <token>`; a missing
    or empty one returns the configuration untouched.
  */
  method Intercept(config: RequestConfig, storage: LocalStorage) returns (out: RequestConfig)
    modifies config
    ensures out == config
    ensures var token := storage.GetItem(AuthSlice.TokenKey);
      config.headers == if token.Some? && token.value != ""
                        then old(config.headers)["Authorization" := "Bearer " + token.value]
                        else old(config.headers)
  {
    var token := storage.GetItem(AuthSlice.TokenKey);
    if token.Some? && token.value != "" {
      config.headers := config.headers["Authorization" := "Bearer " + token.value];
    }
    out := config;
  }

  /** After signing in with a non-empty token, every request carries that token. */
  method RequestAfterSignIn(auth: AuthSlice.AuthState, u: AuthSlice.User, t: string, config: RequestConfig)
    requires auth.Valid() && t != ""
    modifies auth, auth.storage, config
    ensures config.headers == old(config.headers)["Authorization" := "Bearer " + t]
  {
    auth.SetCredentials(u, t);
    var _ := Intercept(config, auth.storage);
  }

  /** After the layout's logout, requests go out without an `Authorization` header being added. */
  method RequestAfterLayoutLogout(storage: LocalStorage, config: RequestConfig)
    modifies storage, config
    ensures config.headers == old(config.headers)
  {
    var _ := DashboardLayout.HandleLogout(storage);
    var _ := Intercept(config, storage);
  }
}
