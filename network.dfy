/**
  Requests to the REST backend as the pages issue them. A response is a
  body, or a failure carrying the server's message (empty when the error
  had no `response.data.message`). Pages that call axios directly build
  the URL from `VITE_SERVER_URL` and the bearer header from the store's
  token through template literals.
*/
module Network {
  import opened JsValues

  datatype Response<T> = Ok(body: T) | Failed(serverMessage: string)

  /** A POST as a form page sends it: URL, `Authorization` header and JSON body. */
  datatype Post = Post(url: string, authorization: string, body: map<string, string>)

  /** `${import.meta.env.VITE_SERVER_URL}`: an unset variable renders as "undefined". */
  function EnvText(env: Option<string>): (r: string)
    ensures env.Some? ==> r == env.value
    ensures env.None? ==> r == "undefined"
  {
    if env.Some? then env.value else "undefined"
  }

  /** `Bearer ${token}`: a missing token is sent as the text "null". */
  function BearerHeader(token: Option<string>): (r: string)
    ensures |r| >= 7 && r[..7] == "Bearer "
    ensures token.Some? ==> r[7..] == token.value
    ensures token.None? ==> r[7..] == "null"
  {
    "Bearer " + OptionToJsString(token)
  }
}
