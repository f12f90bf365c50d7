/** The shape of one exchange with the provider as the resource operations
    hand it to the transport primitive: verb, URL, JSON body, the session
    cookie attached to it, the response-treatment policy and whether a body is
    decoded. The transport itself is not modelled: an operation receives what
    `request` would have answered as a parameter. */
module Requests {
  import opened Wrappers

  /** An HTTP session cookie issued by the provider, kept opaque. */
  datatype Cookie = Cookie(name: string, value: string)

  datatype Verb = GET | POST | PUT | DELETE

  /** The treatment function handed to `request`: the login closure of
      Authenticate, or one of the three shared default treatments. */
  datatype Treat = LoginTreat | DefaultTreat | DefaultPostTreat | DefaultDeleteTreat

  /** The JSON bodies the core sends. */
  datatype Body =
    | NoBody
    | LoginBody(user: string, password: string)
    | SecListBody(description: string, name: string, outboundCidrPolicy: string, policy: string)

  /** One request descriptor; `decodes` is true when a destination for the
      decoded JSON response is supplied. */
  datatype Request = Request(cookie: Option<Cookie>, url: string, verb: Verb, body: Body, treat: Treat, decodes: bool)

  /** The errors the core returns. `Local` carries the text of an error the
      core builds itself; `Transport` stands for whatever `request` reports
      without reaching a treatment function. */
  datatype Error =
    | AlreadyAuth
    | NotAuth
    | Local(message: string)
    | ApiStatus(status: int)
    | CookieCount(cookies: seq<Cookie>)
    | Transport(cause: string)

  /** The parts of an HTTP response a treatment function inspects. */
  datatype HttpResponse = HttpResponse(status: int, cookies: seq<Cookie>)

  /** What happens to a login request: a response arrives and goes to the
      treatment function, or the call fails before that. */
  datatype Exchange = Answered(response: HttpResponse) | Unreachable(cause: string)

  /** What `request` leaves behind for a resource operation: the destination
      value (decoded, partly decoded or untouched) and its error, if any. */
  datatype Reply<T> = Reply(decoded: T, err: Option<Error>)

  /** The identity-domain-qualified account path, `/Compute-<identify>/<username>`. */
  function ContainerPath(identify: string, username: string): (path: string)
    ensures |path| == 10 + |identify| + |username|
    ensures path[..9] == "/Compute-" && path[9..9 + |identify|] == identify
    ensures path[9 + |identify|..] == "/" + username
  {
    "/Compute-" + identify + "/" + username
  }
}
