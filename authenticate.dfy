/** The client's session state and the login exchange. The client holds the
    account's credentials and at most one session cookie; it is authenticated
    exactly when it holds a cookie, and only a successful login stores one. */
module Auth {
  import opened Wrappers
  import opened Requests

  /** http.StatusNoContent, the only status a successful login answers with. */
  const StatusNoContent := 204

  /** The login endpoint, `<endpoint>/authenticate/`. */
  function LoginUrl(endpoint: string): (url: string)
    ensures |url| == |endpoint| + 14
    ensures url[..|endpoint|] == endpoint && url[|endpoint|..] == "/authenticate/"
  {
    endpoint + "/authenticate/"
  }

  /** The one request a login issues: a POST with the qualified user and the
      password, sent with no cookie (the client holds none) and with no
      destination for a decoded body. */
  function LoginRequest(endpoint: string, identify: string, username: string, password: string): (req: Request)
    ensures req.verb == POST && req.treat == LoginTreat && !req.decodes && req.cookie == None
    ensures req.url == LoginUrl(endpoint)
    ensures req.body == LoginBody(ContainerPath(identify, username), password)
  {
    Request(None, LoginUrl(endpoint), POST, LoginBody("/Compute-" + identify + "/" + username, password), LoginTreat, false)
  }

  /** What the login treatment decides about a response: the cookie to store,
      or the error to return. */
  function LoginVerdict(resp: HttpResponse): (r: Result<Cookie, Error>)
    ensures r.Ok? <==> resp.status == StatusNoContent && |resp.cookies| == 1
    ensures r.Ok? ==> r.value == resp.cookies[0]
    ensures resp.status != StatusNoContent ==> r == Err(ApiStatus(resp.status))
    ensures resp.status == StatusNoContent && |resp.cookies| != 1 ==> r == Err(CookieCount(resp.cookies))
  {
    if resp.status != StatusNoContent then Err(ApiStatus(resp.status))
    else if |resp.cookies| != 1 then Err(CookieCount(resp.cookies))
    else Ok(resp.cookies[0])
  }

  class Client {
    const endpoint: string
    const identify: string
    const username: string
    const password: string
    var cookie: Option<Cookie>

    /** A client over checked configuration, not yet authenticated. */
    constructor (endpoint: string, identify: string, username: string, password: string)
      ensures this.endpoint == endpoint && this.identify == identify
      ensures this.username == username && this.password == password
      ensures cookie == None && !IsAuth()
    {
      this.endpoint := endpoint;
      this.identify := identify;
      this.username := username;
      this.password := password;
      cookie := None;
    }

    /** The client is authenticated when it holds a session cookie. */
    predicate IsAuth()
      reads this
    {
      cookie.Some?
    }

    /** The treatment closure of the login request: it checks the status and
        the number of cookies and takes the single cookie. */
    method TreatLogin(resp: HttpResponse) returns (err: Option<Error>)
      modifies this
      ensures err.None? <==> LoginVerdict(resp).Ok?
      ensures LoginVerdict(resp).Err? ==> err == Some(LoginVerdict(resp).error) && cookie == old(cookie)
      ensures LoginVerdict(resp).Ok? ==> cookie == Some(LoginVerdict(resp).value)
    {
      if resp.status != StatusNoContent {
        return Some(ApiStatus(resp.status));
      }
      var cookies := resp.cookies;
      if |cookies| != 1 {
        return Some(CookieCount(cookies));
      }
      cookie := Some(cookies[0]);
      return None;
    }

    /** Authenticate: refused when a cookie is already held (no request is
        issued); otherwise the login request is issued and the outcome of its
        treatment decides whether a cookie is stored. `sent` is the request
        issued, if any. */
    method Authenticate(exchange: Exchange) returns (err: Option<Error>, sent: Option<Request>)
      modifies this
      ensures old(IsAuth()) ==> err == Some(AlreadyAuth) && sent == None && cookie == old(cookie)
      ensures !old(IsAuth()) ==> sent == Some(LoginRequest(endpoint, identify, username, password))
      ensures !old(IsAuth()) && exchange.Unreachable? ==>
        err == Some(Transport(exchange.cause)) && cookie == old(cookie)
      ensures !old(IsAuth()) && exchange.Answered? ==>
        match LoginVerdict(exchange.response)
        case Ok(k) => err == None && cookie == Some(k)
        case Err(e) => err == Some(e) && cookie == old(cookie)
      ensures err == None <==> !old(IsAuth()) && exchange.Answered? && LoginVerdict(exchange.response).Ok?
      ensures err == None ==> IsAuth()
      ensures err != None ==> cookie == old(cookie)
    {
      if IsAuth() {
        return Some(AlreadyAuth), None;
      }
      var req := Request(cookie, LoginUrl(endpoint),
                         POST, LoginBody("/Compute-" + identify + "/" + username, password), LoginTreat, false);
      sent := Some(req);
      match exchange
      case Unreachable(cause) =>
        err := Some(Transport(cause));
      case Answered(resp) =>
        err := TreatLogin(resp);
    }
  }
}
