/** Session scenarios that use only the contracts of the client and of the
    security-list operations. */
module Scenario {
  import opened Wrappers
  import opened Requests
  import Auth
  import Seclist
  import SecListResponse

  /** A fresh client logs in with a 204 carrying one cookie; a second login is
      refused without a request; deleting a list with an empty name fails
      locally without a request; and the cookie is still the one received. */
  method LoginThenLocalRejection(endpoint: string, identify: string, username: string, password: string,
                                 k: Cookie, deleteReply: Option<Error>)
    returns (first: Option<Error>, second: Option<Error>, secondSent: Option<Request>,
             deleted: Option<Error>, deleteSent: Option<Request>, held: Option<Cookie>)
    ensures first == None
    ensures second == Some(AlreadyAuth) && secondSent == None
    ensures deleted == Some(Local("go-oracle-cloud: Empty secure list")) && deleteSent == None
    ensures held == Some(k)
  {
    var c := new Auth.Client(endpoint, identify, username, password);
    var firstSent;
    first, firstSent := c.Authenticate(Answered(HttpResponse(204, [k])));
    second, secondSent := c.Authenticate(Answered(HttpResponse(204, [k])));
    deleted, deleteSent := Seclist.DeleteSecList(c, "", deleteReply);
    held := c.cookie;
  }

  /** A login answered with 204 but a wrong number of cookies fails and leaves
      the client unauthenticated, so a following list operation is refused
      before any request, and a later correct login is issued and succeeds. */
  method WrongCookieCountThenRetry(endpoint: string, identify: string, username: string, password: string,
                                   cookies: seq<Cookie>, k: Cookie,
                                   listReply: Reply<SecListResponse.AllSecList>, strip: string -> string)
    returns (first: Option<Error>, listed: Option<Error>, listSent: Option<Request>,
             retry: Option<Error>, retrySent: Option<Request>)
    requires |cookies| != 1
    ensures first == Some(CookieCount(cookies))
    ensures listed == Some(NotAuth) && listSent == None
    ensures retry == None && retrySent.Some? && retrySent.value.url == endpoint + "/authenticate/"
  {
    var c := new Auth.Client(endpoint, identify, username, password);
    var firstSent;
    first, firstSent := c.Authenticate(Answered(HttpResponse(204, cookies)));
    var all;
    all, listed, listSent := Seclist.AllSecList(c, listReply, strip);
    retry, retrySent := c.Authenticate(Answered(HttpResponse(204, [k])));
  }
}
