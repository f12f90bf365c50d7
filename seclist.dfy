/** The decoded security-list response types. Their defining file is not part
    of this model: only account and name are named, the other fields are kept
    as an opaque map, since no operation touches them. */
module SecListResponse {
  datatype SecList = SecList(account: string, name: string, others: map<string, string>)

  /** The list wrapper around the decoded records. */
  datatype AllSecList = AllSecList(result: seq<SecList>)

  /** Go's zero values, returned when an operation stops before its request. */
  const ZeroSecList := SecList("", "", map[])
  const ZeroAllSecList := AllSecList([])
}

/** The security-list operations. Each one checks authentication first; Create,
    Delete and Update then check their name; each builds its URL (Create and
    Update also a body) and delegates one request; Create, All, Details and
    Update finally pass the `Account` and `Name` fields of what was decoded
    through `strip`. The operations have value receivers: they take the client but
    change nothing in it. `request` is replaced by its reply, given as a
    parameter, and `strip` by a function parameter whose behaviour is unknown. */
module Seclist {
  import opened Wrappers
  import opened Requests
  import opened SecListResponse
  import Auth

  const EmptyNameMessage := "go-oracle-cloud: Empty secure list name"
  const EmptyListMessage := "go-oracle-cloud: Empty secure list"

  // ---------------------------------------------------------------------------
  // URL and body construction

  /** The creation endpoint, `<endpoint>/seclist/`. */
  function CreateUrl(endpoint: string): (url: string)
    ensures |url| == |endpoint| + 9
    ensures url[..|endpoint|] == endpoint && url[|endpoint|..] == "/seclist/"
  {
    endpoint + "/seclist/"
  }

  /** The account's container, `<endpoint>/seclist/Compute-<identify>/<username>/`:
      the login user path placed under `<endpoint>/seclist`. */
  function ContainerUrl(endpoint: string, identify: string, username: string): (url: string)
    ensures url == endpoint + "/seclist" + ContainerPath(identify, username) + "/"
    ensures CreateUrl(endpoint) <= url
  {
    endpoint + "/seclist/Compute-" + identify + "/" + username + "/"
  }

  /** The provider's decorated name of a list, `/Compute-<identify>/<username>/<name>`. */
  function QualifiedName(identify: string, username: string, name: string): (q: string)
    ensures q == ContainerPath(identify, username) + "/" + name
    ensures q[|q| - |name|..] == name
  {
    "/Compute-" + identify + "/" + username + "/" + name
  }

  /** The URL of one list: its decorated name under `<endpoint>/seclist`, that
      is, the container URL followed by the name. */
  function SecListUrl(endpoint: string, identify: string, username: string, name: string): (url: string)
    ensures url == ContainerUrl(endpoint, identify, username) + name
    ensures url == endpoint + "/seclist" + QualifiedName(identify, username, name)
  {
    endpoint + "/seclist/Compute-" + identify + "/" + username + "/" + name
  }

  /** Different names address different lists. */
  lemma SecListUrlInjective(endpoint: string, identify: string, username: string, a: string, b: string)
    requires SecListUrl(endpoint, identify, username, a) == SecListUrl(endpoint, identify, username, b)
    ensures a == b
  {
    var prefix := ContainerUrl(endpoint, identify, username);
    assert a == (prefix + a)[|prefix|..];
    assert b == (prefix + b)[|prefix|..];
  }

  /** Upper-casing of one character; only ASCII letters change. */
  function UpperChar(ch: char): (u: char)
  {
    if 'a' <= ch <= 'z' then (ch as int - 32) as char else ch
  }

  /** strings.ToUpper restricted to ASCII. */
  function ToUpper(s: string): (r: string)
    ensures |r| == |s|
    ensures forall i :: 0 <= i < |s| ==> r[i] == UpperChar(s[i])
    ensures forall i :: 0 <= i < |r| ==> !('a' <= r[i] <= 'z')
  {
    if s == [] then [] else [UpperChar(s[0])] + ToUpper(s[1..])
  }

  /** The name an update gives the list: newName, or currentName when newName is empty. */
  function TargetName(currentName: string, newName: string): (n: string)
    ensures currentName != "" ==> n != ""
    ensures n == currentName || n == newName
    ensures newName != "" ==> n == newName
  {
    if newName == "" then currentName else newName
  }

  // ---------------------------------------------------------------------------
  // Post-processing

  /** `r` is `d` with account and name passed through `strip`, and nothing else changed. */
  predicate StrippedFrom(r: SecList, d: SecList, strip: string -> string)
  {
    r.account == strip(d.account) && r.name == strip(d.name) && r.others == d.others
  }

  /** If the provider answers an update with the decorated name it was sent
      and `strip` removes that decoration, the caller gets back the name it
      asked for. */
  lemma UpdateNameRoundTrip(identify: string, username: string, currentName: string, newName: string,
                            d: SecList, r: SecList, strip: string -> string)
    requires d.name == QualifiedName(identify, username, TargetName(currentName, newName))
    requires strip(QualifiedName(identify, username, TargetName(currentName, newName))) == TargetName(currentName, newName)
    requires StrippedFrom(r, d, strip)
    ensures newName != "" ==> r.name == newName
    ensures newName == "" ==> r.name == currentName
  {
  }

  // ---------------------------------------------------------------------------
  // Operations

  /** CreateSecList: POST to the creation endpoint with the policies as given. */
  method CreateSecList(c: Auth.Client, description: string, name: string, outboundCidrPolicy: string, policy: string,
                       reply: Reply<SecList>, strip: string -> string)
    returns (resp: SecList, err: Option<Error>, sent: Option<Request>)
    ensures !c.IsAuth() ==> resp == ZeroSecList && err == Some(NotAuth) && sent == None
    ensures c.IsAuth() && name == "" ==> resp == ZeroSecList && err == Some(Local(EmptyNameMessage)) && sent == None
    ensures c.IsAuth() && name != "" ==>
      sent == Some(Request(c.cookie, CreateUrl(c.endpoint), POST,
                           SecListBody(description, name, outboundCidrPolicy, policy), DefaultPostTreat, true)) &&
      err == reply.err &&
      (if reply.err.Some? then resp == reply.decoded else StrippedFrom(resp, reply.decoded, strip))
  {
    resp := ZeroSecList;
    if !c.IsAuth() {
      return resp, Some(NotAuth), None;
    }
    if name == "" {
      return resp, Some(Local(EmptyNameMessage)), None;
    }
    var params := SecListBody(description, name, outboundCidrPolicy, policy);
    var url := c.endpoint + "/seclist/";
    sent := Some(Request(c.cookie, url, POST, params, DefaultPostTreat, true));
    resp, err := reply.decoded, reply.err;
    if err.Some? {
      return;
    }
    resp := resp.(account := strip(resp.account));
    resp := resp.(name := strip(resp.name));
  }

  /** DeleteSecList: DELETE of the named list; nothing is decoded. */
  method DeleteSecList(c: Auth.Client, name: string, reply: Option<Error>)
    returns (err: Option<Error>, sent: Option<Request>)
    ensures !c.IsAuth() ==> err == Some(NotAuth) && sent == None
    ensures c.IsAuth() && name == "" ==> err == Some(Local(EmptyListMessage)) && sent == None
    ensures c.IsAuth() && name != "" ==>
      sent == Some(Request(c.cookie, SecListUrl(c.endpoint, c.identify, c.username, name), DELETE,
                           NoBody, DefaultDeleteTreat, false)) &&
      err == reply
  {
    if !c.IsAuth() {
      return Some(NotAuth), None;
    }
    if name == "" {
      return Some(Local(EmptyListMessage)), None;
    }
    var url := c.endpoint + "/seclist/Compute-" + c.identify + "/" + c.username + "/" + name;
    sent := Some(Request(c.cookie, url, DELETE, NoBody, DefaultDeleteTreat, false));
    err := reply;
  }

  /** AllSecList: GET of the account's container; every record of the list
      is post-processed, in place. */
  method AllSecList(c: Auth.Client, reply: Reply<SecListResponse.AllSecList>, strip: string -> string)
    returns (resp: SecListResponse.AllSecList, err: Option<Error>, sent: Option<Request>)
    ensures !c.IsAuth() ==> resp == ZeroAllSecList && err == Some(NotAuth) && sent == None
    ensures c.IsAuth() ==>
      sent == Some(Request(c.cookie, ContainerUrl(c.endpoint, c.identify, c.username), GET,
                           NoBody, DefaultTreat, true)) &&
      err == reply.err
    ensures c.IsAuth() && reply.err.Some? ==> resp == reply.decoded
    ensures c.IsAuth() && reply.err.None? ==>
      |resp.result| == |reply.decoded.result| &&
      forall k :: 0 <= k < |resp.result| ==> StrippedFrom(resp.result[k], reply.decoded.result[k], strip)
  {
    resp := ZeroAllSecList;
    if !c.IsAuth() {
      return resp, Some(NotAuth), None;
    }
    var url := c.endpoint + "/seclist/Compute-" + c.identify + "/" + c.username + "/";
    sent := Some(Request(c.cookie, url, GET, NoBody, DefaultTreat, true));
    resp, err := reply.decoded, reply.err;
    if err.Some? {
      return;
    }
    var key := 0;
    while key < |resp.result|
      invariant 0 <= key <= |resp.result| == |reply.decoded.result|
      invariant forall k :: 0 <= k < key ==> StrippedFrom(resp.result[k], reply.decoded.result[k], strip)
      invariant forall k :: key <= k < |resp.result| ==> resp.result[k] == reply.decoded.result[k]
    {
      resp := resp.(result := resp.result[key := resp.result[key].(account := strip(resp.result[key].account))]);
      resp := resp.(result := resp.result[key := resp.result[key].(name := strip(resp.result[key].name))]);
      key := key + 1;
    }
  }

  /** SecListDetails: GET of the named list; the name is not checked. */
  method SecListDetails(c: Auth.Client, name: string, reply: Reply<SecList>, strip: string -> string)
    returns (resp: SecList, err: Option<Error>, sent: Option<Request>)
    ensures !c.IsAuth() ==> resp == ZeroSecList && err == Some(NotAuth) && sent == None
    ensures c.IsAuth() ==>
      sent == Some(Request(c.cookie, SecListUrl(c.endpoint, c.identify, c.username, name), GET,
                           NoBody, DefaultTreat, true)) &&
      err == reply.err &&
      (if reply.err.Some? then resp == reply.decoded else StrippedFrom(resp, reply.decoded, strip))
  {
    resp := ZeroSecList;
    if !c.IsAuth() {
      return resp, Some(NotAuth), None;
    }
    var url := c.endpoint + "/seclist/Compute-" + c.identify + "/" + c.username + "/" + name;
    sent := Some(Request(c.cookie, url, GET, NoBody, DefaultTreat, true));
    resp, err := reply.decoded, reply.err;
    if err.Some? {
      return;
    }
    resp := resp.(account := strip(resp.account));
    resp := resp.(name := strip(resp.name));
  }

  /** UpdateSecList: PUT to the list named currentName; the body carries the
      decorated target name and the upper-cased policies. */
  method UpdateSecList(c: Auth.Client, description: string, currentName: string, newName: string,
                       outboundCidrPolicy: string, policy: string,
                       reply: Reply<SecList>, strip: string -> string)
    returns (resp: SecList, err: Option<Error>, sent: Option<Request>)
    ensures !c.IsAuth() ==> resp == ZeroSecList && err == Some(NotAuth) && sent == None
    ensures c.IsAuth() && currentName == "" ==> resp == ZeroSecList && err == Some(Local(EmptyNameMessage)) && sent == None
    ensures c.IsAuth() && currentName != "" ==>
      sent == Some(Request(c.cookie, SecListUrl(c.endpoint, c.identify, c.username, currentName), PUT,
                           SecListBody(description, QualifiedName(c.identify, c.username, TargetName(currentName, newName)),
                                       ToUpper(outboundCidrPolicy), ToUpper(policy)),
                           DefaultTreat, true)) &&
      err == reply.err &&
      (if reply.err.Some? then resp == reply.decoded else StrippedFrom(resp, reply.decoded, strip))
  {
    resp := ZeroSecList;
    if !c.IsAuth() {
      return resp, Some(NotAuth), None;
    }
    if currentName == "" {
      return resp, Some(Local(EmptyNameMessage)), None;
    }
    var target := newName;
    if target == "" {
      target := currentName;
    }
    var params := SecListBody(description, "/Compute-" + c.identify + "/" + c.username + "/" + target,
                              ToUpper(outboundCidrPolicy), ToUpper(policy));
    var url := c.endpoint + "/seclist/Compute-" + c.identify + "/" + c.username + "/" + currentName;
    sent := Some(Request(c.cookie, url, PUT, params, DefaultTreat, true));
    resp, err := reply.decoded, reply.err;
    if err.Some? {
      return;
    }
    resp := resp.(account := strip(resp.account));
    resp := resp.(name := strip(resp.name));
  }
}
