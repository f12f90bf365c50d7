# go-oracle-cloud client core, modelled in Dafny

This project models three pieces of a client library for a cloud provider's REST control-plane API.

- **Session authentication** (`api/authenticate.go`). A `Client` holds the account's credentials and an optional session cookie. `Authenticate` refuses if a cookie is already held. Otherwise it POSTs the qualified user and the password to `<endpoint>/authenticate/`. Its treatment closure accepts only status 204 with exactly one cookie, and only then stores that cookie.
- **Security-list operations** (`api/seclist.go`). `CreateSecList`, `DeleteSecList`, `AllSecList`, `SecListDetails` and `UpdateSecList` follow one order:
  1. check authentication (all five);
  2. validate the name locally (Create, Delete and Update; `SecListDetails` does not check its name and `AllSecList` has none);
  3. build the URL, and for Create and Update the body (`UpdateSecList` defaults an empty new name to the current one and upper-cases the policies);
  4. delegate one request;
  5. for Create, All, Details and Update, pass `Account` and `Name` of the decoded record, or of every record of the list, through `strip` (`DeleteSecList` decodes nothing).
- **Orchestration type inference** (`response/orchestration.go`). The type is found by a first-match scan over the oplans and their objects. The first object with non-empty instances or non-empty properties decides: Instance if its instances are non-empty, Storage otherwise. If no object matches, the result is a master orchestration.

Modules:

- `Wrappers`: `Option` and `Result`.
- `Requests`: the request descriptor handed to the transport, cookies, errors, the reply a transport call leaves behind, and the account path `/Compute-<identify>/<username>`.
- `Auth`: the `Client` class, its login treatment and `Authenticate`.
- `SecListResponse`, `Seclist`: the decoded record types and the five operations.
- `Orchestration`: the response shapes that the inference reads, and the inference with its lemmas.
- `Scenario`: two session scenarios proved from the contracts alone.

How I/O is modelled:

- The HTTP call is not modelled. Each operation receives what the call would have produced as a parameter. For a login this is an `Exchange`: either a response (status and cookies) or a failure before any response. `CreateSecList`, `AllSecList`, `SecListDetails` and `UpdateSecList` take a `Reply`: the destination value as `request` left it, plus `request`'s error. `DeleteSecList` passes no destination, so it takes only the request's error.
- Each operation returns `sent`, the request it issued. `None` means no request was made.
- The sec-list operations take the client but have no `modifies` clause. So, like Go's value receivers, they cannot change it, and that includes the cookie.
- `strip` is passed in as a function parameter, and nothing is assumed about it. What is proved is that it is applied to `account` and `name`, and that every other field comes through unchanged.

Two consequences of the code worth stating:

- The scan is first-match: a storage-only object placed before an instance object gives Storage (`Orchestration.EarlierStorageWins`).
- A failed login leaves no cookie, so the next `Authenticate` issues a new request (`Scenario.WrongCookieCountThenRetry`).

## Model

| member | source | states |
|---|---|---|
| Auth.LoginVerdict | api/authenticate.go:33-52 | the login treatment accepts exactly status 204 with exactly one cookie and then yields that cookie; another status yields the status error, a wrong cookie count yields the cookie-count error |
| Auth.LoginUrl | api/authenticate.go:30 | the login URL is the endpoint followed by `/authenticate/` |
| Auth.LoginRequest | api/authenticate.go:21-32 | the login request is a POST to `<endpoint>/authenticate/` whose body user is the account path `/Compute-<identify>/<username>` with the password, sent with the (absent) cookie and no decode destination |
| Auth.Client.constructor | api/authenticate.go:16-19 | a new client holds the given credentials and no cookie, so it is not authenticated |
| Auth.Client.TreatLogin | api/authenticate.go:33-53 | the treatment closure stores the single cookie exactly when the verdict accepts the response, and leaves the cookie unchanged and returns the verdict's error otherwise |
| Auth.Client.Authenticate | api/authenticate.go:16-56 | when already authenticated: AlreadyAuth, no request, cookie unchanged; otherwise the login request is issued, a failed call or a rejected response leaves the cookie unchanged with the error, and success (iff 204 with one cookie) stores that cookie, after which the client is authenticated |
| Requests.ContainerPath | api/authenticate.go:23 | the account path is `/Compute-`, the identity domain, `/`, the username, and each part can be read back at its offset |
| Seclist.CreateUrl | api/seclist.go:43 | the creation URL is the endpoint followed by `/seclist/` |
| Seclist.ContainerUrl | api/seclist.go:96-97 | the list URL is the account path under `<endpoint>/seclist`, ending in `/`, and extends the creation URL |
| Seclist.SecListUrl | api/seclist.go:73-74 | the URL of a named list is the list URL followed by the name, equivalently the decorated name under `<endpoint>/seclist` |
| Seclist.QualifiedName | api/seclist.go:180-181 | the decorated name in an update body is the account path, `/`, and the name, ending in the name |
| Seclist.SecListUrlInjective | api/seclist.go:73-74 | two names with the same list URL are the same name |
| Seclist.ToUpper | api/seclist.go:182-183 | upper-casing keeps the length, maps each character by ASCII upper-casing and leaves no lower-case ASCII letter |
| Seclist.TargetName | api/seclist.go:169-171 | the update target is newName when non-empty and currentName otherwise, so it is never empty once currentName is not |
| Seclist.UpdateNameRoundTrip | api/seclist.go:180-181 | if the provider echoes the decorated target name and strip removes that decoration, the stripped result name is newName, or currentName when newName is empty |
| Seclist.CreateSecList | api/seclist.go:17-61 | unauthenticated: NotAuth, zero result, no request; empty name: the "Empty secure list name" error, no request; otherwise one POST of the unchanged fields to the creation URL with defaultPostTreat and a decode target, the request's error returned with the unstripped result, or on success account and name stripped and nothing else changed |
| Seclist.DeleteSecList | api/seclist.go:64-87 | unauthenticated: NotAuth, no request; empty name: the "Empty secure list" error, no request; otherwise one DELETE of the named list's URL with defaultDeleteTreat, no body and no decode target, returning the request's error |
| Seclist.AllSecList | api/seclist.go:91-117 | unauthenticated: NotAuth, no request; otherwise one GET of the list URL with defaultTreat; on error the result as decoded, on success a list of the same length whose every element has account and name stripped and nothing else changed |
| Seclist.SecListDetails | api/seclist.go:120-143 | unauthenticated: NotAuth, no request; no name check; otherwise one GET of the named list's URL with defaultTreat, unstripped on error, account and name stripped on success |
| Seclist.UpdateSecList | api/seclist.go:154-205 | unauthenticated: NotAuth, no request; empty currentName: the "Empty secure list name" error, no request; otherwise one PUT to currentName's URL with defaultTreat whose body names the decorated target name and carries the upper-cased policies; unstripped on error, account and name stripped on success |
| Scenario.LoginThenLocalRejection | api/authenticate.go:16-52 | after a successful login a second login is refused without a request, an empty-name delete fails locally without a request, and the received cookie is still held |
| Scenario.WrongCookieCountThenRetry | api/authenticate.go:46-49 | a 204 with a wrong cookie count fails, the client stays unauthenticated so a list operation is refused without a request, and a later correct login to `<endpoint>/authenticate/` succeeds |
| Orchestration.OTypeName | response/orchestration.go:166-173 | the three type constants are the strings "Instance", "Storage" and "Master", one per type |
| Orchestration.OrchestrationType | response/orchestration.go:177-190 | the result is Master exactly when the oplan scan decides nothing, and otherwise the type that scan decides |
| Orchestration.ObjectsType | response/orchestration.go:179-187 | the scan over one oplan's objects never yields the master type |
| Orchestration.OplansType | response/orchestration.go:178-188 | the scan over the oplans never yields the master type |
| Orchestration.ObjectsTypeNone | response/orchestration.go:179-187 | the object scan finds nothing exactly when no object has non-empty instances or properties |
| Orchestration.ObjectsTypeFirst | response/orchestration.go:179-187 | the first object with non-empty instances or properties decides the object scan, instances first |
| Orchestration.ObjectsTypeSome | response/orchestration.go:179-187 | when the object scan decides, some object is the first deciding one |
| Orchestration.OplansTypeNone | response/orchestration.go:178-188 | the oplan scan finds nothing exactly when no object of any oplan decides |
| Orchestration.OplansTypeFirst | response/orchestration.go:178-188 | the first deciding object in oplan order then object order decides the oplan scan |
| Orchestration.OplansTypeSome | response/orchestration.go:178-188 | when the oplan scan decides, a first deciding position exists |
| Orchestration.MasterIff | response/orchestration.go:177-190 | the result is Master exactly when no object of any oplan has non-empty instances or non-empty properties, including no oplans and oplans without objects |
| Orchestration.FirstMatchDecides | response/orchestration.go:178-187 | the first object with non-empty instances or properties, in oplan order then object order, decides: Instance if its instances are non-empty, else Storage |
| Orchestration.NotMasterHasFirstMatch | response/orchestration.go:178-187 | every Instance or Storage result comes from such a first deciding object |
| Orchestration.InstancesBeforeProperties | response/orchestration.go:180-186 | for a first deciding object with properties, the result is Storage exactly when it has no instances, so an object with both yields Instance |
| Orchestration.EarlierStorageWins | response/orchestration.go:178-187 | a first deciding storage-only object yields Storage even when an instance object comes later |
| Orchestration.AppendOplans | response/orchestration.go:178-188 | appending oplans after a decided scan leaves the result unchanged |
| Orchestration.AppendObjects | response/orchestration.go:179-187 | appending objects to the oplan holding the first deciding object leaves the result unchanged |
| Orchestration.OnlyEmptinessMatters | response/orchestration.go:180-184 | two orchestrations whose objects agree on which sub-collections are empty have the same type, so nil and empty slices, and the contents of the slices, do not matter |

## Left out

- The transport primitive `request`, the shared treatments `defaultTreat`, `defaultPostTreat` and `defaultDeleteTreat`, `dumpApiError` and `strip`: their code is not part of this model. `request` is replaced by its reply, given as a parameter. The treatments appear only as labels in the request descriptor. `strip` is a function parameter.
- Auth.Client.Authenticate: this assumes that `request` returns the treatment closure's error unchanged and turns a failure before any response into `Transport(cause)`, because `request` is not part of this model. The status error drops the provider message that `dumpApiError` extracts; it keeps only the status code.
- `isAuth` is not part of this model. It is taken to mean "a cookie is held", since that is what `Authenticate` sets.
- The response shapes are cut down. `Orchestration`, `Oplans`, `Objects` and `InstancesOrchestration` keep only a few fields besides those the inference reads. `response/seclist.go` is not part of this model, so a security-list record is its account, its name and an opaque map for the rest.
- JSON encoding and decoding, struct tags and HTTP headers: library behaviour.
- `NewClient` and configuration validation are not part of this model. The `Client` constructor just takes the four configuration fields.
- Cookie expiry and the 30-minute validity window: the provider enforces them, not this code.
- Seclist.UpdateNameRoundTrip: the name round trip is only a conditional. `strip` is opaque, so the lemma assumes that the provider echoes the decorated name and that `strip` removes the decoration; it does not prove that `strip` does so.
- Seclist.ToUpper: ASCII only. Go's `strings.ToUpper` also upper-cases non-ASCII letters, which this model does not capture.
- Concurrency: a client is used from one thread at a time, and nothing here models concurrent use.
- `response/instance.go`: passive data structures with no logic.
