# REST API client: configuration and request addressing

A Dafny model of the `Client` of a small Go HTTP client for a JSON:API
account service (package `client`). The model covers four things.

- How a client is constructed and validated. `NewClient` refuses an empty
  host, BaseURI or Resource. It fills in the protocol, port and content type
  only where the caller left them empty.
- How the configuration is updated in place. `updateBaseURI` and
  `updateResource` either refuse an empty argument or overwrite their
  field. `updateParameters` sets BaseURI, then Resource, then ContentType,
  and stops at the first empty mandatory field. With a non-empty BaseURI
  and an empty Resource it therefore refuses, yet leaves the new BaseURI
  behind.
- How the target URI is composed. `protocol://host:port` is followed by
  BaseURI, Resource and a slash. Fetch appends the id. Delete appends the id
  and `?version=<decimal>`.
- How `Create`, `Fetch` and `Delete` fill in the `{Body, Code}` envelope
  from what the transport returns.

The network is a parameter. Each operation builds a `Request` value (verb,
URL, Content-type header, body, timeout) and passes it to a
`transport: Request -> Outcome` function. The outcome is one of three things:

- the request could not be built;
- no response came back;
- an answer with a status and a body, where the body is absent if reading it failed.

Modules:

- `Wrappers`: `Option` and `Result`.
- `Config`: the error kinds, `Parameters`, `Settings`, the default constants
  and the `check*` helpers.
- `Decimal`: `strconv.Itoa` and its inverse.
- `Addressing`: `updateURI`, the Fetch and Delete URLs, and reading a
  Delete URL back.
- `Transport`: the request, the outcome and the envelope.
- `Client`: the `Client` class, `NewClient`, the three operations, and the
  as-written model of Create's defect.

Three points about the code shape the model.

- `updateURI` recomputes the target URI on every call, so a configuration
  update takes effect on the next request.
- The client holds no timeout of its own. Each call resolves only its own
  timeout through `checkTimeout`.
- Every missing parameter is reported as the one `ErrParamNotSet`, wrapped
  with a label that is not reliable: `updateResource` labels its error
  `"BaseURI"`. The model keeps a single kind, `ParamNotSet`.

## Model

| member | source | states |
|---|---|---|
| Config.CheckTimeout | api/client/client.go:238-243 | the result is never zero; a non-zero timeout is kept; zero becomes ten seconds |
| Config.CheckContentType | api/client/client.go:245-251 | the result is never empty; a non-empty content type is kept; empty becomes application/vnd.api+json |
| Config.CheckProtocol | api/client/client.go:253-258 | the result is never empty; a non-empty protocol is kept; empty becomes http |
| Config.CheckPort | api/client/client.go:260-265 | the result is never empty; a non-empty port is kept; empty becomes 8080 |
| Config.CheckTimeoutIdempotent | api/client/client.go:238-243 | defaulting a timeout twice equals defaulting it once |
| Config.CheckContentTypeIdempotent | api/client/client.go:245-251 | defaulting the content type twice equals defaulting it once |
| Config.CheckProtocolIdempotent | api/client/client.go:253-258 | defaulting the protocol twice equals defaulting it once |
| Config.CheckPortIdempotent | api/client/client.go:260-265 | defaulting the port twice equals defaulting it once |
| Decimal.Itoa | api/client/client.go:168 | the version text is non-empty, starts with '-' exactly for negative numbers, and is otherwise digits only |
| Decimal.ParseItoa | api/client/client.go:168 | parsing the decimal text of any integer gives back that integer |
| Decimal.ItoaInjective | api/client/client.go:168 | distinct versions are written as distinct texts |
| Addressing.UpdateURI | api/client/client.go:100-107 | succeeds exactly when BaseURI and Resource are both non-empty; the URI is then protocol + "://" + host + ":" + port + BaseURI + Resource + "/"; otherwise the missing-field error |
| Addressing.UpdateURIShape | api/client/client.go:103 | the URI is the origin, then exactly BaseURI + Resource, then one closing slash, and nothing more |
| Addressing.UpdateURIDeterminesPath | api/client/client.go:103 | for the same origin, two clients share a URI iff their BaseURI + Resource strings are equal; no separator is inserted or normalised |
| Addressing.DefaultTargetURI | api/client/client.go:100-107 | settings with host "accountapi", the defaulted protocol and port, and the test parameters address exactly http://accountapi:8080/v1/organisation/accounts/ |
| Addressing.FetchTarget | api/client/client.go:205 | Fetch's URL starts with the target URI and the rest is exactly the id |
| Addressing.DeleteTarget | api/client/client.go:168 | Delete's URL extends Fetch's URL for the same id |
| Addressing.ParseDeleteTargetRoundTrip | api/client/client.go:168-170 | when neither the target URI nor the id holds '?', '#' or '%', the path and query http.NewRequest reads from Delete's URL give back exactly that id and version |
| Addressing.QueryInIdHidesVersion | api/client/client.go:168-170 | for the id "a?b" the query the server receives starts with "b", not with the version parameter, so no version is read |
| Addressing.FragmentInIdDropsVersion | api/client/client.go:168-170 | for every id whose first '#' comes before any '?', the version query lands in the fragment, so no version is sent |
| Client.Client.constructor | api/client/client.go:269 | a new client has every field empty |
| Client.Client.UpdateBaseURI | api/client/client.go:82-89 | an empty argument gives ParamNotSet and changes nothing; otherwise BaseURI alone changes; a valid client stays valid |
| Client.Client.UpdateResource | api/client/client.go:91-98 | an empty argument gives ParamNotSet and changes nothing; otherwise Resource alone changes; a valid client stays valid |
| Client.Client.UpdateParameters | api/client/client.go:59-80 | an empty BaseURI changes nothing; a valid BaseURI with an empty Resource changes only BaseURI; success sets BaseURI, Resource and the defaulted ContentType; a valid client stays valid |
| Client.Client.Outbound | api/client/client.go:131-132 | every request keeps the operation's method, URL and body, carries the configured Content-type header, and uses the caller's timeout when it is non-zero and ten seconds otherwise |
| Client.Client.Create | api/client/client.go:112-152 | without a target URI the envelope is {nil, -1} with the URI error; any answered status (404 and 409 included) gives no error and carries that status and the read body; each failure gives {nil, -1} and its error |
| Client.Client.Fetch | api/client/client.go:193-234 | the same mapping as Create, for a GET to the target URI followed by the id |
| Client.Client.Delete | api/client/client.go:156-188 | a DELETE to the target URI + id + "?version=" + decimal version; the body stays nil; an error exactly when the code is -1; any answered status is returned without error |
| Client.NewClient | api/client/client.go:268-292 | fails with ParamNotSet exactly when host, BaseURI or Resource is empty; an empty host leaves a blank client; a later refusal leaves only BaseURI set; success keeps host, BaseURI and Resource and defaults protocol, port and content type; the client is then valid |
| Client.ValidIsAddressable | api/client/client.go:100-107 | a valid client always has a target URI, and it starts with the client's origin |
| Client.CreateAsWritten | api/client/client.go:133-151 | the code as written dereferences a nil response exactly when Do fails |
| Client.CreateAsWrittenAgreesElsewhere | api/client/client.go:133-151 | on every other outcome the code as written returns the envelope and error that Create promises |
| Client.DefaultClientAddress | api/client/client.go:268-292 | NewClient accepts host "accountapi" with no port or protocol and the test parameters, and the client addresses exactly http://accountapi:8080/v1/organisation/accounts/ |

## Left out

- Real HTTP dispatch is an abstract `transport` function. This covers `http.NewRequest`, `http.Client.Do`, timeout enforcement and `ioutil.ReadAll`. Its outcome is only "not built", "no response" or "answered with a status and possibly a body".
- Connection reuse, TLS and redirects are not modelled. A failing redirect policy can make `Do` return a response together with an error; the outcome type cannot express this.
- Client.Client.Fetch: when `http.NewRequest` fails, the code calls `log.Fatal` and the process ends. The model returns the error instead, because process termination is not modelled.
- The `fmt.Printf` progress traces are output only.
- `GetObjID`, `GetObjVersion` and `JSONPrettyPrint` wrap `encoding/json` with unchecked type assertions and a float-to-int conversion. A JSON parser is not part of this model.
- The `APIInterface` conformance assertion and the `Version` constant are not modelled. The first is a compile-time check and the second is never used.
- `checkProtocol` and `checkPort` are methods on `*Client` in Go, but they ignore the receiver. They are modelled as plain functions.
- Error messages and the field labels of wrapped errors are not modelled. Errors are kinds only.
- Addressing.ParseDeleteTargetRoundTrip: holds only when neither the target URI nor the id contains '?', '#' or '%'. It also assumes http.NewRequest accepts the URL; a refused URL is the transport's Unsent outcome. The code escapes nothing at client.go:168. http.NewRequest splits the URL at the first '#' and then at the first '?', and it percent-decodes the path. An id holding '?' or '#' changes what the server receives. QueryInIdHidesVersion shows this for the id "a?b". FragmentInIdDropsVersion shows it for every id whose first '#' comes before any '?'. A crafted id can even replace the version the server receives: the id "x?version=9#y" sends version 9. The model's reader takes the whole query as one parameter. A server splits the query at '&', so an id such as "a?version=5&x" reaches it as version 5, while the model's reader gives no version. An id holding '%' is decoded: "a%41" reaches the server as "aA". An invalid escape such as "a%zz" makes http.NewRequest refuse the URL. The model's reader does not decode escapes.
- Integer widths are not modelled. `time.Duration` and the version are unbounded integers. No operation does arithmetic on them, so no wrap-around can occur.

## Findings

| source | as written | input that shows it | evidently intended | confidence | as-written member | corrected member |
|---|---|---|---|---|---|---|
| api/client/client.go:135-137 | when `client.Do` fails, Create assigns `resp.StatusCode`, but `resp` is nil, so the call panics | any Create whose dispatch gets no response (server unreachable, timeout elapsed) | return the envelope {nil, -1} with the transport error, as Fetch and Delete do | high (not executed) | Client.CreateAsWritten | Client.Client.Create |
