# Form3 account API client — a Dafny model

This project models the request machinery of a small Go client for the
Form3 account API. The client has two copies: `pkg/form3/client.go`, which
is the one the endpoints use, and `pkg/client.go`. Each copy consists of:

- a `Client` that holds the transport, the base URL, a debug flag and an
  authorization key;
- a fluent builder, `restClient`, that collects a URI, a method, headers, a
  body and two caller-owned decode targets: the response struct and an
  optional error struct;
- `Call`, which sends the request and fills the targets in place.

Two things decide where a response goes:

- its status code. `pkg/form3` treats statuses above 299 as errors;
  `pkg/client.go` treats statuses outside 200–299 as errors;
- whether the response target is the status-only `BaseHTTPResponse`.

The endpoints of `pkg/form3` (list, create, fetch, delete) are built on top.
`CreateAccount` and `DeleteAccount` return the error document exactly when
`Call` left `ErrorRef` set.

Layout:

- `wrappers.dfy` defines `Option`.
- `paths.dfy` gives URL paths as segment lists. `path.Join` becomes
  concatenation of segments.
- `query.dfy` gives the query as `url.Values`, with `Add`, `SetParameter`'s
  formatting, and `%v` of integers.
- `json.dfy` holds the parsed JSON members the response structs declare, the
  shapes of those structs, and `SetStatus` and decoding as functions on
  those shapes.
- `http.dfy` holds requests, the transport's answer, the header copy loop,
  and `Outcome`: the decision `Call` takes, stated once for both copies.
- `form3_responses.dfy` and `domain.dfy` hold the response structs as
  classes that `Call` updates in place.
- `form3_client.dfy` and `client.dfy` hold `Client` and `restClient` as
  classes, with `Call` and the endpoints. Each `Call` and each endpoint is
  proved against `Http.Outcome`.

The transport (`*http.Client`) is a function from request to exchange,
stored in the client. The exchange is one of: the request could not be
built, the transport failed, or a status with a body arrived. Parsing a body
into JSON members is a `Parser` oracle passed to `Call`. Serialising a
request payload is a `Marshaller` oracle passed to `SetJSONBody`.

The two copies classify statuses differently. The `Call` of
`pkg/form3/client.go` (line 114) tests only `> 299`, so a 1xx status counts
as a success there: `ErrorRef` is cleared and the body is decoded into the
response target (`Http.Over299`). The `Call` of `pkg/client.go` (line 89)
tests `< 200 || > 299` (`Http.Outside2xx`). `Http.RulesDifferBelow200`
shows that the two differ exactly on the statuses below 200.

## Model

| member | source | states |
|---|---|---|
| Form3Client.NewClient | pkg/form3/client.go:42-76 | the client holds the given transport and base URL; the debug flag stays false and the authorization key stays empty |
| Form3Client.Client.constructor | pkg/form3/client.go:20-25 | a client holds exactly the transport, base URL, debug flag and key it is given |
| Form3Client.Client.StartAnonymous | pkg/form3/client.go:84-95 | a fresh builder on an equal copy of the base URL, with no method and no body; its only header is Accept: application/vnd.api+json; it holds both targets and the client's debug flag and transport |
| Form3Client.Client.Start | pkg/form3/client.go:79-81 | like StartAnonymous, but Authorization is added exactly when the client's key is non-empty |
| Form3Client.Client.ListAccounts | pkg/form3/client.go:189-199 | the GET it sends goes to base path + organisation/accounts, with page[number] and page[size] appended to the base query; the response struct and the returned error are those `Outcome` gives for that exchange, with no error target |
| Form3Client.Client.CreateAccount | pkg/form3/client.go:202-215 | the POST to the accounts path carries the encoded request plus a newline; the error document is returned exactly when `Call` did not clear `ErrorRef`, that is, unless a non-error status arrived; when returned, it holds what `Outcome` decoded into it |
| Form3Client.Client.FetchAccount | pkg/form3/client.go:218-227 | the GET goes to the accounts path plus the id, or to the collection when the id is empty; the result and the error are those of `Outcome` |
| Form3Client.Client.DeleteAccount | pkg/form3/client.go:230-244 | the DELETE goes to the accounts path plus the id, with version=<n> in the query; the status-only target means a success body is never decoded; the error document is returned exactly when `ErrorRef` was not cleared |
| Form3Client.DeleteIgnoresBody | pkg/form3/client_test.go:153-163 | a 200 to a delete gives status 200, no error and no error document, whatever the body |
| Form3Client.DeleteConflictFillsErrors | pkg/form3/client.go:114-117 | a 409 whose body is an error document puts the general errors into the error struct, returns no error and attaches 409 |
| Form3Client.ListDecodesAccounts | pkg/form3/client_test.go:165-173 | a 200 whose body lists two accounts gives exactly those two accounts, in order, with status 200 and no error |
| Form3Client.CreateTransportFailure | pkg/form3/client.go:105-108 | a transport failure is returned as it is; no status is attached and `ErrorRef` is kept |
| Form3Client.RestClient.constructor | pkg/form3/client.go:85-91 | the struct literal: the given debug flag, targets and transport, an empty method, no body, no headers |
| Form3Client.RestClient.SetHeader | pkg/form3/client.go:128-131 | the header map gains or overwrites exactly one key; the builder itself is returned |
| Form3Client.RestClient.SetAuthorization | pkg/form3/client.go:133-138 | an empty key leaves the headers unchanged; any other key sets Authorization to it |
| Form3Client.RestClient.SetJSONBody | pkg/form3/client.go:140-146 | Accept is set to the JSON:API media type; the body is the marshalled payload followed by a newline, or empty when marshalling fails |
| Form3Client.RestClient.SetMethod | pkg/form3/client.go:148-151 | the method becomes the given verb and nothing else changes |
| Form3Client.RestClient.SetParameter | pkg/form3/client.go:153-164 | the query gains, under the key, every element of a string list in order, or the `%v` text of any other value; other keys and the rest of the URI are unchanged |
| Form3Client.RestClient.WithURI | pkg/form3/client.go:166-169 | the path becomes the old path followed by the segments of the argument |
| Form3Client.RestClient.WithURISegment | pkg/form3/client.go:171-176 | an empty segment changes nothing; any other segment's parts are appended to the path |
| Form3Client.RestClient.WithHeader | pkg/form3/client.go:178-181 | the same as SetHeader |
| Form3Client.RestClient.WithMethod | pkg/form3/client.go:183-186 | the same as SetMethod |
| Form3Client.RestClient.Call | pkg/form3/client.go:97-126 | the returned error, the response target's fields, `ErrorRef` (kept or cleared to nil) and the error target's fields are those `Http.Outcome` gives under the status rule `> 299` |
| Form3Responses.BaseHTTPResponse.constructor | pkg/form3/responses.go:9-12 | the zero value has status 0 |
| Form3Responses.BaseHTTPResponse.SetStatus | pkg/form3/responses.go:14-16 | the status becomes the argument |
| Form3Responses.ListResponse.constructor | pkg/form3/responses.go:19-23 | the zero value has status 0 and no accounts |
| Form3Responses.ListResponse.SetStatus | pkg/form3/responses.go:25-27 | the status becomes the argument; the accounts are unchanged |
| Form3Responses.FetchAccountResponse.constructor | pkg/form3/responses.go:84-87 | the zero value has status 0 and an empty account |
| Form3Responses.FetchAccountResponse.SetStatus | pkg/form3/responses.go:84-87 | the method promoted from the embedded BaseHTTPResponse: only the status changes |
| Form3Responses.CreateAccountResponse.constructor | pkg/form3/responses.go:95-98 | the zero value has status 0 and an empty account |
| Form3Responses.CreateAccountResponse.SetStatus | pkg/form3/responses.go:95-98 | the promoted method: only the status changes |
| Form3Responses.Errors.constructor | pkg/form3/responses.go:78-81 | the zero value has no field errors and no general errors |
| Form3Responses.Target.Fields | pkg/form3/responses.go:4-6 | a target's fields carry a status exactly when its type implements StatusAble, so every struct but Errors does |
| Form3Responses.SetStatus | pkg/form3/client.go:124 | the dynamic StatusAble call on a response target changes its status to the argument and nothing else |
| Form3Responses.Decode | pkg/form3/client.go:114-122 | decoding a body into a target gives the target the fields `Json.DecodeBody` gives, and returns its error |
| PkgClient.NewHTTPClient | pkg/client.go:39-52 | the client holds the given transport and base URL; the debug flag stays false and the key stays empty |
| PkgClient.Client.constructor | pkg/client.go:16-21 | a client holds exactly the fields it is given |
| PkgClient.Client.StartAnonymous | pkg/client.go:59-70 | as in pkg/form3: a fresh builder on a copy of the base URL, with Accept as its only header |
| PkgClient.Client.Start | pkg/client.go:54-56 | Authorization is added exactly when the key is non-empty |
| PkgClient.RestClient.constructor | pkg/client.go:60-66 | the struct literal of StartAnonymous |
| PkgClient.RestClient.SetHeader | pkg/client.go:103-106 | one key set or overwritten |
| PkgClient.RestClient.SetAuthorization | pkg/client.go:108-113 | an empty key is ignored; otherwise Authorization is set |
| PkgClient.RestClient.SetJSONBody | pkg/client.go:115-121 | Accept is set; the body is the encoding plus a newline |
| PkgClient.RestClient.SetMethod | pkg/client.go:123-126 | the method becomes the verb |
| PkgClient.RestClient.SetParameter | pkg/client.go:128-139 | list elements appended in order, or the `%v` text of a scalar; other keys unchanged |
| PkgClient.RestClient.WithURI | pkg/client.go:141-144 | the argument's segments are appended to the path |
| PkgClient.RestClient.WithURISegment | pkg/client.go:146-151 | an empty segment is skipped; otherwise its segments are appended |
| PkgClient.RestClient.WithHeader | pkg/client.go:153-156 | the same as SetHeader |
| PkgClient.RestClient.WithMethod | pkg/client.go:158-161 | the same as SetMethod |
| PkgClient.RestClient.Call | pkg/client.go:72-101 | the returned error and the new state of both targets and of `ErrorRef` are those of `Http.Outcome` under the rule "outside 200–299" |
| Domain.BaseHTTPResponse.constructor | pkg/domain.go:9-12 | the zero value has status 0 |
| Domain.BaseHTTPResponse.SetStatus | pkg/domain.go:14-16 | the status becomes the argument |
| Domain.ListResponse.constructor | pkg/domain.go:19-23 | status 0, no accounts |
| Domain.ListResponse.SetStatus | pkg/domain.go:25-27 | only the status changes |
| Domain.FetchAccountResponse.constructor | pkg/domain.go:69-72 | status 0, an empty account |
| Domain.FetchAccountResponse.SetStatus | pkg/domain.go:69-72 | the promoted method: only the status changes |
| Domain.CreateAccountResponse.constructor | pkg/domain.go:80-83 | status 0 and no accounts, since in this copy the data is a list |
| Domain.CreateAccountResponse.SetStatus | pkg/domain.go:80-83 | the promoted method: only the status changes |
| Domain.Errors.constructor | pkg/domain.go:63-66 | no field errors, no general errors |
| Domain.Target.Fields | pkg/domain.go:4-6 | a target carries a status exactly when it is StatusAble |
| Domain.SetStatus | pkg/client.go:99 | the dynamic StatusAble call changes the status only |
| Domain.Decode | pkg/client.go:89-97 | decoding gives the target the fields `Json.DecodeBody` gives, and returns its error |
| Http.Outcome | pkg/form3/client.go:97-126 | if no response arrives, the error is returned and nothing is touched, not even the status; if one arrives: its status is always attached; only a decode failure is returned; `ErrorRef` is cleared exactly on a non-error status; an error status decodes into the error target only when there is one and returns nil otherwise; a non-error status leaves the error target alone and decodes into the response target unless that target is status-only |
| Http.SuccessErrorIffUndecodable | pkg/client.go:91-97 | on a non-error status, the call returns nil exactly when the body parses and its members fit the response target; a `null` body parses as an empty object |
| Http.RulesDifferBelow200 | pkg/client.go:89 | the two copies disagree exactly on the statuses below 200, which only pkg/client.go decodes as errors |
| Http.InitialHeaders | pkg/form3/client.go:79-95 | a started builder always has Accept set to the JSON:API media type and has Authorization exactly when the key is non-empty, with no other header |
| Http.CopyHeaders | pkg/form3/client.go:102-104 | copying the header map key by key onto the request gives exactly the builder's headers |
| Json.WithStatus | pkg/form3/responses.go:25-27 | SetStatus writes the status and keeps everything else |
| Json.LastStatusWins | pkg/form3/responses.go:14-16 | of two SetStatus calls, the last wins |
| Json.SetStatusIdempotent | pkg/domain.go:14-16 | repeating SetStatus with the same status changes nothing |
| Json.DecodeInto | pkg/form3/client.go:121 | decoding keeps the struct's type; a status member overwrites the status and an absent one keeps it; an empty object changes nothing; the only failure is a type mismatch |
| Json.DecodeBody | pkg/form3/client.go:115 | a body that does not parse (a syntax error, an empty body, or a JSON value other than an object or `null`) leaves the target unchanged and is reported as malformed; a body that parses never is |
| Json.ErrorDocumentFillsErrors | pkg/form3/responses.go:78-81 | an error document with general errors decodes without error into an Errors struct, and those errors replace its general errors |
| Json.Encoded | pkg/form3/client.go:142-144 | the JSON encoder writes the marshalled bytes and then one newline, or nothing when marshalling fails |
| Paths.JoinSegment | pkg/form3/client.go:171-176 | joining "/"+segment onto a path appends exactly the segment's parts |
| Paths.JoinIsConcatenation | pkg/form3/client.go:166-169 | path.Join of two slash-separated paths, read back as segments, is the concatenation of their segments |
| Paths.SegmentsOfRender | pkg/form3/client.go:92 | rendering a path and parsing it back gives the same path, so the builder's copy of the base URL equals it |
| Paths.SegmentsOfSeparated | pkg/client.go:141-151 | splitting "a/b" gives the segments of a followed by those of b |
| Query.AddAll | pkg/form3/client.go:155-158 | adding a list of values under a key appends them in order, leaves the other keys alone, and creates the key only when the list is non-empty |
| Query.Put | pkg/form3/client.go:153-164 | the value a builder parameter adds: list elements or one formatted scalar; the key is present afterwards exactly when it was before or something was added |
| Query.Natural | pkg/form3/client.go:160 | `%v` of a non-negative integer is a non-empty string of decimal digits without a leading zero |
| Query.DecimalRoundTrip | pkg/client.go:135 | reading back the `%v` text of any integer, negative ones included, gives the integer |

## Left out

- TLS set-up in `NewClient` (loading the key pair and the CA pool, `log.Fatal` on failure) and the default transports with their 5-minute timeout: the transport is a parameter.
- `NewClient` and `NewHTTPClient` never set `AuthKey` or `Debug`. A client built by them therefore sends no Authorization header. The model keeps this; only a client built directly (`Client.constructor`) can have a key.
- The debug dump of the response to standard output: output only, with no effect on state.
- `http.NewRequest`'s own validation (the method name, the URL text): folded into the transport oracle's `ConstructFail` answer.
- `req.Header.Set` canonicalises header names, so two builder keys that differ only in case would collide; the model copies keys as written.
- The order of map iteration in the header loop, which is unobservable because no two keys collide in the model.
- URL text: percent-encoding, the sorted key order of `Values.Encode`, and `url.Parse` of the base URL. A URI is an origin, a list of path segments and a map of values.
- `path.Join`'s resolution of `.` and `..` segments and of a trailing slash: paths are lists of non-empty segments.
- JSON parsing of the bytes: left to the `Parser` oracle. The body is closed after decoding; this is not modelled.
- Json.DecodeInto: `encoding/json` merges an object member into an existing struct field; the model replaces the whole `Account` and keeps only its identifying members (type, id, organisation id, version). The account attributes are not modelled.
- Call (both copies): `ErrorRef` is an `interface{}` in the source; the model types it as an optional pointer to `Errors`, which is what every caller passes.
- Call (both copies): a response target that does not implement `StatusAble` makes the source panic on a response; the model requires a `StatusAble` target whenever the transport answers with a response.
- The account endpoints of `pkg/client.go` (lines 164-224): they call builder methods that the file does not define (`WithUri`, `WithJSONBody`), so they do not build as written. They follow the endpoints of `pkg/form3`, which are modelled, with three differences. Its `FetchAccount` (lines 193-206) passes an `Errors` target and returns it unless `ErrorRef` was cleared. Its `CreateAccountResponse` holds a list of accounts (pkg/domain.go:80-83). Its `CreateAccountRequest` wraps the response `Account` (pkg/domain.go:75-77) rather than the `CreateAccount` payload of pkg/form3/responses.go:90-92, so the POST body would carry a `version` member and the organisation id under the `organziation_id` key.
- Domain.Decode: the `Account` of pkg/domain.go tags its organisation id `organziation_id` (pkg/domain.go:33), so a body's `organisation_id` member never reaches it in that copy. The model reads the same account members for both copies, so in `Domain` it fills `organisationID` where the source would leave it as it was.
- The `Errors` struct's `FieldErrors` map is merged member by member, as `encoding/json` does.
- Json.DecodeInto: a JSON `null` member is read as absent, so the field keeps its value; `encoding/json` sets a slice or map field to nil on `null`. This concerns the accounts list, `fieldErrors` and `generalErrors`; every endpoint's target starts at its zero value, so the endpoints' results do not differ.
- Integer parameters are unbounded integers; Go's `int` is 64 bits wide, which does not matter for page numbers, page sizes and versions.
