# jo-micro/router in Dafny

A model of the route bookkeeping and request dispatch of the jo-micro router,
an HTTP gateway in front of go-micro RPC backends.

- **Backends** declare routes with functional options (`route.go`). They collect them in an append-only manifest and answer the gateway's manifest request with those routes and a mount prefix read from a command-line flag (`handler.go`).
- **The gateway** (`cmd/microrouterd/handler/handler.go`) runs discovery cycles:
  - it asks every backend for its manifest;
  - it mounts each advertised route under the global group or the backend's group;
  - it registers the route under the key `Method:` plus the mounted path, unless that key is already taken (the first writer wins);
  - it skips a route whose rate rules cannot be used.
- **Each registered handler** runs a fixed pipeline:
  1. the client-address limiters, in order;
  2. the declared parameters (the path value wins over the query value);
  3. the body (multipart fields base64-encoded, or the bound body, or 415 when there is no content type);
  4. the parameters written over the body;
  5. authentication (401 when required and failing);
  6. context forwarding;
  7. the user limiters;
  8. the backend call, whose error code becomes the HTTP status (500 when the code is 0).
- **The older gateway handler** (`handler/handler.go`) does the same without admission, authentication or limits. It keys routes `Method: base/path` and forwards the request headers as call metadata (`util/ctx.go`).

Modules:

| file | module | models |
|---|---|---|
| base.dfy | `Base` | `Option`, `Result`, `byte` |
| proto.dfy | `Proto` | the manifest and introspection messages |
| route.dfy | `RouteOptions` | `route.go` |
| router.dfy | `BackendRouter` | `handler.go` |
| metadata.dfy | `HeaderMetadata` | `util/ctx.go` |
| wire.dfy | `Wire` | requests, response writes and backend results |
| transcode.dfy | `Transcode` | the parameter, body and merge loops shared by both proxies |
| ratelimit.dfy | `RateLimit` | the limiter chain |
| discovery.dfy | `Discovery` | admission and the discovery cycle, as functions |
| dispatcher.dfy | `Dispatcher` | the gateway's `proxy` |
| gateway.dfy | `Gateway` | the gateway `Handler` object: discovery loop, `Routes`, serving |
| legacy.dfy | `LegacyGateway` | `handler/handler.go`: `Start` loop and `proxy` |

Modelling choices:

- **Imperative code keeps its form.** `Add`, the discovery loops, the limiter slices filled by index, the parameter and body loops, the header loop and the `Routes` loop are methods with loops. Each is proved equal to a function on values, and the properties are proved as lemmas about those functions, except for two loops over a map: the header loop of `CtxFromRequest` and the `Routes` loop. These are proved to meet a relation (`IsHeaderMetadata`, and a one-to-one correspondence between entries and keys) that leaves open what depends on map iteration order: which header wins when two names give the same key, and the order of the entries.
- **Foreign pieces are parameters.** The following become function-typed parameters: limiter `Get`, `NewRateFromFormatted`, `Inspect`, `ForwardContext`, the RPC call with `errors.FromError`, base64, the web framework's `BasePath` of a group, and the command-line lookup.
- **Responses are a list of `c.JSON` writes.** The first write fixes the status. A failed `ForwardContext` writes 500 and the request goes on to the backend call, as the code does.
- **The 401 body's `message`** is the nil `err` variable, not the inspection error (`NilError`).
- **Two inputs make the handler panic, and the model records a `Panicked` outcome for each:**
  - a multipart value field with no value (`v[0]`);
  - a nil limiter in a slice.
- **Rate rules.** A route whose rate rules in force do not parse, or that has rules in force but no store, is skipped and retried on the next cycle.
- **Admission as written.** The registry, the discovery loop and `Serve` use the admission the code performs (`AdmitAsWritten`), nil user slots included. `Admit` is the corrected admission of the finding below; it is proved to keep every handler clear of nil limiters.
- **Route fields the options cannot set.** `route.go`'s `Route` has no `AuthRequired`, `RatelimitClientIP` or `RatelimitUser`, yet `handler.go`'s `Add` reads them. The model's route carries them, and `NewRoute` leaves them at Go's zero values.

## Model

| member | source | states |
|---|---|---|
| RouteOptions.Apply | route.go:32-60 | an option writes its own field with its value and leaves every other field as it was |
| RouteOptions.NewRouteWithoutOptions | route.go:16-23 | with no options a route is non-global `GET /` with no parameters and the given endpoint |
| RouteOptions.ApplyAllAppend | route.go:25-27 | options apply left to right: applying `a + b` is applying `a`, then `b` |
| RouteOptions.ApplyAllUntouched | route.go:25-27 | a field no option writes keeps its default |
| RouteOptions.LastOptionWins | route.go:25-27 | the last option writing a field decides it, whatever came before |
| RouteOptions.EndpointOptionOverrides | route.go:50-54 | an `Endpoint` option overrides the positional endpoint argument |
| RouteOptions.ParamsOptionReplaces | route.go:56-60 | `Params` replaces the whole list; without it the list is empty |
| BackendRouter.Lower | handler.go:82 | lower-casing maps every character through ASCII lower case and keeps the length |
| BackendRouter.Upper | handler.go:84 | upper-casing maps every character through ASCII upper case and keeps the length |
| BackendRouter.LowerAfterUpper | handler.go:82-85 | lower-casing undoes any upper-casing done first |
| BackendRouter.BasepathFlagShape | handler.go:79-88 | the default base path is "api/v1/" plus the lower-case prefix, which is also the start of the flag name; the flag name ends in "_router_basepath" and the environment variable ends in "_ROUTER_BASEPATH", with an upper-case prefix |
| BackendRouter.BasepathFlagIgnoresCase | handler.go:79-88 | prefixes that differ only in ASCII letter case give the same flag (under the ASCII case mapping of `Lower` and `Upper`) |
| BackendRouter.PublishedAllAppend | handler.go:98-116 | publishing keeps argument order: publishing `a + b` is publishing `a`, then `b` |
| BackendRouter.NilRoutesSkipped | handler.go:100-103 | a nil route contributes nothing, wherever it stands |
| BackendRouter.PublishedAllPresent | handler.go:105-114 | without nils, entry `i` copies every field of route `i`, with the endpoint's name |
| BackendRouter.Handler.New | handler.go:29-31 | a new handler is not initialised and holds no routes |
| BackendRouter.Handler.Init | handler.go:49-73 | a second `Init` changes nothing; the first reads the base path from the flag named after the prefix and sets the initialised flag; routes are untouched |
| BackendRouter.Handler.Add | handler.go:98-116 | the route list becomes the old list followed by the published non-nil routes, in order |
| BackendRouter.Handler.Routes | handler.go:124-129 | the reply holds exactly the handler's base path and route list |
| HeaderMetadata.ReplaceSpaces | util/ctx.go:17 | every space becomes an underscore and every other character is kept |
| HeaderMetadata.MetadataKey | util/ctx.go:16-17 | a key is "PROXY " plus the name with spaces replaced; the prefix's space is its only space; a name without spaces is kept as is |
| HeaderMetadata.JoinThenSplit | util/ctx.go:17 | joining values with commas keeps them and their order: splitting gives them back when none holds a comma |
| HeaderMetadata.CtxFromRequest | util/ctx.go:13-18 | every header has its key in the metadata, and every entry is the joined values of a header with that key |
| HeaderMetadata.MetadataSize | util/ctx.go:14-18 | there are never more entries than headers |
| HeaderMetadata.MetadataWithoutSpaces | util/ctx.go:15-17 | for header names without spaces, header `k` is found under "PROXY " + `k` with its own values |
| Transcode.CollectParams | cmd/microrouterd/handler/handler.go:257-267 | the parameters are exactly the declared names with a non-empty path or query value, the path value winning |
| Transcode.EncodedAllReadable | cmd/microrouterd/handler/handler.go:274-293 | when every file reads, the encodings are one per file, in file order |
| Transcode.EncodeField | cmd/microrouterd/handler/handler.go:275-293 | a field gets the list of its readable files' encodings when it has several files, a scalar when it has one, and nothing when none reads |
| Transcode.EncodeFiles | cmd/microrouterd/handler/handler.go:274-294 | the file loop yields the file fields of the whole form |
| Transcode.EncodeValues | cmd/microrouterd/handler/handler.go:296-303 | value fields are written over the object: a list when there are several values, else the first value; a field with no value stops the loop |
| Transcode.MaterializeBody | cmd/microrouterd/handler/handler.go:270-320 | the body is empty for other verbs, the form's fields for multipart, 415 without a content type, else the bound object |
| Transcode.FileFieldShapes | cmd/microrouterd/handler/handler.go:285-293 | a single readable file gives its encoding; several readable files give their encodings in order |
| Transcode.FormFieldPrecedence | cmd/microrouterd/handler/handler.go:274-303 | a value field overrides a file field of the same name; a field with no readable file is absent |
| Transcode.MissingContentTypeExactly | cmd/microrouterd/handler/handler.go:271-318 | 415 happens exactly for POST, PATCH or PUT, a non-multipart body and an empty content type |
| Transcode.Merge | cmd/microrouterd/handler/handler.go:322-325 | the object has the body's keys and the parameters' keys; parameters win, other body entries stay |
| Transcode.MergeParams | cmd/microrouterd/handler/handler.go:322-325 | the parameter loop yields the merged object |
| RateLimit.LimiterKeyPerCaller | cmd/microrouterd/handler/handler.go:223 | on one route and rule, two callers share a store counter exactly when they are the same caller |
| RateLimit.Evaluate | cmd/microrouterd/handler/handler.go:221-253 | the limiter loop ends as `Chain` says, with the headers of the last counted limiter |
| RateLimit.ChainPassedIff | cmd/microrouterd/handler/handler.go:221-253 | a chain passes exactly when every limiter is present and counts the request below its limit |
| RateLimit.ChainStops | cmd/microrouterd/handler/handler.go:224-251 | after the first store error or reached limit, no later limiter is asked |
| RateLimit.ChainAppend | cmd/microrouterd/handler/handler.go:222-253 | a chain that passes a prefix continues from that prefix's headers |
| RateLimit.ChainHeaders | cmd/microrouterd/handler/handler.go:237-251 | after a passing chain the headers are the last limiter's; after a 429 they are the ones the store gave for the first limiter that did not let the request through, every limiter before it having passed |
| RateLimit.ChainWithoutNil | cmd/microrouterd/handler/handler.go:222-223 | a chain of non-nil limiters never reaches a nil one |
| RateLimit.ChainNilFirst | cmd/microrouterd/handler/handler.go:372-374 | a nil first limiter ends the chain before any store is asked |
| Discovery.AdmitAsWritten | cmd/microrouterd/handler/handler.go:128-198 | admits the same routes as `Admit`, with the same client-address limiters; for a route without authentication the user slice has one nil slot per user rule |
| Discovery.Admit | cmd/microrouterd/handler/handler.go:128-198 | the corrected admission: a route is skipped exactly when the code skips it (client-address rules with no store or a bad rule, or authentication required, user rules, and no store or a bad rule); admitted slices hold no nil, one limiter per rule in force, and no user slot on a public route |
| Discovery.MergeRouteKeeps | cmd/microrouterd/handler/handler.go:117-202 | one route adds at most its own key and never changes an entry |
| Discovery.MergeRouteWellFormed | cmd/microrouterd/handler/handler.go:117-202 | one route keeps the registry well formed: keys, stored routes and paths agree, and each handler holds the limiters admission as written gives its route |
| Discovery.MergeAllKeepsRoutes | cmd/microrouterd/handler/handler.go:119-201 | a cycle keeps every stored route, even when the handler map is not considered |
| Discovery.MergeAllKeeps | cmd/microrouterd/handler/handler.go:119 | a cycle never removes or overwrites an entry |
| Discovery.MergeAllWellFormed | cmd/microrouterd/handler/handler.go:117-202 | every key stays `Method:` plus the stored path; each handler holds its route, its mounted path and the limiters admission as written gives: no nil client-address limiter, one user slot per user rule, filled on authenticated routes and nil on public ones |
| Discovery.MergeAllNewEntries | cmd/microrouterd/handler/handler.go:105-202 | an added entry comes from an admitted advert with that key, stored with its mounted path |
| Discovery.FirstWriterWins | cmd/microrouterd/handler/handler.go:119 | the first admitted advert with a new key decides the route and the handler stored under it |
| Discovery.MergeAllSettles | cmd/microrouterd/handler/handler.go:119-202 | after a cycle every advert's key is taken or the advert is not admitted |
| Discovery.SettledNoop | cmd/microrouterd/handler/handler.go:119 | a cycle over settled adverts changes nothing |
| Discovery.MergeAllIdempotent | cmd/microrouterd/handler/handler.go:119 | re-advertising the same routes leaves the registry unchanged |
| Discovery.MergeAllGrowth | cmd/microrouterd/handler/handler.go:119-202 | a cycle adds at most one entry per advert |
| Discovery.MergeAllAppend | cmd/microrouterd/handler/handler.go:90-204 | a cycle over two advert lists is a cycle over each in turn |
| Dispatcher.Proxy | cmd/microrouterd/handler/handler.go:218-433 | the handler's loops and steps end as `Dispatch` says |
| Dispatcher.ClientIPShortCircuit | cmd/microrouterd/handler/handler.go:221-253 | a store error answers 500, and a reached limit answers 429 with the headers the store gave for the first client-address limiter that did not pass; both happen before anything else, with no backend call |
| Dispatcher.ClientIPPassed | cmd/microrouterd/handler/handler.go:222-241 | the client-address chain passes exactly when every limiter, keyed `path-formatted-clientIP`, counts the request below its limit |
| Dispatcher.UnsupportedMediaType | cmd/microrouterd/handler/handler.go:305-317 | no content type on a body-carrying, non-multipart request answers 415 with a single write and no call |
| Dispatcher.Unauthorized | cmd/microrouterd/handler/handler.go:335-345 | a failed inspection on a route requiring authentication answers 401 with a nil message and no call |
| Dispatcher.BackendCalledIff | cmd/microrouterd/handler/handler.go:221-409 | the backend is called exactly when the client-address chain, the body, the authentication requirement and, for an identified caller, the user chain all let the request through |
| Dispatcher.CalledBackend | cmd/microrouterd/handler/handler.go:322-431 | the call carries the endpoint and the merged object; a failed forward writes 500 first; an error answers its code (500 for 0) with its id and detail; a reply answers 200 with the raw reply |
| Dispatcher.ParametersOverrideBody | cmd/microrouterd/handler/handler.go:263-325 | a declared non-empty path parameter is what the backend receives under its name |
| Dispatcher.AnonymousForward | cmd/microrouterd/handler/handler.go:346-371 | a failed inspection on a public route forwards as the anonymous user and runs no user limiter |
| Dispatcher.UserChainGate | cmd/microrouterd/handler/handler.go:371-404 | an identified caller's user chain, keyed by its id, answers 500 or 429 on failure and stops the call |
| Dispatcher.AsWrittenUserLimiterPanics | cmd/microrouterd/handler/handler.go:164-374 | with the as-written slices, an identified request to a public route with user rules panics |
| Dispatcher.AsWrittenNilLimiterIff | cmd/microrouterd/handler/handler.go:164-374 | with the as-written limiters, a handler panics on a nil limiter exactly when the route is public with user rules, the client-address chain passes, the body is usable and inspection succeeds |
| Dispatcher.NilUserLimiterExample | cmd/microrouterd/handler/handler.go:164-374 | a concrete public route with rule "10-M" and an authenticated GET that panics |
| Dispatcher.AdmittedNeverNilLimiter | cmd/microrouterd/handler/handler.go:221-374 | a handler whose limiters come from `Admit` never dereferences a nil limiter |
| Gateway.BuildLimiters | cmd/microrouterd/handler/handler.go:141-157 | the slice is fully filled, in rule order, exactly when every rule parses; otherwise the slots before the first bad rule are filled and the rest are nil |
| Gateway.AdmitRoute | cmd/microrouterd/handler/handler.go:128-198 | the admission steps, with both slices made nil and the user slice filled only on authenticated routes, give `AdmitAsWritten`'s result |
| Gateway.Handler.NewHandler | cmd/microrouterd/handler/handler.go:46-50 | a new gateway has an empty, well-formed registry |
| Gateway.Handler.DiscoverOnce | cmd/microrouterd/handler/handler.go:90-205 | one cycle turns the registry into the merge of every advert in service and route order, with admission as written, and keeps it well formed |
| Gateway.Handler.MergeOne | cmd/microrouterd/handler/handler.go:107-203 | one route of the loop is one merge step: registered under its key with the as-written limiters when the key is free and the route is admitted, else nothing changes; the registry stays well formed |
| Gateway.Handler.Routes | cmd/microrouterd/handler/handler.go:435-449 | as many entries as registry entries; every stored route's snapshot appears and every entry is the snapshot of a stored route, each read from a distinct key |
| Gateway.Handler.Serve | cmd/microrouterd/handler/handler.go:200-433 | a registered key gets its handler's outcome; it is a nil-limiter panic exactly when the route is public with user rules, the client-address chain passes, the body is usable and inspection succeeds |
| LegacyGateway.LegacyMergeAllKeys | handler/handler.go:80-84 | the keys afterwards are the keys before plus the adverts' keys; every value stays `true`; nothing seen is changed |
| LegacyGateway.LegacyFirstWriterWins | handler/handler.go:81-83 | the first advert with a new key decides its handler |
| LegacyGateway.LegacySeenNoop | handler/handler.go:81 | a cycle over seen keys changes nothing |
| LegacyGateway.LegacyMergeAllIdempotent | handler/handler.go:58-86 | re-advertising the same routes leaves the registry unchanged |
| LegacyGateway.LegacyProxy | handler/handler.go:99-191 | the handler's steps end as `LegacyDispatch` says for the metadata the call carries, and that metadata is built from the request headers |
| LegacyGateway.LegacyResponses | handler/handler.go:150-189 | 415 with a `{415, message}` body and no call exactly when the content type is missing; a call carries the merged object and the metadata; an error answers its code (500 for 0) with the same code in the body; a reply answers 200 |
| LegacyGateway.LegacyHandler.constructor | handler/handler.go:35-44 | a new handler has no keys and no handlers, and its registry is valid |
| LegacyGateway.LegacyHandler.RefreshOnce | handler/handler.go:58-86 | one refresh turns the registry into the merge of every advert in order, and keeps every seen key mapped to `true` with a handler |
| LegacyGateway.LegacyHandler.Serve | handler/handler.go:82-191 | a registered key gets its handler's outcome, with metadata built from the request headers; an unregistered key gets none |

## Left out

- The background goroutine, its endless loop, `time.Sleep`, and the busy retry when the service lookup fails. One cycle is modelled; a failed lookup is a cycle with no manifests.
- Unsynchronised sharing of the registry between the discovery goroutine and the `Routes` RPC, because it is a concurrency concern.
- Rate-store construction (Redis URL parsing, memory store). The model keeps only "store present or absent".
- Counter state inside the store. `Get` is a function of the limiter and key, so two limiters with the same formatted rule are not modelled as sharing a counter.
- The web framework's routing, path joining and cleaning, and conflict panics. `BasePath` is a given function, and `Serve` looks handlers up by route key.
- `ShouldBind` and JSON rendering. The bound object is an input.
- Go map iteration order. The map loops take keys in an arbitrary order. For the parameter, file, value and merge loops the result does not depend on it. For `CtxFromRequest` and `Routes` the model leaves the order-dependent choice open (see above).
- go-micro `Call`, `errors.FromError` and `metadata.MergeContext`.
- auth2 `Inspect`, `ForwardContext` and `ServiceContext`. A failed `ServiceContext` counts as a failed manifest request.
- `util.FindByEndpoint` and `util.ReflectFunctionName` are not part of this model. The endpoint's name is a given function.
- Unicode case mapping, because `Lower` and `Upper` map ASCII letters only.
- base64 encoding, which is a given function.
- Component plumbing (`MustReg`, `Name`, `Priority`, `Health`, `Stop`, `WrapHandlerFunc`, `RegisterWithServer`), the endpoint-roles verifier set up in `Init`, and `ginRoutes`.
- Bootstrap and configuration files, the logger, and the generated protobuf stubs.
- The gateway's `Init` beyond the store and the group base paths, which are fixed by `NewHandler`'s configuration.
- What a panic becomes after recovery by the web framework.
- Dispatcher.Dispatch: a failed `ForwardContext` is modelled as leaving no call context; what the RPC client does with that context is not modelled.

## Findings

| source | as written | input that shows it | evidently intended | confidence | as-written member | corrected member |
|---|---|---|---|---|---|---|
| cmd/microrouterd/handler/handler.go:164-165 | the user limiter slice is made with one slot per user rule but filled only when the route requires authentication; the proxy (lines 371-374) runs it whenever the caller's inspection succeeded | a route with `AuthRequired = false`, user rule "10-M", a store, and a request whose inspection succeeds: the first slot is nil and `l.Rate.Formatted` dereferences it | user limits apply only to routes requiring authentication, so a public route holds no user limiter | high; not executed | Dispatcher.AsWrittenNilLimiterIff | Dispatcher.AdmittedNeverNilLimiter |
