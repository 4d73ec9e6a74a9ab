# Aetheris in Dafny

A model of the core of Aetheris, a TypeScript RPC framework, with proofs about that model. On the server, a nested router
object of handlers is flattened into a path-keyed map. Requests are matched against that map and dispatched to
handlers built by `Procedure` or `Aetheris`. Those handlers do the following:

- run a middleware chain;
- validate input, params and output;
- map every completion to a `{status, data}` response.

Three adapters (Node `http`, Next.js, WebSocket) sit around the handlers. Two cookie managers read cookies and emit
`Set-Cookie` headers. On the client there are:

- `createClient`, a path-accumulating proxy that POSTs;
- `wsLink`, a WebSocket transport that correlates replies by id;
- the query client's reference-counted subscription table.

JavaScript values are `Js.Value`. Exceptions are `Js.Outcome`, which is failure-compatible, so `:-` propagates a
throw. `Js.Outcome.ThrowClassified` is an `AetherisError` with status, message and data. `Js.Outcome.ThrowOther` is
any other thrown value.

The model fixes these JavaScript semantics explicitly:

- truthiness;
- `??`, which applies only to `null` and `undefined`;
- right-biased object spread, where a nullish spread adds nothing;
- `Object.assign` copying an explicit `undefined`;
- `String.prototype.replace` with a string pattern, which replaces only the first occurrence;
- insertion order of `Map` and of objects, where assigning an existing key keeps its position.

These host operations are parameters of the model:

- `JSON.stringify` and `JSON.parse`;
- `encodeURIComponent`;
- `Date.prototype.toUTCString`;
- compiled route regexes, which are matchers;
- `fetch`;
- the route handlers themselves.

Each module models one source file, or what two files share:

| module | models |
|---|---|
| `Js` | JavaScript values, completions and string built-ins |
| `Pipeline` | what `Procedure` and `Aetheris` share |
| `ProcedureHandler` | `Procedure.handler` |
| `AetherisHandler` | `Aetheris.handler`, `validate`, `subscription` |
| `OrderedMap` | JavaScript objects and `Map`s with observable key order |
| `RouterMap` | `createRouterMap` |
| `GetMatch` | `getMatch` |
| `WsLink` | `wsLink` |
| `CreateClient` | `createClient` |
| `QueryClient` | `createQueryClient` |
| `Cookies` | shared cookie options and attributes |
| `HttpCookies` | `HttpCookieManager` |
| `NextCookies` | `NextCookieManager` |
| `Cors` | the CORS header writes |
| `Adapters` | what the three adapters share |
| `HttpAdapter` | the Node `http` adapter |
| `NextAdapter` | the Next.js adapter |
| `WsAdapter` | the WebSocket adapter |
| `Utils` | `capitalizeFirstLetter` |

Code that updates state in place is modelled as classes and methods. Each method is proved equal to a pure step or
specification function, and the lemmas are about those functions. The classes are:

- `RouterMap.MapObject`;
- `WsLink.Link`;
- `QueryClient.SubscriptionTable`;
- `HttpCookies.HttpCookieManager`;
- `NextCookies.NextCookieManager`;
- `Cors.HeaderList`.

## Model

| member | source | states |
|---|---|---|
| Pipeline.OrEmpty | packages/server/src/core/procedure.ts:37 | a middleware result that is nullish becomes `{}`, anything else (and any throw) passes through |
| Pipeline.Use | packages/server/src/core/procedure.ts:34-41 | `use` keeps the base context and returns the old middleware list with exactly one wrapped middleware appended |
| Pipeline.ApplyMiddlewares | packages/server/src/core/procedure.ts:43-50 | the loop computes the left fold of the middlewares over the context; the first throw ends it |
| Pipeline.FoldAppend | packages/server/src/core/procedure.ts:45-48 | middlewares run strictly in list order: folding `a + b` folds `a`, then `b` from its result, and a throw in `a` skips `b` |
| Pipeline.FoldAfterUse | packages/server/src/core/procedure.ts:34-48 | after `use(f)` the fold is the old fold followed by a right-biased merge of `f`'s result, a nullish result adding nothing |
| Pipeline.FoldKeepsKeys | packages/server/src/core/procedure.ts:47 | middleware results only add or override keys, never remove one |
| Pipeline.HandlerContextIsFold | packages/server/src/core/procedure.ts:70-73 | the outer spread of `defaultContext` is redundant: the handler context is the fold over `{...this.context, ...defaultContext}` |
| Pipeline.ResolverContext | packages/server/src/core/procedure.ts:105 | the resolver sees the merged context with `input` set to the raw data, overriding any middleware `input` |
| Pipeline.Details | packages/server/src/core/procedure.ts:78-81 | one `{path, message}` detail per schema issue, in order |
| Pipeline.Check | packages/server/src/core/procedure.ts:75-103 | a schema check passes exactly when the schema is absent or reports no issue; otherwise it throws the given status and message with the details |
| Pipeline.ToResponse | packages/server/src/core/procedure.ts:122-142 | success is 200 with the data; an `AetherisError` keeps its status with `{message, details}`; anything else is 500 with `{message}` |
| ProcedureHandler.Run | packages/server/src/core/procedure.ts:69-125 | the `try` block: middlewares, input check, params check, resolver and output check in that order, each throw ending it (MiddlewareThrowIsReported, InputRejected, ParamsRejected, AfterChecks) |
| ProcedureHandler.Handle | packages/server/src/core/procedure.ts:52-144 | the handler `Procedure.handler` builds: Run with its throws mapped by the `catch` (NoSchemasRoundTrip, ValidInputNever400) |
| ProcedureHandler.MiddlewareThrowIsReported | packages/server/src/core/procedure.ts:69-73 | a middleware throw is mapped by the catch block and nothing later runs |
| ProcedureHandler.InputRejected | packages/server/src/core/procedure.ts:75-88 | a rejected input gives 400 "Error validating input" with its details, whatever the params schema and the resolver are |
| ProcedureHandler.ParamsRejected | packages/server/src/core/procedure.ts:90-103 | params are checked only after the input passes; a rejection gives 400 "Error validating params" and the resolver is not consulted |
| ProcedureHandler.AfterChecks | packages/server/src/core/procedure.ts:105-125 | once both checks pass, the resolver's completion decides the response; an output mismatch is 500 "Error validating output" |
| ProcedureHandler.NoSchemasRoundTrip | packages/server/src/core/procedure.ts:105-125 | without schemas a resolver result `v` comes back as `{status: 200, data: v}` unchanged |
| ProcedureHandler.ValidInputNever400 | packages/server/src/core/procedure.ts:75-103 | an input and params that pass never give 400 unless the resolver itself throws a classified 400 |
| AetherisHandler.Run | packages/server/src/core/aetheris.ts:126-142 | the `try` block of `Aetheris.handler`: the same steps as Procedure's, every check reporting 400 "Error validating input" (ParamsRejectedAsInput, OutputMismatchIs400, ResolverOutcomeMapping) |
| AetherisHandler.Handle | packages/server/src/core/aetheris.ts:109-161 | Run with its throws mapped by the `catch`; with no params or output schema it answers as Procedure's handler does (AgreesWithProcedure) |
| AetherisHandler.StartSubscription | packages/server/src/core/aetheris.ts:83-101 | the `try` block of `subscribe`: a context holding `emit` (EmitInContext), the input check, then the resolver, whose value is the teardown (SubscribeReturnsTeardown, InvalidInputNeverStarts) |
| AetherisHandler.Subscribe | packages/server/src/core/aetheris.ts:78-105 | what `subscribe` resolves to: the teardown on success and `undefined` on any failure (FailureIsSilent, SubscribeReturnsTeardown) |
| AetherisHandler.Validate | packages/server/src/core/aetheris.ts:45-62 | `validate` returns exactly when the schema is absent or accepts, else throws 400 "Error validating input" with the details |
| AetherisHandler.OutputMismatchIs400 | packages/server/src/core/aetheris.ts:132-137 | an output the schema rejects gives 400 "Error validating input" here where `Procedure` gives 500 |
| AetherisHandler.ParamsRejectedAsInput | packages/server/src/core/aetheris.ts:133 | a params rejection is reported as 400 "Error validating input" |
| AetherisHandler.AgreesWithProcedure | packages/server/src/core/aetheris.ts:121-160 | without params and output schemas, `Aetheris.handler` and `Procedure.handler` give the same response on every input |
| AetherisHandler.ResolverOutcomeMapping | packages/server/src/core/aetheris.ts:135-159 | once checks pass: 200 with the unchanged data, a classified throw keeps its status, any other throw is 500 |
| AetherisHandler.Emit | packages/server/src/core/aetheris.ts:84-87 | `emit` sends exactly its data when the output schema accepts it, and otherwise throws the validation error before sending |
| AetherisHandler.EmitInContext | packages/server/src/core/aetheris.ts:89-93 | the subscription context always holds `emit`, the emit function unless defaults or middlewares override it |
| AetherisHandler.FailureIsSilent | packages/server/src/core/aetheris.ts:102-104 | any failure while starting a subscription resolves to `undefined` |
| AetherisHandler.SubscribeReturnsTeardown | packages/server/src/core/aetheris.ts:98-101 | a successful start returns exactly what the resolver returned |
| AetherisHandler.InvalidInputNeverStarts | packages/server/src/core/aetheris.ts:95 | a rejected input never reaches the resolver: the result is `undefined` whatever the resolver is |
| OrderedMap.KeysOf | packages/server/src/core/create-router-map.ts:2 | the keys of an ordered object, position by position |
| OrderedMap.AssignFacts | packages/server/src/core/create-router-map.ts:8 | `obj[k] = v` keeps an existing key's position, appends a new key, changes only `k`'s value, and keeps keys distinct |
| OrderedMap.AssignAllAppend | packages/server/src/core/create-router-map.ts:4-12 | assigning a concatenation is assigning its parts in turn |
| OrderedMap.FirstOccurrences | packages/server/src/core/create-router-map.ts:4-12 | the distinct keys in first-write order contain exactly the written keys |
| OrderedMap.AssignAllFromEmpty | packages/server/src/core/create-router-map.ts:2-15 | writing pairs into `{}` gives distinct keys in first-write order, each with the value written last |
| RouterMap.WritesAreLeafPaths | packages/server/src/core/create-router-map.ts:3-14 | the writes are the router's function leaves in visit order, one each, every one keyed "/" followed by its root-to-leaf keys joined by "/" |
| RouterMap.EntryWritesAreLeaves | packages/server/src/core/create-router-map.ts:4-11 | below any path, the walk writes each leaf once, in visit order, keyed that path, "/" and its keys joined by "/" |
| RouterMap.WritesUnderPath | packages/server/src/core/create-router-map.ts:5 | every key written below `path` starts with `path + "/"` |
| RouterMap.ValueWritesUnderPath | packages/server/src/core/create-router-map.ts:5-10 | the same for one entry, leaf or subtree |
| RouterMap.RouterMapShape | packages/server/src/core/create-router-map.ts:1-16 | the router map has distinct keys in walk order, each starting with "/", holding the handler of the last leaf with that path |
| RouterMap.MapObject.Set | packages/server/src/core/create-router-map.ts:8 | one assignment to the shared object |
| RouterMap.BuildMap | packages/server/src/core/create-router-map.ts:3-13 | the recursive `for ... in` walk leaves the shared object as the specification writes assigned in order |
| RouterMap.CreateRouterMap | packages/server/src/core/create-router-map.ts:1-16 | `createRouterMap` returns the specified router map |
| GetMatch.FirstMatching | packages/server/src/core/get-match.ts:6-17 | the index of the first route whose pattern matches, with no earlier route matching; none when no route matches |
| GetMatch.Matching | packages/server/src/core/get-match.ts:3-20 | no match gives an undefined handler and `{}` exactly when no route matches; a found handler is the first matching route's |
| GetMatch.BindParams | packages/server/src/core/get-match.ts:12-14 | the `keys.forEach` binding: it succeeds exactly when groups 1..n are present (BindParamsSucceeds), and binds exactly the keys (BindParamsKeys) to group j+1 with the "name:" prefix removed (BindParamsValues) |
| GetMatch.BindParamsSucceeds | packages/server/src/core/get-match.ts:12-14 | binding succeeds exactly when groups 1..n are all present, and otherwise throws the `undefined.replace` TypeError |
| GetMatch.BindParamsKeys | packages/server/src/core/get-match.ts:12-14 | the param names are exactly the matched route's keys |
| GetMatch.BindParamsValues | packages/server/src/core/get-match.ts:13 | key `j` holds group `j + 1` with the first "name:" removed; a repeated name takes its last index |
| GetMatch.FirstMatchWins | packages/server/src/core/get-match.ts:10-15 | routes after the first match are never consulted |
| GetMatch.MatchedRoute | packages/server/src/core/get-match.ts:10-15 | a successful match has the route's handler and params named by exactly its keys |
| GetMatch.GetMatch | packages/server/src/core/get-match.ts:3-20 | the loop with `break` and the inner `forEach` compute `Matching`, throw included |
| WsLink.CallStep | packages/client/src/core/links.ts:76-123 | one call of the link: it takes the next id and sends the opening frame (CallFrames, OpeningIdsIncrease), and it keeps the invariant (CallPreservesValid) |
| WsLink.MessageStep | packages/client/src/core/links.ts:40-55 | the reply listener: it settles a pending id (ReplySettlesPending), feeds a subscription (ReplyReachesSubscription), ignores unknown ids (UnknownReplyIgnored) and keeps the invariant (MessagePreservesValid) |
| WsLink.UnsubscribeStep | packages/client/src/core/links.ts:110-122 | the teardown closure: one UNSUBSCRIBE frame and that subscription removed, nothing else changed (UnsubscribeEffect, UnsubscribePreservesValid) |
| WsLink.InitialValid | packages/client/src/core/links.ts:36-38 | a new link satisfies the id and table invariant |
| WsLink.CallFrames | packages/client/src/core/links.ts:76-123 | a call takes `nextId` and advances it; a POST registers that id as pending and sends `{id, method, body: {path, input: args}}`; a SUBSCRIBE stores `args.onMessage` and sends `args.input` |
| WsLink.SubscribeWithoutArgsThrows | packages/client/src/core/links.ts:83-85 | SUBSCRIBE with nullish args throws before any id is taken |
| WsLink.CallPreservesValid | packages/client/src/core/links.ts:76-123 | calls keep ids in range, pending and subscriptions disjoint, opening frames increasing |
| WsLink.OpeningIds | packages/client/src/core/links.ts:86 | the ids of opening frames in send order |
| WsLink.OpeningIdsIncrease | packages/client/src/core/links.ts:86 | ids put on the wire are strictly increasing and below `nextId`, so no two calls share one |
| WsLink.ReplySettlesPending | packages/client/src/core/links.ts:40-51 | a reply for a pending id resolves with `body.data` on a 2xx status, rejects with the reply otherwise, and removes the entry |
| WsLink.ReplyReachesSubscription | packages/client/src/core/links.ts:52-54 | a reply for a subscription id calls its callback with `body.data` and keeps the entry |
| WsLink.UnknownReplyIgnored | packages/client/src/core/links.ts:40-55 | a reply whose id is in neither table changes nothing |
| WsLink.MessagePreservesValid | packages/client/src/core/links.ts:40-55 | the listener keeps the invariant |
| WsLink.UnsubscribeEffect | packages/client/src/core/links.ts:110-122 | unsubscribing sends an UNSUBSCRIBE frame without input and removes that subscription; the other subscriptions keep their callbacks, and the pending set, the id counter, the settlements and the deliveries are unchanged |
| WsLink.UnsubscribePreservesValid | packages/client/src/core/links.ts:110-122 | unsubscribing keeps the invariant |
| WsLink.Link.constructor | packages/client/src/core/links.ts:36-38 | `nextId = 1`, both tables empty |
| WsLink.Link.Call | packages/client/src/core/links.ts:76-123 | the link function updates the closure state as `CallStep` specifies and keeps the invariant |
| WsLink.Link.OnMessage | packages/client/src/core/links.ts:40-55 | the listener updates the tables as `MessageStep` specifies and keeps the invariant |
| WsLink.Link.Unsubscribe | packages/client/src/core/links.ts:110-122 | the unsubscribe closure as `UnsubscribeStep` specifies |
| CreateClient.Call | packages/client/src/core/create-client.ts:18-28 | calling the client POSTs the JSON of the first argument to the path's URL (RequestOf, Url, OnlyFirstArgumentSent), and a failure resolves to the error (FailureResolvesToError) |
| CreateClient.Get | packages/client/src/core/create-client.ts:12-17 | "then" reads `undefined`; any other name gives a proxy one segment longer |
| CreateClient.AccessPath | packages/client/src/core/create-client.ts:12-17 | a chain of accesses without "then" reaches the proxy whose path is the names in order; one with "then" fails |
| CreateClient.Url | packages/client/src/core/create-client.ts:20 | the URL is the base (or "") followed by the path joined by "/" |
| CreateClient.RequestOf | packages/client/src/core/create-client.ts:18-26 | the request is a POST to that URL whose body is the JSON of the first argument |
| CreateClient.NoSeparatorAfterBase | packages/client/src/core/create-client.ts:20 | no "/" is put between the base URL and the first segment |
| CreateClient.OnlyFirstArgumentSent | packages/client/src/core/create-client.ts:22 | arguments after the first never reach the request; no argument sends `undefined` |
| CreateClient.FailureResolvesToError | packages/client/src/core/create-client.ts:27-28 | a failed fetch or parse resolves to the error itself rather than rejecting |
| QueryClient.QueryInput | packages/react-query/src/core/create-query-client.ts:116-117 | `options.input` with `options` defaulting to `{input: undefined}`; only a `null` options object throws (QueryKey) |
| QueryClient.SubscriptionKey | packages/react-query/src/core/create-query-client.ts:187 | the key subscribers share, under which the first subscriber is stored and later ones counted (FirstSubscriber, LaterSubscriber, CountIsNetSubscribers) |
| QueryClient.SubscribeStep | packages/react-query/src/core/create-query-client.ts:183-213 | the first subscriber makes one underlying subscribe and is stored with count 1 (FirstSubscriber); later ones add one to the count and their callback (LaterSubscriber); the invariant is kept (SubscribePreservesValid) |
| QueryClient.UnsubscribeStep | packages/react-query/src/core/create-query-client.ts:214-224 | leaving subtracts one from the count and removes the callback, and the last one out unsubscribes once and deletes the key (UnsubscribeFacts, UnsubscribePreservesValid); see "## Left out" for a teardown that throws |
| QueryClient.MessageStep | packages/react-query/src/core/create-query-client.ts:189-194 | a message reaches every callback of its key once, in set order, and a key that is gone gets nothing (MessageReachesAll) |
| QueryClient.Get | packages/react-query/src/core/create-query-client.ts:109-237 | "then" reads `undefined`, the four hook names give hooks at the current path, any other name nests one segment deeper |
| QueryClient.QueryKey | packages/react-query/src/core/create-query-client.ts:116-117 | the query key is `["aether", path joined by ".", JSON of the input]`; a `null` options object throws |
| QueryClient.PageInput | packages/react-query/src/core/create-query-client.ts:149 | a page fetch sends the input's fields with `cursor` set to the page parameter |
| QueryClient.SetAdd | packages/react-query/src/core/create-query-client.ts:199 | `Set.add` adds the element once and keeps set semantics |
| QueryClient.SetDelete | packages/react-query/src/core/create-query-client.ts:218 | `Set.delete` removes exactly that element |
| QueryClient.DeliveriesOf | packages/react-query/src/core/create-query-client.ts:192 | one call per callback in set order, each with the data |
| QueryClient.FirstSubscriber | packages/react-query/src/core/create-query-client.ts:200-213 | the first subscriber for a key calls `subscribe` once with the shared dispatcher and stores count 1 with its callback |
| QueryClient.LaterSubscriber | packages/react-query/src/core/create-query-client.ts:196-199 | a later subscriber increments the count and adds its callback, with no call to `subscribe` |
| QueryClient.MessageReachesAll | packages/react-query/src/core/create-query-client.ts:189-194 | a message reaches every callback of its key once, in order, and nothing else changes |
| QueryClient.UnsubscribeFacts | packages/react-query/src/core/create-query-client.ts:214-224 | leaving removes the callback and decrements the count; the last one out calls `unsubscribe` once and deletes the key |
| QueryClient.SubscribePreservesValid | packages/react-query/src/core/create-query-client.ts:196-213 | subscribing keeps every count at least 1 and every callback set duplicate-free |
| QueryClient.UnsubscribePreservesValid | packages/react-query/src/core/create-query-client.ts:214-224 | leaving keeps the same invariant |
| QueryClient.CountIsNetSubscribers | packages/react-query/src/core/create-query-client.ts:196-224 | while someone stays subscribed, the count is joins minus leaves and no extra underlying call is made |
| QueryClient.SharedCallbackLostAfterOneLeaves | packages/react-query/src/core/create-query-client.ts:198-218 | two subscribers with the same callback count twice but share one set element, so after one leaves a message reaches nobody |
| QueryClient.SubscriptionTable.constructor | packages/react-query/src/core/create-query-client.ts:99-102 | the table starts empty |
| QueryClient.SubscriptionTable.Subscribe | packages/react-query/src/core/create-query-client.ts:183-213 | the effect of `useSubscription` as `SubscribeStep` specifies, invariant kept |
| QueryClient.SubscriptionTable.Unsubscribe | packages/react-query/src/core/create-query-client.ts:214-224 | the `ref.current` closure as `UnsubscribeStep` specifies, invariant kept |
| QueryClient.SubscriptionTable.HandleMessage | packages/react-query/src/core/create-query-client.ts:189-194 | `handleMessage` appends exactly the deliveries of `MessageStep` |
| Cookies.WithDefaults | packages/server/src/adapters/cookies/http-cookie-manager.ts:29-37 | `Object.assign` of the options over path "/", httpOnly, secure and sameSite "Lax" (DefaultsFacts, Pick) |
| Cookies.HttpAttributes | packages/server/src/adapters/cookies/http-cookie-manager.ts:38-68 | the HTTP manager's attributes in fixed order, each kind at most once (HttpAttributesInOrder), with exactly one Path and Max-Age whenever it is given (HttpPathAndMaxAge) |
| Cookies.NextAttributes | packages/server/src/adapters/cookies/next-cookie-manager.ts:61-81 | the Next manager's attributes in the same order (NextAttributesInOrder), agreeing with the HTTP ones exactly when Max-Age is not 0 and Path is truthy (SerialisersAgree) |
| Cookies.Pick | packages/server/src/adapters/cookies/http-cookie-manager.ts:29-37 | a property the caller gives, even `undefined`, overrides the default; a missing one keeps it |
| Cookies.DefaultsFacts | packages/server/src/adapters/cookies/http-cookie-manager.ts:29-37 | no options gives path "/", httpOnly, secure, sameSite "Lax"; every default is overridable |
| Cookies.HttpAttributesInOrder | packages/server/src/adapters/cookies/http-cookie-manager.ts:40-68 | the HTTP manager writes attributes in a fixed order, each kind at most once |
| Cookies.NextAttributesInOrder | packages/server/src/adapters/cookies/next-cookie-manager.ts:61-81 | the Next manager writes the same kinds in the same order, each at most once |
| Cookies.HttpPathAndMaxAge | packages/server/src/adapters/cookies/http-cookie-manager.ts:44-56 | exactly one Path, "/" when the option is falsy; Max-Age exactly when the option is not `undefined`, 0 included |
| Cookies.SerialisersAgree | packages/server/src/adapters/cookies/next-cookie-manager.ts:64-72 | the two managers write the same attributes exactly when Max-Age is not 0 and Path is set |
| Cookies.DefaultAttributes | packages/server/src/adapters/cookies/http-cookie-manager.ts:28-68 | with no options both managers write `Path=/; Secure; HttpOnly; SameSite=Lax` |
| HttpCookies.ParseHeader | packages/server/src/adapters/cookies/http-cookie-manager.ts:7-17 | a missing or empty header parses to `{}` (EmptyHeaderParsesEmpty); otherwise the names are the pieces' trimmed names (EntriesKeys, PieceFields) and the last piece of a name wins (LastOccurrenceWins) |
| HttpCookies.EmptyHeaderParsesEmpty | packages/server/src/adapters/cookies/http-cookie-manager.ts:10 | a missing or empty `Cookie` header parses to `{}` |
| HttpCookies.PieceFields | packages/server/src/adapters/cookies/http-cookie-manager.ts:12-13 | a piece's name is the trimmed text before its first "=", its value the trimmed text after it ("" with no "=") |
| HttpCookies.EntriesKeys | packages/server/src/adapters/cookies/http-cookie-manager.ts:11-14 | the parsed names are exactly the pieces' names |
| HttpCookies.LastOccurrenceWins | packages/server/src/adapters/cookies/http-cookie-manager.ts:11-14 | a repeated name takes the value of its last piece |
| HttpCookies.Accumulate | packages/server/src/adapters/cookies/http-cookie-manager.ts:70-79 | no (or an empty) header becomes the one string; a string or a list becomes a list with the new cookie last |
| HttpCookies.AccumulateAll | packages/server/src/adapters/cookies/http-cookie-manager.ts:70-79 | several `set` calls keep every earlier cookie in order and append each new one |
| HttpCookies.DeleteExpiresAtEpoch | packages/server/src/adapters/cookies/http-cookie-manager.ts:82-84 | `delete` writes `Expires` at the epoch as the first attribute, whatever the options |
| HttpCookies.CookieString | packages/server/src/adapters/cookies/http-cookie-manager.ts:38-68 | the step-by-step `+=` builds exactly the head followed by the HTTP attributes' segments |
| HttpCookies.HttpCookieManager.Parse | packages/server/src/adapters/cookies/http-cookie-manager.ts:7-17 | the `forEach` loop builds the parse of the header |
| HttpCookies.HttpCookieManager.Get | packages/server/src/adapters/cookies/http-cookie-manager.ts:19-22 | the parsed value of the name, `None` when absent |
| HttpCookies.HttpCookieManager.GetAll | packages/server/src/adapters/cookies/http-cookie-manager.ts:24-26 | the whole parse |
| HttpCookies.HttpCookieManager.Set | packages/server/src/adapters/cookies/http-cookie-manager.ts:28-80 | the response's header gains the cookie string as `Accumulate` states, and nothing else changes |
| HttpCookies.HttpCookieManager.Delete | packages/server/src/adapters/cookies/http-cookie-manager.ts:82-84 | `set(name, "", options with expires at the epoch)` |
| NextCookies.FromStore | packages/server/src/adapters/cookies/next-cookie-manager.ts:15-23 | each request cookie is stored with its value, no options and not updated |
| NextCookies.UpdatedPositions | packages/server/src/adapters/cookies/next-cookie-manager.ts:56-57 | the positions of the updated entries, ascending, each one updated, and every updated entry among them |
| NextCookies.Headers | packages/server/src/adapters/cookies/next-cookie-manager.ts:54-85 | exactly as many headers as updated entries, so never more than entries |
| NextCookies.HeadersInMapOrder | packages/server/src/adapters/cookies/next-cookie-manager.ts:54-85 | the k-th header is the string of the k-th updated entry in `Map` order |
| NextCookies.RecordAgreesWithGet | packages/server/src/adapters/cookies/next-cookie-manager.ts:29-35 | `getAll` has the same names and values as `get` |
| NextCookies.HeadersAreTheUpdatedEntries | packages/server/src/adapters/cookies/next-cookie-manager.ts:56-57 | a header is written for every changed entry and only for those |
| NextCookies.UntouchedWritesNothing | packages/server/src/adapters/cookies/next-cookie-manager.ts:57 | entries nobody changed produce no header |
| NextCookies.FreshManager | packages/server/src/adapters/cookies/next-cookie-manager.ts:15-23 | a fresh manager names each request cookie once in first-occurrence order, keeps the last value, and emits no header |
| NextCookies.SetThenGet | packages/server/src/adapters/cookies/next-cookie-manager.ts:37-48 | after `set`, `get` of that name gives the new value (others unchanged) and its header is emitted |
| NextCookies.DeleteKeepsEmptyCookie | packages/server/src/adapters/cookies/next-cookie-manager.ts:50-52 | after `delete`, `get` gives "" rather than `undefined`; the header expires at the epoch with the defaults |
| NextCookies.CookieString | packages/server/src/adapters/cookies/next-cookie-manager.ts:59-81 | the step-by-step `+=` builds exactly the head followed by the Next attributes' segments |
| NextCookies.NextCookieManager.constructor | packages/server/src/adapters/cookies/next-cookie-manager.ts:15-23 | the `Map` is the request cookies assigned in order |
| NextCookies.NextCookieManager.Get | packages/server/src/adapters/cookies/next-cookie-manager.ts:25-27 | the stored value of the name, `None` when absent |
| NextCookies.NextCookieManager.GetAll | packages/server/src/adapters/cookies/next-cookie-manager.ts:29-35 | the loop builds the record of the `Map` |
| NextCookies.NextCookieManager.Set | packages/server/src/adapters/cookies/next-cookie-manager.ts:37-48 | the entry takes the value, the defaulted options and `updated`, in place, keys staying distinct |
| NextCookies.NextCookieManager.Delete | packages/server/src/adapters/cookies/next-cookie-manager.ts:50-52 | `set(name, "", {expires: epoch})`, dropping any earlier options |
| NextCookies.NextCookieManager.GetSetCookieHeader | packages/server/src/adapters/cookies/next-cookie-manager.ts:54-85 | the loop returns the header of every updated entry in `Map` order |
| Cors.CorsHeaderValues | packages/server/src/adapters/http.ts:20-25 | each header is present exactly when its option is truthy, credentials as "true", max age as its decimal text |
| Cors.FindCors | packages/server/src/adapters/http.ts:20-25 | looking up any header name gives what the options call for |
| Cors.CorsHeadersDistinct | packages/server/src/adapters/http.ts:20-25 | no CORS header is written twice; no options write none |
| Cors.HeaderList.Append | packages/server/src/adapters/next.ts:19-26 | one appended header |
| Cors.WriteCorsHeaders | packages/server/src/adapters/next.ts:21-26 | the six conditional writes append exactly the CORS headers |
| Adapters.RoutingPath | packages/server/src/adapters/http.ts:34 | a falsy prefix leaves the path; otherwise the first occurrence of the prefix, wherever it is, is removed |
| Adapters.ParamsValue | packages/server/src/adapters/http.ts:41 | the params object holds exactly the match's params |
| Adapters.RequestContext | packages/server/src/adapters/http.ts:39-44 | the context has the base fields and `createContext`'s, which win on a clash |
| Adapters.PrefixRemovedWherever | packages/server/src/adapters/next.ts:33 | the stripped path is the text around the first occurrence, one prefix shorter |
| HttpAdapter.Handle | packages/server/src/adapters/http.ts:19-66 | the request handler: OPTIONS gets 204 with the CORS headers and no body (OptionsShortCircuits), an unmatched path gets 404 "Not found" (UnmatchedIsNotFound), a matched one gets the handler's status and the JSON of `data ?? null` (DispatchedReply), and a body that does not parse rejects (MalformedBodyRejects) |
| HttpAdapter.Input | packages/server/src/adapters/http.ts:56 | an empty body gives `undefined`, any other is JSON-parsed |
| HttpAdapter.OptionsShortCircuits | packages/server/src/adapters/http.ts:20-31 | OPTIONS gets 204, the CORS headers and no body, with no routing or handler call |
| HttpAdapter.UnmatchedIsNotFound | packages/server/src/adapters/http.ts:62-65 | an unmatched path gets 404 "Not found" with the CORS headers |
| HttpAdapter.DispatchedReply | packages/server/src/adapters/http.ts:33-61 | a matched request calls the first matching route's handler with the context (`path` the unstripped url) and the status is the handler's, the body the JSON of `data ?? null` |
| HttpAdapter.DispatchedHeaders | packages/server/src/adapters/http.ts:20-25 | a dispatched response carries each CORS header as configured and the JSON content type |
| HttpAdapter.MalformedBodyRejects | packages/server/src/adapters/http.ts:56 | a body that does not parse rejects the request |
| NextAdapter.Handle | packages/server/src/adapters/next.ts:18-60 | the corrected handler: its preflight carries the CORS headers (PreflightCarriesCors), and otherwise it answers as HandleAsWritten does (PreflightDropsCors) |
| NextAdapter.HandleAsWritten | packages/server/src/adapters/next.ts:18-60 | the handler as written: OPTIONS gets 204 with no header even when CORS headers are configured (PreflightDropsCors, PreflightWitness) |
| NextAdapter.Dispatch | packages/server/src/adapters/next.ts:32-59 | past the preflight: an unmatched path gets 404 and the JSON string "Not found" (UnmatchedIsNotFound), and a matched one is answered with MatchedReply of its handler's result (HandleMatched, DispatchedReply) |
| NextAdapter.MatchedReply | packages/server/src/adapters/next.ts:48-56 | a thrown error propagates, and a response keeps its status and `data ?? null` with the CORS, Set-Cookie and JSON headers in order (MatchedReplyShape) |
| NextAdapter.SetCookieHeaders | packages/server/src/adapters/next.ts:49-51 | one `Set-Cookie` header per cookie string, in order |
| NextAdapter.AppendSetCookies | packages/server/src/adapters/next.ts:49-51 | the loop appends exactly those headers |
| NextAdapter.BuildHeaders | packages/server/src/adapters/next.ts:19-51 | the header list of a handled request is the CORS headers followed by the Set-Cookie headers |
| NextAdapter.PreflightDropsCors | packages/server/src/adapters/next.ts:28-30 | as written OPTIONS gets 204 with no header; the corrected handler sends the CORS headers; they differ exactly there |
| NextAdapter.PreflightWitness | packages/server/src/adapters/next.ts:21-30 | with only an origin configured, the as-written preflight sends no header where one is configured |
| NextAdapter.PreflightCarriesCors | packages/server/src/adapters/next.ts:28-30 | the corrected preflight is 204 with no body and each CORS header as configured |
| NextAdapter.UnmatchedIsNotFound | packages/server/src/adapters/next.ts:57-58 | an unmatched path gets 404 and the JSON string "Not found", without CORS headers |
| NextAdapter.HandleMatched | packages/server/src/adapters/next.ts:32-48 | past the preflight, a request whose path matches a handler is answered with what that handler's result becomes, the handler being called with the parsed body and the merged context |
| NextAdapter.MatchedReplyShape | packages/server/src/adapters/next.ts:48-56 | a thrown error stays thrown; a response keeps its status and `data ?? null`, with the CORS headers, then one Set-Cookie per cookie in order, then the JSON content type |
| NextAdapter.ContextPath | packages/server/src/adapters/next.ts:39-44 | the context's `path` is the request's `URL` unless `createContext` returned its own |
| NextAdapter.DispatchedReply | packages/server/src/adapters/next.ts:32-56 | the handler's status and `data ?? null`; CORS headers then one Set-Cookie per cookie; a missing or unparsable body is `undefined`; `path` is the URL |
| WsAdapter.OnMessage | packages/server/src/adapters/ws.ts:24-50 | the message listener: an unmatched path is answered `{status: 404, data: "Not found"}` (UnmatchedIsNotFound), a matched one with the handler's status and `data ?? null` (DispatchedReply), and the message's method never matters (MethodIgnored) |
| WsAdapter.ReplyValue | packages/server/src/adapters/ws.ts:36-41 | the reply object has exactly `status` and `data` |
| WsAdapter.Input | packages/server/src/adapters/ws.ts:34 | a falsy input is `undefined`, a truthy one is JSON-parsed |
| WsAdapter.UnmatchedIsNotFound | packages/server/src/adapters/ws.ts:42-48 | an unmatched path is answered `{status: 404, data: "Not found"}` |
| WsAdapter.DispatchedReply | packages/server/src/adapters/ws.ts:25-41 | a matched message is answered with the handler's status and `data ?? null`; the context path is the message's and has no cookie manager |
| WsAdapter.MethodIgnored | packages/server/src/adapters/ws.ts:24-49 | the message's method plays no part in the answer |
| WsAdapter.ReplyIgnoredByLink | packages/server/src/adapters/ws.ts:36-41 | `wsLink`'s listener ignores every reply this adapter sends: it carries no id |
| WsAdapter.ReplyFrame | packages/server/src/adapters/ws.ts:36-41 | the corrected reply: the answered frame's id and the reply under `body` |
| WsAdapter.ReplyFrameSettles | packages/client/src/core/links.ts:40-51 | a corrected reply settles the pending request of its id, resolved on 2xx and rejected otherwise |
| WsAdapter.ReplyFrameDelivers | packages/client/src/core/links.ts:52-54 | a corrected reply reaches the subscription of its id with the data |
| Utils.CapitalizeFirstLetter | packages/server/src/core/utils.ts:1-6 | length kept; "" unchanged; first character upper-cased, all later ones lower-cased |
| Utils.CapitalizedShape | packages/server/src/core/utils.ts:5 | the result starts with no lower-case letter and has no upper-case letter after it |
| Utils.CapitalizeIdempotent | packages/server/src/core/utils.ts:5 | capitalising twice equals capitalising once |
| Utils.CapitalizeIgnoresCase | packages/server/src/core/utils.ts:5 | lower-casing first does not change the result |

## Left out

- `httpLink` and `loggerLink` are not modelled. The first is a `fetch` call, the second console output and timing.
- Transports are I/O. The model leaves out socket construction and `waitForWebSocketReady` (a `ready` flag stands
  in for them), `fetch`, `ws.send`, `res.end` and request-body streaming. The streamed body is given whole.
- Async ordering is not modelled. Every `await` is taken as already settled and messages are handled one at a time.
- JSON rendering and parsing, `encodeURIComponent`, `toUTCString` and schema parsing (`safeParse`) are uninterpreted
  parameters. `new URL(...)` is also not modelled: the Next request carries its pathname.
- Route regex compilation is out of scope, because no source file in this model compiles patterns. `getMatch`
  receives matchers.
- `createRouterMap` stores bare handler functions, while `getMatch` destructures `{regex, keys, handler}` from each
  entry. The two are modelled separately, each as written; their composition is not modelled.
- Spreading a string or an array into the context is not modelled: a middleware result that is not an object is taken
  to contribute no keys.
- Objects enumerate integer-like keys first. The model ignores this: objects are maps, except where order is
  observable (router map, Next cookie `Map`), where insertion order is kept.
- Property lookups through the prototype chain (`cookies["constructor"]`) are not modelled.
- A non-numeric handler status is not modelled: statuses are integers.
- `typeof handler === "function"` is modelled as "a handler was found". A route value that is present but not a
  function is not distinguished.
- `Response.json` is modelled by its status, its headers (including the JSON content type it adds) and the value it
  serialises. It is not reduced to bytes.
- The `ws` library passes raw data, not a parsed object, to the `message` listener. The model takes the typed
  `Message` the listener declares. The frames `wsLink` sends put `path` and `input` under `body`, which the adapter
  does not read. That request side is described here, not corrected.
- The React hooks (`useQuery`, `useInfiniteQuery`, `useMutation`, `useRef`/`useEffect`) are not modelled. Only the
  query keys, the page input and the subscription table are.
- `Utils.CapitalizeFirstLetter`: case mapping covers ASCII only, since `toUpperCase`/`toLowerCase` over Unicode have
  no model here. The non-string branch does not exist, because the model's argument is always a string.
- Numbers are integers; floating point (fractional statuses, `NaN` ids) is not modelled.
- Pipeline.ToResponse: a thrown `null` or `undefined` is not represented. In the source the `catch` reads
  `(e as Error).message` on it (packages/server/src/core/procedure.ts:139, packages/server/src/core/aetheris.ts:156),
  which throws a `TypeError`, so the handler rejects instead of answering 500, and the HTTP adapter then writes no
  response. The model's `ThrowOther` always carries a message value and is answered with 500.
- NextAdapter.MatchedReply: `Response.json` throws a `RangeError` for a status outside 200-599 and a `TypeError` for
  a null-body status (101, 103, 204, 205, 304), so such a handler status makes the route reject. The model answers
  with that status. HttpAdapter.Handle likewise takes any status, where `res.end` throws for one outside 100-999.
- RouterMap.Tree: a non-empty string value in a router (`{version: "1"}`) is not represented. `for ... in` enumerates
  its indices, each one-character value is enumerated again, and `createRouterMap` overflows the stack.
- HttpAdapter.HttpReply: the reply's header list holds the CORS and content-type headers only. The `Set-Cookie`
  header that `HttpCookieManager` writes on the same response during the handler is modelled separately, by
  `HttpCookies.ServerResponse`, and the two are not combined.
- QueryClient.UnsubscribeStep: when the last subscriber leaves, the model always records the teardown call and
  deletes the key. The source first runs `count--` and `callbacks.delete`, then `subscription.unsubscribe()`, and only
  then `subscriptions.delete(key)` (packages/react-query/src/core/create-query-client.ts:217-221). If the stored value
  cannot be called, or the teardown throws, the entry stays with count 0. Values that cannot be called include
  `undefined` and a Promise from a fetch-based client, which is what `method.subscribe` returned at line 204. A later
  subscriber then gets count 1 and no new underlying subscribe. The teardown is a foreign call the model does not
  represent.
- QueryClient.SubscribeStep: a throw from `method.subscribe` (create-query-client.ts:204), for example a client with no
  `subscribe` at that path, leaves no entry and rejects the effect. The model always stores the entry and records
  the call.
- QueryClient.UnsubscribeFacts: "the last one out unsubscribes once and deletes the key" holds only when the stored
  teardown can be called and returns, as the QueryClient.UnsubscribeStep line says.
- QueryClient.UnsubscribePreservesValid: `count >= 1` is kept only under the same condition. After a teardown that
  throws, the source holds a count-0 entry.
- QueryClient.SubscriptionTable.Unsubscribe: proved equal to UnsubscribeStep, so it promises the same clean delete and
  the same condition applies.
- QueryClient.MessageStep: a subscriber without `onMessage` adds `undefined` to the key's callback set
  (packages/react-query/src/core/create-query-client.ts:199, 211). The source's `cb(data)` then throws at that element and
  later callbacks receive nothing. QueryClient.DeliveriesOf records a delivery to every element.

## Findings

| source | as written | input that shows it | evidently intended | confidence | as-written member | corrected member |
|---|---|---|---|---|---|---|
| packages/server/src/adapters/next.ts:28-30 | the preflight `Response` is built without the `headers` the CORS options were appended to | `cors = {origin: "https://app.example"}` and an OPTIONS request: the 204 carries no `Access-Control-Allow-Origin` | the preflight carries the CORS headers, as the HTTP adapter's does (packages/server/src/adapters/http.ts:20-31) | not executed; high | NextAdapter.HandleAsWritten (shown by NextAdapter.PreflightDropsCors, NextAdapter.PreflightWitness) | NextAdapter.Handle (NextAdapter.PreflightCarriesCors) |
| packages/server/src/adapters/ws.ts:36-48 | replies are `{status, data}` with no correlation id | any reply to a pending POST of `wsLink`: the listener finds no id, so the request never settles | the reply names the id of the frame it answers, with `{status, data}` under `body`, the envelope packages/client/src/core/links.ts:40-54 reads | not executed; medium | WsAdapter.ReplyValue (shown by WsAdapter.ReplyIgnoredByLink) | WsAdapter.ReplyFrame (WsAdapter.ReplyFrameSettles, WsAdapter.ReplyFrameDelivers) |
