# react-bifrost in Dafny

react-bifrost lets a React client call a set of registered functions
locally, over HTTP, or as live subscriptions, with an optional result
cache, and lets an Express server expose the same functions as POST
routes. This project models its decision logic as pure Dafny functions
over immutable JavaScript-like values and proves properties about them:

- `js_values.dfy` (`JsValues`): JavaScript values, truthiness, `typeof`
  tests, and property lookup that throws a TypeError on `undefined` and `null`.
- `emitter.dfy` (`Emitter`): the Emittery listener sets, with delivery made
  synchronous.
- `channel.dfy` (`Channel`): the subscription channel of
  `src/Subscriptions.ts`, with deduplication, optional sequencing tokens,
  replay of the current value, and disposal. Runs of operations are modelled too.
- `simple_channel.dfy` (`SimpleChannel`): the older `createBifrostSub`
  channel.
- `serializable.dfy` (`Serializable`): `isSerializable`, with an
  independent definition by paths that it is proved equal to.
- `cache_policy.dfy` (`CachePolicy`): cache keys, freshness, the fetch
  short-circuit and a live binding's initial state.
- `fetch.dfy` (`Fetch`): the invocation wrapper and `fetchClient` /
  `fetchServer`, with the cache adapter's view of their writes.
- `live_binding.dfy` (`LiveBinding`): `useClient` / `useServer` as
  events on one hook instance.
- `subscription_binding.dfy` (`SubscriptionBinding`): the subscription
  shape checks, `useClientSubscription` and
  `getClientSubscription().subscribe`.
- `builder.dfy` (`Builder`): `createBifrost` (both versions) and
  `createBifrostHooks`.
- `routes.dfy` (`Routes`): JavaScript `split` / `filter` / `join` on the API
  prefix, route paths, and route registration in the three
  `registerFunctionsWithExpress` variants.
- `handler.dfy` (`Handler`): the per-request decision on log, auth,
  function, wire check and status.
- `legacy_flows.dfy` (`LegacyFlows`): `fetchLocal` / `fetchRemote` of
  `module/src/index.ts` and `useLocal` / `useRemote` of `src/index.ts`.

Parameters stand in for the things the code cannot decide:

- how a call to a registered function, the HTTP processor or an auth
  function settles is a `Completion` (a value, or a thrown value);
- the time is `now: int`;
- the md5 digest of the argument's canonical JSON is `argDigest: string`;
- the cache adapter is a `map<string, Entry>`, read synchronously as
  `src/bifrost.ts` reads it.

Some behaviours of the code are easy to misread; the model states them as
the code has them:

- `dispose()` of a channel calls the release callback on every call,
  so a second call releases again (src/Subscriptions.ts:21-28).
  `Channel.DisposeTwice` states this.
- `disableCache` stops cache reads only. A successful call is still written
  through to the cache (src/bifrost.ts:184-186, 228-230, 298-300, 378-380).
- A value emitted once is replayed to later listeners only if it is
  truthy (src/Subscriptions.ts:31). This is a finding below.
- A window of `0` counts as "no window" for one-shot fetches, because the
  truthiness test at src/bifrost.ts:46-48 fails.
- In `useClientSubscription`, setup actually runs synchronously inside the
  effect, so teardown cannot come before it in practice. The model still
  allows either order and proves the disposal property for both.

## Model

| member | source | states |
|---|---|---|
| Channel.NextData | src/Subscriptions.ts:12-19 | the value changes iff the new value differs structurally from the current one and the token is falsy or exceeds the stored timestamp; an emission stores the value and the token (undefined included) and delivers the value to every data listener in order; a refused call changes nothing and delivers nothing |
| Channel.NextError | src/Subscriptions.ts:39-41 | error listeners alone receive the error, each once, in order; value, timestamp and listeners are untouched |
| Channel.Create | src/Subscriptions.ts:5-10 | a new channel holds no truthy value and no listeners, has released nothing, and emits any defined value, with no token or with any non-negative token, but refuses any negative token, since the stored timestamp starts at 0 |
| Channel.OnData | src/Subscriptions.ts:29-35 | the new listener gets the current value at once iff it is truthy; the data listeners become exactly the old ones with the new one registered; value, timestamp and error side untouched |
| Channel.OnError | src/Subscriptions.ts:36-38 | the error listeners become exactly the old ones with the new one registered, with no delivery; the data side is untouched |
| Channel.Dispose | src/Subscriptions.ts:21-28 | both listener sets are emptied and release is called, and nothing escapes; the current value and timestamp survive |
| Channel.DisposeTwice | src/Subscriptions.ts:21-28 | a second dispose changes nothing but calls release again |
| Channel.StateIsLastEmission | src/Subscriptions.ts:12-19 | after any run of operations the channel holds the last emitted value and token, or its starting ones if nothing was emitted |
| Channel.EmissionsNeverRepeat | src/Subscriptions.ts:13-15 | in any run, no emission equals the one before it, and the first differs from the starting value |
| Channel.GivenTokensIncrease | src/Subscriptions.ts:14-17 | consecutive emissions that both carry tokens carry strictly increasing tokens |
| Channel.StaleTokenRefused | src/Subscriptions.ts:14-17 | after an emission with token t, a call carrying any non-zero token no greater than t is refused: nothing is delivered and the earlier value stays |
| Channel.UndefinedTimestampRefusesTokens | src/Subscriptions.ts:14-17 | once the timestamp holds undefined, and as long as no call passes the literal token 0, no emission carries a token and the timestamp stays undefined |
| Channel.ReplayAfterRun | src/Subscriptions.ts:29-35 | after any run whose last emission is truthy, a new data listener receives exactly that value |
| Channel.UntokenedEmissionBlocksTokens | src/Subscriptions.ts:17 | as written: an untokened emission makes a following call with token 1 be refused |
| Channel.NextDataKeepingToken | src/Subscriptions.ts:12-19 | corrected update: same emission rule, but the timestamp moves only when a token is given |
| Channel.KeptTokensStrictlyIncrease | src/Subscriptions.ts:14-17 | with the corrected update the timestamp stays defined and all tokens emitted over a whole run increase strictly |
| Channel.FalsyEmissionNotReplayed | src/Subscriptions.ts:31-33 | as written: an emitted 0 is stored but not replayed to a new listener |
| Channel.OnDataReplayingEmitted | src/Subscriptions.ts:29-35 | corrected replay: registers exactly as OnData does, replays wherever OnData replays, and replays the current value, alone, iff it is not undefined |
| Channel.ReplayEmittedAfterRun | src/Subscriptions.ts:29-35 | with the corrected replay, a new listener receives the last emitted value of any run, falsy or not, unless it is undefined |
| Emitter.Register | src/Subscriptions.ts:34-37 | the listener set gains exactly the new listener, keeps its order and stays duplicate-free |
| Emitter.Broadcast | src/Subscriptions.ts:18 | one delivery per listener, in registration order, each carrying the payload |
| SimpleChannel.NextData | module/src/index.ts:52-54 | every data listener receives the value, with no deduplication or sequencing; state unchanged |
| SimpleChannel.NextError | module/src/index.ts:55-57 | every error listener receives the error; state unchanged |
| SimpleChannel.OnData | module/src/index.ts:46-48 | the data listeners become exactly the old ones with the new one registered; no replay |
| SimpleChannel.OnError | module/src/index.ts:49-51 | the error listeners become exactly the old ones with the new one registered; no replay |
| SimpleChannel.Dispose | module/src/index.ts:42-45 | listeners are cleared whether or not release throws, and release's exception escapes iff it threw |
| SimpleChannel.RunSplits | module/src/index.ts:42-57 | running two runs of operations one after the other is the same as running them joined, in state and in deliveries |
| SimpleChannel.ListenersAfterRun | module/src/index.ts:42-51 | after any run, a listener is registered iff it was registered before and no dispose ran, or it registered after the last dispose |
| SimpleChannel.EveryListenerHearsLaterData | module/src/index.ts:46-54 | a listener registered before a nextData, with no dispose in between, receives that value |
| Serializable.IsSerializable | src/misc.ts:3-32 | null, functions and instances fail and scalars pass; every element or property value of a serialisable array or object is itself serialisable |
| Serializable.SerializableIffAllReachablePlain | src/misc.ts:3-32 | a value is serialisable iff every node reachable through array indices and object keys is plain |
| Serializable.NonPlainAnywhereRejects | src/misc.ts:18-28 | null, a function or an instance at any depth makes the result false |
| Serializable.ScalarVerdicts | src/misc.ts:5-17 | top-level undefined, strings, booleans and every number pass; null, functions and instances fail |
| Serializable.NullPropertyRejects | src/misc.ts:18-22 | an object with a null property value is not serialisable |
| CachePolicy.CacheKey | src/bifrost.ts:125 | the key is the mode's tag, the name, a dash and the digest, each at its own place, so each part can be read back |
| CachePolicy.KeysOfDistinctModesDiffer | src/bifrost.ts:125-395 | keys built in different modes (templates at lines 125, 175, 197, 265, 369, 395) never coincide, for any names and digests |
| CachePolicy.KeyDeterminesNameAndDigest | src/bifrost.ts:175 | within one mode, equal keys with equal-width digests have equal names and digests |
| CachePolicy.CacheTimeframeExists | src/bifrost.ts:46-48 | a window counts iff `options && options.useCacheOnlyWithinMS` is truthy, so a window of 0 never counts |
| CachePolicy.CacheNotDisabled | src/bifrost.ts:49-51 | caching is allowed iff `options && options.disableCache` is falsy, so absent options never disable it |
| CachePolicy.CacheDataValid | src/bifrost.ts:52-59 | fresh iff options and a window are present and now < cachedDateMS + window |
| CachePolicy.FreshnessBoundary | src/bifrost.ts:52-59 | an entry is fresh one millisecond before stored time + window, and stale from then on |
| CachePolicy.CacheValueForFetch | src/bifrost.ts:77-92 | a cached answer exists iff there is an adapter, a non-zero window, no disableCache, and a fresh entry; it is the entry's value |
| CachePolicy.InitialState | src/bifrost.ts:94-115 | shows any stored entry, fresh or stale, when there is an adapter and caching is not disabled, otherwise the loading state |
| CachePolicy.InitialStateAndFetchAgree | src/bifrost.ts:77-115 | whenever a one-shot fetch would answer from the cache, a live binding starts from that same value; for the same options, a fetch finds a hit iff the window exists and the entry is fresh |
| Fetch.FetchClient | src/bifrost.ts:169-192 | answers from the cache iff a fresh entry may be used, and then makes no call; otherwise it calls the function and settles the same way; a success is written through iff there is an adapter, and no other cache write is ever made: none on a hit, none for a thrown call, none under another key; the logger is called first, iff there is one |
| Fetch.FetchServer | src/bifrost.ts:358-390 | with no processor it rejects with the fixed message before anything else; otherwise the logger, if any, is called first, and it answers from the cache iff a fresh entry may be used, else sends through the processor; the only cache write is a successful result under its own key, iff there is an adapter |
| Fetch.ApplyWritesLastWins | src/bifrost.ts:184-186 | for the adapter this model assumes, after a flow's writes a key that was written holds the value of the last write to it, and a key that was not written is unchanged |
| Fetch.SecondFetchWithinWindowHitsCache | src/bifrost.ts:169-192 | a successful fetchClient followed within the window by the same call answers from the cache with the first result and makes no call |
| Fetch.DisabledOrZeroWindowAlwaysCalls | src/bifrost.ts:77-92 | with disableCache, a zero window or no window, fetchClient always calls the function |
| LiveBinding.Mount | src/bifrost.ts:193-205 | the hook's ref starts at the initial state for the mode's key |
| LiveBinding.TeardownLast | src/bifrost.ts:254-256 | cleanup marks the latest run unmounted and no other |
| LiveBinding.StartCycle | src/bifrost.ts:207-222 | a run tears down the previous one and ends in exactly one of three phases: aborted iff it is useServer with no processor (lines 410-414), with no effect at all; skipped iff it may answer from a fresh entry, with no call; awaiting otherwise, having made the call. ref is untouched |
| LiveBinding.ResolveAsWritten | src/bifrost.ts:224-249 | as written: settling writes ref and the cache even after teardown; only the re-render is suppressed |
| LiveBinding.StaleRunOverwritesNewer | src/bifrost.ts:232-244 | as written: an older run settling after a newer one replaces the newer result |
| LiveBinding.ResolveGuarded | src/bifrost.ts:232-248 | corrected: a torn-down run still writes the cache but leaves ref and renders alone |
| LiveBinding.GuardedRunKeepsNewest | src/bifrost.ts:207-257 | with the guard, over any events, the run whose result ref shows never moves back to an older run |
| LiveBinding.GuardedScenarioShowsNewer | src/bifrost.ts:232-248 | with the guard, the stale-run scenario ends with the newer result |
| SubscriptionBinding.Validate | src/bifrost.ts:61-75 | accepted iff the value is not nullish, has no truthy then, and has all five capabilities; a thenable gets the promise error first, a nullish value a TypeError, anything else the shape error |
| SubscriptionBinding.ChannelShapeAccepted | src/bifrost.ts:61-75 | an object with the five methods passes; adding a truthy then makes it fail as a promise |
| SubscriptionBinding.MountSub | src/bifrost.ts:261-274 | ref starts at the initial state for the useClientSubscription key |
| SubscriptionBinding.SetupSub | src/bifrost.ts:280-346 | a failed call or check, or an onData that is not a function, sets ref to the failure with no render and nothing to dispose; an onError that is not a function leaves the data listener attached, ref failed and nothing to dispose; otherwise listeners are attached, any replay goes through the data listener, and the channel is disposed at once iff teardown came first, else the disposer is kept |
| SubscriptionBinding.OnSubData | src/bifrost.ts:297-321 | data sets ref to the success state, writes through iff there is an adapter, and re-renders iff not torn down |
| SubscriptionBinding.SubRunDisposesOnce | src/bifrost.ts:276-354 | from mount, under any order of setup, teardown and channel events, dispose is called at most once, and exactly once iff listeners were attached and the run was torn down; a run whose onError is not a function never disposes and keeps no disposer |
| SubscriptionBinding.SubscribeAsWritten | src/bifrost.ts:120-159 | the function is called first; subscribing completes iff its result passes the checks and its onData and onError are functions, and otherwise throws the check's error or a TypeError; the subscriber gets a stored entry as the bare stored value, then the channel's synchronous replay wrapped as live data, which is written through iff there is an adapter |
| SubscriptionBinding.SubscriberData | src/bifrost.ts:133-148 | live data reaches the subscriber wrapped as {data, isFromCache: false} and is written through iff there is an adapter |
| SubscriptionBinding.ReplayShapeDiffersFromLiveData | src/bifrost.ts:126-147 | as written: a stored number is replayed bare, while live data is wrapped |
| SubscriptionBinding.SubscribeWrapped | src/bifrost.ts:126-147 | corrected: the same outcome and effects, with a stored value wrapped as {data, isFromCache: true}, so everything the subscriber receives, replayed or live, has the {data, isFromCache} shape |
| Builder.CreateBifrost | src/bifrost.ts:13-34 | the instance has exactly the keys of fns, each bound to its own name and function and to the given collaborators; the older builder at module/src/index.ts:63-84 is the same loop |
| Builder.CreateBifrostHooks | src/index.ts:7-26 | the same, with no cache adapter |
| Builder.DistinctFunctionsNeverShareKeys | src/bifrost.ts:20-33 | two registered functions never share a cache key in any modes, given digests of equal width |
| Builder.AddingAFunctionAddsOneWrapper | src/bifrost.ts:22-31 | registering one more function adds exactly its wrapper and leaves the others unchanged |
| Routes.ApiPathShape | src/expressHelpers.ts:16-20 | a route path is a slash, the prefix's segments, a slash and the name; a prefix with segments adds no slash at either end, and one without leaves two leading slashes |
| Routes.JoinSplit | src/expressHelpers.ts:16-19 | joining the pieces of a split gives back the original string |
| Routes.SplitJoin | src/expressHelpers.ts:16-19 | splitting a join of one or more slash-free pieces gives back the pieces |
| Routes.RefiningIsIdempotent | src/expressHelpers.ts:16-20 | normalising a normalised prefix changes nothing, and the route path is unchanged |
| Routes.SamePathIffSameSegments | src/expressHelpers.ts:16-20 | two prefixes give the same route path iff they have the same non-empty segments |
| Routes.PrefixSpellings | src/expressHelpers.ts:16-20 | api, /api/ and //api// give /api/name; an empty prefix or /// gives //name |
| Routes.AuthCheck | src/expressHelpers.ts:22 | the check throws iff the function entry is nullish; otherwise it tells whether the auth key holds a function |
| Routes.Register | src/expressHelpers.ts:12-28 | the routes registered, in order, are for the first names, each at its own path |
| Routes.RegistersEveryName | src/expressHelpers.ts:12-28 | every name gets a route unless a nullish entry stops the loop with a TypeError, and then exactly the names before the first such entry get one; the gated variants authorise exactly the entries with an auth function, the open one none |
| Routes.AnnouncementsOfOneName | module/src/index.ts:103-111 | the current variant prints a path iff it is authorised; the older one always prints it and warns iff unauthorised |
| Handler.Caught | src/expressHelpers.ts:48-55 | a thrown nullish value leaves no response; a truthy numeric statusCode with an Error alongside gives that status; anything else gives 500 |
| Handler.Handle | src/expressHelpers.ts:28-56 | logger first; with no auth function, 401 and neither auth nor function runs; auth runs before the function, and a throw from either goes to the catch; a non-serialisable result gives 500, a serialisable one 200 with the result; the open variant (src/index.ts:42-57) calls the function with the request and sends any result |
| Handler.GatedResultIffAuthorisedAndSerialisable | src/expressHelpers.ts:34-47 | the result reaches the client iff there is an auth function, auth passes, the function returns and its result is serialisable; any other 200 carries the fixed error body |
| Handler.CaughtStatusComesFromThrownValue | src/expressHelpers.ts:48-55 | a status other than 500 from the catch is exactly the thrown statusCode |
| Handler.MalformedStatusesBecome500 | src/expressHelpers.ts:49-54 | statusCode 0, NaN, a numeric string, or a status without an Error all give 500, and a well-formed 404 gives 404 |
| Handler.OpenVariantSkipsWireCheck | src/index.ts:42-49 | for any result, the open variant answers 200 with it, while a gated variant does so iff the result is serialisable; a function result gets 500 there |
| LegacyFlows.FetchLocal | module/src/index.ts:291-303 | settles exactly as the function does, after calling it, with no cache write |
| LegacyFlows.FetchRemote | module/src/index.ts:304-318 | with no processor it rejects with the fixed message before logging or sending; otherwise it settles as the processor does, with no cache write |
| LegacyFlows.UseLocal | src/index.ts:77-111 | always re-renders; success gives {r, false, null}, failure gives {undefined, false, e} |
| LegacyFlows.UseRemote | src/index.ts:112-149 | with no processor, nothing is called, the state stays loading and there is no re-render; otherwise the same as useLocal, through the processor |
| LegacyFlows.HooksRenderIffCalled | src/index.ts:77-149 | each hook reports exactly how its call settled, or stays loading when useRemote has no processor, and asks for a re-render iff it made a call |

## Left out

- React's hook machinery is replaced by explicit events: useState, useMemo and useRef bookkeeping, effect scheduling, and the dependency arrays, including `[memoizationArr]` at src/index.ts:146.
- Emittery delivers asynchronously; here delivery is synchronous and in registration order.
- md5 and json-stable-stringify are not modelled; the digest is a string parameter.
- Cache keys of the older wrapper (`local-`, `localSub-`, `remote-`) are not modelled; they belong to hooks outside this model.
- lodash `isEqual` is Dafny structural equality on values, and `isPlainObject` is the `PlainObj` tag.
- Promises and `await` are not modelled; how each call settles is a parameter. The adapter's asynchronous signature is not modelled: src/bifrost.ts calls it synchronously.
- Unhandled rejections are not modelled. This covers useServer and useRemote without a processor, and the handler's catch block throwing.
- Express request and response objects, HTTP transport, console output and logger payloads are I/O. A logger that throws is not modelled.
- `Date.now()` is the `now` parameter.
- Fetch.ApplyWrites: src/bifrost.ts passes the adapter only a key and a value and does not await the write. The model assumes an adapter that stores each write at once, stamped with the time of the call; `Fetch.SecondFetchWithinWindowHitsCache` holds under that assumption.
- Cyclic objects are outside the model, since values are finite trees; so are prototype-inherited properties beyond what `props` lists.
- JavaScript number arithmetic is exact here: there is no IEEE rounding, and tokens are integers (fractional and NaN tokens are not modelled).
- Invalid status codes passed to `res.status` are not modelled (Express would reject them).
- src/models.ts holds type declarations only; the example applications are demo code.
- The `useLocal`, `useLocalSub` and `useRemote` hooks of module/src/index.ts are not part of this model.
- CachePolicy.KeyDeterminesNameAndDigest: assumes digests of equal width. md5 hex digests always are, but the digest is not computed here.
- Builder.DistinctFunctionsNeverShareKeys: rests on the same equal-width assumption.
- SubscriptionBinding.SetupSub: the channel's replay during `onData` is a parameter, so the lemma does not check it against the channel model. A `dispose` capability that is truthy but not a function is treated as callable: the TypeError it would throw at src/bifrost.ts:334 or 352 is not modelled.
- SubscriptionBinding.SubscribeAsWritten: the channel's replay is a parameter as above; the returned `unsubscribe` (src/bifrost.ts:161-165) and a `dispose` that is not a function are not modelled.
- Channel.OnDataReplayingEmitted: an emitted `undefined` is not replayed, since the channel cannot tell it from the starting state without a separate flag.
- Serializable.IsSerializable: an object with an own `hasOwnProperty` key that is not a function, or a null-prototype object, makes src/misc.ts:19 throw, which the handler turns into a 500; whether that happens before a `false` verdict depends on key order, so it is not modelled.

## Findings

| source | as written | input that shows it | evidently intended | confidence | as-written member | corrected member |
|---|---|---|---|---|---|---|
| src/Subscriptions.ts:17 | every emission stores its token, so an untokened one stores undefined and every later tokened call is refused | nextData("a") with no token, then nextData("b", {ensureSequentialTimestamp: 1}): "b" is dropped | move the timestamp only when a token is given, so tokens keep increasing over a run (Channel.KeptTokensStrictlyIncrease) | medium, not executed | Channel.UntokenedEmissionBlocksTokens | Channel.NextDataKeepingToken |
| src/Subscriptions.ts:31 | replay tests truthiness, so an emitted 0, "" or false is not replayed | nextData(0), then onData(fn): fn receives nothing | replay the current value unless it is undefined (Channel.ReplayEmittedAfterRun) | low, not executed | Channel.FalsyEmissionNotReplayed | Channel.OnDataReplayingEmitted |
| src/bifrost.ts:232-244 | the hasUnmounted flag guards only the re-render, so a superseded run still writes ref | run 0 starts, run 1 starts, run 1 settles with b, run 0 settles with a: ref shows a | a torn-down run leaves ref alone, so ref never goes back to an older run (LiveBinding.GuardedRunKeepsNewest) | medium, not executed | LiveBinding.StaleRunOverwritesNewer | LiveBinding.ResolveGuarded |
| src/bifrost.ts:126-131 | the cache replay hands the subscriber the bare stored value, while live data comes as {data, isFromCache: false} | adapter holds 1 under the key: subscribe(fn) calls fn(1), then fn({data: v, isFromCache: false}) on data | replay as {data: value, isFromCache: true}, so the subscriber sees one shape (SubscriptionBinding.SubscribeWrapped) | medium, not executed | SubscriptionBinding.ReplayShapeDiffersFromLiveData | SubscriptionBinding.SubscribeWrapped |
