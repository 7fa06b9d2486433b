/** The per-function invocation wrapper of src/bifrost.ts (`FnMethodsHelper`)
    and its one-shot fetches, `fetchClient` and `fetchServer`. The settled
    outcome of the underlying function or transport call is a parameter: it
    is consulted only when the flow actually makes the call. */
module Fetch {
  import opened JsValues
  import opened CachePolicy

  /** One wrapper, bound to one registered function `fn` of type `F`. The
      flags record which optional collaborators the instance was built with. */
  datatype Wrapper<F> = Wrapper(
    fnName: string,
    fn: F,
    hasCache: bool,
    hasHttpProcessor: bool,
    hasLogger: bool)

  /** The side effects a flow performs, in order. */
  datatype Effect =
    | Logged(kind: string)
    | Invoked(payload: JsValue)
    | Sent(fnName: string, payload: JsValue)
    | CacheWrite(key: string, value: JsValue)
    | ListenersAttached
    | Disposed

  predicate MakesCall(effects: seq<Effect>) {
    exists i | 0 <= i < |effects| :: effects[i].Invoked? || effects[i].Sent?
  }

  /** How the promise a fetch returns settles. */
  datatype FetchResult = Fetched(data: JsValue, isFromCache: bool) | Rejected(error: JsValue) {
    predicate FromCache() {
      Fetched? && isFromCache
    }
  }

  datatype FetchRun = FetchRun(result: FetchResult, effects: seq<Effect>)

  const HttpProcessorMissing: string := "HttpProcessor not defined. Cannot run useServer."

  /** The common body of both fetches once the mode is fixed: answer from a
      fresh cache entry, or make `call` and write its result through. */
  function FetchVia<F>(w: Wrapper<F>, mode: Mode, call: Effect, argDigest: string, options: Option<Options>,
                       store: Store, now: int, settle: Completion): (run: FetchRun)
    requires call.Invoked? || call.Sent?
    ensures var key := CacheKey(mode, w.fnName, argDigest);
      var hit := CacheValueForFetch(w.hasCache, options, store, key, now);
      && (hit.Some? ==> run == FetchRun(Fetched(hit.value, true), []))
      && (hit.None? && settle.Normal? ==>
            run == FetchRun(Fetched(settle.value, false),
                            [call] + if w.hasCache then [CacheWrite(key, settle.value)] else []))
      && (hit.None? && settle.Thrown? ==> run == FetchRun(Rejected(settle.error), [call]))
  {
    var key := CacheKey(mode, w.fnName, argDigest);
    match CacheValueForFetch(w.hasCache, options, store, key, now)
    case Some(v) => FetchRun(Fetched(v, true), [])
    case None =>
      match settle
      case Normal(r) => FetchRun(Fetched(r, false), [call] + if w.hasCache then [CacheWrite(key, r)] else [])
      case Thrown(e) => FetchRun(Rejected(e), [call])
  }

  function LogIf(hasLogger: bool, kind: string): seq<Effect> {
    if hasLogger then [Logged(kind)] else []
  }

  /** `fetchClient(p, options)`. */
  function FetchClient<F>(w: Wrapper<F>, arg: JsValue, argDigest: string, options: Option<Options>,
                          store: Store, now: int, settle: Completion): (run: FetchRun)
    ensures run.result.FromCache() <==>
      w.hasCache && CacheTimeframeExists(options) && CacheNotDisabled(options) &&
      CacheKey(FetchClientMode, w.fnName, argDigest) in store &&
      CacheDataValid(options, store[CacheKey(FetchClientMode, w.fnName, argDigest)].cachedDateMS, now)
    ensures run.result.FromCache() ==>
      run.result.data == store[CacheKey(FetchClientMode, w.fnName, argDigest)].value && !MakesCall(run.effects)
    ensures !(run.result.FromCache()) ==>
      Invoked(arg) in run.effects &&
      (settle.Normal? ==> run.result == Fetched(settle.value, false)) &&
      (settle.Thrown? ==> run.result == Rejected(settle.error))
    ensures settle.Normal? && !run.result.FromCache() ==>
      (CacheWrite(CacheKey(FetchClientMode, w.fnName, argDigest), settle.value) in run.effects <==> w.hasCache)
    ensures forall e | e in run.effects && e.CacheWrite? ::
      w.hasCache && settle.Normal? && !run.result.FromCache() &&
      e == CacheWrite(CacheKey(FetchClientMode, w.fnName, argDigest), settle.value)
    ensures w.hasLogger ==> |run.effects| > 0 && run.effects[0] == Logged("fetchClient")
    ensures Logged("fetchClient") in run.effects <==> w.hasLogger
  {
    var body := FetchVia(w, FetchClientMode, Invoked(arg), argDigest, options, store, now, settle);
    var effects := LogIf(w.hasLogger, "fetchClient") + body.effects;
    assert !body.result.FromCache() ==> effects[|LogIf(w.hasLogger, "fetchClient")|] == Invoked(arg);
    FetchRun(body.result, effects)
  }

  /** `fetchServer(p, options)`: without a transport processor it rejects
      before logging, reading the cache or calling anything. */
  function FetchServer<F>(w: Wrapper<F>, arg: JsValue, argDigest: string, options: Option<Options>,
                          store: Store, now: int, settle: Completion): (run: FetchRun)
    ensures !w.hasHttpProcessor ==> run == FetchRun(Rejected(NewError(HttpProcessorMissing)), [])
    ensures w.hasHttpProcessor ==>
      (run.result.FromCache() <==>
        w.hasCache && CacheTimeframeExists(options) && CacheNotDisabled(options) &&
        CacheKey(FetchServerMode, w.fnName, argDigest) in store &&
        CacheDataValid(options, store[CacheKey(FetchServerMode, w.fnName, argDigest)].cachedDateMS, now))
    ensures w.hasHttpProcessor && !(run.result.FromCache()) ==>
      Sent(w.fnName, arg) in run.effects &&
      (settle.Normal? ==> run.result == Fetched(settle.value, false)) &&
      (settle.Thrown? ==> run.result == Rejected(settle.error))
    ensures run.result.FromCache() ==> !MakesCall(run.effects)
    ensures w.hasHttpProcessor && settle.Normal? && !run.result.FromCache() ==>
      (CacheWrite(CacheKey(FetchServerMode, w.fnName, argDigest), settle.value) in run.effects <==> w.hasCache)
    ensures forall e | e in run.effects && e.CacheWrite? ::
      w.hasHttpProcessor && w.hasCache && settle.Normal? && !run.result.FromCache() &&
      e == CacheWrite(CacheKey(FetchServerMode, w.fnName, argDigest), settle.value)
    ensures w.hasHttpProcessor && w.hasLogger ==> |run.effects| > 0 && run.effects[0] == Logged("fetchServer")
    ensures Logged("fetchServer") in run.effects <==> w.hasHttpProcessor && w.hasLogger
  {
    if !w.hasHttpProcessor then
      FetchRun(Rejected(NewError(HttpProcessorMissing)), [])
    else
      var body := FetchVia(w, FetchServerMode, Sent(w.fnName, arg), argDigest, options, store, now, settle);
      var effects := LogIf(w.hasLogger, "fetchServer") + body.effects;
      assert !body.result.FromCache() ==> effects[|LogIf(w.hasLogger, "fetchServer")|] == Sent(w.fnName, arg);
      FetchRun(body.result, effects)
  }

  /** The cache adapter's view of a flow's writes. The wrapper passes only
      a key and a value; the adapter modelled here stores each write at once,
      stamped with the time `now` of the flow. */
  function ApplyWrites(store: Store, effects: seq<Effect>, now: int): (s: Store)
    ensures forall k | k in store :: k in s
    decreases |effects|
  {
    if effects == [] then store
    else
      var s1 := if effects[0].CacheWrite? then store[effects[0].key := Entry(effects[0].value, now)] else store;
      ApplyWrites(s1, effects[1..], now)
  }

  /** The value of the last write to `key` among `effects`, if any. */
  function LastWriteTo(effects: seq<Effect>, key: string): Option<JsValue>
    decreases |effects|
  {
    if effects == [] then None
    else
      var later := LastWriteTo(effects[1..], key);
      if later.Some? then later
      else if effects[0].CacheWrite? && effects[0].key == key then Some(effects[0].value)
      else None
  }

  /** The adapter keeps the last write to each key: after a flow's writes, a
      written key holds the value of its last write, stamped with the write
      time; a key no write touched is as it was. */
  lemma {:induction false} ApplyWritesLastWins(store: Store, effects: seq<Effect>, now: int, key: string)
    ensures LastWriteTo(effects, key).Some? ==>
      key in ApplyWrites(store, effects, now) &&
      ApplyWrites(store, effects, now)[key] == Entry(LastWriteTo(effects, key).value, now)
    ensures LastWriteTo(effects, key).None? ==>
      (key in ApplyWrites(store, effects, now) <==> key in store) &&
      (key in store ==> ApplyWrites(store, effects, now)[key] == store[key])
    decreases |effects|
  {
    if effects != [] {
      var s1 := if effects[0].CacheWrite? then store[effects[0].key := Entry(effects[0].value, now)] else store;
      ApplyWritesLastWins(s1, effects[1..], now, key);
    }
  }

  lemma {:induction false} FinalWriteIsLast(p: seq<Effect>, key: string, v: JsValue)
    ensures LastWriteTo(p + [CacheWrite(key, v)], key) == Some(v)
    decreases |p|
  {
    if p == [] {
      assert ([] + [CacheWrite(key, v)])[1..] == [];
    } else {
      assert (p + [CacheWrite(key, v)])[1..] == p[1..] + [CacheWrite(key, v)];
      FinalWriteIsLast(p[1..], key, v);
    }
  }

  /** The caching scenario: a successful `fetchClient` at time `t1` with a
      cache adapter that held nothing under its key, followed by the same
      call at `t2` within the window, answers the second time from the cache with the first result and
      without calling the function, whatever the function would do then. */
  lemma SecondFetchWithinWindowHitsCache<F>(w: Wrapper<F>, arg: JsValue, argDigest: string, window: int,
                                            store: Store, t1: int, t2: int, r: JsValue, settle2: Completion)
    requires w.hasCache && window != 0
    requires CacheKey(FetchClientMode, w.fnName, argDigest) !in store
    requires t1 <= t2 < t1 + window
    ensures var o := Some(Options(Some(window), false));
      var first := FetchClient(w, arg, argDigest, o, store, t1, Normal(r));
      var second := FetchClient(w, arg, argDigest, o, ApplyWrites(store, first.effects, t1), t2, settle2);
      first.result.Fetched? && second.result == Fetched(first.result.data, true) && !MakesCall(second.effects)
  {
    var o := Some(Options(Some(window), false));
    var key := CacheKey(FetchClientMode, w.fnName, argDigest);
    var first := FetchClient(w, arg, argDigest, o, store, t1, Normal(r));
    assert first.effects == LogIf(w.hasLogger, "fetchClient") + [Invoked(arg), CacheWrite(key, r)];
    FinalWriteIsLast(LogIf(w.hasLogger, "fetchClient") + [Invoked(arg)], key, r);
    assert first.effects == (LogIf(w.hasLogger, "fetchClient") + [Invoked(arg)]) + [CacheWrite(key, r)];
    ApplyWritesLastWins(store, first.effects, t1, key);
  }

  /** `disableCache` and a window of `0` each force a call: the cache is
      never read by a fetch then. */
  lemma DisabledOrZeroWindowAlwaysCalls<F>(w: Wrapper<F>, arg: JsValue, argDigest: string, o: Options,
                                           store: Store, now: int, settle: Completion)
    requires o.disableCache || o.useCacheOnlyWithinMS == Some(0) || o.useCacheOnlyWithinMS.None?
    ensures !FetchClient(w, arg, argDigest, Some(o), store, now, settle).result.FromCache()
    ensures Invoked(arg) in FetchClient(w, arg, argDigest, Some(o), store, now, settle).effects
  {
  }
}
