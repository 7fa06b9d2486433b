/** The cache policy of the invocation wrapper in src/bifrost.ts: how a key
    is built for each access mode, when an entry counts as fresh, when a
    one-shot fetch may answer from the cache, and what a live binding shows
    before its first result. The cache adapter is read synchronously, which
    is how the wrapper calls it. */
module CachePolicy {
  import opened JsValues

  /** The per-call options a caller may pass. `useCacheOnlyWithinMS` is
      `None` when absent; `disableCache` stands for its truthiness. */
  datatype Options = Options(useCacheOnlyWithinMS: Option<int>, disableCache: bool)

  /** What the adapter returns for a key: the stored value and the time it
      was stored. */
  datatype Entry = Entry(value: JsValue, cachedDateMS: int)

  type Store = map<string, Entry>

  /** The six access surfaces that build cache keys. */
  datatype Mode =
    | GetClientSubscriptionMode
    | FetchClientMode
    | UseClientMode
    | UseClientSubscriptionMode
    | FetchServerMode
    | UseServerMode

  function Prefix(m: Mode): string {
    match m
    case GetClientSubscriptionMode => "getClientSubscription"
    case FetchClientMode => "fetchClient"
    case UseClientMode => "useClient"
    case UseClientSubscriptionMode => "useClientSubscription"
    case FetchServerMode => "fetchServer"
    case UseServerMode => "server"
  }

  /** The mode's part of a key: its prefix and the dash after it. */
  function Tag(m: Mode): string {
    Prefix(m) + "-"
  }

  /** `${prefix}-${fnName}-${md5(jsonStableStringify(p))}`; `argDigest` is the
      hex digest of the argument's canonical JSON. */
  function CacheKey(m: Mode, fnName: string, argDigest: string): (k: string)
    ensures |k| == |Tag(m)| + |fnName| + 1 + |argDigest|
    ensures k[..|Tag(m)|] == Tag(m) && k[|Tag(m)|..|Tag(m)| + |fnName|] == fnName
    ensures k[|Tag(m)| + |fnName|] == '-' && k[|k| - |argDigest|..] == argDigest
  {
    Tag(m) + fnName + "-" + argDigest
  }

  /** An index at which the tags of two modes differ: only the two
      `fetch...` tags and the two `useClient...` tags share a first letter. */
  function DiffIndex(m1: Mode, m2: Mode): nat {
    if (m1.FetchClientMode? || m1.FetchServerMode?) && (m2.FetchClientMode? || m2.FetchServerMode?) then 5
    else if (m1.UseClientMode? || m1.UseClientSubscriptionMode?) && (m2.UseClientMode? || m2.UseClientSubscriptionMode?) then 9
    else 0
  }

  /** No mode's tag is a prefix of another's: they differ within both. */
  lemma TagsDiffer(m1: Mode, m2: Mode)
    requires m1 != m2
    ensures DiffIndex(m1, m2) < |Tag(m1)| && DiffIndex(m1, m2) < |Tag(m2)|
    ensures Tag(m1)[DiffIndex(m1, m2)] != Tag(m2)[DiffIndex(m1, m2)]
  {
  }

  /** Keys of different modes never coincide, whatever the function names
      and digests: the mode is recovered from the key's first characters. */
  lemma KeysOfDistinctModesDiffer(m1: Mode, n1: string, d1: string, m2: Mode, n2: string, d2: string)
    requires m1 != m2
    ensures CacheKey(m1, n1, d1) != CacheKey(m2, n2, d2)
  {
    var d := DiffIndex(m1, m2);
    TagsDiffer(m1, m2);
    assert CacheKey(m1, n1, d1)[d] == Tag(m1)[d];
    assert CacheKey(m2, n2, d2)[d] == Tag(m2)[d];
  }

  /** Within one mode, a key built from a fixed-width digest (md5 hex digests
      are 32 characters) determines the function name and the digest. */
  lemma KeyDeterminesNameAndDigest(m: Mode, n1: string, d1: string, n2: string, d2: string)
    requires |d1| == |d2|
    requires CacheKey(m, n1, d1) == CacheKey(m, n2, d2)
    ensures n1 == n2 && d1 == d2
  {
    var k := CacheKey(m, n1, d1);
    var t := Tag(m);
    assert |n1| == |n2|;
    assert n1 == k[|t|..|t| + |n1|] == n2;
    assert d1 == k[|k| - |d1|..] == d2;
  }

  /** `options && options.useCacheOnlyWithinMS` as a JavaScript value:
      absent options or an absent window give `undefined`. */
  function WindowOperand(o: Option<Options>): JsValue {
    match o
    case None => Undefined
    case Some(opts) =>
      match opts.useCacheOnlyWithinMS
      case None => Undefined
      case Some(w) => IntNum(w)
  }

  /** `options && options.disableCache` as a JavaScript value. */
  function DisableOperand(o: Option<Options>): JsValue {
    match o
    case None => Undefined
    case Some(opts) => Bool(opts.disableCache)
  }

  /** `cacheTimeframeExists`: options are given and the window is truthy, so
      a window of `0` never counts. */
  predicate CacheTimeframeExists(o: Option<Options>)
    ensures CacheTimeframeExists(o) <==> Truthy(WindowOperand(o))
    ensures o.Some? && o.value.useCacheOnlyWithinMS == Some(0) ==> !CacheTimeframeExists(o)
  {
    o.Some? && o.value.useCacheOnlyWithinMS.Some? && o.value.useCacheOnlyWithinMS.value != 0
  }

  /** `cacheNotDisabled`: absent options never disable the cache. */
  predicate CacheNotDisabled(o: Option<Options>)
    ensures CacheNotDisabled(o) <==> !Truthy(DisableOperand(o))
    ensures o.None? ==> CacheNotDisabled(o)
  {
    !(o.Some? && o.value.disableCache)
  }

  /** `cacheDataValid`: the entry is newer than `now - window`. With no
      options, or options without a window (`now - undefined` is NaN), the
      answer is false. */
  function CacheDataValid(o: Option<Options>, cachedDateMS: int, now: int): (valid: bool)
    ensures valid <==> o.Some? && o.value.useCacheOnlyWithinMS.Some? &&
                       now < cachedDateMS + o.value.useCacheOnlyWithinMS.value
  {
    match o
    case None => false
    case Some(opts) =>
      match opts.useCacheOnlyWithinMS
      case None => false
      case Some(w) => cachedDateMS > now - w
  }

  /** The freshness boundary: with window `w` an entry stored at `t` is
      fresh one millisecond before `t + w` and stale from `t + w` on. */
  lemma FreshnessBoundary(t: int, w: int, disable: bool, now: int)
    ensures CacheDataValid(Some(Options(Some(w), disable)), t, t + w - 1)
    ensures now >= t + w ==> !CacheDataValid(Some(Options(Some(w), disable)), t, now)
  {
  }

  /** `cacheValueToReturnForFetch`: the value a one-shot fetch answers with
      from the cache, if any. */
  function CacheValueForFetch(hasCache: bool, o: Option<Options>, store: Store, key: string, now: int): (r: Option<JsValue>)
    ensures r.Some? <==>
      hasCache && o.Some? && o.value.useCacheOnlyWithinMS.Some? && o.value.useCacheOnlyWithinMS.value != 0 &&
      !o.value.disableCache && key in store && now < store[key].cachedDateMS + o.value.useCacheOnlyWithinMS.value
    ensures r.Some? ==> r.value == store[key].value
  {
    if hasCache && CacheTimeframeExists(o) && CacheNotDisabled(o) && key in store
       && CacheDataValid(o, store[key].cachedDateMS, now)
    then Some(store[key].value)
    else None
  }

  /** The observable state of a live binding. */
  datatype CallState = CallState(data: JsValue, isLoading: bool, error: JsValue, isFromCache: bool)

  /** The state before any result: still loading. */
  const Loading: CallState := CallState(Null, true, Null, false)

  /** The state after a successful call. */
  function Succeeded(r: JsValue): CallState {
    CallState(r, false, Null, false)
  }

  /** The state after a failed call or a rejected subscription. */
  function Failed(e: JsValue): CallState {
    CallState(Undefined, false, e, false)
  }

  /** `getInitialRefValForUse`: any stored entry, fresh or stale, is shown at
      once when the cache is present and not disabled. */
  function InitialState(hasCache: bool, o: Option<Options>, store: Store, key: string): (st: CallState)
    ensures st.isFromCache <==> hasCache && CacheNotDisabled(o) && key in store
    ensures st.isFromCache ==> st == CallState(store[key].value, false, Null, true)
    ensures !st.isFromCache ==> st == Loading
  {
    if hasCache && CacheNotDisabled(o) && key in store then
      CallState(store[key].value, false, Null, true)
    else
      Loading
  }

  /** The live binding's first state and the one-shot fetch read the same
      entry under the same conditions, except that the fetch also needs a
      non-zero window within which the entry is fresh. So a fetch answered
      from the cache always matches what a binding shows at first, and an
      entry a binding shows at first is answered by a fetch exactly when it
      is fresh. */
  lemma InitialStateAndFetchAgree(hasCache: bool, o: Option<Options>, store: Store, key: string, now: int)
    ensures var hit := CacheValueForFetch(hasCache, o, store, key, now);
      hit.Some? ==> InitialState(hasCache, o, store, key) == CallState(hit.value, false, Null, true)
    ensures var st := InitialState(hasCache, o, store, key);
      st.isFromCache ==>
        (CacheValueForFetch(hasCache, o, store, key, now).Some? <==>
           CacheTimeframeExists(o) && CacheDataValid(o, store[key].cachedDateMS, now))
    ensures !InitialState(hasCache, o, store, key).isFromCache ==> CacheValueForFetch(hasCache, o, store, key, now).None?
  {
  }
}
