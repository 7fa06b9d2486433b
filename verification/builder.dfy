/** The instance builders: `createBifrost` (src/bifrost.ts and
    module/src/index.ts) and `createBifrostHooks` (src/index.ts). Each walks
    the keys of `fns` and binds one invocation wrapper per key. The builder
    is generic in the registered function type `F`, so it has no way of
    calling a registered function while building. */
module Builder {
  import opened CachePolicy
  import opened Fetch

  /** The instance: one wrapper per registered name. */
  type Instance<F> = map<string, Wrapper<F>>

  /** The loop the builders share: each key of `fns` gets a wrapper bound to
      that key and its own function, with the collaborators the instance was
      given. */
  function BindAll<F>(fns: map<string, F>, hasCache: bool, hasHttpProcessor: bool, hasLogger: bool): (sdk: Instance<F>)
    ensures sdk.Keys == fns.Keys
    ensures forall n | n in sdk ::
      sdk[n].fnName == n && sdk[n].fn == fns[n] &&
      sdk[n].hasCache == hasCache && sdk[n].hasHttpProcessor == hasHttpProcessor && sdk[n].hasLogger == hasLogger
  {
    map n | n in fns :: Wrapper(n, fns[n], hasCache, hasHttpProcessor, hasLogger)
  }

  /** `createBifrost({fns, reactModule, useCacheFns?, httpProcessor?, logger?})`
      of src/bifrost.ts. The older `createBifrost` of module/src/index.ts is
      the same loop over the older wrapper, so it is this function too. */
  function CreateBifrost<F>(fns: map<string, F>, hasCache: bool, hasHttpProcessor: bool, hasLogger: bool): (sdk: Instance<F>)
    ensures sdk.Keys == fns.Keys
    ensures forall n | n in sdk :: sdk[n] == Wrapper(n, fns[n], hasCache, hasHttpProcessor, hasLogger)
  {
    BindAll(fns, hasCache, hasHttpProcessor, hasLogger)
  }

  /** `createBifrostHooks(fns, reactModule, httpProcessor?, logger?)` of
      src/index.ts: no cache adapter can be given. */
  function CreateBifrostHooks<F>(fns: map<string, F>, hasHttpProcessor: bool, hasLogger: bool): (sdk: Instance<F>)
    ensures sdk.Keys == fns.Keys
    ensures forall n | n in sdk :: sdk[n] == Wrapper(n, fns[n], false, hasHttpProcessor, hasLogger)
  {
    BindAll(fns, false, hasHttpProcessor, hasLogger)
  }

  /** Two registered functions of one instance never share a cache entry:
      whatever modes they are used in, their keys differ, given digests of
      the fixed width md5 produces. */
  lemma DistinctFunctionsNeverShareKeys<F>(fns: map<string, F>, hasCache: bool, hasHttpProcessor: bool, hasLogger: bool,
                                          n1: string, n2: string, m1: Mode, m2: Mode, d1: string, d2: string)
    requires n1 in fns && n2 in fns && n1 != n2
    requires |d1| == |d2|
    ensures var sdk := CreateBifrost(fns, hasCache, hasHttpProcessor, hasLogger);
      CacheKey(m1, sdk[n1].fnName, d1) != CacheKey(m2, sdk[n2].fnName, d2)
  {
    var sdk := CreateBifrost(fns, hasCache, hasHttpProcessor, hasLogger);
    if m1 != m2 {
      KeysOfDistinctModesDiffer(m1, n1, d1, m2, n2, d2);
    } else if CacheKey(m1, sdk[n1].fnName, d1) == CacheKey(m2, sdk[n2].fnName, d2) {
      KeyDeterminesNameAndDigest(m1, n1, d1, n2, d2);
    }
  }

  /** Building commutes with adding a function: registering one more name
      adds exactly one wrapper and leaves the others as they were. */
  lemma AddingAFunctionAddsOneWrapper<F>(fns: map<string, F>, hasCache: bool, hasHttpProcessor: bool, hasLogger: bool,
                                         n: string, f: F)
    ensures CreateBifrost(fns[n := f], hasCache, hasHttpProcessor, hasLogger)
         == CreateBifrost(fns, hasCache, hasHttpProcessor, hasLogger)[n := Wrapper(n, f, hasCache, hasHttpProcessor, hasLogger)]
  {
    var a := CreateBifrost(fns[n := f], hasCache, hasHttpProcessor, hasLogger);
    var b := CreateBifrost(fns, hasCache, hasHttpProcessor, hasLogger)[n := Wrapper(n, f, hasCache, hasHttpProcessor, hasLogger)];
    assert a.Keys == b.Keys;
    forall k | k in a ensures a[k] == b[k] {
    }
  }
}
