/** The subscription surfaces of src/bifrost.ts: the checks on what a
    subscription-mode function returns (`ensureNotPromise`,
    `ensureIsBifrostSubscription`), the live subscription binding
    `useClientSubscription`, and `getClientSubscription().subscribe`. */
module SubscriptionBinding {
  import opened JsValues
  import opened CachePolicy
  import opened Fetch

  /** The fixed text `ensureNotPromise` puts after the calling function's name. */
  const PromiseText: string := ". It appears the function that is supposed to be returning a BifrostSubscription"
    + " is returning a promise. This is not allowed. Can cause various race conditions when components unmount. Oc"

  function PromiseMessage(callingFn: string): string {
    "Problem in " + callingFn + PromiseText
  }

  function ShapeMessage(callingFn: string): string {
    callingFn + " may only be called on functions that return a BifrostSubscription or something with a similar shape"
  }

  /** `!!sub[name]`, for a value whose properties can be read. */
  predicate HasTruthy(sub: JsValue, name: string) {
    GetProp(sub, name).Normal? && Truthy(GetProp(sub, name).value)
  }

  predicate HasAllCapabilities(sub: JsValue) {
    HasTruthy(sub, "dispose") && HasTruthy(sub, "nextData") && HasTruthy(sub, "nextError")
    && HasTruthy(sub, "onData") && HasTruthy(sub, "onError")
  }

  /** `sub[name]` is a function, so `sub[name](...)` does not throw a
      TypeError. The checks above test truthiness only. */
  predicate HasFunction(sub: JsValue, name: string) {
    GetProp(sub, name).Normal? && GetProp(sub, name).value.Func?
  }

  /** `ensureNotPromise` then `ensureIsBifrostSubscription`. A thenable is
      refused first, with the promise message, whatever else it has; reading
      `then` off `undefined` or `null` throws a TypeError. */
  function Validate(callingFn: string, sub: JsValue): (c: Completion)
    ensures c.Normal? <==> !IsNullish(sub) && !HasTruthy(sub, "then") && HasAllCapabilities(sub)
    ensures IsNullish(sub) ==> c == Thrown(TypeErrorOnNullish)
    ensures HasTruthy(sub, "then") ==> c == Thrown(NewError(PromiseMessage(callingFn)))
    ensures !IsNullish(sub) && !HasTruthy(sub, "then") && !HasAllCapabilities(sub) ==>
      c == Thrown(NewError(ShapeMessage(callingFn)))
  {
    var t := GetProp(sub, "then");
    if t.Thrown? then t
    else if Truthy(t.value) then Thrown(NewError(PromiseMessage(callingFn)))
    else if HasAllCapabilities(sub) then Normal(Undefined)
    else Thrown(NewError(ShapeMessage(callingFn)))
  }

  /** An object carrying the five capabilities as methods and no `then`,
      as the library's channel does, passes the checks; the same object with
      a truthy `then` added is refused as a promise. */
  lemma ChannelShapeAccepted(callingFn: string, props: map<string, JsValue>)
    requires "dispose" in props && props["dispose"].Func? && "nextData" in props && props["nextData"].Func?
    requires "nextError" in props && props["nextError"].Func? && "onData" in props && props["onData"].Func?
    requires "onError" in props && props["onError"].Func?
    requires "then" !in props
    ensures Validate(callingFn, Instance("BifrostSubscription", false, props)).Normal?
    ensures Validate(callingFn, Instance("BifrostSubscription", false, props["then" := Bool(true)]))
         == Thrown(NewError(PromiseMessage(callingFn)))
  {
    var sub := Instance("BifrostSubscription", false, props);
    assert HasAllCapabilities(sub);
    assert !HasTruthy(sub, "then");
  }

  // ---------------------------------------------------------------------
  // useClientSubscription

  /** How far `setupSubscription` has got: not yet run; run and refused
      (the function threw, its result failed the checks, or its `onData` is
      not a function); run with the data listener attached but the disposer
      never kept, because `onError` is not a function (the channel then
      leaks); or run with both listeners attached. */
  datatype SetupState = NotSetUp | Refused | Leaked | Attached

  /** The hook state of one effect run of `useClientSubscription`: the cache
      key, `ref`, re-renders requested, the setup state, the `hasUnmounted`
      flag, whether `unsub` holds the disposer, and the number of `dispose`
      calls made on the channel. */
  datatype SubHook = SubHook(
    key: string,
    ref: CallState,
    renders: nat,
    setup: SetupState,
    hasUnmounted: bool,
    unsubStored: bool,
    disposeCalls: nat)

  /** Setup runs once per effect run and React calls the cleanup once, so a
      repeated `Setup` or `Teardown` changes nothing. `Data` and `Failure`
      come from the channel and reach the hook only while its listeners are
      attached and the channel has not been disposed. The two may come in
      either order: the model does not rely on setup finishing first. */
  datatype SubEvent =
    | Setup(arg: JsValue, returned: Completion, replay: Option<JsValue>)
    | Data(v: JsValue)
    | Failure(e: JsValue)
    | Teardown

  datatype SubStep = SubStep(next: SubHook, effects: seq<Effect>)

  function MountSub<F>(w: Wrapper<F>, argDigest: string, options: Option<Options>, store: Store): (h: SubHook)
    ensures h.key == CacheKey(UseClientSubscriptionMode, w.fnName, argDigest)
    ensures h.ref == InitialState(w.hasCache, options, store, h.key)
    ensures h.setup == NotSetUp && !h.hasUnmounted && !h.unsubStored && h.disposeCalls == 0
  {
    var key := CacheKey(UseClientSubscriptionMode, w.fnName, argDigest);
    SubHook(key, InitialState(w.hasCache, options, store, key), 0, NotSetUp, false, false, 0)
  }

  /** The data listener is attached and the channel not disposed. */
  predicate Listening(h: SubHook) {
    (h.setup == Attached && h.disposeCalls == 0) || h.setup == Leaked
  }

  /** The result passed `ensureNotPromise` and `ensureIsBifrostSubscription`. */
  predicate Accepted(returned: Completion) {
    returned.Normal? && Validate("useClientSubscription", returned.value).Normal?
  }

  /** Why `setupSubscription` gives up before attaching anything, if it
      does: the call threw, the checks refused its result, or the result's
      `onData` cannot be called. */
  function Refusal(returned: Completion): (r: Option<JsValue>)
    ensures r.None? <==> Accepted(returned) && HasFunction(returned.value, "onData")
    ensures returned.Thrown? ==> r == Some(returned.error)
    ensures returned.Normal? && Validate("useClientSubscription", returned.value).Thrown? ==>
      r == Some(Validate("useClientSubscription", returned.value).error)
    ensures Accepted(returned) && !HasFunction(returned.value, "onData") ==> r == Some(TypeErrorNotAFunction)
  {
    match returned
    case Thrown(e) => Some(e)
    case Normal(sub) =>
      match Validate("useClientSubscription", sub)
      case Thrown(e) => Some(e)
      case Normal(_) => if HasFunction(sub, "onData") then None else Some(TypeErrorNotAFunction)
  }

  /** `setupSubscription`: call the function, check what it returned, attach
      the data listener, then the error listener, then dispose at once if
      teardown came first, or keep the disposer for teardown. `replay` is
      what the channel hands the data listener synchronously as it is
      attached (a channel of src/Subscriptions.ts replays a truthy current
      value); it goes through the data listener before anything after it.
      Anything thrown on the way, including calling a capability that
      passed the truthiness check but is not a function, lands in `ref`
      without a re-render. */
  function SetupSub<F>(w: Wrapper<F>, h: SubHook, arg: JsValue, returned: Completion, replay: Option<JsValue>): (s: SubStep)
    ensures s.next.key == h.key && s.next.hasUnmounted == h.hasUnmounted
    ensures Invoked(arg) in s.effects
    ensures s.next.setup == Attached <==>
      Accepted(returned) && HasFunction(returned.value, "onData") && HasFunction(returned.value, "onError")
    ensures s.next.setup == Leaked <==>
      Accepted(returned) && HasFunction(returned.value, "onData") && !HasFunction(returned.value, "onError")
    ensures s.next.setup == Refused <==> !(Accepted(returned) && HasFunction(returned.value, "onData"))
    ensures s.next.setup == Refused ==>
      && s.next.ref == Failed(Refusal(returned).value)
      && s.next.renders == h.renders
      && s.next.disposeCalls == h.disposeCalls && s.next.unsubStored == h.unsubStored
      && ListenersAttached !in s.effects
    ensures s.next.setup != Refused ==>
      && ListenersAttached in s.effects
      && s.next.renders == h.renders + (if replay.Some? && !h.hasUnmounted then 1 else 0)
      && (replay.Some? && w.hasCache ==> CacheWrite(h.key, replay.value) in s.effects)
    ensures s.next.setup == Leaked ==>
      && s.next.ref == Failed(TypeErrorNotAFunction)
      && s.next.disposeCalls == h.disposeCalls && s.next.unsubStored == h.unsubStored && Disposed !in s.effects
    ensures s.next.setup == Attached ==> s.next.ref == (if replay.Some? then Succeeded(replay.value) else h.ref)
    ensures s.next.setup == Attached && h.hasUnmounted ==>
      s.next.disposeCalls == h.disposeCalls + 1 && s.next.unsubStored == h.unsubStored && Disposed in s.effects
    ensures s.next.setup == Attached && !h.hasUnmounted ==>
      s.next.disposeCalls == h.disposeCalls && s.next.unsubStored && Disposed !in s.effects
  {
    var logs := LogIf(w.hasLogger, "useClientSubscription-setup");
    var called := logs + [Invoked(arg)];
    assert called[|logs|] == Invoked(arg);
    match Refusal(returned)
    case Some(e) => SubStep(h.(setup := Refused, ref := Failed(e)), called)
    case None =>
      var a := AttachSub(w, h, returned.value, replay);
      assert (called + a.effects)[|called| + 0] == a.effects[0];
      SubStep(a.next, called + a.effects)
  }

  /** The part of `setupSubscription` after the checks, once `onData` is
      known to be a function: attach the data listener (taking the replay),
      then the error listener, then dispose or keep the disposer. */
  function AttachSub<F>(w: Wrapper<F>, h: SubHook, sub: JsValue, replay: Option<JsValue>): (s: SubStep)
    ensures s.next.key == h.key && s.next.hasUnmounted == h.hasUnmounted
    ensures s.effects != [] && s.effects[0] == ListenersAttached
    ensures s.next.setup == (if HasFunction(sub, "onError") then Attached else Leaked)
    ensures s.next.renders == h.renders + (if replay.Some? && !h.hasUnmounted then 1 else 0)
    ensures replay.Some? && w.hasCache ==> CacheWrite(h.key, replay.value) in s.effects
    ensures s.next.setup == Leaked ==>
      && s.next.ref == Failed(TypeErrorNotAFunction)
      && s.next.disposeCalls == h.disposeCalls && s.next.unsubStored == h.unsubStored && Disposed !in s.effects
    ensures s.next.setup == Attached ==> s.next.ref == (if replay.Some? then Succeeded(replay.value) else h.ref)
    ensures s.next.setup == Attached && h.hasUnmounted ==>
      s.next.disposeCalls == h.disposeCalls + 1 && s.next.unsubStored == h.unsubStored && Disposed in s.effects
    ensures s.next.setup == Attached && !h.hasUnmounted ==>
      s.next.disposeCalls == h.disposeCalls && s.next.unsubStored && Disposed !in s.effects
  {
    var replayed := ReplayThrough(w, h.(setup := Attached), replay);
    var soFar := [ListenersAttached] + replayed.effects;
    assert forall e | e in replayed.effects :: e in soFar;
    if !HasFunction(sub, "onError") then
      SubStep(replayed.next.(setup := Leaked, ref := Failed(TypeErrorNotAFunction)), soFar)
    else if h.hasUnmounted then
      SubStep(replayed.next.(disposeCalls := h.disposeCalls + 1), soFar + [Disposed])
    else
      SubStep(replayed.next.(unsubStored := true), soFar)
  }

  /** The channel's synchronous replay, if any, through the data listener. */
  function ReplayThrough<F>(w: Wrapper<F>, h: SubHook, replay: Option<JsValue>): (s: SubStep)
    ensures s.next == h.(ref := s.next.ref, renders := s.next.renders)
    ensures s.next.ref == (if replay.Some? then Succeeded(replay.value) else h.ref)
    ensures s.next.renders == h.renders + (if replay.Some? && !h.hasUnmounted then 1 else 0)
    ensures replay.Some? && w.hasCache ==> CacheWrite(h.key, replay.value) in s.effects
    ensures Disposed !in s.effects && ListenersAttached !in s.effects
  {
    match replay
    case Some(v) => OnSubData(w, h, v)
    case None => SubStep(h, [])
  }

  /** The data listener: write through to the cache (not gated by
      `disableCache`), log, store the value, and re-render unless torn down. */
  function OnSubData<F>(w: Wrapper<F>, h: SubHook, v: JsValue): (s: SubStep)
    ensures s.next.ref == Succeeded(v)
    ensures s.next.renders == h.renders + (if h.hasUnmounted then 0 else 1)
    ensures s.next.setup == h.setup && s.next.hasUnmounted == h.hasUnmounted
    ensures s.next.unsubStored == h.unsubStored && s.next.disposeCalls == h.disposeCalls
    ensures CacheWrite(h.key, v) in s.effects <==> w.hasCache
  {
    var writes := if w.hasCache then [CacheWrite(h.key, v)] else [];
    assert w.hasCache ==> writes[0] == CacheWrite(h.key, v);
    SubStep(h.(ref := Succeeded(v), renders := h.renders + (if h.hasUnmounted then 0 else 1)),
            writes + LogIf(w.hasLogger, "useClientSubscription-onData"))
  }

  function StepSub<F>(w: Wrapper<F>, h: SubHook, e: SubEvent): SubStep {
    match e
    case Setup(arg, returned, replay) =>
      if h.setup != NotSetUp then SubStep(h, []) else SetupSub(w, h, arg, returned, replay)
    case Data(v) => if Listening(h) then OnSubData(w, h, v) else SubStep(h, [])
    case Failure(_) =>
      SubStep(h, if h.setup == Attached && h.disposeCalls == 0 then LogIf(w.hasLogger, "useClientSubscription-error") else [])
    case Teardown =>
      if h.hasUnmounted then SubStep(h, [])
      else if h.unsubStored then SubStep(h.(hasUnmounted := true, disposeCalls := h.disposeCalls + 1), [Disposed])
      else SubStep(h.(hasUnmounted := true), [])
  }

  function RunSub<F>(w: Wrapper<F>, h: SubHook, events: seq<SubEvent>): SubHook
    decreases |events|
  {
    if events == [] then h else RunSub(w, StepSub(w, h, events[0]).next, events[1..])
  }

  /** The disposal bookkeeping every reachable state keeps: the disposer is
      held only once both listeners are attached, and always while such a
      run is live; the channel has been disposed once exactly when both
      listeners were attached and the run has been torn down, and never
      when setup stopped after the data listener. */
  ghost predicate SubInv(h: SubHook) {
    && (h.unsubStored ==> h.setup == Attached)
    && (h.setup == Leaked ==> h.disposeCalls == 0)
    && (h.setup == Attached && !h.hasUnmounted ==> h.unsubStored)
    && h.disposeCalls == (if h.setup == Attached && h.hasUnmounted then 1 else 0)
  }

  lemma SubStepKeepsInv<F>(w: Wrapper<F>, h: SubHook, e: SubEvent)
    requires SubInv(h)
    ensures SubInv(StepSub(w, h, e).next)
  {
    match e
    case Setup(arg, returned, replay) =>
      if h.setup == NotSetUp {
        var s := SetupSub(w, h, arg, returned, replay);
      }
    case Data(v) =>
      if Listening(h) {
        var s := OnSubData(w, h, v);
      }
    case Failure(_) =>
    case Teardown =>
  }

  lemma {:induction false} SubRunKeepsInv<F>(w: Wrapper<F>, h: SubHook, events: seq<SubEvent>)
    requires SubInv(h)
    ensures SubInv(RunSub(w, h, events))
    decreases |events|
  {
    if events != [] {
      SubStepKeepsInv(w, h, events[0]);
      SubRunKeepsInv(w, StepSub(w, h, events[0]).next, events[1..]);
    }
  }

  /** From mount, whatever the order of setup, teardown and channel events,
      the channel is disposed at most once; it is disposed exactly when
      setup attached the listeners and the run has been torn down (no
      dangling channel, no double disposal). */
  lemma SubRunDisposesOnce<F>(w: Wrapper<F>, argDigest: string, options: Option<Options>, store: Store,
                              events: seq<SubEvent>)
    ensures var h := RunSub(w, MountSub(w, argDigest, options, store), events);
      && h.disposeCalls <= 1
      && (h.disposeCalls == 1 <==> h.setup == Attached && h.hasUnmounted)
      && (h.setup == Leaked ==> h.disposeCalls == 0 && !h.unsubStored)
  {
    SubRunKeepsInv(w, MountSub(w, argDigest, options, store), events);
  }

  // ---------------------------------------------------------------------
  // getClientSubscription

  /** `{data: v, isFromCache: c}`. */
  function Wrapped(v: JsValue, fromCache: bool): JsValue {
    PlainObj(map["data" := v, "isFromCache" := Bool(fromCache)])
  }

  predicate IsWrapped(v: JsValue) {
    v.PlainObj? && "data" in v.props && "isFromCache" in v.props
  }

  /** What `subscribe(fn)` does before it returns: the values it hands to
      `fn`, in order, its other effects, and the exception it throws, if it
      throws one. */
  datatype Subscription = Subscription(handed: seq<JsValue>, effects: seq<Effect>, threw: Option<JsValue>)

  /** `getClientSubscription(p, options).subscribe(fn)`, with the handling of
      the stored entry left to `atStart`. The function is called and its
      result checked; the stored entry is handed over; the data listener is
      attached, and the channel may hand it its current value at once
      (`replay`), which reaches `fn` wrapped; then the error listener is
      attached. Calling a capability that is not a function throws out of
      `subscribe`, after whatever was handed over before it. */
  function Subscribe<F>(w: Wrapper<F>, arg: JsValue, argDigest: string, returned: Completion,
                        atStart: seq<JsValue>, replay: Option<JsValue>): Subscription
  {
    var key := CacheKey(GetClientSubscriptionMode, w.fnName, argDigest);
    match returned
    case Thrown(e) => Subscription([], [Invoked(arg)], Some(e))
    case Normal(sub) =>
      match Validate("getClientSubscription", sub)
      case Thrown(e) => Subscription([], [Invoked(arg)], Some(e))
      case Normal(_) =>
        if !HasFunction(sub, "onData") then Subscription(atStart, [Invoked(arg)], Some(TypeErrorNotAFunction))
        else
          var live := if replay.Some? then [SubscriberData(w, key, replay.value).0] else [];
          var liveEffects := if replay.Some? then SubscriberData(w, key, replay.value).1 else [];
          Subscription(atStart + live, [Invoked(arg), ListenersAttached] + liveEffects,
                       if HasFunction(sub, "onError") then None else Some(TypeErrorNotAFunction))
  }

  /** The subscriber's data listener: write through, log, and hand `fn` the
      value wrapped as `{data, isFromCache: false}`. */
  function SubscriberData<F>(w: Wrapper<F>, key: string, v: JsValue): (r: (JsValue, seq<Effect>))
    ensures IsWrapped(r.0) && r.0.props["data"] == v && r.0.props["isFromCache"] == Bool(false)
    ensures CacheWrite(key, v) in r.1 <==> w.hasCache
  {
    var writes := if w.hasCache then [CacheWrite(key, v)] else [];
    assert w.hasCache ==> writes[0] == CacheWrite(key, v);
    (Wrapped(v, false), writes + LogIf(w.hasLogger, "getClientSubscription-onData"))
  }

  /** `subscribe` as written: the stored entry is handed over bare. */
  function SubscribeAsWritten<F>(w: Wrapper<F>, arg: JsValue, argDigest: string, options: Option<Options>,
                                 store: Store, returned: Completion, replay: Option<JsValue>): (r: Subscription)
    ensures r.effects != [] && r.effects[0] == Invoked(arg)
    ensures r.threw.None? <==>
      returned.Normal? && Validate("getClientSubscription", returned.value).Normal? &&
      HasFunction(returned.value, "onData") && HasFunction(returned.value, "onError")
    ensures returned.Thrown? ==> r == Subscription([], [Invoked(arg)], Some(returned.error))
    ensures returned.Normal? && Validate("getClientSubscription", returned.value).Thrown? ==>
      r == Subscription([], [Invoked(arg)], Some(Validate("getClientSubscription", returned.value).error))
    ensures returned.Normal? && Validate("getClientSubscription", returned.value).Normal? ==>
      var key := CacheKey(GetClientSubscriptionMode, w.fnName, argDigest);
      var stored := if w.hasCache && CacheNotDisabled(options) && key in store then [store[key].value] else [];
      var attached := HasFunction(returned.value, "onData");
      && (!attached ==> r.threw == Some(TypeErrorNotAFunction) && r.handed == stored)
      && (attached ==> ListenersAttached in r.effects)
      && (attached && replay.Some? ==>
            r.handed == stored + [Wrapped(replay.value, false)] &&
            (CacheWrite(key, replay.value) in r.effects <==> w.hasCache))
      && (attached && replay.None? ==> r.handed == stored && !exists e | e in r.effects :: e.CacheWrite?)
  {
    var key := CacheKey(GetClientSubscriptionMode, w.fnName, argDigest);
    var stored := if w.hasCache && CacheNotDisabled(options) && key in store then [store[key].value] else [];
    var r := Subscribe(w, arg, argDigest, returned, stored, replay);
    r
  }

  /** As written, `fn` sees two shapes: a stored number comes out bare from
      the replay, while live data always comes wrapped. */
  lemma ReplayShapeDiffersFromLiveData<F>(w: Wrapper<F>, arg: JsValue, argDigest: string, sub: JsValue, n: real)
    requires w.hasCache
    requires Validate("getClientSubscription", sub).Normal?
    ensures var key := CacheKey(GetClientSubscriptionMode, w.fnName, argDigest);
      var r := SubscribeAsWritten(w, arg, argDigest, None, map[key := Entry(Num(Finite(n)), 0)], Normal(sub), None);
      r.handed == [Num(Finite(n))] && !IsWrapped(r.handed[0]) &&
      IsWrapped(SubscriberData(w, key, Num(Finite(n))).0)
  {
  }

  /** The intended `subscribe`: the stored entry is handed over wrapped as
      `{data, isFromCache: true}`, so everything `fn` receives, from the
      cache or from the channel, has the `{data, isFromCache}` shape. It
      otherwise behaves as written: same exceptions, same effects, and the
      same values handed over, each wrapped or already wrapped. */
  function SubscribeWrapped<F>(w: Wrapper<F>, arg: JsValue, argDigest: string, options: Option<Options>,
                               store: Store, returned: Completion, replay: Option<JsValue>): (r: Subscription)
    ensures var asWritten := SubscribeAsWritten(w, arg, argDigest, options, store, returned, replay);
      && r.threw == asWritten.threw && r.effects == asWritten.effects
      && |r.handed| == |asWritten.handed|
      && forall i | 0 <= i < |r.handed| ::
           IsWrapped(r.handed[i]) && (r.handed[i] == asWritten.handed[i] || r.handed[i] == Wrapped(asWritten.handed[i], true))
    ensures forall v :: IsWrapped(SubscriberData(w, CacheKey(GetClientSubscriptionMode, w.fnName, argDigest), v).0)
  {
    var key := CacheKey(GetClientSubscriptionMode, w.fnName, argDigest);
    var bare := if w.hasCache && CacheNotDisabled(options) && key in store then [store[key].value] else [];
    var stored := if w.hasCache && CacheNotDisabled(options) && key in store then [Wrapped(store[key].value, true)] else [];
    WrappingKeepsTheRest(w, arg, argDigest, returned, bare, stored, replay);
    Subscribe(w, arg, argDigest, returned, stored, replay)
  }

  /** Handing over a wrapped stored entry instead of the bare one changes
      nothing but that first value. */
  lemma WrappingKeepsTheRest<F>(w: Wrapper<F>, arg: JsValue, argDigest: string, returned: Completion,
                                bare: seq<JsValue>, stored: seq<JsValue>, replay: Option<JsValue>)
    requires |bare| == |stored| && forall i | 0 <= i < |stored| :: stored[i] == Wrapped(bare[i], true)
    ensures var r := Subscribe(w, arg, argDigest, returned, stored, replay);
      var asWritten := Subscribe(w, arg, argDigest, returned, bare, replay);
      && r.threw == asWritten.threw && r.effects == asWritten.effects
      && |r.handed| == |asWritten.handed|
      && forall i | 0 <= i < |r.handed| ::
           IsWrapped(r.handed[i]) && (r.handed[i] == asWritten.handed[i] || r.handed[i] == Wrapped(asWritten.handed[i], true))
  {
    SubscribeHands(w, arg, argDigest, returned, bare, replay);
    SubscribeHands(w, arg, argDigest, returned, stored, replay);
  }

  /** What the channel's replay hands `fn` once `onData` is attached. */
  function LiveReplay<F>(w: Wrapper<F>, argDigest: string, replay: Option<JsValue>): seq<JsValue> {
    if replay.Some? then [SubscriberData(w, CacheKey(GetClientSubscriptionMode, w.fnName, argDigest), replay.value).0] else []
  }

  /** The stored entry only decides what `fn` is handed first: once the
      result passes the checks, `fn` gets it and then the live replay, if
      `onData` can be called; the exception and the other effects do not
      depend on it. */
  lemma SubscribeHands<F>(w: Wrapper<F>, arg: JsValue, argDigest: string, returned: Completion,
                          atStart: seq<JsValue>, replay: Option<JsValue>)
    ensures var r := Subscribe(w, arg, argDigest, returned, atStart, replay);
      var r0 := Subscribe(w, arg, argDigest, returned, [], replay);
      && r.threw == r0.threw && r.effects == r0.effects
      && r.handed == (if returned.Normal? && Validate("getClientSubscription", returned.value).Normal? then
                        atStart + (if HasFunction(returned.value, "onData") then LiveReplay(w, argDigest, replay) else [])
                      else [])
  {
  }
}
