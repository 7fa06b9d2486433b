/** The older call surfaces: `fetchLocal` and `fetchRemote` of the wrapper
    in module/src/index.ts, and the `useLocal` and `useRemote` hooks of
    src/index.ts. None of them touches a cache. */
module LegacyFlows {
  import opened JsValues
  import opened Fetch

  const RemoteProcessorMissing: string := "HttpProcessor not defined. Cannot run useRemote. "

  /** How a one-shot call settles, and the calls it made on the way. */
  datatype CallRun = CallRun(result: Completion, effects: seq<Effect>)

  /** `fetchLocal(p)`: log, call the function, hand back its result or its
      exception unchanged. */
  function FetchLocal<F>(w: Wrapper<F>, arg: JsValue, settle: Completion): (run: CallRun)
    ensures run.result == settle
    ensures Invoked(arg) in run.effects && !exists e | e in run.effects :: e.CacheWrite?
    ensures Logged("fetchLocal") in run.effects <==> w.hasLogger
  {
    var effects := LogIf(w.hasLogger, "fetchLocal") + [Invoked(arg)];
    assert effects[|effects| - 1] == Invoked(arg);
    assert w.hasLogger ==> effects[0] == Logged("fetchLocal");
    CallRun(settle, effects)
  }

  /** `fetchRemote(p)`: without a transport processor it rejects before
      logging or sending anything. */
  function FetchRemote<F>(w: Wrapper<F>, arg: JsValue, settle: Completion): (run: CallRun)
    ensures !w.hasHttpProcessor ==> run == CallRun(Thrown(NewError(RemoteProcessorMissing)), [])
    ensures w.hasHttpProcessor ==>
      run.result == settle && Sent(w.fnName, arg) in run.effects &&
      (Logged("fetchRemote") in run.effects <==> w.hasLogger) &&
      !exists e | e in run.effects :: e.CacheWrite? || e.Invoked?
  {
    if !w.hasHttpProcessor then CallRun(Thrown(NewError(RemoteProcessorMissing)), [])
    else
      var effects := LogIf(w.hasLogger, "fetchRemote") + [Sent(w.fnName, arg)];
      assert effects[|effects| - 1] == Sent(w.fnName, arg);
      assert w.hasLogger ==> effects[0] == Logged("fetchRemote");
      CallRun(settle, effects)
  }

  /** The three-field state of the src/index.ts hooks. */
  datatype HookState = HookState(data: JsValue, isLoading: bool, error: JsValue)

  const Initial: HookState := HookState(Null, true, Null)

  /** The state a settled call leaves, which is how the hooks report it. */
  function Reported(c: Completion): (st: HookState)
    ensures !st.isLoading
    ensures c.Normal? ==> st.data == c.value
    ensures c.Thrown? ==> st.data == Undefined && st.error == c.error
  {
    match c
    case Normal(r) => HookState(r, false, Null)
    case Thrown(e) => HookState(Undefined, false, e)
  }

  /** One effect run of a hook: the state it leaves, whether it asked for a
      re-render, and its calls. */
  datatype HookRun = HookRun(state: HookState, rerendered: bool, effects: seq<Effect>)

  /** `useLocal(p)`: log, call the function, report how it settled, and
      re-render in every case (the `finally` block). */
  function UseLocal<F>(w: Wrapper<F>, arg: JsValue, settle: Completion): (run: HookRun)
    ensures run.rerendered && !run.state.isLoading
    ensures settle.Normal? ==> run.state == HookState(settle.value, false, Null)
    ensures settle.Thrown? ==> run.state == HookState(Undefined, false, settle.error)
    ensures Invoked(arg) in run.effects
  {
    var effects := LogIf(w.hasLogger, "useLocal") + [Invoked(arg)];
    assert effects[|effects| - 1] == Invoked(arg);
    HookRun(Reported(settle), true, effects)
  }

  /** `useRemote(p)`: without a transport processor the effect's async body
      throws before the logger or the processor is called, so the state
      stays loading and no re-render is asked for. */
  function UseRemote<F>(w: Wrapper<F>, arg: JsValue, settle: Completion): (run: HookRun)
    ensures !w.hasHttpProcessor ==> run == HookRun(Initial, false, [])
    ensures w.hasHttpProcessor ==>
      run.rerendered && Sent(w.fnName, arg) in run.effects &&
      (settle.Normal? ==> run.state == HookState(settle.value, false, Null)) &&
      (settle.Thrown? ==> run.state == HookState(Undefined, false, settle.error))
  {
    if !w.hasHttpProcessor then HookRun(Initial, false, [])
    else
      var effects := LogIf(w.hasLogger, "useRemote") + [Sent(w.fnName, arg)];
      assert effects[|effects| - 1] == Sent(w.fnName, arg);
      HookRun(Reported(settle), true, effects)
  }

  /** Each hook reports exactly how its call settled, and asks for a
      re-render exactly when it made a call: `useLocal` always does, and
      `useRemote` does iff a processor is present. */
  lemma HooksRenderIffCalled<F>(w: Wrapper<F>, arg: JsValue, settle: Completion)
    ensures UseLocal(w, arg, settle).state == Reported(settle)
    ensures UseLocal(w, arg, settle).rerendered <==> MakesCall(UseLocal(w, arg, settle).effects)
    ensures w.hasHttpProcessor ==> UseRemote(w, arg, settle).state == Reported(settle)
    ensures !w.hasHttpProcessor ==> UseRemote(w, arg, settle).state == Initial
    ensures UseRemote(w, arg, settle).rerendered <==> MakesCall(UseRemote(w, arg, settle).effects)
  {
    var local := UseLocal(w, arg, settle).effects;
    var i :| 0 <= i < |local| && local[i] == Invoked(arg);
    assert local[i].Invoked?;
    if w.hasHttpProcessor {
      var remote := UseRemote(w, arg, settle).effects;
      var j :| 0 <= j < |remote| && remote[j] == Sent(w.fnName, arg);
      assert remote[j].Sent?;
    }
  }
}
