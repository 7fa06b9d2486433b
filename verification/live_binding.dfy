/** The live bindings `useClient` and `useServer` of src/bifrost.ts, with
    React's hook machinery replaced by explicit events on one hook instance:
    `Start` is an effect run (React first runs the previous run's cleanup),
    `Resolve` is the settling of a run's pending call, and `Unmount` is the
    final cleanup. The hook keeps one `ref` across runs, as `useRef` does. */
module LiveBinding {
  import opened JsValues
  import opened CachePolicy
  import opened Fetch

  datatype Target = Client | Server

  function ModeOf(t: Target): Mode {
    if t == Client then UseClientMode else UseServerMode
  }

  /** Where one effect run stands. `Aborted` is `useServer` throwing for a
      missing transport processor (an unhandled rejection), `Skipped` is the
      early return on a fresh cache entry. */
  datatype Phase = Awaiting | Skipped | Settled | Aborted

  /** One effect run: its cache key and its `hasUnmounted` flag. */
  datatype Cycle = Cycle(key: string, hasUnmounted: bool, phase: Phase)

  /** The hook instance: the `ref` the component reads, the number of
      re-renders requested, the effect runs so far, and which run's result
      `ref` holds (`None` while it holds the initial value). */
  datatype Hook = Hook(ref: CallState, renders: nat, cycles: seq<Cycle>, writer: Option<nat>)

  datatype Event =
    | Start(arg: JsValue, argDigest: string, options: Option<Options>, store: Store, now: int)
    | Resolve(cycle: nat, outcome: Completion)
    | Unmount

  datatype Step = Step(next: Hook, effects: seq<Effect>)

  /** The first render: `ref` starts from `getInitialRefValForUse`. Later
      renders do not reset it (`useRef` ignores its argument after the first
      render). */
  function Mount<F>(w: Wrapper<F>, target: Target, argDigest: string, options: Option<Options>, store: Store): (h: Hook)
    ensures h.ref == InitialState(w.hasCache, options, store, CacheKey(ModeOf(target), w.fnName, argDigest))
    ensures h.renders == 0 && h.cycles == [] && h.writer.None?
  {
    Hook(InitialState(w.hasCache, options, store, CacheKey(ModeOf(target), w.fnName, argDigest)), 0, [], None)
  }

  /** React's cleanup of the latest run: `hasUnmounted = true`. */
  function TeardownLast(cycles: seq<Cycle>): (r: seq<Cycle>)
    ensures |r| == |cycles|
    ensures cycles != [] ==> r[|r| - 1] == cycles[|cycles| - 1].(hasUnmounted := true)
    ensures forall i | 0 <= i < |cycles| - 1 :: r[i] == cycles[i]
  {
    if cycles == [] then [] else cycles[|cycles| - 1 := cycles[|cycles| - 1].(hasUnmounted := true)]
  }

  function CallOf<F>(w: Wrapper<F>, target: Target, arg: JsValue): Effect {
    if target == Client then Invoked(arg) else Sent(w.fnName, arg)
  }

  /** An effect run (`setResult` / `fetchAndSetData`): log, then return early
      on a fresh entry, else make the call. Nothing here touches `ref`. */
  function StartCycle<F>(w: Wrapper<F>, target: Target, h: Hook, arg: JsValue, argDigest: string,
                         options: Option<Options>, store: Store, now: int): (s: Step)
    ensures s.next.ref == h.ref && s.next.renders == h.renders && s.next.writer == h.writer
    ensures |s.next.cycles| == |h.cycles| + 1
    ensures s.next.cycles[..|h.cycles|] == TeardownLast(h.cycles)
    ensures var c := s.next.cycles[|h.cycles|];
      && c.key == CacheKey(ModeOf(target), w.fnName, argDigest) && !c.hasUnmounted
      && (c.phase == Aborted <==> target == Server && !w.hasHttpProcessor)
      && (c.phase == Aborted ==> s.effects == [])
      && (c.phase == Skipped <==>
            (target == Client || w.hasHttpProcessor) && w.hasCache && CacheNotDisabled(options) && c.key in store &&
            CacheDataValid(options, store[c.key].cachedDateMS, now))
      && (c.phase == Awaiting <==> c.phase != Aborted && c.phase != Skipped)
      && (c.phase == Awaiting ==> CallOf(w, target, arg) in s.effects)
      && (c.phase != Awaiting ==> !MakesCall(s.effects))
  {
    var cycles := TeardownLast(h.cycles);
    var key := CacheKey(ModeOf(target), w.fnName, argDigest);
    if target == Server && !w.hasHttpProcessor then
      Step(h.(cycles := cycles + [Cycle(key, false, Aborted)]), [])
    else
      var logs := LogIf(w.hasLogger, if target == Client then "useClient" else "useServer");
      if w.hasCache && CacheNotDisabled(options) && key in store && CacheDataValid(options, store[key].cachedDateMS, now) then
        Step(h.(cycles := cycles + [Cycle(key, false, Skipped)]), logs)
      else
        var call := CallOf(w, target, arg);
        assert (logs + [call])[|logs|] == call;
        Step(h.(cycles := cycles + [Cycle(key, false, Awaiting)]), logs + [call])
  }

  predicate Pending(h: Hook, i: nat) {
    i < |h.cycles| && h.cycles[i].phase == Awaiting
  }

  function Outcome(outcome: Completion): CallState {
    match outcome
    case Normal(r) => Succeeded(r)
    case Thrown(e) => Failed(e)
  }

  function WritesFor<F>(w: Wrapper<F>, key: string, outcome: Completion): seq<Effect> {
    if outcome.Normal? && w.hasCache then [CacheWrite(key, outcome.value)] else []
  }

  /** The settling of run `i`'s call, as written: the result goes into the
      cache (whatever `disableCache` says) and into `ref` even when the run
      has been torn down; only the re-render is suppressed then. */
  function ResolveAsWritten<F>(w: Wrapper<F>, h: Hook, i: nat, outcome: Completion): (s: Step)
    ensures !Pending(h, i) ==> s == Step(h, [])
    ensures Pending(h, i) ==>
      && s.next.ref == (if outcome.Normal? then CallState(outcome.value, false, Null, false)
                        else CallState(Undefined, false, outcome.error, false))
      && s.next.writer == Some(i)
      && s.next.renders == h.renders + (if h.cycles[i].hasUnmounted then 0 else 1)
      && (s.effects != [] <==> outcome.Normal? && w.hasCache)
      && (s.effects != [] ==> s.effects == [CacheWrite(h.cycles[i].key, outcome.value)])
  {
    if Pending(h, i) then
      var c := h.cycles[i];
      Step(Hook(Outcome(outcome), h.renders + (if c.hasUnmounted then 0 else 1),
                h.cycles[i := c.(phase := Settled)], Some(i)),
           WritesFor(w, c.key, outcome))
    else
      Step(h, [])
  }

  function StepAsWritten<F>(w: Wrapper<F>, target: Target, h: Hook, e: Event): Step {
    match e
    case Start(arg, argDigest, options, store, now) => StartCycle(w, target, h, arg, argDigest, options, store, now)
    case Resolve(i, outcome) => ResolveAsWritten(w, h, i, outcome)
    case Unmount => Step(h.(cycles := TeardownLast(h.cycles)), [])
  }

  function RunAsWritten<F>(w: Wrapper<F>, target: Target, h: Hook, events: seq<Event>): Hook
    decreases |events|
  {
    if events == [] then h else RunAsWritten(w, target, StepAsWritten(w, target, h, events[0]).next, events[1..])
  }

  /** As written, a slow run whose arguments have since changed overwrites
      the newer run's result: run 0 starts, the dependencies change (run 1
      starts), run 1 settles with `b`, then run 0 settles with `a`, and `ref`
      ends up holding `a`. */
  lemma StaleRunOverwritesNewer<F>(w: Wrapper<F>, arg0: JsValue, arg1: JsValue, a: JsValue, b: JsValue)
    ensures var h0 := Mount(w, Client, "d0", None, map[]);
      var h := RunAsWritten(w, Client, h0,
        [Start(arg0, "d0", None, map[], 0), Start(arg1, "d1", None, map[], 0),
         Resolve(1, Normal(b)), Resolve(0, Normal(a))]);
      h.ref.data == a && h.writer == Some(0)
  {
    var h0 := Mount(w, Client, "d0", None, map[]);
    var h1 := StartCycle(w, Client, h0, arg0, "d0", None, map[], 0).next;
    var h2 := StartCycle(w, Client, h1, arg1, "d1", None, map[], 0).next;
    assert Pending(h2, 0) && Pending(h2, 1);
    var h3 := ResolveAsWritten(w, h2, 1, Normal(b)).next;
    assert h3.ref.data == b && Pending(h3, 0);
    var h4 := ResolveAsWritten(w, h3, 0, Normal(a)).next;
    var events := [Start(arg0, "d0", None, map[], 0), Start(arg1, "d1", None, map[], 0),
                   Resolve(1, Normal(b)), Resolve(0, Normal(a))];
    calc {
      RunAsWritten(w, Client, h0, events);
      RunAsWritten(w, Client, h1, events[1..]);
      RunAsWritten(w, Client, h2, events[2..]);
      RunAsWritten(w, Client, h3, events[3..]);
      RunAsWritten(w, Client, h4, events[4..]);
      h4;
    }
  }

  // ---------------------------------------------------------------------
  // The intended behaviour: a torn-down run's result is not shown

  /** The corrected settling: the `hasUnmounted` check guards the write to
      `ref` as well as the re-render. The cache write stays, since the result
      is still valid for its own key. */
  function ResolveGuarded<F>(w: Wrapper<F>, h: Hook, i: nat, outcome: Completion): (s: Step)
    ensures !Pending(h, i) ==> s == Step(h, [])
    ensures Pending(h, i) && h.cycles[i].hasUnmounted ==>
      s.next.ref == h.ref && s.next.writer == h.writer && s.next.renders == h.renders
    ensures Pending(h, i) && !h.cycles[i].hasUnmounted ==>
      s.next.ref == Outcome(outcome) && s.next.writer == Some(i) && s.next.renders == h.renders + 1
    ensures Pending(h, i) ==> s.effects == WritesFor(w, h.cycles[i].key, outcome)
  {
    if Pending(h, i) then
      var c := h.cycles[i];
      var cycles := h.cycles[i := c.(phase := Settled)];
      if c.hasUnmounted then Step(h.(cycles := cycles), WritesFor(w, c.key, outcome))
      else Step(Hook(Outcome(outcome), h.renders + 1, cycles, Some(i)), WritesFor(w, c.key, outcome))
    else
      Step(h, [])
  }

  function StepGuarded<F>(w: Wrapper<F>, target: Target, h: Hook, e: Event): Step {
    match e
    case Start(arg, argDigest, options, store, now) => StartCycle(w, target, h, arg, argDigest, options, store, now)
    case Resolve(i, outcome) => ResolveGuarded(w, h, i, outcome)
    case Unmount => Step(h.(cycles := TeardownLast(h.cycles)), [])
  }

  function RunGuarded<F>(w: Wrapper<F>, target: Target, h: Hook, events: seq<Event>): Hook
    decreases |events|
  {
    if events == [] then h else RunGuarded(w, target, StepGuarded(w, target, h, events[0]).next, events[1..])
  }

  /** What every reachable hook satisfies: only the latest run may still be
      live, and `ref` holds the result of a run that exists. */
  ghost predicate Inv(h: Hook) {
    && (forall i | 0 <= i < |h.cycles| - 1 :: h.cycles[i].hasUnmounted)
    && (h.writer.Some? ==> h.writer.value < |h.cycles|)
  }

  predicate WriterAtLeast(later: Option<nat>, earlier: Option<nat>) {
    earlier.Some? ==> later.Some? && later.value >= earlier.value
  }

  lemma GuardedStepKeepsNewest<F>(w: Wrapper<F>, target: Target, h: Hook, e: Event)
    requires Inv(h)
    ensures Inv(StepGuarded(w, target, h, e).next)
    ensures WriterAtLeast(StepGuarded(w, target, h, e).next.writer, h.writer)
  {
  }

  /** The stale-run guard: along any sequence of events from a mounted hook,
      the run whose result `ref` shows never goes back to an older one, so a
      late result from a superseded run cannot replace a newer run's. */
  lemma {:induction false} GuardedRunKeepsNewest<F>(w: Wrapper<F>, target: Target, h: Hook, events: seq<Event>)
    requires Inv(h)
    ensures Inv(RunGuarded(w, target, h, events))
    ensures WriterAtLeast(RunGuarded(w, target, h, events).writer, h.writer)
    decreases |events|
  {
    if events != [] {
      var h1 := StepGuarded(w, target, h, events[0]).next;
      GuardedStepKeepsNewest(w, target, h, events[0]);
      GuardedRunKeepsNewest(w, target, h1, events[1..]);
    }
  }

  /** With the guard, the scenario above ends with the newer run's result. */
  lemma GuardedScenarioShowsNewer<F>(w: Wrapper<F>, arg0: JsValue, arg1: JsValue, a: JsValue, b: JsValue)
    ensures var h0 := Mount(w, Client, "d0", None, map[]);
      var h := RunGuarded(w, Client, h0,
        [Start(arg0, "d0", None, map[], 0), Start(arg1, "d1", None, map[], 0),
         Resolve(1, Normal(b)), Resolve(0, Normal(a))]);
      h.ref.data == b && h.writer == Some(1)
  {
    var h0 := Mount(w, Client, "d0", None, map[]);
    var h1 := StartCycle(w, Client, h0, arg0, "d0", None, map[], 0).next;
    var h2 := StartCycle(w, Client, h1, arg1, "d1", None, map[], 0).next;
    assert Pending(h2, 0) && Pending(h2, 1) && h2.cycles[0].hasUnmounted && !h2.cycles[1].hasUnmounted;
    var h3 := ResolveGuarded(w, h2, 1, Normal(b)).next;
    assert h3.ref.data == b && Pending(h3, 0) && h3.cycles[0].hasUnmounted;
    var h4 := ResolveGuarded(w, h3, 0, Normal(a)).next;
    var events := [Start(arg0, "d0", None, map[], 0), Start(arg1, "d1", None, map[], 0),
                   Resolve(1, Normal(b)), Resolve(0, Normal(a))];
    calc {
      RunGuarded(w, Client, h0, events);
      RunGuarded(w, Client, h1, events[1..]);
      RunGuarded(w, Client, h2, events[2..]);
      RunGuarded(w, Client, h3, events[3..]);
      RunGuarded(w, Client, h4, events[4..]);
      h4;
    }
  }
}
