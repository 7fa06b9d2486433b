/** The older channel of module/src/index.ts (`createBifrostSub`): a bare
    emitter with no deduplication, no sequencing and no replay, whose
    disposal lets an exception from the release callback escape. */
module SimpleChannel {
  import opened JsValues
  import opened Emitter

  datatype SimpleChannel = SimpleChannel(
    dataListeners: seq<ListenerId>,
    errorListeners: seq<ListenerId>,
    releaseCalls: nat)

  datatype Step = Step(next: SimpleChannel, delivered: seq<Delivery>)

  function Create(): SimpleChannel {
    SimpleChannel([], [], 0)
  }

  /** `nextData(a)`: every data listener gets `a`, whatever came before. */
  function NextData(ch: SimpleChannel, a: JsValue): (s: Step)
    ensures s.next == ch
    ensures |s.delivered| == |ch.dataListeners|
    ensures forall i | 0 <= i < |s.delivered| :: s.delivered[i] == Delivery(ch.dataListeners[i], a)
  {
    Step(ch, Broadcast(ch.dataListeners, a))
  }

  /** `nextError(e)`: error listeners only. */
  function NextError(ch: SimpleChannel, e: JsValue): (s: Step)
    ensures s.next == ch
    ensures |s.delivered| == |ch.errorListeners|
    ensures forall i | 0 <= i < |s.delivered| :: s.delivered[i] == Delivery(ch.errorListeners[i], e)
  {
    Step(ch, Broadcast(ch.errorListeners, e))
  }

  /** `onData(fn)`: registers without replay. */
  function OnData(ch: SimpleChannel, fn: ListenerId): (s: Step)
    ensures s.delivered == []
    ensures s.next.dataListeners == Register(ch.dataListeners, fn)
    ensures s.next.errorListeners == ch.errorListeners && s.next.releaseCalls == ch.releaseCalls
  {
    Step(ch.(dataListeners := Register(ch.dataListeners, fn)), [])
  }

  /** `onError(fn)`: registers without replay. */
  function OnError(ch: SimpleChannel, fn: ListenerId): (s: Step)
    ensures s.delivered == []
    ensures s.next.errorListeners == Register(ch.errorListeners, fn)
    ensures s.next.dataListeners == ch.dataListeners && s.next.releaseCalls == ch.releaseCalls
  {
    Step(ch.(errorListeners := Register(ch.errorListeners, fn)), [])
  }

  /** The result of `dispose()`: the channel after it, and the exception it
      lets escape, if the release callback threw one. */
  datatype Disposal = Disposal(next: SimpleChannel, escaped: Option<JsValue>)

  /** `dispose()`: listeners are cleared first, then the release callback
      runs; `release` is how that call ends. Nothing catches its exception,
      but the listeners are gone either way. */
  function Dispose(ch: SimpleChannel, release: Completion): (d: Disposal)
    ensures d.next.dataListeners == [] && d.next.errorListeners == []
    ensures d.next.releaseCalls == ch.releaseCalls + 1
    ensures d.escaped.Some? <==> release.Thrown?
    ensures release.Thrown? ==> d.escaped.value == release.error
  {
    var cleared := SimpleChannel([], [], ch.releaseCalls + 1);
    match release
    case Normal(_) => Disposal(cleared, None)
    case Thrown(e) => Disposal(cleared, Some(e))
  }

  // ---------------------------------------------------------------------
  // Runs of operations

  datatype Op =
    | NextDataOp(a: JsValue)
    | NextErrorOp(e: JsValue)
    | OnDataOp(fn: ListenerId)
    | OnErrorOp(fn: ListenerId)
    | DisposeOp(release: Completion)

  function Apply(ch: SimpleChannel, op: Op): Step {
    match op
    case NextDataOp(a) => NextData(ch, a)
    case NextErrorOp(e) => NextError(ch, e)
    case OnDataOp(fn) => OnData(ch, fn)
    case OnErrorOp(fn) => OnError(ch, fn)
    case DisposeOp(release) => Step(Dispose(ch, release).next, [])
  }

  /** The state after a sequence of operations, and every listener call
      they make, in order. */
  function After(ch: SimpleChannel, ops: seq<Op>): SimpleChannel
    decreases |ops|
  {
    if ops == [] then ch else After(Apply(ch, ops[0]).next, ops[1..])
  }

  function Delivered(ch: SimpleChannel, ops: seq<Op>): seq<Delivery>
    decreases |ops|
  {
    if ops == [] then [] else Apply(ch, ops[0]).delivered + Delivered(Apply(ch, ops[0]).next, ops[1..])
  }

  predicate NoDispose(ops: seq<Op>) {
    forall i | 0 <= i < |ops| :: !ops[i].DisposeOp?
  }

  /** `ops[j]` registers `x` as a data listener and no dispose follows it. */
  predicate RegisteredAt(ops: seq<Op>, x: ListenerId, j: int) {
    0 <= j < |ops| && ops[j] == OnDataOp(x) && NoDispose(ops[j + 1..])
  }

  lemma RunSplits(ch: SimpleChannel, p: seq<Op>, q: seq<Op>)
    ensures After(ch, p + q) == After(After(ch, p), q)
    ensures Delivered(ch, p + q) == Delivered(ch, p) + Delivered(After(ch, p), q)
  {
    AfterSplits(ch, p, q);
    DeliveredSplits(ch, p, q);
  }

  lemma {:induction false} AfterSplits(ch: SimpleChannel, p: seq<Op>, q: seq<Op>)
    ensures After(ch, p + q) == After(After(ch, p), q)
    decreases |p|
  {
    if p != [] {
      assert (p + q)[0] == p[0] && (p + q)[1..] == p[1..] + q;
      AfterSplits(Apply(ch, p[0]).next, p[1..], q);
    } else {
      assert p + q == q;
    }
  }

  lemma {:induction false} DeliveredSplits(ch: SimpleChannel, p: seq<Op>, q: seq<Op>)
    ensures Delivered(ch, p + q) == Delivered(ch, p) + Delivered(After(ch, p), q)
    decreases |p|
  {
    if p != [] {
      var next := Apply(ch, p[0]).next;
      assert (p + q)[0] == p[0] && (p + q)[1..] == p[1..] + q;
      DeliveredSplits(next, p[1..], q);
      assert After(ch, p) == After(next, p[1..]);
      assert Delivered(ch, p) == Apply(ch, p[0]).delivered + Delivered(next, p[1..]);
    } else {
      assert p + q == q;
    }
  }

  /** After any run, the data listeners are exactly those registered since
      the last dispose, together with the starting ones if nothing was
      disposed. */
  lemma {:induction false} ListenersAfterRun(ch: SimpleChannel, ops: seq<Op>, x: ListenerId)
    ensures x in After(ch, ops).dataListeners <==>
      (NoDispose(ops) && x in ch.dataListeners) || exists j :: RegisteredAt(ops, x, j)
    decreases |ops|
  {
    if ops != [] {
      ListenersAfterRun(Apply(ch, ops[0]).next, ops[1..], x);
      NoDisposeCons(ops);
      RegisteredSomewhereCons(ops, x);
      ApplyListeners(ch, ops[0], x);
    }
  }

  lemma NoDisposeCons(ops: seq<Op>)
    requires ops != []
    ensures NoDispose(ops) <==> !ops[0].DisposeOp? && NoDispose(ops[1..])
  {
    if !ops[0].DisposeOp? && NoDispose(ops[1..]) {
      forall i | 0 <= i < |ops| ensures !ops[i].DisposeOp? {
        if i > 0 { assert ops[i] == ops[1..][i - 1]; }
      }
    }
  }

  /** A registration that survives to the end is either the first
      operation, with no dispose after it, or one in the rest of the run. */
  lemma RegisteredSomewhereCons(ops: seq<Op>, x: ListenerId)
    requires ops != []
    ensures (exists j :: RegisteredAt(ops, x, j)) <==>
      (ops[0] == OnDataOp(x) && NoDispose(ops[1..])) || exists j :: RegisteredAt(ops[1..], x, j)
  {
    var rest := ops[1..];
    forall j | 1 <= j < |ops| ensures RegisteredAt(ops, x, j) <==> RegisteredAt(rest, x, j - 1) {
      assert ops[j + 1..] == rest[j..];
    }
    if exists j :: RegisteredAt(rest, x, j) {
      var j :| RegisteredAt(rest, x, j);
      assert RegisteredAt(ops, x, j + 1);
    }
    if exists j :: RegisteredAt(ops, x, j) && j >= 1 {
      var j :| RegisteredAt(ops, x, j) && j >= 1;
      assert RegisteredAt(rest, x, j - 1);
    }
    if ops[0] == OnDataOp(x) && NoDispose(rest) {
      assert RegisteredAt(ops, x, 0);
    }
  }

  /** One operation keeps the data listeners unless it is a dispose, and
      an `onData` adds its own. */
  lemma ApplyListeners(ch: SimpleChannel, op: Op, x: ListenerId)
    ensures x in Apply(ch, op).next.dataListeners <==>
      (!op.DisposeOp? && x in ch.dataListeners) || op == OnDataOp(x)
  {
  }

  /** No deduplication and no sequencing: every value sent in any run
      reaches every listener registered before it and not disposed of in
      between, however often the same value was sent before. */
  lemma EveryListenerHearsLaterData(ch: SimpleChannel, ops: seq<Op>, j: nat, i: nat, x: ListenerId)
    requires j < i < |ops| && ops[j] == OnDataOp(x) && ops[i].NextDataOp?
    requires NoDispose(ops[j + 1..i])
    ensures Delivery(x, ops[i].a) in Delivered(ch, ops)
  {
    var p := ops[..i];
    assert ops == p + ops[i..];
    RunSplits(ch, p, ops[i..]);
    assert p[j + 1..] == ops[j + 1..i];
    assert RegisteredAt(p, x, j);
    ListenersAfterRun(ch, p, x);
    var before := After(ch, p);
    var here := NextData(before, ops[i].a).delivered;
    var k :| 0 <= k < |before.dataListeners| && before.dataListeners[k] == x;
    assert here[k] == Delivery(x, ops[i].a);
    assert Delivered(before, ops[i..]) == here + Delivered(NextData(before, ops[i].a).next, ops[i + 1..]);
  }
}
