/** The subscription channel of src/Subscriptions.ts
    (`createBifrostSubscription`): deduplicated, optionally sequenced data
    delivery with replay of the current value to new data listeners, error
    delivery without replay, and disposal. Each operation is a pure
    transition returning the next state and the listener calls it makes. */
module Channel {
  import opened JsValues
  import opened Emitter

  /** The closure state of one channel. `lastTimestamp` is `None` when the
      variable holds `undefined`. `releaseCalls` counts calls of the
      caller-supplied release callback. */
  datatype Channel = Channel(
    currentValue: JsValue,
    lastTimestamp: Option<int>,
    dataListeners: seq<ListenerId>,
    errorListeners: seq<ListenerId>,
    releaseCalls: nat)

  datatype Step = Step(next: Channel, delivered: seq<Delivery>)

  /** A fresh channel: no value yet (`undefined`), timestamp `0`. Nothing is
      replayed from it, and its first value is accepted with no token or any
      positive one. */
  function Create(): (ch: Channel)
    ensures !Truthy(ch.currentValue) && ch.dataListeners == [] && ch.errorListeners == [] && ch.releaseCalls == 0
    ensures forall d, t | d != Undefined && t >= 0 :: Emits(ch, d, Some(t))
    ensures forall d | d != Undefined :: Emits(ch, d, None)
    ensures forall d, t | t < 0 :: !Emits(ch, d, Some(t))
  {
    Channel(Undefined, Some(0), [], [], 0)
  }

  /** The truthiness test on `ensureSequentialTimestamp`: `undefined` and `0`
      both count as "no token". */
  predicate TokenGiven(token: Option<int>) {
    token.Some? && token.value != 0
  }

  /** `sequenceIsGood`. Against an `undefined` last timestamp every numeric
      comparison is false, so a given token is then always refused. */
  predicate SequenceIsGood(token: Option<int>, last: Option<int>) {
    !TokenGiven(token) || (last.Some? && token.value > last.value)
  }

  /** `nextData(data, {ensureSequentialTimestamp: token})` emits when the
      value differs (structurally) from the current one and the sequence
      check passes. */
  predicate Emits(ch: Channel, data: JsValue, token: Option<int>) {
    SequenceIsGood(token, ch.lastTimestamp) && data != ch.currentValue
  }

  function NextData(ch: Channel, data: JsValue, token: Option<int>): (s: Step)
    ensures s.next.currentValue != ch.currentValue <==> data != ch.currentValue && SequenceIsGood(token, ch.lastTimestamp)
    ensures s.next.currentValue != ch.currentValue ==>
      s.next.currentValue == data && s.next.lastTimestamp == token && s.delivered == Broadcast(ch.dataListeners, data)
    ensures s.next.currentValue == ch.currentValue ==> s.next == ch && s.delivered == []
    ensures s.next.dataListeners == ch.dataListeners && s.next.errorListeners == ch.errorListeners
    ensures s.next.releaseCalls == ch.releaseCalls
  {
    if Emits(ch, data, token) then
      Step(ch.(currentValue := data, lastTimestamp := token), Broadcast(ch.dataListeners, data))
    else
      Step(ch, [])
  }

  /** `nextError(e)`: every error listener gets `e`; the data side is
      untouched. */
  function NextError(ch: Channel, e: JsValue): (s: Step)
    ensures s.next == ch
    ensures |s.delivered| == |ch.errorListeners|
    ensures forall i | 0 <= i < |s.delivered| :: s.delivered[i] == Delivery(ch.errorListeners[i], e)
  {
    Step(ch, Broadcast(ch.errorListeners, e))
  }

  /** `onData(fn)`: replays the current value to `fn` when it is truthy, then
      registers `fn`. */
  function OnData(ch: Channel, fn: ListenerId): (s: Step)
    ensures s.delivered == [] || s.delivered == [Delivery(fn, ch.currentValue)]
    ensures s.delivered != [] <==> Truthy(ch.currentValue)
    ensures s.next.dataListeners == Register(ch.dataListeners, fn)
    ensures s.next.currentValue == ch.currentValue && s.next.lastTimestamp == ch.lastTimestamp
    ensures s.next.errorListeners == ch.errorListeners && s.next.releaseCalls == ch.releaseCalls
  {
    var replay := if Truthy(ch.currentValue) then [Delivery(fn, ch.currentValue)] else [];
    Step(ch.(dataListeners := Register(ch.dataListeners, fn)), replay)
  }

  /** `onError(fn)`: registers only; errors are not latched. */
  function OnError(ch: Channel, fn: ListenerId): (s: Step)
    ensures s.delivered == []
    ensures s.next.errorListeners == Register(ch.errorListeners, fn)
    ensures s.next.currentValue == ch.currentValue && s.next.lastTimestamp == ch.lastTimestamp
    ensures s.next.dataListeners == ch.dataListeners && s.next.releaseCalls == ch.releaseCalls
  {
    Step(ch.(errorListeners := Register(ch.errorListeners, fn)), [])
  }

  /** `dispose()`: clears every listener and calls the release callback. An
      exception from the callback is caught and logged, so the caller never
      sees one; the result does not depend on it. */
  function Dispose(ch: Channel): (next: Channel)
    ensures next.dataListeners == [] && next.errorListeners == []
    ensures next.releaseCalls == ch.releaseCalls + 1
    ensures next.currentValue == ch.currentValue && next.lastTimestamp == ch.lastTimestamp
  {
    ch.(dataListeners := [], errorListeners := [], releaseCalls := ch.releaseCalls + 1)
  }

  /** Disposing twice is harmless for the channel but calls the release
      callback twice: nothing guards the second call. */
  lemma DisposeTwice(ch: Channel)
    ensures Dispose(Dispose(ch)).releaseCalls == ch.releaseCalls + 2
    ensures Dispose(Dispose(ch)) == Dispose(ch).(releaseCalls := ch.releaseCalls + 2)
  {
  }

  // ---------------------------------------------------------------------
  // Runs of operations

  datatype Op =
    | NextDataOp(data: JsValue, token: Option<int>)
    | NextErrorOp(e: JsValue)
    | OnDataOp(fn: ListenerId)
    | OnErrorOp(fn: ListenerId)
    | DisposeOp

  function Apply(ch: Channel, op: Op): Step {
    match op
    case NextDataOp(data, token) => NextData(ch, data, token)
    case NextErrorOp(e) => NextError(ch, e)
    case OnDataOp(fn) => OnData(ch, fn)
    case OnErrorOp(fn) => OnError(ch, fn)
    case DisposeOp => Step(Dispose(ch), [])
  }

  /** The state after a sequence of operations. */
  function After(ch: Channel, ops: seq<Op>): Channel
    decreases |ops|
  {
    if ops == [] then ch else After(Apply(ch, ops[0]).next, ops[1..])
  }

  /** One emission: the value broadcast and the token it carried. */
  datatype Emission = Emission(value: JsValue, token: Option<int>)

  /** The emissions a sequence of operations makes, in order. */
  function Emissions(ch: Channel, ops: seq<Op>): seq<Emission>
    decreases |ops|
  {
    if ops == [] then []
    else
      var here := if ops[0].NextDataOp? && Emits(ch, ops[0].data, ops[0].token)
                  then [Emission(ops[0].data, ops[0].token)] else [];
      here + Emissions(Apply(ch, ops[0]).next, ops[1..])
  }

  /** After a run, the channel holds the last emission's value and token,
      or its starting ones when nothing was emitted. */
  lemma {:induction false} StateIsLastEmission(ch: Channel, ops: seq<Op>)
    ensures var es := Emissions(ch, ops);
      if es == [] then
        After(ch, ops).currentValue == ch.currentValue && After(ch, ops).lastTimestamp == ch.lastTimestamp
      else
        After(ch, ops).currentValue == es[|es| - 1].value && After(ch, ops).lastTimestamp == es[|es| - 1].token
    decreases |ops|
  {
    if ops != [] {
      StateIsLastEmission(Apply(ch, ops[0]).next, ops[1..]);
    }
  }

  /** Deduplication: no emission repeats the value before it, and the first
      one differs from the value the channel started with. In particular two
      consecutive `nextData` calls with equal values emit at most once. */
  lemma {:induction false} EmissionsNeverRepeat(ch: Channel, ops: seq<Op>)
    ensures var es := Emissions(ch, ops);
      (es != [] ==> es[0].value != ch.currentValue) &&
      forall i | 0 <= i < |es| - 1 :: es[i].value != es[i + 1].value
    decreases |ops|
  {
    if ops != [] {
      var s := Apply(ch, ops[0]);
      EmissionsNeverRepeat(s.next, ops[1..]);
      var es := Emissions(ch, ops);
      var rest := Emissions(s.next, ops[1..]);
      if ops[0].NextDataOp? && Emits(ch, ops[0].data, ops[0].token) {
        assert es == [Emission(ops[0].data, ops[0].token)] + rest;
        assert s.next.currentValue == ops[0].data;
      } else {
        assert es == rest;
        assert s.next.currentValue == ch.currentValue;
      }
    }
  }

  /** Sequencing: when two consecutive emissions both carry a token, the
      later token is strictly greater. (An emission with token `0` or none
      resets the comparison, so this is the strongest such claim.) */
  lemma {:induction false} GivenTokensIncrease(ch: Channel, ops: seq<Op>)
    ensures var es := Emissions(ch, ops);
      (es != [] && TokenGiven(es[0].token) ==> ch.lastTimestamp.Some? && es[0].token.value > ch.lastTimestamp.value) &&
      forall i | 0 <= i < |es| - 1 :: TokenGiven(es[i].token) && TokenGiven(es[i + 1].token) ==>
        es[i].token.value < es[i + 1].token.value
    decreases |ops|
  {
    if ops != [] {
      var s := Apply(ch, ops[0]);
      GivenTokensIncrease(s.next, ops[1..]);
      var es := Emissions(ch, ops);
      var rest := Emissions(s.next, ops[1..]);
      if ops[0].NextDataOp? && Emits(ch, ops[0].data, ops[0].token) {
        assert es == [Emission(ops[0].data, ops[0].token)] + rest;
        assert s.next.lastTimestamp == ops[0].token;
      } else {
        assert es == rest;
        assert s.next.lastTimestamp == ch.lastTimestamp;
      }
    }
  }

  /** After an emission with token `t`, a later call with a token no greater
      than `t` emits nothing and leaves the earlier value in place. */
  lemma StaleTokenRefused(ch: Channel, d1: JsValue, t: int, d2: JsValue, u: int)
    requires Emits(ch, d1, Some(t)) && u != 0 && u <= t
    ensures var s1 := NextData(ch, d1, Some(t));
      var s2 := NextData(s1.next, d2, Some(u));
      s1.next.currentValue == d1 && s2.next == s1.next && s2.delivered == []
  {
  }

  /** Once the timestamp holds `undefined` (after an emission without a
      token), no call with a token emits again until some emission passes
      the literal token `0`, which stores `0`. */
  lemma {:induction false} UndefinedTimestampRefusesTokens(ch: Channel, ops: seq<Op>)
    requires ch.lastTimestamp.None?
    requires forall i | 0 <= i < |ops| :: ops[i].NextDataOp? ==> ops[i].token != Some(0)
    ensures forall e | e in Emissions(ch, ops) :: !TokenGiven(e.token)
    ensures After(ch, ops).lastTimestamp.None?
    decreases |ops|
  {
    if ops != [] {
      var s := Apply(ch, ops[0]);
      assert s.next.lastTimestamp.None?;
      UndefinedTimestampRefusesTokens(s.next, ops[1..]);
    }
  }

  /** Replay-on-subscribe: after a run whose last emission was a truthy
      value, a new data listener receives that value at once. */
  lemma ReplayAfterRun(ch: Channel, ops: seq<Op>, fn: ListenerId)
    requires Emissions(ch, ops) != []
    requires Truthy(Emissions(ch, ops)[|Emissions(ch, ops)| - 1].value)
    ensures OnData(After(ch, ops), fn).delivered == [Delivery(fn, Emissions(ch, ops)[|Emissions(ch, ops)| - 1].value)]
  {
    StateIsLastEmission(ch, ops);
  }

  // ---------------------------------------------------------------------
  // Findings: the code as written, and the evident intent

  /** As written, an emission without a token stores `undefined` into the
      timestamp, and from then on every call that carries a token is
      refused, however large the token. */
  lemma UntokenedEmissionBlocksTokens()
    ensures var s1 := NextData(Create(), Str("a"), None);
      s1.next.currentValue == Str("a") &&
      NextData(s1.next, Str("b"), Some(1)).next.currentValue == Str("a")
  {
  }

  /** The intended update: the timestamp moves only when a token is given. */
  function NextDataKeepingToken(ch: Channel, data: JsValue, token: Option<int>): (s: Step)
    ensures s.next.currentValue != ch.currentValue <==> data != ch.currentValue && SequenceIsGood(token, ch.lastTimestamp)
    ensures s.next.currentValue != ch.currentValue ==>
      s.next.currentValue == data && s.delivered == Broadcast(ch.dataListeners, data)
    ensures s.next.lastTimestamp == (if s.next.currentValue != ch.currentValue && TokenGiven(token) then token else ch.lastTimestamp)
    ensures s.next.dataListeners == ch.dataListeners && s.next.errorListeners == ch.errorListeners
  {
    if Emits(ch, data, token) then
      Step(ch.(currentValue := data, lastTimestamp := if TokenGiven(token) then token else ch.lastTimestamp),
           Broadcast(ch.dataListeners, data))
    else
      Step(ch, [])
  }

  /** The tokens a run of corrected `nextData` calls emits with. */
  function KeptTokens(ch: Channel, calls: seq<Emission>): seq<int>
    decreases |calls|
  {
    if calls == [] then []
    else
      var s := NextDataKeepingToken(ch, calls[0].value, calls[0].token);
      var here := if s.next.currentValue != ch.currentValue && TokenGiven(calls[0].token)
                  then [calls[0].token.value] else [];
      here + KeptTokens(s.next, calls[1..])
  }

  function AfterKeeping(ch: Channel, calls: seq<Emission>): Channel
    decreases |calls|
  {
    if calls == [] then ch
    else AfterKeeping(NextDataKeepingToken(ch, calls[0].value, calls[0].token).next, calls[1..])
  }

  predicate StrictlyIncreasing(ts: seq<int>) {
    forall i, j | 0 <= i < j < |ts| :: ts[i] < ts[j]
  }

  /** With the corrected update, the tokens of all emissions that carry one
      increase strictly over the whole run, untokened emissions in between
      notwithstanding, and a defined timestamp never becomes `undefined`. */
  lemma {:induction false} KeptTokensStrictlyIncrease(ch: Channel, calls: seq<Emission>)
    requires ch.lastTimestamp.Some?
    ensures AfterKeeping(ch, calls).lastTimestamp.Some?
    ensures forall t | t in KeptTokens(ch, calls) :: ch.lastTimestamp.value < t
    ensures StrictlyIncreasing(KeptTokens(ch, calls))
    decreases |calls|
  {
    if calls != [] {
      var s := NextDataKeepingToken(ch, calls[0].value, calls[0].token);
      KeptTokensStrictlyIncrease(s.next, calls[1..]);
      var ts := KeptTokens(ch, calls);
      var rest := KeptTokens(s.next, calls[1..]);
      if s.next.currentValue != ch.currentValue && TokenGiven(calls[0].token) {
        assert ts == [calls[0].token.value] + rest;
        assert s.next.lastTimestamp == calls[0].token;
        forall i, j | 0 <= i < j < |ts| ensures ts[i] < ts[j] {
          assert ts[j] == rest[j - 1];
          if i > 0 {
            assert ts[i] == rest[i - 1];
          } else {
            assert rest[j - 1] in rest;
          }
        }
      } else {
        assert ts == rest;
        assert s.next.lastTimestamp.value >= ch.lastTimestamp.value;
      }
    }
  }

  /** As written, a falsy value that was emitted (`0`, `""`, `false`) is not
      replayed to a listener attached afterwards. */
  lemma FalsyEmissionNotReplayed(fn: ListenerId)
    ensures var s1 := NextData(Create(), IntNum(0), None);
      s1.next.currentValue == IntNum(0) && OnData(s1.next, fn).delivered == []
  {
  }

  /** The intended replay: the current value unless it is `undefined`, the
      value a channel starts with. It registers exactly as `OnData` does and
      replays wherever `OnData` does, and also for the falsy values `OnData`
      skips. (An emitted `undefined` cannot be told apart from "nothing
      emitted", so it is not replayed.) */
  function OnDataReplayingEmitted(ch: Channel, fn: ListenerId): (s: Step)
    ensures s.next == OnData(ch, fn).next
    ensures Truthy(ch.currentValue) ==> s.delivered == OnData(ch, fn).delivered
    ensures s.delivered != [] <==> ch.currentValue != Undefined
    ensures s.delivered == [] || s.delivered == [Delivery(fn, ch.currentValue)]
  {
    var replay := if ch.currentValue != Undefined then [Delivery(fn, ch.currentValue)] else [];
    Step(ch.(dataListeners := Register(ch.dataListeners, fn)), replay)
  }

  /** With the corrected replay, a listener attached after any run whose
      last emission was not `undefined` receives that value, falsy or not. */
  lemma ReplayEmittedAfterRun(ch: Channel, ops: seq<Op>, fn: ListenerId)
    requires Emissions(ch, ops) != []
    requires Emissions(ch, ops)[|Emissions(ch, ops)| - 1].value != Undefined
    ensures OnDataReplayingEmitted(After(ch, ops), fn).delivered ==
      [Delivery(fn, Emissions(ch, ops)[|Emissions(ch, ops)| - 1].value)]
  {
    StateIsLastEmission(ch, ops);
  }
}
