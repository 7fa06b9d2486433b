/** The part of the Emittery event emitter the channels rely on, with
    delivery made synchronous: each event name keeps a set of listeners in
    insertion order, and an emit hands the payload to each of them in that
    order. */
module Emitter {
  import opened JsValues

  /** A listener function, identified by reference. */
  type ListenerId = nat

  /** One call of a listener with a payload. */
  datatype Delivery = Delivery(listener: ListenerId, payload: JsValue)

  predicate NoDuplicates(ls: seq<ListenerId>) {
    forall i, j | 0 <= i < j < |ls| :: ls[i] != ls[j]
  }

  /** `on(event, fn)`: adding a listener that is already in the set changes
      nothing; otherwise it goes last. */
  function Register(ls: seq<ListenerId>, fn: ListenerId): (r: seq<ListenerId>)
    ensures forall x :: x in r <==> x in ls || x == fn
    ensures |ls| <= |r| && r[..|ls|] == ls
    ensures NoDuplicates(ls) ==> NoDuplicates(r)
  {
    if fn in ls then ls else ls + [fn]
  }

  /** `emit(event, v)`: one delivery per listener, in registration order. */
  function Broadcast(ls: seq<ListenerId>, v: JsValue): (d: seq<Delivery>)
    ensures |d| == |ls|
    ensures forall i | 0 <= i < |d| :: d[i].listener == ls[i] && d[i].payload == v
  {
    if ls == [] then [] else [Delivery(ls[0], v)] + Broadcast(ls[1..], v)
  }
}
