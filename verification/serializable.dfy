/** The wire check of src/misc.ts: may a function's result be sent as JSON? */
module Serializable {
  import opened JsValues

  /** The inner `isPlain` test: undefined, a string, a boolean, a number, an
      array or a plain object. `null` fails it (lodash does not call `null` a
      plain object), as do functions and class instances. */
  predicate IsPlain(v: JsValue) {
    v.Undefined? || v.Str? || v.Bool? || v.Num? || v.Arr? || v.PlainObj?
  }

  /** `isSerializable`: the value is plain, every own property value is
      plain, and every object-typed property value is itself serialisable.
      A string's own properties are its characters, which are plain strings
      that are not object-typed, so they never change the verdict. */
  predicate IsSerializable(v: JsValue)
    ensures v.Null? || v.Func? || v.Instance? ==> !IsSerializable(v)
    ensures v.Undefined? || v.Str? || v.Bool? || v.Num? ==> IsSerializable(v)
    ensures IsSerializable(v) && v.Arr? ==> forall i | 0 <= i < |v.items| :: IsSerializable(v.items[i])
    ensures IsSerializable(v) && v.PlainObj? ==> forall k | k in v.props :: IsSerializable(v.props[k])
    decreases v
  {
    IsPlain(v) &&
    match v
    case Arr(items) =>
      forall i | 0 <= i < |items| ::
        IsPlain(items[i]) && (IsObjectTyped(items[i]) ==> IsSerializable(items[i]))
    case PlainObj(props) =>
      forall k | k in props ::
        IsPlain(props[k]) && (IsObjectTyped(props[k]) ==> IsSerializable(props[k]))
    case _ => true
  }

  /** One step into a value: an array index or an object key. */
  datatype Step = Index(i: nat) | Key(k: string)

  /** The sub-value reached by following `path`, if every step exists.
      Only arrays and plain objects are entered, since those are the only
      values whose properties `isSerializable` looks into past `isPlain`. */
  function At(v: JsValue, path: seq<Step>): Option<JsValue>
    decreases |path|
  {
    if path == [] then Some(v)
    else
      match v
      case Arr(items) =>
        if path[0].Index? && path[0].i < |items| then At(items[path[0].i], path[1..]) else None
      case PlainObj(props) =>
        if path[0].Key? && path[0].k in props then At(props[path[0].k], path[1..]) else None
      case _ => None
  }

  /** Reference definition: every node of the value tree is plain. */
  ghost predicate AllReachablePlain(v: JsValue) {
    forall path :: At(v, path).Some? ==> IsPlain(At(v, path).value)
  }

  lemma AtArrayChild(items: seq<JsValue>, i: nat, path: seq<Step>)
    requires i < |items|
    ensures At(Arr(items), [Index(i)] + path) == At(items[i], path)
  {
    assert ([Index(i)] + path)[1..] == path;
  }

  lemma AtObjectChild(props: map<string, JsValue>, k: string, path: seq<Step>)
    requires k in props
    ensures At(PlainObj(props), [Key(k)] + path) == At(props[k], path)
  {
    assert ([Key(k)] + path)[1..] == path;
  }

  /** A value whose children are all reachable-plain is reachable-plain,
      provided it is plain itself. */
  lemma ReachablePlainFromChildren(v: JsValue)
    requires IsPlain(v)
    requires v.Arr? ==> forall i | 0 <= i < |v.items| :: AllReachablePlain(v.items[i])
    requires v.PlainObj? ==> forall k | k in v.props :: AllReachablePlain(v.props[k])
    ensures AllReachablePlain(v)
  {
    forall path: seq<Step> | At(v, path).Some? ensures IsPlain(At(v, path).value) {
      if path != [] {
        match v
        case Arr(items) =>
          var i := path[0].i;
          assert [Index(i)] + path[1..] == path;
          AtArrayChild(items, i, path[1..]);
        case PlainObj(props) =>
          var k := path[0].k;
          assert [Key(k)] + path[1..] == path;
          AtObjectChild(props, k, path[1..]);
        case _ =>
      }
    }
  }

  /** `isSerializable` accepts exactly the values all of whose nodes are
      plain: a non-plain value (`null`, a function, a class instance) at any
      depth rejects, and nothing else does. */
  lemma {:induction false} SerializableIffAllReachablePlain(v: JsValue)
    ensures IsSerializable(v) <==> AllReachablePlain(v)
    decreases v
  {
    assert At(v, []) == Some(v);
    match v
    case Arr(items) =>
      forall i | 0 <= i < |items|
        ensures IsSerializable(items[i]) <==> AllReachablePlain(items[i])
        ensures AllReachablePlain(v) ==> AllReachablePlain(items[i])
      {
        SerializableIffAllReachablePlain(items[i]);
        if AllReachablePlain(v) {
          forall path: seq<Step> | At(items[i], path).Some? ensures IsPlain(At(items[i], path).value) {
            AtArrayChild(items, i, path);
          }
        }
      }
      forall i | 0 <= i < |items| ensures IsPlain(items[i]) && !IsObjectTyped(items[i]) ==> AllReachablePlain(items[i]) {
        if IsPlain(items[i]) && !IsObjectTyped(items[i]) {
          ReachablePlainFromChildren(items[i]);
        }
      }
      if IsSerializable(v) {
        ReachablePlainFromChildren(v);
      }
      if AllReachablePlain(v) {
        forall i | 0 <= i < |items| ensures IsPlain(items[i]) {
          assert At(items[i], []) == Some(items[i]);
        }
      }
    case PlainObj(props) =>
      forall k | k in props
        ensures IsSerializable(props[k]) <==> AllReachablePlain(props[k])
        ensures AllReachablePlain(v) ==> AllReachablePlain(props[k])
      {
        SerializableIffAllReachablePlain(props[k]);
        if AllReachablePlain(v) {
          forall path: seq<Step> | At(props[k], path).Some? ensures IsPlain(At(props[k], path).value) {
            AtObjectChild(props, k, path);
          }
        }
      }
      forall k | k in props ensures IsPlain(props[k]) && !IsObjectTyped(props[k]) ==> AllReachablePlain(props[k]) {
        if IsPlain(props[k]) && !IsObjectTyped(props[k]) {
          ReachablePlainFromChildren(props[k]);
        }
      }
      if IsSerializable(v) {
        ReachablePlainFromChildren(v);
      }
      if AllReachablePlain(v) {
        forall k | k in props ensures IsPlain(props[k]) {
          assert At(props[k], []) == Some(props[k]);
        }
      }
    case _ =>
      if IsPlain(v) {
        ReachablePlainFromChildren(v);
      }
  }

  /** A non-plain value anywhere inside makes the whole result false. */
  lemma NonPlainAnywhereRejects(v: JsValue, path: seq<Step>)
    requires At(v, path).Some? && !IsPlain(At(v, path).value)
    ensures !IsSerializable(v)
  {
    SerializableIffAllReachablePlain(v);
  }

  /** Top-level undefined, strings, booleans and every number (NaN and the
      infinities included) pass; `null`, functions and class instances fail. */
  lemma ScalarVerdicts(s: string, b: bool, n: Float, id: nat, cls: string, isError: bool, props: map<string, JsValue>)
    ensures IsSerializable(Undefined) && IsSerializable(Str(s)) && IsSerializable(Bool(b)) && IsSerializable(Num(n))
    ensures !IsSerializable(Null) && !IsSerializable(Func(id, props)) && !IsSerializable(Instance(cls, isError, props))
  {
  }

  /** `null` as a property value is rejected by `isPlain` before any
      recursion, so an object holding it is not serialisable. */
  lemma NullPropertyRejects(props: map<string, JsValue>, k: string)
    requires k in props && props[k] == Null
    ensures !IsSerializable(PlainObj(props))
  {
  }
}
