/**
 * `_serialize_for_json`: paths become strings, dictionaries, lists and tuples
 * are rebuilt element by element (tuples as lists), anything else is kept.
 */
module Serialize {
  import opened Paths
  import opened Values

  function SerializeForJson(v: Value): (r: Value)
    ensures v.VDict? ==> r.VDict? && Keys(r.entries) == Keys(v.entries)
    ensures (v.VList? || v.VTuple?) ==> r.VList?
    decreases v
  {
    match v
    case VPath(p) => VStr(PathString(p))
    case VDict(es) =>
      var out := seq(|es|, i requires 0 <= i < |es| => Entry(es[i].key, SerializeForJson(es[i].val)));
      assert forall i :: 0 <= i < |es| ==> Keys(out)[i] == Keys(es)[i];
      VDict(out)
    case VList(xs) => VList(seq(|xs|, i requires 0 <= i < |xs| => SerializeForJson(xs[i])))
    case VTuple(xs) => VList(seq(|xs|, i requires 0 <= i < |xs| => SerializeForJson(xs[i])))
    case _ => v
  }

  /** No path and no tuple anywhere inside `v` (objects are not looked into, as the function does not). */
  predicate Plain(v: Value)
    decreases v
  {
    match v
    case VPath(_) => false
    case VTuple(_) => false
    case VDict(es) => forall i :: 0 <= i < |es| ==> Plain(es[i].val)
    case VList(xs) => forall i :: 0 <= i < |xs| ==> Plain(xs[i])
    case _ => true
  }

  /** The result never holds a path or a tuple. */
  lemma {:induction false} SerializeIsPlain(v: Value)
    ensures Plain(SerializeForJson(v))
    decreases v
  {
    match v
    case VDict(es) =>
      forall i | 0 <= i < |es| ensures Plain(SerializeForJson(es[i].val)) {
        SerializeIsPlain(es[i].val);
      }
    case VList(xs) =>
      forall i | 0 <= i < |xs| ensures Plain(SerializeForJson(xs[i])) {
        SerializeIsPlain(xs[i]);
      }
    case VTuple(xs) =>
      forall i | 0 <= i < |xs| ensures Plain(SerializeForJson(xs[i])) {
        SerializeIsPlain(xs[i]);
      }
    case _ =>
  }

  /** A value with no path or tuple inside is returned unchanged. */
  lemma {:induction false} SerializeKeepsPlain(v: Value)
    requires Plain(v)
    ensures SerializeForJson(v) == v
    decreases v
  {
    match v
    case VDict(es) =>
      forall i | 0 <= i < |es| ensures SerializeForJson(es[i].val) == es[i].val {
        SerializeKeepsPlain(es[i].val);
      }
      assert SerializeForJson(v).entries == es;
    case VList(xs) =>
      forall i | 0 <= i < |xs| ensures SerializeForJson(xs[i]) == xs[i] {
        SerializeKeepsPlain(xs[i]);
      }
      assert SerializeForJson(v).items == xs;
    case _ =>
  }

  /** Serialising twice is serialising once. */
  lemma SerializeIdempotent(v: Value)
    ensures SerializeForJson(SerializeForJson(v)) == SerializeForJson(v)
  {
    SerializeIsPlain(v);
    SerializeKeepsPlain(SerializeForJson(v));
  }
}
