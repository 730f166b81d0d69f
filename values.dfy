/**
 * Python runtime values as the core handles them: `None`, booleans, integers,
 * strings, paths, lists, tuples, insertion-ordered dictionaries and objects
 * (dataclass instances) with named attributes.
 */
module Values {
  import opened Options
  import opened Paths
  import Strings

  /** A dictionary key: a `str`, or `None` (used for "no session"). */
  type Key = Option<string>

  datatype Value =
    | VNone
    | VBool(b: bool)
    | VInt(i: int)
    | VStr(s: string)
    | VPath(p: Path)
    | VList(items: seq<Value>)
    | VTuple(elems: seq<Value>)
    | VDict(entries: seq<Entry>)
    | VObj(cls: string, fields: seq<Field>)

  datatype Entry = Entry(key: Key, val: Value)

  datatype Field = Field(name: string, value: Value)

  /** Python truthiness (`bool(v)`); dataclass instances and paths are always true. */
  predicate Truthy(v: Value)
  {
    match v
    case VNone => false
    case VBool(b) => b
    case VInt(i) => i != 0
    case VStr(s) => s != []
    case VPath(_) => true
    case VList(xs) => xs != []
    case VTuple(xs) => xs != []
    case VDict(es) => es != []
    case VObj(_, _) => true
  }

  function KeyValue(k: Key): Value
  {
    if k.Some? then VStr(k.value) else VNone
  }

  /** `f"{k}"` for a dictionary key. */
  function KeyString(k: Key): string
  {
    if k.Some? then k.value else "None"
  }

  function Keys(es: seq<Entry>): (ks: seq<Key>)
    ensures |ks| == |es| && forall i :: 0 <= i < |es| ==> ks[i] == es[i].key
  {
    if es == [] then [] else [es[0].key] + Keys(es[1..])
  }

  /** `d.get(k)` on a dictionary given by its entries. */
  function DictGet(es: seq<Entry>, k: Key): (r: Option<Value>)
    ensures r.None? <==> k !in Keys(es)
  {
    if es == [] then None
    else if es[0].key == k then Some(es[0].val)
    else DictGet(es[1..], k)
  }

  /**
   * `d[k] = v`: an existing key keeps its position and takes the new value,
   * a new key is appended.
   */
  function DictPut(es: seq<Entry>, k: Key, v: Value): (r: seq<Entry>)
    ensures Keys(r) == if k in Keys(es) then Keys(es) else Keys(es) + [k]
  {
    if es == [] then [Entry(k, v)]
    else if es[0].key == k then [Entry(k, v)] + es[1..]
    else
      var rest := DictPut(es[1..], k, v);
      assert Keys(es) == [es[0].key] + Keys(es[1..]);
      [es[0]] + rest
  }

  /** A value `d.get` finds is stored in an entry under that key. */
  lemma {:induction false} DictGetEntry(es: seq<Entry>, k: Key)
    requires DictGet(es, k).Some?
    ensures Entry(k, DictGet(es, k).value) in es
  {
    if es[0].key != k {
      DictGetEntry(es[1..], k);
    }
  }

  /** The first entry of a given key is the one `d.get` finds. */
  lemma {:induction false} DictGetAt(es: seq<Entry>, k: nat)
    requires k < |es|
    requires forall j :: 0 <= j < k ==> es[j].key != es[k].key
    ensures DictGet(es, es[k].key) == Some(es[k].val)
  {
    if k > 0 {
      DictGetAt(es[1..], k - 1);
    }
  }

  /** Keys of pairwise different lengths are pairwise different. */
  lemma KeysDistinctByLength(keys: seq<string>, lens: seq<int>)
    requires |keys| == |lens| && forall i :: 0 <= i < |keys| ==> |keys[i]| == lens[i]
    requires forall i, j :: 0 <= i < j < |lens| ==> lens[i] != lens[j]
    ensures forall i, j :: 0 <= i < j < |keys| ==> keys[i] != keys[j]
  {
  }

  /** The dictionary display `{keys[0]: vals[0], ...}`. */
  function EntriesOf(keys: seq<string>, vals: seq<Value>): (es: seq<Entry>)
    requires |keys| == |vals|
    ensures |es| == |keys| && forall i :: 0 <= i < |keys| ==> es[i] == Entry(Some(keys[i]), vals[i])
  {
    seq(|keys|, i requires 0 <= i < |keys| => Entry(Some(keys[i]), vals[i]))
  }

  /** The names as dictionary keys. */
  function SomeKeys(names: seq<string>): (ks: seq<Key>)
    ensures |ks| == |names| && forall i :: 0 <= i < |names| ==> ks[i] == Some(names[i])
  {
    seq(|names|, i requires 0 <= i < |names| => Some(names[i]))
  }

  /** A display has the keys it was written with, in order. */
  lemma EntriesOfKeys(keys: seq<string>, vals: seq<Value>)
    requires |keys| == |vals|
    ensures Keys(EntriesOf(keys, vals)) == SomeKeys(keys)
  {
  }

  /** In a display with pairwise different keys, each key reads back its own value. */
  lemma EntriesOfGet(keys: seq<string>, vals: seq<Value>)
    requires |keys| == |vals| && forall i, j :: 0 <= i < j < |keys| ==> keys[i] != keys[j]
    ensures Keys(EntriesOf(keys, vals)) == seq(|keys|, i requires 0 <= i < |keys| => Some(keys[i]))
    ensures forall i :: 0 <= i < |keys| ==> DictGet(EntriesOf(keys, vals), Some(keys[i])) == Some(vals[i])
  {
    var es := EntriesOf(keys, vals);
    forall i | 0 <= i < |keys|
      ensures DictGet(es, Some(keys[i])) == Some(vals[i])
    {
      DictGetAt(es, i);
    }
  }

  /** Reading a key back after `d[k] = v` gives `v`; every other key is untouched. */
  lemma {:induction false} DictPutGet(es: seq<Entry>, k: Key, v: Value, k': Key)
    ensures DictGet(DictPut(es, k, v), k') == if k' == k then Some(v) else DictGet(es, k')
  {
    if es != [] && es[0].key != k {
      DictPutGet(es[1..], k, v, k');
    }
  }

  function FindField(fs: seq<Field>, name: string): Option<Value>
  {
    if fs == [] then None
    else if fs[0].name == name then Some(fs[0].value)
    else FindField(fs[1..], name)
  }

  /** The first field of a given name is the one `getattr` finds. */
  lemma {:induction false} FindFieldAt(fs: seq<Field>, k: nat)
    requires k < |fs|
    requires forall j :: 0 <= j < k ==> fs[j].name != fs[k].name
    ensures FindField(fs, fs[k].name) == Some(fs[k].value)
  {
    if k > 0 {
      FindFieldAt(fs[1..], k - 1);
    }
  }

  /** With pairwise different names, `getattr` finds every field's value. */
  lemma FindFieldDistinct(fs: seq<Field>)
    requires forall i, j :: 0 <= i < j < |fs| ==> fs[i].name != fs[j].name
    ensures forall k :: 0 <= k < |fs| ==> FindField(fs, fs[k].name) == Some(fs[k].value)
  {
    forall k | 0 <= k < |fs|
      ensures FindField(fs, fs[k].name) == Some(fs[k].value)
    {
      FindFieldAt(fs, k);
    }
  }

  /** `getattr(v, name)`, `None` when the attribute does not exist. */
  function GetAttr(v: Value, name: string): Option<Value>
  {
    if v.VObj? then FindField(v.fields, name) else None
  }

  /** `hasattr(v, name)`. */
  predicate HasAttr(v: Value, name: string)
  {
    GetAttr(v, name).Some?
  }

  /** `getattr(v, name, default)`. */
  function GetAttrOr(v: Value, name: string, default: Value): Value
  {
    GetAttr(v, name).GetOr(default)
  }

  function KeyRepr(k: Key): string
  {
    if k.Some? then "'" + k.value + "'" else "None"
  }

  /** `repr(v)`. */
  function Repr(v: Value): string
    decreases v, 1
  {
    match v
    case VStr(s) => "'" + s + "'"
    case VPath(p) => "PosixPath('" + PathString(p) + "')"
    case _ => Str(v)
  }

  function ReprItems(xs: seq<Value>, parent: Value): string
    requires forall x :: x in xs ==> x < parent
    decreases parent, 0, |xs|
  {
    if xs == [] then ""
    else
      assert xs[0] in xs;
      if |xs| == 1 then Repr(xs[0])
      else
        assert forall x :: x in xs[1..] ==> x in xs;
        Repr(xs[0]) + ", " + ReprItems(xs[1..], parent)
  }

  function ReprEntries(es: seq<Entry>, parent: Value): string
    requires forall e :: e in es ==> e.val < parent
    decreases parent, 0, |es|
  {
    if es == [] then ""
    else
      assert es[0] in es;
      var head := KeyRepr(es[0].key) + ": " + Repr(es[0].val);
      if |es| == 1 then head
      else
        assert forall e :: e in es[1..] ==> e in es;
        head + ", " + ReprEntries(es[1..], parent)
  }

  function ReprFields(fs: seq<Field>, parent: Value): string
    requires forall f :: f in fs ==> f.value < parent
    decreases parent, 0, |fs|
  {
    if fs == [] then ""
    else
      assert fs[0] in fs;
      var head := fs[0].name + "=" + Repr(fs[0].value);
      if |fs| == 1 then head
      else
        assert forall f :: f in fs[1..] ==> f in fs;
        head + ", " + ReprFields(fs[1..], parent)
  }

  /** `str(v)` (f-string interpolation). */
  function Str(v: Value): string
    decreases v, 0
  {
    match v
    case VNone => "None"
    case VBool(b) => if b then "True" else "False"
    case VInt(i) => Strings.IntToString(i)
    case VStr(s) => s
    case VPath(p) => PathString(p)
    case VList(xs) => "[" + ReprItems(xs, v) + "]"
    case VTuple(xs) => if |xs| == 1 then "(" + Repr(xs[0]) + ",)" else "(" + ReprItems(xs, v) + ")"
    case VDict(es) => "{" + ReprEntries(es, v) + "}"
    case VObj(cls, fs) => cls + "(" + ReprFields(fs, v) + ")"
  }

  /**
   * `Path(v)`: a path is kept, a string is parsed into its parts; `None`
   * models the `TypeError` raised for anything else.
   */
  function AsPath(v: Value): (r: Option<Path>)
    ensures r.Some? <==> v.VPath? || v.VStr?
    ensures v.VPath? ==> r == Some(v.p)
    ensures v.VStr? ==> r == Some(ParsePath(v.s)) && Normal(r.value)
    ensures v.VStr? ==> ParsePath(PathString(r.value)) == r.value
  {
    match v
    case VPath(p) => Some(p)
    case VStr(s) => ParsePathIdempotent(s); Some(ParsePath(s))
    case _ => None
  }
}
