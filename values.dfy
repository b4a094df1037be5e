/**
 * The slice of JavaScript's value semantics the upload engine relies on:
 * truthiness (`if (x)`, `x || 0`, `x ? a : b`), conversion to string by `+`,
 * conversion to number by `>`, and plain objects used as ordered
 * dictionaries (`o[k] = v`, `o[k]`, `for (k in o)`).
 */
module JsValue {
  import opened Wrappers
  import opened Decimal

  /** A JavaScript value. `Num` holds integer-valued numbers only. */
  datatype Value =
    | Undefined
    | Null
    | Bool(b: bool)
    | Num(n: int)
    | Str(s: string)
    | Obj(props: seq<(string, Value)>)

  /** The own enumerable properties of a plain object, in insertion order. */
  type Dict = seq<(string, Value)>

  predicate Truthy(v: Value) {
    match v
    case Undefined => false
    case Null => false
    case Bool(b) => b
    case Num(n) => n != 0
    case Str(s) => s != ""
    case Obj(_) => true
  }

  /** What `'' + v` yields. */
  function ToString(v: Value): string {
    match v
    case Undefined => "undefined"
    case Null => "null"
    case Bool(b) => if b then "true" else "false"
    case Num(n) => IntToString(n)
    case Str(s) => s
    case Obj(_) => "[object Object]"
  }

  /** What `typeof v` yields. */
  function TypeOf(v: Value): string {
    match v
    case Undefined => "undefined"
    case Null => "object"
    case Bool(_) => "boolean"
    case Num(_) => "number"
    case Str(_) => "string"
    case Obj(_) => "object"
  }

  /**
   * The number a relational comparison sees; `None` is NaN. Strings are read
   * as plain decimal digits only (the empty string is 0).
   */
  function ToNumber(v: Value): Option<int> {
    match v
    case Undefined => None
    case Null => Some(0)
    case Bool(b) => Some(if b then 1 else 0)
    case Num(n) => Some(n)
    case Str(s) => if s == "" then Some(0) else if AllDigits(s) then Some(ParseDigits(s)) else None
    case Obj(_) => None
  }

  /** The keys of an object in enumeration order. */
  function Keys(d: Dict): seq<string> {
    if d == [] then [] else [d[0].0] + Keys(d[1..])
  }

  predicate HasKey(d: Dict, k: string) {
    k in Keys(d)
  }

  /** Every key occurs once, as in every real JavaScript object. */
  predicate DistinctKeys(d: Dict) {
    d == [] || (d[0].0 !in Keys(d[1..]) && DistinctKeys(d[1..]))
  }

  /** `o[k]`: the value stored under `k`, or `undefined` when there is none. */
  function Get(d: Dict, k: string): Value {
    if d == [] then Undefined else if d[0].0 == k then d[0].1 else Get(d[1..], k)
  }

  /** `o[k] = v`: an existing key keeps its place, a new key goes last. */
  function Put(d: Dict, k: string, v: Value): Dict {
    if d == [] then [(k, v)]
    else if d[0].0 == k then [(k, v)] + d[1..]
    else [d[0]] + Put(d[1..], k, v)
  }

  /** `for (k in src) dst[k] = src[k]`, applied to the entries of `src` in order. */
  function PutAll(dst: Dict, src: Dict): Dict {
    if src == [] then dst
    else Put(PutAll(dst, src[..|src| - 1]), src[|src| - 1].0, src[|src| - 1].1)
  }

  /** `v.k` on any value: only objects carry the properties the engine reads. */
  function Prop(v: Value, k: string): Value {
    if v.Obj? then Get(v.props, k) else Undefined
  }

  /** What `for (k in v)` visits, with `v[k]` beside each key. */
  function Enumerate(v: Value): Dict {
    match v
    case Obj(props) => props
    case Str(s) => seq(|s|, i requires 0 <= i < |s| => (NatToString(i), Str([s[i]])))
    case _ => []
  }

  lemma {:induction false} GetMissing(d: Dict, k: string)
    requires !HasKey(d, k)
    ensures Get(d, k) == Undefined
  {
    if d != [] {
      GetMissing(d[1..], k);
    }
  }

  /** Reading back a key just written gives the new value; every other key reads as before. */
  lemma {:induction false} GetPut(d: Dict, k: string, v: Value, j: string)
    ensures Get(Put(d, k, v), j) == if j == k then v else Get(d, j)
  {
    if d != [] && d[0].0 != k {
      GetPut(d[1..], k, v, j);
    }
  }

  /** Assignment leaves the key order alone, except that a new key is appended. */
  lemma {:induction false} KeysPut(d: Dict, k: string, v: Value)
    ensures Keys(Put(d, k, v)) == if HasKey(d, k) then Keys(d) else Keys(d) + [k]
  {
    if d != [] && d[0].0 != k {
      KeysPut(d[1..], k, v);
    }
  }

  /**
   * Assignment replaces or adds one entry: everything before and after it is
   * untouched, and a new key's entry goes after all the others.
   */
  lemma {:induction false} PutSplit(d: Dict, k: string, v: Value) returns (before: Dict, after: Dict)
    ensures Put(d, k, v) == before + [(k, v)] + after
    ensures !HasKey(d, k) ==> before == d && after == []
    ensures HasKey(d, k) ==> d == before + [(k, Get(d, k))] + after
  {
    if d == [] {
      before, after := [], [];
    } else if d[0].0 == k {
      before, after := [], d[1..];
      assert k in Keys(d);
    } else {
      var b, a := PutSplit(d[1..], k, v);
      before, after := [d[0]] + b, a;
      assert Keys(d) == [d[0].0] + Keys(d[1..]);
      if HasKey(d[1..], k) {
        assert d == before + [(k, Get(d, k))] + after;
      } else {
        assert d == before + after;
      }
    }
  }

  /** A second assignment to the same key overwrites the first. */
  lemma {:induction false} PutPut(d: Dict, k: string, v: Value, w: Value)
    ensures Put(Put(d, k, v), k, w) == Put(d, k, w)
  {
    if d != [] && d[0].0 != k {
      PutPut(d[1..], k, v, w);
    }
  }

  /** Assignment keeps the keys of an object distinct. */
  lemma {:induction false} PutDistinct(d: Dict, k: string, v: Value)
    requires DistinctKeys(d)
    ensures DistinctKeys(Put(d, k, v))
  {
    if d != [] && d[0].0 != k {
      PutDistinct(d[1..], k, v);
      KeysPut(d[1..], k, v);
    }
  }

  lemma {:induction false} KeysAppend(a: Dict, b: Dict)
    ensures Keys(a + b) == Keys(a) + Keys(b)
  {
    if a != [] {
      assert (a + b)[1..] == a[1..] + b;
      KeysAppend(a[1..], b);
    } else {
      assert a + b == b;
    }
  }

  lemma {:induction false} GetAppend(a: Dict, b: Dict, k: string)
    ensures Get(a + b, k) == if HasKey(a, k) then Get(a, k) else Get(b, k)
  {
    if a != [] {
      assert (a + b)[1..] == a[1..] + b;
      GetAppend(a[1..], b, k);
    } else {
      assert a + b == b;
    }
  }

  lemma {:induction false} DistinctSnoc(a: Dict, x: (string, Value))
    requires DistinctKeys(a + [x])
    ensures DistinctKeys(a) && x.0 !in Keys(a)
  {
    if a != [] {
      assert (a + [x])[1..] == a[1..] + [x];
      KeysAppend(a[1..], [x]);
      DistinctSnoc(a[1..], x);
    }
  }

  /** After a copy loop, a key reads as in the source object if it has it there, else as in the target. */
  lemma {:induction false} GetPutAll(dst: Dict, src: Dict, k: string)
    requires DistinctKeys(src)
    ensures Get(PutAll(dst, src), k) == if HasKey(src, k) then Get(src, k) else Get(dst, k)
    decreases |src|
  {
    if src != [] {
      var init, last := src[..|src| - 1], src[|src| - 1];
      assert src == init + [last];
      DistinctSnoc(init, last);
      GetPutAll(dst, init, k);
      GetPut(PutAll(dst, init), last.0, last.1, k);
      KeysAppend(init, [last]);
      GetAppend(init, [last], k);
      if last.0 == k {
        GetMissing(init, k);
      }
    }
  }

  /** The copy loop keeps the keys of the target distinct. */
  lemma {:induction false} PutAllDistinct(dst: Dict, src: Dict)
    requires DistinctKeys(dst)
    ensures DistinctKeys(PutAll(dst, src))
    decreases |src|
  {
    if src != [] {
      var init, last := src[..|src| - 1], src[|src| - 1];
      PutAllDistinct(dst, init);
      PutDistinct(PutAll(dst, init), last.0, last.1);
    }
  }

  /** The copy loop leaves every key of the target and adds every key of the source. */
  lemma {:induction false} HasKeyPutAll(dst: Dict, src: Dict, k: string)
    ensures HasKey(PutAll(dst, src), k) <==> HasKey(dst, k) || HasKey(src, k)
    decreases |src|
  {
    if src != [] {
      var init, last := src[..|src| - 1], src[|src| - 1];
      assert src == init + [last];
      HasKeyPutAll(dst, init, k);
      KeysPut(PutAll(dst, init), last.0, last.1);
      KeysAppend(init, [last]);
    }
  }
}
