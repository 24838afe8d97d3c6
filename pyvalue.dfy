/** The JSON-like Python values that flow through the context store, the
    planner and the vector-store flattening: None, bool, int, str, list and
    dict with string keys. A Python dict remembers insertion order, so it is an
    association list here: `d[k] = v` overwrites an existing key in place and
    appends a new one at the end. */
module PyValue {
  import opened Common

  datatype Value =
    | Null
    | Bool(b: bool)
    | Int(i: int)
    | Str(s: string)
    | List(items: seq<Value>)
    | Dict(entries: seq<(string, Value)>)

  type Entries = seq<(string, Value)>

  /** `list(d.keys())` */
  function Keys(d: Entries): (ks: seq<string>)
    ensures |ks| == |d|
    ensures forall i :: 0 <= i < |d| ==> ks[i] == d[i].0
  {
    seq(|d|, i requires 0 <= i < |d| => d[i].0)
  }

  /** A Python dict never holds a key twice. */
  ghost predicate DistinctKeys(d: Entries) {
    forall i, j :: 0 <= i < j < |d| ==> d[i].0 != d[j].0
  }

  /** `d.get(k)`, with absence made explicit. */
  function Get(d: Entries, k: string): (r: Option<Value>)
    ensures r.Some? <==> k in Keys(d)
  {
    if d == [] then None
    else if d[0].0 == k then Some(d[0].1)
    else
      assert Keys(d) == [d[0].0] + Keys(d[1..]);
      Get(d[1..], k)
  }

  /** `d.get(k, default)` */
  function GetOr(d: Entries, k: string, default: Value): Value {
    match Get(d, k)
    case Some(v) => v
    case None => default
  }

  /** `d[k] = v` */
  function Put(d: Entries, k: string, v: Value): Entries {
    if d == [] then [(k, v)]
    else if d[0].0 == k then [(k, v)] + d[1..]
    else [d[0]] + Put(d[1..], k, v)
  }

  /** After `d[k] = v`, `d.get(k)` is `v`. */
  lemma {:induction false} PutGet(d: Entries, k: string, v: Value)
    ensures Get(Put(d, k, v), k) == Some(v)
  {
    if d != [] && d[0].0 != k {
      PutGet(d[1..], k, v);
    }
  }

  /** `d[k] = v` leaves every other key's value as it was. */
  lemma {:induction false} PutGetOther(d: Entries, k: string, other: string, v: Value)
    requires other != k
    ensures Get(Put(d, k, v), other) == Get(d, other)
  {
    if d != [] && d[0].0 != k && d[0].0 != other {
      PutGetOther(d[1..], k, other, v);
    }
  }

  lemma {:induction false} KeysCons(e: (string, Value), d: Entries)
    ensures Keys([e] + d) == [e.0] + Keys(d)
  {
    var l, r := Keys([e] + d), [e.0] + Keys(d);
    forall i | 0 <= i < |l| ensures l[i] == r[i] {
      if i > 0 {
        assert ([e] + d)[i] == d[i - 1];
      }
    }
  }

  /** Overwriting keeps the key's position; a new key goes last. */
  lemma {:induction false} PutKeys(d: Entries, k: string, v: Value)
    ensures Keys(Put(d, k, v)) == if k in Keys(d) then Keys(d) else Keys(d) + [k]
  {
    if d == [] {
      assert Keys(Put(d, k, v)) == [k];
    } else {
      var e, rest := d[0], d[1..];
      assert d == [e] + rest;
      KeysCons(e, rest);
      if e.0 == k {
        KeysCons((k, v), rest);
      } else {
        PutKeys(rest, k, v);
        KeysCons(e, Put(rest, k, v));
        assert k in Keys(d) <==> k in Keys(rest);
      }
    }
  }

  /** `d[k] = v` keeps a dict's keys distinct. */
  lemma PutDistinct(d: Entries, k: string, v: Value)
    requires DistinctKeys(d)
    ensures DistinctKeys(Put(d, k, v))
  {
    PutKeys(d, k, v);
    var r := Put(d, k, v);
    var ks, rs := Keys(d), Keys(r);
    forall i, j | 0 <= i < j < |r| ensures r[i].0 != r[j].0 {
      assert rs[i] == r[i].0 && rs[j] == r[j].0;
      if k !in ks && j == |d| {
        assert rs[i] == ks[i];
      } else {
        assert rs[i] == ks[i] && rs[j] == ks[j];
      }
    }
  }

  /** `type(v).__name__` */
  function TypeName(v: Value): string {
    match v
    case Null => "NoneType"
    case Bool(_) => "bool"
    case Int(_) => "int"
    case Str(_) => "str"
    case List(_) => "list"
    case Dict(_) => "dict"
  }

  /** `v.get(k, default)` on an arbitrary value: only a dict has `get`. */
  function AttrGet(v: Value, k: string, default: Value): (r: Outcome<Value>)
    ensures r.Returned? <==> v.Dict?
    ensures r.Raised? ==> r.exc.cls == AttributeError
  {
    if v.Dict? then Returned(GetOr(v.entries, k, default))
    else Raised(Exc(AttributeError, "'" + TypeName(v) + "' object has no attribute 'get'"))
  }

  /** `v[0]` on an arbitrary value: a list yields its first item, a string
      its first character; a dict has no key `0` here (all keys are strings). */
  function FirstItem(v: Value): (r: Outcome<Value>)
    ensures r.Returned? <==> (v.List? && v.items != []) || (v.Str? && v.s != [])
  {
    match v
    case List(items) =>
      if items == [] then Raised(Exc(IndexError, "list index out of range")) else Returned(items[0])
    case Str(s) =>
      if s == [] then Raised(Exc(IndexError, "string index out of range")) else Returned(Str([s[0]]))
    case Dict(_) => Raised(Exc(KeyError, "0"))
    case _ => Raised(Exc(TypeError, "'" + TypeName(v) + "' object is not subscriptable"))
  }

  /** Python truthiness: `bool(v)`. */
  predicate Truthy(v: Value) {
    match v
    case Null => false
    case Bool(b) => b
    case Int(i) => i != 0
    case Str(s) => s != ""
    case List(items) => items != []
    case Dict(entries) => entries != []
  }

  /** `", ".join(parts)` */
  function CommaJoin(parts: seq<string>): string {
    if parts == [] then ""
    else if |parts| == 1 then parts[0]
    else parts[0] + ", " + CommaJoin(parts[1..])
  }

  /** `repr(v)`. Quotes inside strings are not escaped here. */
  function Repr(v: Value): (r: string)
    ensures r != []
  {
    match v
    case Null => "None"
    case Bool(b) => if b then "True" else "False"
    case Int(i) => IntToString(i)
    case Str(s) => "'" + s + "'"
    case List(items) =>
      "[" + CommaJoin(seq(|items|, i requires 0 <= i < |items| => Repr(items[i]))) + "]"
    case Dict(entries) =>
      "{" + CommaJoin(seq(|entries|, i requires 0 <= i < |entries| =>
                            "'" + entries[i].0 + "': " + Repr(entries[i].1))) + "}"
  }

  /** `str(v)`: a string renders as itself, everything else as its `repr`. */
  function Render(v: Value): string {
    if v.Str? then v.s else Repr(v)
  }

  /** A list of strings as a Python list value. */
  function StrList(ss: seq<string>): (r: Value)
    ensures r.List? && |r.items| == |ss|
    ensures forall i :: 0 <= i < |ss| ==> r.items[i] == Str(ss[i])
  {
    List(seq(|ss|, i requires 0 <= i < |ss| => Str(ss[i])))
  }
}
