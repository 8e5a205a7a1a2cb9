/** JSON values as Python holds them. A dict compares without regard to key order,
    so an object is a map; every number is a real. */
module Json {
  datatype JSON =
    | Null
    | Bool(b: bool)
    | Num(n: real)
    | Str(s: string)
    | Arr(items: seq<JSON>)
    | Obj(fields: map<string, JSON>)

  type Payload = map<string, JSON>

  /** `payload.get(key)`: a missing key reads as None. */
  function Get(payload: Payload, key: string): JSON {
    if key in payload then payload[key] else Null
  }

  /** What Python's `==` sees: `True == 1` and `False == 0`, at any depth. */
  function View(v: JSON): JSON {
    match v
    case Bool(b) => Num(if b then 1.0 else 0.0)
    case Arr(items) => Arr(seq(|items|, i requires 0 <= i < |items| => View(items[i])))
    case Obj(fields) => Obj(map k | k in fields :: View(fields[k]))
    case _ => v
  }

  predicate PyEq(a: JSON, b: JSON) {
    View(a) == View(b)
  }

  /** A number, as `==` takes it: a bool counts as 1 or 0. */
  predicate IsNumber(v: JSON, n: real) {
    v == Num(n) || (v == Bool(true) && n == 1.0) || (v == Bool(false) && n == 0.0)
  }

  /** What `==` means: same key sets and lists item by item, numbers by value, the rest as is. */
  lemma PyEqMeans(a: JSON, b: JSON)
    ensures PyEq(a, b) <==>
      match a
      case Obj(fs) => b.Obj? && fs.Keys == b.fields.Keys && forall k :: k in fs ==> PyEq(fs[k], b.fields[k])
      case Arr(xs) => b.Arr? && |xs| == |b.items| && forall i :: 0 <= i < |xs| ==> PyEq(xs[i], b.items[i])
      case Null => b == Null
      case Str(_) => b == a
      case Bool(t) => IsNumber(b, if t then 1.0 else 0.0)
      case Num(n) => IsNumber(b, n)
  {
    match a
    case Obj(fs) =>
      if b.Obj? {
        ObjEqMeans(fs, b.fields);
      }
    case Arr(xs) =>
      if b.Arr? {
        ArrEqMeans(xs, b.items);
      }
    case _ =>
  }

  lemma ObjEqMeans(fs: map<string, JSON>, gs: map<string, JSON>)
    ensures PyEq(Obj(fs), Obj(gs)) <==> fs.Keys == gs.Keys && forall k :: k in fs ==> PyEq(fs[k], gs[k])
  {
    var x, y := View(Obj(fs)).fields, View(Obj(gs)).fields;
    assert x.Keys == fs.Keys && y.Keys == gs.Keys;
    if x == y {
      forall k | k in fs ensures PyEq(fs[k], gs[k]) {
        assert x[k] == y[k];
      }
    }
    if fs.Keys == gs.Keys && forall k :: k in fs ==> PyEq(fs[k], gs[k]) {
      assert x == y;
    }
  }

  lemma ArrEqMeans(xs: seq<JSON>, ys: seq<JSON>)
    ensures PyEq(Arr(xs), Arr(ys)) <==> |xs| == |ys| && forall i :: 0 <= i < |xs| ==> PyEq(xs[i], ys[i])
  {
    var x, y := View(Arr(xs)).items, View(Arr(ys)).items;
    if x == y {
      forall i | 0 <= i < |xs| ensures |xs| == |ys| && PyEq(xs[i], ys[i]) {
        assert |x| == |y| && x[i] == y[i];
      }
    }
    if |xs| == |ys| && forall i :: 0 <= i < |xs| ==> PyEq(xs[i], ys[i]) {
      assert x == y;
    }
  }

  /** ASCII `str.lower()`. */
  function Lower(s: string): (r: string)
    ensures |r| == |s|
  {
    seq(|s|, i requires 0 <= i < |s| => LowerChar(s[i]))
  }

  function LowerChar(c: char): char {
    if 'A' <= c <= 'Z' then (c as int - 'A' as int + 'a' as int) as char else c
  }

  /** Headers match whatever their case. */
  lemma LowerExamples()
    ensures Lower("Set-Cookie") == "set-cookie" && Lower("AUTHORIZATION") == "authorization" && Lower("zip_9") == "zip_9"
  {
  }

  lemma LowerFixed(s: string)
    requires forall i :: 0 <= i < |s| ==> !('A' <= s[i] <= 'Z')
    ensures Lower(s) == s
  {
  }
}
