/** JSON values as Python's `json` module hands them to the service, and the
    handful of Python built-in behaviours the consolidation relies on:
    truthiness, `dict.get`, hashing a value to use it as a dict key,
    iterating a value with `for`, and `list += ...`. */
module PyJson {
  import opened Wrappers

  /** A parsed JSON document. Numbers arrive as `int` or `float`; a float
      holds the exact value of the finite double the parser produced. An
      object keeps its members in document order, duplicates included. */
  datatype Json =
    | JNull
    | JBool(b: bool)
    | JInt(i: int)
    | JFloat(f: real)
    | JStr(s: string)
    | JArr(items: seq<Json>)
    | JObj(members: seq<Member>)

  datatype Member = Member(name: string, value: Json)

  /** The Python exceptions the data path can raise. */
  datatype PyException = JSONDecodeError | AttributeError | KeyError | TypeError | OverflowError

  /** Python's `bool(x)`: None, False, zero, and empty strings, lists and
      dicts are falsy; everything else is truthy. */
  predicate Truthy(j: Json) {
    match j
    case JNull => false
    case JBool(b) => b
    case JInt(i) => i != 0
    case JFloat(f) => f != 0.0
    case JStr(s) => |s| > 0
    case JArr(xs) => |xs| > 0
    case JObj(ms) => |ms| > 0
  }

  /** What a dict key is, up to Python equality: `True == 1 == 1.0` and
      `False == 0 == 0.0` address the same entry, strings compare by
      content, and `None` equals only itself. */
  datatype Key = NullKey | NumKey(n: real) | StrKey(text: string)

  /** The key a JSON value denotes when used as a dict key, or None when the
      value is unhashable (a list or a dict), in which case Python raises
      `TypeError` on insertion or lookup. */
  function HashKey(j: Json): (k: Option<Key>)
    ensures k.None? <==> j.JArr? || j.JObj?
    ensures k.Some? && k.value.StrKey? <==> j.JStr?
  {
    match j
    case JNull => Some(NullKey)
    case JBool(b) => Some(NumKey(if b then 1.0 else 0.0))
    case JInt(i) => Some(NumKey(i as real))
    case JFloat(f) => Some(NumKey(f))
    case JStr(s) => Some(StrKey(s))
    case JArr(_) => None
    case JObj(_) => None
  }

  /** Python's `a == b` on hashable JSON values: numbers (bools included)
      compare by value, strings by content, and `None` equals only itself. */
  predicate PyEq(a: Json, b: Json) {
    || (IsNumber(a) && IsNumber(b) && NumberValue(a) == NumberValue(b))
    || (a.JStr? && b.JStr? && a.s == b.s)
    || (a.JNull? && b.JNull?)
  }

  /** Two hashable values address the same dict entry exactly when Python
      considers them equal: `True`, `1` and `1.0` share one key, while `1`
      and `"1"` do not. */
  lemma HashKeyIsPyEq(a: Json, b: Json)
    requires HashKey(a).Some? && HashKey(b).Some?
    ensures HashKey(a) == HashKey(b) <==> PyEq(a, b)
  {
  }

  /** A hashable value is falsy exactly when, as a dict key, it is the key of
      `0`, of `""` or of `None`. */
  lemma FalsyKeys(j: Json)
    requires HashKey(j).Some?
    ensures !Truthy(j) <==> HashKey(j).value in {NumKey(0.0), StrKey(""), NullKey}
  {
  }

  /** Member `i` is the last one in `ms` called `name`. */
  ghost predicate LastNamed(ms: seq<Member>, name: string, i: int) {
    && 0 <= i < |ms|
    && ms[i].name == name
    && forall j :: i < j < |ms| ==> ms[j].name != name
  }

  /** The value of member `name` of a parsed object (see `GetIsLastNamed`). */
  function Get(ms: seq<Member>, name: string): (r: Option<Json>)
    decreases |ms|
  {
    if |ms| == 0 then None
    else if ms[|ms| - 1].name == name then Some(ms[|ms| - 1].value)
    else Get(ms[..|ms| - 1], name)
  }

  /** A member lookup finds nothing exactly when no member has that name, and
      otherwise yields the LAST member of that name: when a document repeats
      a name, the later value wins, as with `json.loads`. */
  lemma {:induction false} GetIsLastNamed(ms: seq<Member>, name: string)
    ensures Get(ms, name).None? <==> forall i :: 0 <= i < |ms| ==> ms[i].name != name
    ensures forall i :: LastNamed(ms, name, i) ==> Get(ms, name) == Some(ms[i].value)
    decreases |ms|
  {
    if |ms| > 0 && ms[|ms| - 1].name != name {
      var pre := ms[..|ms| - 1];
      GetIsLastNamed(pre, name);
      assert forall i :: 0 <= i < |pre| ==> pre[i] == ms[i];
      forall i | LastNamed(ms, name, i)
        ensures LastNamed(pre, name, i)
      {
        assert i < |pre|;
      }
    }
  }

  /** Python's `d.get(name, default)` on a parsed object. */
  function Lookup(ms: seq<Member>, name: string, default: Json): (r: Json) {
    match Get(ms, name)
    case Some(v) => v
    case None => default
  }

  /** The distinct member names of an object in first-occurrence order: the
      keys of the dict `json.loads` builds. */
  function Names(ms: seq<Member>): (r: seq<string>)
    ensures forall n :: n in r <==> exists i :: 0 <= i < |ms| && ms[i].name == n
    ensures forall i, j :: 0 <= i < j < |r| ==> r[i] != r[j]
    decreases |ms|
  {
    if |ms| == 0 then []
    else
      var before := Names(ms[..|ms| - 1]);
      var n := ms[|ms| - 1].name;
      if n in before then before else before + [n]
  }

  /** The elements `for x in j` visits: a list's items, a string's
      characters (as one-character strings), a dict's keys; a number, a bool
      or `None` is not iterable. */
  function Iterate(j: Json): (r: Result<seq<Json>, PyException>)
    ensures r.Failure? <==> j.JNull? || j.JBool? || j.JInt? || j.JFloat?
    ensures r.Failure? ==> r.error == TypeError
    ensures j.JArr? ==> r == Success(j.items)
    ensures j.JStr? ==> r.Success? && |r.value| == |j.s| && forall k :: 0 <= k < |j.s| ==> r.value[k] == JStr([j.s[k]])
    ensures j.JObj? ==> r.Success? && |r.value| == |Names(j.members)|
    ensures j.JObj? ==> forall k :: 0 <= k < |r.value| ==> r.value[k] == JStr(Names(j.members)[k])
    ensures r.Success? && !j.JArr? ==> forall x :: x in r.value ==> x.JStr?
  {
    match j
    case JArr(xs) => Success(xs)
    case JStr(s) => Success(seq(|s|, k requires 0 <= k < |s| => JStr([s[k]])))
    case JObj(ms) =>
      var ns := Names(ms);
      Success(seq(|ns|, k requires 0 <= k < |ns| => JStr(ns[k])))
    case _ => Failure(TypeError)
  }

  predicate IsNumber(j: Json) {
    j.JBool? || j.JInt? || j.JFloat?
  }

  /** The integer value of a bool or int (`True` counts as 1). */
  function IntValue(j: Json): (r: int)
    requires j.JBool? || j.JInt?
  {
    if j.JBool? then (if j.b then 1 else 0) else j.i
  }

  /** The numeric value of a bool, int or float. */
  function NumberValue(j: Json): (r: real)
    requires IsNumber(j)
  {
    if j.JFloat? then j.f else IntValue(j) as real
  }

  /** 2^1024 - 2^970: the smallest integer that rounds past the largest
      double, so converting it (or anything larger) to `float` raises. */
  const FloatLimit: int := 0xfffffffffffffc00000000000000000000000000000000000000000000000000000000000000000000000000000000000000000000000000000000000000000000000000000000000000000000000000000000000000000000000000000000000000000000000000000000000000000000000000000000000000000000000000

  /** The largest finite double, `sys.float_info.max`, as an integer. */
  const MaxDouble: int := 179769313486231570814527423731704356798070567525844996598917476803157260780028538760589558632766878171540458953514382464234321326889464182768467546703537516986049910576551282076245490090389328944075868508455133942304583236903222948165808559332123348274797826204144723168738177180919299881250404026184124858368

  /** `FloatLimit` lies half a unit in the last place above `MaxDouble`:
      the midpoint to the next power of two, where rounding to nearest-even
      goes up and the conversion overflows. */
  lemma FloatLimitPastMaxDouble()
    ensures FloatLimit == MaxDouble + MaxDouble / (2 * 0x1fffffffffffff)
  {
  }

  /** The value converts to `float` without `OverflowError`: every bool and
      float does, an int does when its magnitude is below `FloatLimit`. */
  predicate FitsFloat(j: Json) {
    j.JInt? ==> -FloatLimit < j.i < FloatLimit
  }

  /** `acc += more`: a list is extended in place with whatever iterating
      `more` yields, two strings concatenate, two numbers add (a bool or int
      pair stays an int; mixing in a float converts the int side first, which
      raises `OverflowError` for an int too large for a double), and every
      other combination raises `TypeError`. */
  function InPlaceAdd(acc: Json, more: Json): (r: Result<Json, PyException>)
    ensures r.Failure? ==> r.error == TypeError || r.error == OverflowError
    ensures r == Failure(OverflowError) <==>
              (acc.JFloat? && more.JInt? && !FitsFloat(more)) || (acc.JInt? && more.JFloat? && !FitsFloat(acc))
    ensures r.Success? ==> (acc.JArr? <==> r.value.JArr?) && (acc.JStr? <==> r.value.JStr?)
    ensures acc.JArr? ==> (r.Success? <==> Iterate(more).Success?)
    ensures acc.JArr? && r.Success? ==> r.value.items == acc.items + Iterate(more).value
    ensures acc.JStr? ==> (r.Success? <==> more.JStr?)
    ensures acc.JStr? && r.Success? ==> r.value.s == acc.s + more.s
    ensures IsNumber(acc) ==>
              (r.Success? <==> IsNumber(more) && (acc.JFloat? || more.JFloat? ==> FitsFloat(acc) && FitsFloat(more)))
    ensures IsNumber(acc) && r.Success? ==>
              && IsNumber(r.value)
              && NumberValue(r.value) == NumberValue(acc) + NumberValue(more)
              && (r.value.JFloat? <==> acc.JFloat? || more.JFloat?)
    ensures acc.JObj? || acc.JNull? ==> r.Failure?
  {
    match acc
    case JArr(xs) =>
      var ys :- Iterate(more);
      Success(JArr(xs + ys))
    case JStr(s) =>
      if more.JStr? then Success(JStr(s + more.s)) else Failure(TypeError)
    case JNull => Failure(TypeError)
    case JObj(_) => Failure(TypeError)
    case JFloat(f) =>
      if !IsNumber(more) then Failure(TypeError)
      else if !FitsFloat(more) then Failure(OverflowError)
      else Success(JFloat(f + NumberValue(more)))
    case _ =>
      if more.JBool? || more.JInt? then Success(JInt(IntValue(acc) + IntValue(more)))
      else if !more.JFloat? then Failure(TypeError)
      else if !FitsFloat(acc) then Failure(OverflowError)
      else Success(JFloat(NumberValue(acc) + more.f))
  }
}
