/**
  The few Python built-ins the transformer leans on, over JSON values:
  `str()`, `float()`, `==`, the ordering operators and the prefix slice
  `x[:n]`. Conversions whose exact text is irrelevant to the transformer
  (the digits of `str(1.5)`, the repr of a dict, the grammar `float()`
  accepts) are parameters, collected in `Builtins`.
 */
module Python {
  import opened Json

  datatype Builtins = Builtins(
    floatStr: real -> string,        // str() of a float
    reprStr: Value -> string,        // str() of a list or a dict
    parseFloat: string -> Option<real>  // float() of a string; None is a ValueError
  )

  function Digit(d: nat): char
    requires d < 10
  {
    "0123456789"[d]
  }

  /** The decimal digits of a natural number. */
  function Decimal(n: nat): (r: string)
    ensures |r| > 0
    decreases n
  {
    if n < 10 then [Digit(n)] else Decimal(n / 10) + [Digit(n % 10)]
  }

  /** `str(i)` for an int. */
  function IntStr(i: int): string {
    if i < 0 then "-" + Decimal(-i) else Decimal(i)
  }

  /** `str(v)`: None prints as "None", a string as itself. */
  function PyStr(py: Builtins, v: Value): string {
    match v
    case Null => "None"
    case Bool(b) => if b then "True" else "False"
    case Int(i) => IntStr(i)
    case Float(f) => py.floatStr(f)
    case Str(s) => s
    case Arr(_) => py.reprStr(v)
    case Obj(_) => py.reprStr(v)
  }

  /** `float(v)`: `Ok(Some(x))` on success, `Ok(None)` for the ValueError of
      an unparsable string, `Fail` for the TypeError raised on None, a list
      or a dict. */
  function PyFloat(py: Builtins, v: Value): (r: Result<Option<real>>)
    ensures r.Fail? <==> v.Null? || v.Arr? || v.Obj?
    ensures r.Ok? && r.value.None? ==> v.Str? && py.parseFloat(v.s).None?
    ensures IsNumber(v) ==> r == Ok(Some(NumOf(v)))
  {
    match v
    case Null => Fail
    case Bool(b) => Ok(Some(if b then 1.0 else 0.0))
    case Int(i) => Ok(Some(i as real))
    case Float(f) => Ok(Some(f))
    case Str(s) => Ok(py.parseFloat(s))
    case Arr(_) => Fail
    case Obj(_) => Fail
  }

  /** bool, int and float all compare as numbers in Python. */
  predicate IsNumber(v: Value) {
    v.Bool? || v.Int? || v.Float?
  }

  function NumOf(v: Value): real
    requires IsNumber(v)
  {
    match v
    case Bool(b) => if b then 1.0 else 0.0
    case Int(i) => i as real
    case Float(f) => f
  }

  /** Python `a == b` on JSON values: numbers by value (so `True == 1 == 1.0`),
      lists element-wise, dicts by key set and the value under each key. */
  predicate PyEq(a: Value, b: Value)
    decreases a
  {
    if IsNumber(a) || IsNumber(b) then IsNumber(a) && IsNumber(b) && NumOf(a) == NumOf(b)
    else match a
      case Null => b.Null?
      case Str(s) => b.Str? && b.s == s
      case Arr(xs) =>
        b.Arr? && |xs| == |b.items| &&
        forall i | 0 <= i < |xs| :: PyEq(xs[i], b.items[i])
      case Obj(fa) =>
        b.Obj? && |fa| == |b.fields| &&
        (forall i | 0 <= i < |fa| ::
          var p := Find(b.fields, fa[i].0); p.Some? && PyEq(fa[i].1, b.fields[p.value].1)) &&
        (forall j | 0 <= j < |b.fields| ::
          var p := Find(fa, b.fields[j].0); p.Some? && PyEq(fa[p.value].1, b.fields[j].1))
  }

  /** `==` is symmetric. */
  lemma {:induction false} PyEqSymmetric(a: Value, b: Value)
    ensures PyEq(a, b) == PyEq(b, a)
    decreases a, 1
  {
    if IsNumber(a) || IsNumber(b) {
    } else if a.Arr? && b.Arr? {
      PyEqSymmetricItems(a, b);
    } else if a.Obj? && b.Obj? {
      PyEqSymmetricFields(a, b);
    }
  }

  lemma {:induction false} PyEqSymmetricItems(a: Value, b: Value)
    requires a.Arr? && b.Arr?
    ensures PyEq(a, b) == PyEq(b, a)
    decreases a, 0
  {
    if |a.items| == |b.items| {
      forall i | 0 <= i < |a.items| ensures PyEq(a.items[i], b.items[i]) == PyEq(b.items[i], a.items[i]) {
        PyEqSymmetric(a.items[i], b.items[i]);
      }
    }
  }

  lemma {:induction false} PyEqSymmetricFields(a: Value, b: Value)
    requires a.Obj? && b.Obj?
    ensures PyEq(a, b) == PyEq(b, a)
    decreases a, 0
  {
    var fa, fb := a.fields, b.fields;
    if |fa| == |fb| {
      forall i | 0 <= i < |fa| && Find(fb, fa[i].0).Some?
        ensures PyEq(fa[i].1, fb[Find(fb, fa[i].0).value].1) == PyEq(fb[Find(fb, fa[i].0).value].1, fa[i].1)
      {
        PyEqSymmetric(fa[i].1, fb[Find(fb, fa[i].0).value].1);
      }
      forall j | 0 <= j < |fb| && Find(fa, fb[j].0).Some?
        ensures PyEq(fa[Find(fa, fb[j].0).value].1, fb[j].1) == PyEq(fb[j].1, fa[Find(fa, fb[j].0).value].1)
      {
        PyEqSymmetric(fa[Find(fa, fb[j].0).value].1, fb[j].1);
      }
    }
  }

  /** The ordering operators `<`, `<=`, `>`, `>=`. */
  datatype Op = Lt | Le | Gt | Ge {
    /** The operator with its operands swapped: `a < b` is `b > a`. */
    function Flip(): Op {
      match this
      case Lt => Gt
      case Le => Ge
      case Gt => Lt
      case Ge => Le
    }
  }

  predicate Ordered(op: Op, x: real, y: real) {
    match op
    case Lt => x < y
    case Le => x <= y
    case Gt => x > y
    case Ge => x >= y
  }

  /** The first position, from `k` on, where two strings differ, or the
      shorter length when one is a prefix of the other. */
  function FirstDiffStr(s: string, t: string, k: nat): (d: nat)
    requires k <= |s| && k <= |t|
    ensures k <= d <= |s| && d <= |t|
    ensures forall i :: k <= i < d ==> s[i] == t[i]
    ensures d < |s| && d < |t| ==> s[d] != t[d]
    decreases |s| - k
  {
    if k == |s| || k == |t| || s[k] != t[k] then k else FirstDiffStr(s, t, k + 1)
  }

  /** The first position, from `k` on, where two lists hold elements that
      are not `==`, or the shorter length. */
  function FirstDiff(xs: seq<Value>, ys: seq<Value>, k: nat): (d: nat)
    requires k <= |xs| && k <= |ys|
    ensures k <= d <= |xs| && d <= |ys|
    ensures forall i :: k <= i < d ==> PyEq(xs[i], ys[i])
    ensures d < |xs| && d < |ys| ==> !PyEq(xs[d], ys[d])
    decreases |xs| - k
  {
    if k == |xs| || k == |ys| || !PyEq(xs[k], ys[k]) then k else FirstDiff(xs, ys, k + 1)
  }

  /** Python's `a < b` (and friends): numbers by value, strings by code
      point, lists lexicographically with `==` to skip equal elements.
      Every other pairing, None and dicts included, raises a TypeError. */
  function PyCompare(op: Op, a: Value, b: Value): Result<bool>
    decreases a
  {
    if IsNumber(a) && IsNumber(b) then Ok(Ordered(op, NumOf(a), NumOf(b)))
    else if a.Str? && b.Str? then
      var d := FirstDiffStr(a.s, b.s, 0);
      if d < |a.s| && d < |b.s| then Ok(Ordered(op, a.s[d] as int as real, b.s[d] as int as real))
      else Ok(Ordered(op, |a.s| as real, |b.s| as real))
    else if a.Arr? && b.Arr? then
      var d := FirstDiff(a.items, b.items, 0);
      if d < |a.items| && d < |b.items| then PyCompare(op, a.items[d], b.items[d])
      else Ok(Ordered(op, |a.items| as real, |b.items| as real))
    else Fail
  }

  /** Ordering against None is a TypeError, never a quiet false. */
  lemma CompareNoneFails(op: Op, v: Value)
    ensures PyCompare(op, Null, v) == Fail && PyCompare(op, v, Null) == Fail
  {
  }

  lemma {:induction false} FirstDiffStrFlip(s: string, t: string, k: nat)
    requires k <= |s| && k <= |t|
    ensures FirstDiffStr(s, t, k) == FirstDiffStr(t, s, k)
    decreases |s| - k
  {
    if k == |s| || k == |t| || s[k] != t[k] {
    } else {
      FirstDiffStrFlip(s, t, k + 1);
    }
  }

  lemma {:induction false} FirstDiffFlip(xs: seq<Value>, ys: seq<Value>, k: nat)
    requires k <= |xs| && k <= |ys|
    ensures FirstDiff(xs, ys, k) == FirstDiff(ys, xs, k)
    decreases |xs| - k
  {
    if k == |xs| || k == |ys| {
    } else {
      PyEqSymmetric(xs[k], ys[k]);
      if PyEq(xs[k], ys[k]) {
        FirstDiffFlip(xs, ys, k + 1);
      }
    }
  }

  /** `a < b` is `b > a`, `a <= b` is `b >= a`, and so on, including which
      pairings raise. */
  lemma {:induction false} CompareFlip(op: Op, a: Value, b: Value)
    ensures PyCompare(op, a, b) == PyCompare(op.Flip(), b, a)
    decreases a
  {
    if IsNumber(a) && IsNumber(b) {
    } else if a.Str? && b.Str? {
      FirstDiffStrFlip(a.s, b.s, 0);
    } else if a.Arr? && b.Arr? {
      FirstDiffFlip(a.items, b.items, 0);
      var d := FirstDiff(a.items, b.items, 0);
      if d < |a.items| && d < |b.items| {
        CompareFlip(op, a.items[d], b.items[d]);
      }
    }
  }

  /** The `stop` of a slice: None slices to the end; ints (bools included)
      are used as they are; anything else is a TypeError. */
  function SliceStop(length: Value): Result<Option<int>> {
    match length
    case Null => Ok(None)
    case Bool(b) => Ok(Some(if b then 1 else 0))
    case Int(n) => Ok(Some(n))
    case _ => Fail
  }

  /** Python's normalisation of a slice stop against a length: a negative
      stop counts from the end, and both ends clamp. */
  function ClampStop(stop: Option<int>, len: nat): (c: nat)
    ensures c <= len
  {
    match stop
    case None => len
    case Some(n) =>
      if n < 0 then (if len + n < 0 then 0 else len + n)
      else if n > len then len else n
  }

  /** `v[:length]` on a string or a list. */
  function PrefixSlice(v: Value, length: Value): (r: Result<Value>)
    ensures r.Ok? <==> (v.Str? || v.Arr?) && SliceStop(length).Ok?
    ensures r.Ok? && v.Str? ==> r.value.Str? && r.value.s <= v.s
    ensures r.Ok? && v.Arr? ==> r.value.Arr? && r.value.items <= v.items
    ensures r.Ok? && length.Int? && length.i >= 0 ==>
      Len(r.value) == if length.i < Len(v) then length.i else Len(v)
    ensures r.Ok? && length.Int? && length.i < 0 ==>
      Len(r.value) == if Len(v) + length.i < 0 then 0 else Len(v) + length.i
    ensures r.Ok? && length.Null? ==> r.value == v
  {
    var stop :- SliceStop(length);
    match v
    case Str(s) => Ok(Str(s[..ClampStop(stop, |s|)]))
    case Arr(xs) => Ok(Arr(xs[..ClampStop(stop, |xs|)]))
    case _ => Fail
  }

  /** `for x in v`: a list yields its items, a dict its keys and a string
      its characters, each a one-character string; None, bools and numbers
      are not iterable (TypeError). */
  function Iterate(v: Value): (r: Result<seq<Value>>)
    ensures r.Ok? <==> v.Arr? || v.Obj? || v.Str?
    ensures v.Arr? ==> r == Ok(v.items)
    ensures v.Obj? ==>
      r.Ok? && |r.value| == |v.fields| && forall k :: 0 <= k < |v.fields| ==> r.value[k] == Str(v.fields[k].0)
    ensures v.Str? ==>
      r.Ok? && |r.value| == |v.s| && forall k :: 0 <= k < |v.s| ==> r.value[k] == Str([v.s[k]])
  {
    match v
    case Arr(items) => Ok(items)
    case Obj(fields) => Ok(seq(|fields|, k requires 0 <= k < |fields| => Str(fields[k].0)))
    case Str(s) => Ok(seq(|s|, k requires 0 <= k < |s| => Str([s[k]])))
    case _ => Fail
  }

  /** `len()` of a string or a list. */
  function Len(v: Value): nat
    requires v.Str? || v.Arr?
  {
    if v.Str? then |v.s| else |v.items|
  }
}
