/**
  How the interpreter consumes a list of sub-expressions, over their
  outcomes: the list comprehension of `join`, the `next(...)` generator of
  `coalesce`, `all(...)` and `any(...)` of the `and` and `or` conditions,
  and the `sum` and `difference` loops. An outcome at position `k` is the
  value (or the escaped exception) of the `k`-th sub-expression; each
  consumer reads the outcomes strictly in order and stops where Python
  stops, so an outcome it never reaches has no effect on its result.
 */
module Iteration {
  import opened Json
  import opened Python

  /** A list comprehension `[e for e in ...]`: every value in order, or
      `Fail` as soon as one of them raised. */
  function AllOk<T>(rs: seq<Result<T>>): (r: Result<seq<T>>)
    ensures r.Ok? <==> forall k :: 0 <= k < |rs| ==> rs[k].Ok?
    ensures r.Ok? ==> |r.value| == |rs| && forall k :: 0 <= k < |rs| ==> rs[k] == Ok(r.value[k])
  {
    if rs == [] then Ok([])
    else
      var v :- rs[0];
      var rest :- AllOk(rs[1..]);
      Ok([v] + rest)
  }

  /** `''.join([str(v) for v in vs])` */
  function ConcatStr(py: Builtins, vs: seq<Value>): string {
    if vs == [] then "" else PyStr(py, vs[0]) + ConcatStr(py, vs[1..])
  }

  /** Strings are joined as they are: the join of strings is their
      concatenation. */
  lemma {:induction false} ConcatOfStrings(py: Builtins, vs: seq<Value>, ss: seq<string>)
    requires |vs| == |ss| && forall k :: 0 <= k < |vs| ==> vs[k] == Str(ss[k])
    ensures ConcatStr(py, vs) == Flatten(ss)
    decreases |vs|
  {
    if vs != [] {
      ConcatOfStrings(py, vs[1..], ss[1..]);
    }
  }

  function Flatten(ss: seq<string>): string {
    if ss == [] then "" else ss[0] + Flatten(ss[1..])
  }

  /** `next((v for v in rs[i:] if v), None)`: the first truthy value from `i`
      on, None when there is none; an exception raised before it escapes. */
  function FirstTruthy(rs: seq<Result<Value>>, i: nat): Result<Value>
    requires i <= |rs|
    decreases |rs| - i
  {
    if i == |rs| then Ok(Null)
    else
      var v :- rs[i];
      if Truthy(v) then Ok(v) else FirstTruthy(rs, i + 1)
  }

  /** The outcome at `j` is a value that `coalesce` passes over. */
  predicate Skipped(r: Result<Value>) {
    r.Ok? && !Truthy(r.value)
  }

  /** `coalesce` stops at the first outcome it does not pass over: that
      outcome is the result (a truthy value, or the exception), and None
      when it passed over everything. */
  lemma {:induction false} FirstTruthyStops(rs: seq<Result<Value>>, i: nat, k: nat)
    requires i <= k <= |rs|
    requires forall j :: i <= j < k ==> Skipped(rs[j])
    requires k < |rs| ==> !Skipped(rs[k])
    ensures FirstTruthy(rs, i) == if k == |rs| then Ok(Null) else rs[k]
    decreases k - i
  {
    if i < k {
      FirstTruthyStops(rs, i + 1, k);
    }
  }

  /** `all(...)` over the outcomes from `i` on: stops at the first False. */
  function AllOf(rs: seq<Result<bool>>, i: nat): Result<bool>
    requires i <= |rs|
    decreases |rs| - i
  {
    if i == |rs| then Ok(true)
    else
      var holds :- rs[i];
      if !holds then Ok(false) else AllOf(rs, i + 1)
  }

  /** `all(...)` is decided by the first outcome that is not True: False
      or the exception it raised; True when every outcome is True. */
  lemma {:induction false} AllOfStops(rs: seq<Result<bool>>, i: nat, k: nat)
    requires i <= k <= |rs|
    requires forall j :: i <= j < k ==> rs[j] == Ok(true)
    requires k < |rs| ==> rs[k] != Ok(true)
    ensures AllOf(rs, i) == if k == |rs| then Ok(true) else rs[k]
    decreases k - i
  {
    if i < k {
      AllOfStops(rs, i + 1, k);
    }
  }

  /** `any(...)` over the outcomes from `i` on: stops at the first True. */
  function AnyOf(rs: seq<Result<bool>>, i: nat): Result<bool>
    requires i <= |rs|
    decreases |rs| - i
  {
    if i == |rs| then Ok(false)
    else
      var holds :- rs[i];
      if holds then Ok(true) else AnyOf(rs, i + 1)
  }

  /** `any(...)` is decided by the first outcome that is not False: True
      or the exception it raised; False when every outcome is False. */
  lemma {:induction false} AnyOfStops(rs: seq<Result<bool>>, i: nat, k: nat)
    requires i <= k <= |rs|
    requires forall j :: i <= j < k ==> rs[j] == Ok(false)
    requires k < |rs| ==> rs[k] != Ok(false)
    ensures AnyOf(rs, i) == if k == |rs| then Ok(false) else rs[k]
    decreases k - i
  {
    if i < k {
      AnyOfStops(rs, i + 1, k);
    }
  }

  /** `float()` of the object at `i`: the exception its outcome raised, a
      TypeError, or the number (none for a ValueError). */
  function NumberAt(py: Builtins, rs: seq<Result<Value>>, i: nat): Result<Option<real>>
    requires i < |rs|
  {
    var v :- rs[i];
    PyFloat(py, v)
  }

  /** The `sum` loop from position `i` on, with the running total `acc`
      (the int 0 until a float has been added): a ValueError of `float()`
      skips the object, any other exception escapes. */
  function SumLoop(py: Builtins, rs: seq<Result<Value>>, i: nat, acc: Value): Result<Value>
    requires i <= |rs| && IsNumber(acc)
    decreases |rs| - i
  {
    if i == |rs| then Ok(acc)
    else
      var f :- NumberAt(py, rs, i);
      var acc' := if f.Some? then Float(NumOf(acc) + f.value) else acc;
      SumLoop(py, rs, i + 1, acc')
  }

  /** One step of the `sum` loop. */
  lemma SumLoopStep(py: Builtins, rs: seq<Result<Value>>, i: nat, acc: Value, f: Option<real>)
    requires i < |rs| && IsNumber(acc)
    ensures NumberAt(py, rs, i).Fail? ==> SumLoop(py, rs, i, acc) == Fail
    ensures NumberAt(py, rs, i) == Ok(f) ==>
      SumLoop(py, rs, i, acc) == SumLoop(py, rs, i + 1, if f.Some? then Float(NumOf(acc) + f.value) else acc)
  {
  }

  /** The `difference` loop from position `i` on: the first object seeds
      `diff`, each later one is subtracted; `is_first` turns false after the
      first object even when its `float()` raised a ValueError. */
  function DifferenceLoop(py: Builtins, rs: seq<Result<Value>>, i: nat, isFirst: bool, diff: Value): Result<Value>
    requires i <= |rs| && IsNumber(diff)
    decreases |rs| - i
  {
    if i == |rs| then Ok(diff)
    else
      var f :- NumberAt(py, rs, i);
      var diff' :=
        if f.None? then diff
        else if isFirst then Float(f.value)
        else Float(NumOf(diff) - f.value);
      DifferenceLoop(py, rs, i + 1, false, diff')
  }

  /** One step of the `difference` loop. */
  lemma DifferenceLoopStep(py: Builtins, rs: seq<Result<Value>>, i: nat, isFirst: bool, diff: Value, f: Option<real>)
    requires i < |rs| && IsNumber(diff)
    ensures NumberAt(py, rs, i).Fail? ==> DifferenceLoop(py, rs, i, isFirst, diff) == Fail
    ensures NumberAt(py, rs, i) == Ok(f) ==>
      DifferenceLoop(py, rs, i, isFirst, diff) ==
        DifferenceLoop(py, rs, i + 1, false, if f.None? then diff else if isFirst then Float(f.value) else Float(NumOf(diff) - f.value))
  {
  }

  /** The numbers `float()` makes of the outcomes from `i` on, in order,
      with the ValueErrors dropped; `Fail` when an outcome is an exception
      or `float()` raised a TypeError. */
  function Numbers(py: Builtins, rs: seq<Result<Value>>, i: nat): Result<seq<real>>
    requires i <= |rs|
    decreases |rs| - i
  {
    if i == |rs| then Ok([])
    else
      var f :- NumberAt(py, rs, i);
      var rest :- Numbers(py, rs, i + 1);
      Ok(Listed(f) + rest)
  }

  function Listed(f: Option<real>): seq<real> {
    if f.Some? then [f.value] else []
  }

  function RealSum(xs: seq<real>): real {
    if xs == [] then 0.0 else xs[0] + RealSum(xs[1..])
  }

  lemma RealSumCons(f: Option<real>, xs: seq<real>)
    ensures RealSum(Listed(f) + xs) == (if f.Some? then f.value else 0.0) + RealSum(xs)
  {
    if f.Some? {
      assert (Listed(f) + xs)[1..] == xs;
    } else {
      assert Listed(f) + xs == xs;
    }
  }

  /** The `sum` loop adds every number still to come to its running total,
      which stays as it was (an int included) when none comes. */
  lemma {:induction false} SumLoopTotal(py: Builtins, rs: seq<Result<Value>>, i: nat, acc: Value)
    requires i <= |rs| && IsNumber(acc)
    ensures Numbers(py, rs, i).Fail? ==> SumLoop(py, rs, i, acc) == Fail
    ensures Numbers(py, rs, i).Ok? ==>
      var xs := Numbers(py, rs, i).value;
      SumLoop(py, rs, i, acc) == if xs == [] then Ok(acc) else Ok(Float(NumOf(acc) + RealSum(xs)))
    decreases |rs| - i
  {
    if i < |rs| && NumberAt(py, rs, i).Ok? {
      var f := NumberAt(py, rs, i).value;
      var acc' := if f.Some? then Float(NumOf(acc) + f.value) else acc;
      SumLoopStep(py, rs, i, acc, f);
      SumLoopTotal(py, rs, i + 1, acc');
      if Numbers(py, rs, i + 1).Ok? {
        RealSumCons(f, Numbers(py, rs, i + 1).value);
      }
    }
  }

  /** Past the first object, the `difference` loop subtracts every number
      still to come from `diff`. */
  lemma {:induction false} DifferenceLoopRest(py: Builtins, rs: seq<Result<Value>>, i: nat, diff: Value)
    requires i <= |rs| && IsNumber(diff)
    ensures Numbers(py, rs, i).Fail? ==> DifferenceLoop(py, rs, i, false, diff) == Fail
    ensures Numbers(py, rs, i).Ok? ==>
      var xs := Numbers(py, rs, i).value;
      DifferenceLoop(py, rs, i, false, diff) ==
        if xs == [] then Ok(diff) else Ok(Float(NumOf(diff) - RealSum(xs)))
    decreases |rs| - i
  {
    if i < |rs| && NumberAt(py, rs, i).Ok? {
      var f := NumberAt(py, rs, i).value;
      var diff' := if f.Some? then Float(NumOf(diff) - f.value) else diff;
      DifferenceLoopStep(py, rs, i, false, diff, f);
      DifferenceLoopRest(py, rs, i + 1, diff');
      if Numbers(py, rs, i + 1).Ok? {
        RealSumCons(f, Numbers(py, rs, i + 1).value);
      }
    }
  }

  /** What `sum` computes, stated directly: the sum of the numbers, or the
      int 0 when there are none. */
  function Total(py: Builtins, rs: seq<Result<Value>>): Result<Value> {
    var xs :- Numbers(py, rs, 0);
    if xs == [] then Ok(Int(0)) else Ok(Float(RealSum(xs)))
  }

  /** What `difference` computes, stated directly: the first object's
      number (none when its `float()` raised a ValueError) minus the sum of
      the others', or the int 0 when nothing converted. */
  function FirstMinusRest(py: Builtins, rs: seq<Result<Value>>): Result<Value> {
    if rs == [] then Ok(Int(0))
    else
      var v :- rs[0];
      var first :- PyFloat(py, v);
      var rest :- Numbers(py, rs, 1);
      if first.None? && rest == [] then Ok(Int(0))
      else Ok(Float(RealSum(Listed(first)) - RealSum(rest)))
  }

  /** The `sum` loop computes the total. */
  lemma SumLoopIsTotal(py: Builtins, rs: seq<Result<Value>>)
    ensures SumLoop(py, rs, 0, Int(0)) == Total(py, rs)
  {
    SumLoopTotal(py, rs, 0, Int(0));
  }

  /** The `difference` loop computes the first number minus the rest. */
  lemma DifferenceLoopIsFirstMinusRest(py: Builtins, rs: seq<Result<Value>>)
    ensures DifferenceLoop(py, rs, 0, true, Int(0)) == FirstMinusRest(py, rs)
  {
    if rs != [] && rs[0].Ok? && PyFloat(py, rs[0].value).Ok? {
      var f := PyFloat(py, rs[0].value).value;
      var seed := if f.Some? then Float(f.value) else Int(0);
      assert DifferenceLoop(py, rs, 0, true, Int(0)) == DifferenceLoop(py, rs, 1, false, seed);
      DifferenceLoopRest(py, rs, 1, seed);
      RealSumCons(f, []);
      assert Listed(f) + [] == Listed(f);
    }
  }
}
