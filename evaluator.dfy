/**
  The mapping-expression interpreter of transform_singer/processor.py:
  `Processor.process_mapping` (Eval) and `Processor._process_condition`
  (EvalCond). Expressions are read straight from their JSON form, as the
  Python code reads them, so a missing required key (`mapping['key']`) or a
  node of the wrong kind is an escaped exception (`Fail`), while optional
  keys read with `.get` default to None.
 */
module Evaluator {
  import opened Json
  import opened Python
  import opened Paths
  import opened Iteration

  /** The parts of `self.config` the transformer reads: the `mappings` dict
      (stream path to list of rules) and the `meta` dict, which may be absent. */
  datatype Config = Config(mappings: Fields, meta: Option<Value>)

  /** What `process_mapping` depends on besides its arguments. */
  datatype Env = Env(config: Config, py: Builtins)

  /** A dict whose `type` key holds the string `tag`. */
  predicate Tagged(m: Value, tag: string) {
    m.Obj? && Get(m.fields, "type") == Some(Str(tag))
  }

  /** `process_mapping(mapping, record)`: a falsy mapping gives None,
      otherwise the branch named by `mapping['type']`. */
  function Eval(env: Env, m: Value, record: Value): Result<Value>
    decreases m, 2
  {
    if !Truthy(m) then Ok(Null)
    else
      var tag :- Field(m, "type");
      if tag == Str("record") then EvalRecord(m, record)
      else if tag == Str("config") then EvalConfig(env, m)
      else if tag == Str("text") then Field(m, "val")
      else if tag == Str("join") then EvalJoin(env, m, record)
      else if tag == Str("coalesce") then EvalCoalesce(env, m, record)
      else if tag == Str("substr") then EvalSubstr(env, m, record)
      else if tag == Str("sum") then EvalSum(env, m, record)
      else if tag == Str("difference") then EvalDifference(env, m, record)
      else if tag == Str("if") then EvalIf(env, m, record)
      else Ok(Null)  // an unrecognised type falls through every branch
  }

  /** The `record` branch: `nested_get(record, mapping['key'])`. */
  function EvalRecord(m: Value, record: Value): Result<Value> {
    var key :- Field(m, "key");
    if key.Str? then NestedGet(record, key.s) else Fail
  }

  /** The `config` branch: `nested_get(self.config['meta'], mapping['key'])`. */
  function EvalConfig(env: Env, m: Value): Result<Value> {
    if env.config.meta.None? then Fail
    else
      var key :- Field(m, "key");
      if key.Str? then NestedGet(env.config.meta.value, key.s) else Fail
  }

  /** What `process_mapping` makes of a string it iterated out of a dict or
      a string: None for "", and for any other string the TypeError of
      `s['type']`. */
  function EvalText(x: Value): Result<Value> {
    if !Truthy(x) then Ok(Null) else Fail
  }

  /** `for x in src`, each element evaluated: the outcome of every element,
      position by position; `Fail` when `src` is not iterable. */
  function EvalAll(env: Env, src: Value, record: Value): Result<seq<Result<Value>>>
    decreases src, 0
  {
    if src.Arr? then
      Ok(seq(|src.items|, k requires 0 <= k < |src.items| => Eval(env, src.items[k], record)))
    else
      var xs :- Iterate(src);
      Ok(seq(|xs|, k requires 0 <= k < |xs| => EvalText(xs[k])))
  }

  /** The `join` branch. */
  function EvalJoin(env: Env, m: Value, record: Value): Result<Value>
    requires m.Obj?
    decreases m, 1
  {
    match Find(m.fields, "pieces")
    case None => Fail
    case Some(j) =>
      var rs :- EvalAll(env, m.fields[j].1, record);
      var vs :- AllOk(rs);
      Ok(Str(ConcatStr(env.py, vs)))
  }

  /** The `coalesce` branch. The source evaluates each object twice, once
      for the test and once for the value; evaluation has no side effects,
      so once is the same. */
  function EvalCoalesce(env: Env, m: Value, record: Value): Result<Value>
    requires m.Obj?
    decreases m, 1
  {
    match Find(m.fields, "objects")
    case None => Fail
    case Some(j) =>
      var rs :- EvalAll(env, m.fields[j].1, record);
      FirstTruthy(rs, 0)
  }

  /** The `substr` branch: `process_mapping(mapping['object'])[:mapping['length']]`. */
  function EvalSubstr(env: Env, m: Value, record: Value): Result<Value>
    requires m.Obj?
    decreases m, 1
  {
    match Find(m.fields, "object")
    case None => Fail
    case Some(j) =>
      var v :- Eval(env, m.fields[j].1, record);
      var length :- Field(m, "length");
      PrefixSlice(v, length)
  }

  /** The `sum` branch. */
  function EvalSum(env: Env, m: Value, record: Value): Result<Value>
    requires m.Obj?
    decreases m, 1
  {
    match Find(m.fields, "objects")
    case None => Fail
    case Some(j) =>
      var rs :- EvalAll(env, m.fields[j].1, record);
      SumLoop(env.py, rs, 0, Int(0))
  }

  /** The `difference` branch. */
  function EvalDifference(env: Env, m: Value, record: Value): Result<Value>
    requires m.Obj?
    decreases m, 1
  {
    match Find(m.fields, "objects")
    case None => Fail
    case Some(j) =>
      var rs :- EvalAll(env, m.fields[j].1, record);
      DifferenceLoop(env.py, rs, 0, true, Int(0))
  }

  /** The `if` branch. */
  function EvalIf(env: Env, m: Value, record: Value): Result<Value>
    requires m.Obj?
    decreases m, 1
  {
    match Find(m.fields, "condition")
    case None => Fail  // `_process_condition(None)` subscripts None
    case Some(j) =>
      var holds :- EvalCond(env, m.fields[j].1, record);
      if holds then EvalField(env, m, "then", record) else EvalField(env, m, "else", record)
  }

  /** `process_mapping(m.get(key), record)`: a missing key evaluates as None. */
  function EvalField(env: Env, m: Value, key: string, record: Value): Result<Value>
    requires m.Obj?
    decreases m, 0
  {
    match Find(m.fields, key)
    case None => Ok(Null)
    case Some(j) => Eval(env, m.fields[j].1, record)
  }

  /** `_process_condition(obj, record)` */
  function EvalCond(env: Env, c: Value, record: Value): Result<bool>
    decreases c, 2
  {
    var op :- Field(c, "operator");
    if op == Str("and") || op == Str("or") then
      var conditions :- Field(c, "conditions");
      var rs :- CondAll(env, conditions, record);
      if op == Str("and") then AllOf(rs, 0) else AnyOf(rs, 0)
    else
      var left :- EvalField(env, c, "left", record);
      var right :- EvalField(env, c, "right", record);
      Compare(op, left, right)
  }

  /** The comparison named by `obj['operator']` on the evaluated sides; an
      operator none of the branches names gives False. */
  function Compare(op: Value, left: Value, right: Value): Result<bool> {
    if op == Str("eq") then Ok(PyEq(left, right))
    else if op == Str("lt") then PyCompare(Lt, left, right)
    else if op == Str("lte") then PyCompare(Le, left, right)
    else if op == Str("gt") then PyCompare(Gt, left, right)
    else if op == Str("gte") then PyCompare(Ge, left, right)
    else Ok(false)
  }

  /** `for c in src`, each element tested as a condition; a string iterated
      out of a dict or a string is no condition (`s['operator']` raises). */
  function CondAll(env: Env, src: Value, record: Value): Result<seq<Result<bool>>>
    decreases src, 0
  {
    if src.Arr? then
      Ok(seq(|src.items|, k requires 0 <= k < |src.items| => EvalCond(env, src.items[k], record)))
    else
      var xs :- Iterate(src);
      Ok(seq(|xs|, k requires 0 <= k < |xs| => Fail))
  }

  // ---------------------------------------------------------------------
  // What the interpreter promises, expression kind by expression kind.

  /** The `type` strings `process_mapping` has a branch for. */
  const KnownTypes: set<string> :=
    {"record", "config", "text", "join", "coalesce", "substr", "sum", "difference", "if"}

  /** `if not mapping: return`: None, {}, "", 0 and [] all evaluate to None. */
  lemma FalsyIsNone(env: Env, m: Value, record: Value)
    requires !Truthy(m)
    ensures Eval(env, m, record) == Ok(Null)
  {
  }

  /** A `type` no branch names falls through to None; a non-empty dict with
      no `type` at all raises a KeyError. */
  lemma UnknownType(env: Env, m: Value, t: Value, record: Value)
    requires m.Obj? && m.fields != []
    ensures Get(m.fields, "type") == Some(t) && !(t.Str? && t.s in KnownTypes) ==>
      Eval(env, m, record) == Ok(Null)
    ensures !HasKey(m.fields, "type") ==> Eval(env, m, record) == Fail
  {
  }

  /** `record` and `config` expressions are `nested_get` on the record and
      on `config['meta']`; a missing `meta` raises. */
  lemma LookupExpressions(env: Env, m: Value, key: string, record: Value)
    requires m.Obj? && Get(m.fields, "key") == Some(Str(key))
    ensures Tagged(m, "record") ==> Eval(env, m, record) == NestedGet(record, key)
    ensures Tagged(m, "config") && env.config.meta.Some? ==>
      Eval(env, m, record) == NestedGet(env.config.meta.value, key)
    ensures Tagged(m, "config") && env.config.meta.None? ==> Eval(env, m, record) == Fail
  {
  }

  /** A `record` expression reads back exactly what `nested_set` wrote at
      its key. */
  lemma RecordReadsBackSet(env: Env, m: Value, key: string, r: Value, v: Value)
    requires Tagged(m, "record") && Get(m.fields, "key") == Some(Str(key))
    requires Addressable(r, key)
    ensures Eval(env, m, NestedSet(r, key, v).value) == Ok(v)
  {
    GetAfterSet(r, key, v);
  }

  /** `text` returns its `val` verbatim, whatever JSON it holds. */
  lemma TextIsVerbatim(env: Env, m: Value, v: Value, record: Value)
    requires Tagged(m, "text") && Get(m.fields, "val") == Some(v)
    ensures Eval(env, m, record) == Ok(v)
  {
  }

  /** Iterating a list of expressions yields the outcome of each; iterating
      a dict or a string yields its keys or characters, each then handed to
      `process_mapping` as it is; anything else is not iterable. */
  lemma EvalAllElements(env: Env, src: Value, record: Value)
    ensures EvalAll(env, src, record).Ok? <==> Iterate(src).Ok?
    ensures EvalAll(env, src, record).Ok? ==>
      var xs, rs := Iterate(src).value, EvalAll(env, src, record).value;
      |rs| == |xs| && forall k :: 0 <= k < |xs| ==> rs[k] == Eval(env, xs[k], record)
  {
    if !src.Arr? && Iterate(src).Ok? {
      var xs := Iterate(src).value;
      forall k | 0 <= k < |xs| ensures EvalText(xs[k]) == Eval(env, xs[k], record) {
        assert xs[k].Str?;
      }
    }
  }

  /** Iterating a list of conditions tests each; iterating a dict or a
      string yields strings, each of which raises as a condition. */
  lemma CondAllElements(env: Env, src: Value, record: Value)
    ensures CondAll(env, src, record).Ok? <==> Iterate(src).Ok?
    ensures CondAll(env, src, record).Ok? ==>
      var xs, rs := Iterate(src).value, CondAll(env, src, record).value;
      |rs| == |xs| && forall k :: 0 <= k < |xs| ==> rs[k] == EvalCond(env, xs[k], record)
  {
    if !src.Arr? && Iterate(src).Ok? {
      var xs := Iterate(src).value;
      forall k | 0 <= k < |xs| ensures EvalCond(env, xs[k], record) == Fail {
        assert xs[k].Str?;
      }
    }
  }

  /** `join` is the in-order concatenation of `str()` of every piece, so a
      piece that evaluates to None contributes the text "None"; iterating a
      dict or a string makes its keys or characters the pieces. */
  lemma JoinPieces(env: Env, m: Value, pieces: Value, xs: seq<Value>, vs: seq<Value>, record: Value)
    requires Tagged(m, "join") && Get(m.fields, "pieces") == Some(pieces)
    requires Iterate(pieces) == Ok(xs) && |vs| == |xs|
    requires forall k :: 0 <= k < |xs| ==> Eval(env, xs[k], record) == Ok(vs[k])
    ensures Eval(env, m, record) == Ok(Str(ConcatStr(env.py, vs)))
  {
    EvalAllElements(env, pieces, record);
    var rs := EvalAll(env, pieces, record).value;
    assert Eval(env, m, record) == Ok(Str(ConcatStr(env.py, AllOk(rs).value))) by {
      assert Eval(env, m, record) == EvalJoin(env, m, record);
    }
    assert AllOk(rs).value == vs;
  }

  /** `join` raises exactly when `pieces` is not iterable or one of the
      pieces raises. */
  lemma JoinRaises(env: Env, m: Value, pieces: Value, record: Value)
    requires Tagged(m, "join") && Get(m.fields, "pieces") == Some(pieces)
    ensures Eval(env, m, record).Fail? <==>
      Iterate(pieces).Fail? ||
      exists k :: 0 <= k < |Iterate(pieces).value| && Eval(env, Iterate(pieces).value[k], record).Fail?
  {
    EvalAllElements(env, pieces, record);
    assert Eval(env, m, record) == EvalJoin(env, m, record);
  }

  /** `coalesce` returns the first object whose value is truthy, the
      objects before it being evaluated and passed over (0 and "" are
      passed over too); an object that raises before a truthy one is found
      makes it raise; when every object is passed over the result is None. */
  lemma CoalesceStops(env: Env, m: Value, objects: Value, xs: seq<Value>, k: nat, record: Value)
    requires Tagged(m, "coalesce") && Get(m.fields, "objects") == Some(objects)
    requires Iterate(objects) == Ok(xs) && k <= |xs|
    requires forall j :: 0 <= j < k ==> Skipped(Eval(env, xs[j], record))
    requires k < |xs| ==> !Skipped(Eval(env, xs[k], record))
    ensures Eval(env, m, record) == if k == |xs| then Ok(Null) else Eval(env, xs[k], record)
  {
    EvalAllElements(env, objects, record);
    var rs := EvalAll(env, objects, record).value;
    assert Eval(env, m, record) == FirstTruthy(rs, 0) by {
      assert Eval(env, m, record) == EvalCoalesce(env, m, record);
    }
    FirstTruthyStops(rs, 0, k);
  }

  /** `substr` is the prefix slice of the object's value. */
  lemma SubstrIsPrefix(env: Env, m: Value, obj: Value, length: Value, v: Value, record: Value)
    requires Tagged(m, "substr") && Get(m.fields, "object") == Some(obj)
    requires Eval(env, obj, record) == Ok(v)
    ensures Get(m.fields, "length") == Some(length) ==> Eval(env, m, record) == PrefixSlice(v, length)
    ensures !HasKey(m.fields, "length") ==> Eval(env, m, record) == Fail
  {
    assert Eval(env, m, record) == EvalSubstr(env, m, record);
  }

  /** `sum` adds up `float()` of every object that converts, starting from
      the int 0: the result stays the int 0 when nothing converted, and an
      object that raises, or a `float()` TypeError, escapes, as does a
      collection that is not iterable. */
  lemma SumIsTotal(env: Env, m: Value, objects: Value, record: Value)
    requires Tagged(m, "sum") && Get(m.fields, "objects") == Some(objects)
    ensures EvalAll(env, objects, record).Fail? ==> Eval(env, m, record) == Fail
    ensures EvalAll(env, objects, record).Ok? ==>
      Eval(env, m, record) == Total(env.py, EvalAll(env, objects, record).value)
  {
    assert Eval(env, m, record) == EvalSum(env, m, record);
    if EvalAll(env, objects, record).Ok? {
      SumLoopIsTotal(env.py, EvalAll(env, objects, record).value);
    }
  }

  /** `difference` is the first object's number (none when its `float()`
      raised a ValueError) minus the sum of the others'; it stays the int 0
      when nothing converted; an object that raises, or a `float()`
      TypeError, escapes, as does a collection that is not iterable. */
  lemma DifferenceIsFirstMinusRest(env: Env, m: Value, objects: Value, record: Value)
    requires Tagged(m, "difference") && Get(m.fields, "objects") == Some(objects)
    ensures EvalAll(env, objects, record).Fail? ==> Eval(env, m, record) == Fail
    ensures EvalAll(env, objects, record).Ok? ==>
      Eval(env, m, record) == FirstMinusRest(env.py, EvalAll(env, objects, record).value)
  {
    assert Eval(env, m, record) == EvalDifference(env, m, record);
    if EvalAll(env, objects, record).Ok? {
      DifferenceLoopIsFirstMinusRest(env.py, EvalAll(env, objects, record).value);
    }
  }

  /** With no objects, `sum` and `difference` both give the int 0. */
  lemma EmptyFoldsAreZero(env: Env, m: Value, record: Value)
    requires Tagged(m, "sum") || Tagged(m, "difference")
    requires Get(m.fields, "objects") in {Some(Arr([])), Some(Obj([])), Some(Str(""))}
    ensures Eval(env, m, record) == Ok(Int(0))
  {
    var objects := Get(m.fields, "objects").value;
    EvalAllElements(env, objects, record);
    assert EvalAll(env, objects, record).value == [];
    if Tagged(m, "sum") {
      assert Eval(env, m, record) == EvalSum(env, m, record);
    } else {
      assert Eval(env, m, record) == EvalDifference(env, m, record);
    }
  }

  /** `if` evaluates `then` exactly when the condition holds and `else`
      otherwise, a missing branch giving None; a missing or raising
      condition raises. */
  lemma IfSelectsBranch(env: Env, m: Value, record: Value)
    requires Tagged(m, "if")
    ensures !HasKey(m.fields, "condition") ==> Eval(env, m, record) == Fail
    ensures Get(m.fields, "condition").Some? ==>
      var holds := EvalCond(env, Get(m.fields, "condition").value, record);
      Eval(env, m, record) ==
        if holds.Fail? then Fail
        else if holds.value then Eval(env, GetOr(m.fields, "then", Null), record)
        else Eval(env, GetOr(m.fields, "else", Null), record)
  {
    assert Eval(env, m, record) == EvalIf(env, m, record);
    EvalFieldDefault(env, m, "then", record);
    EvalFieldDefault(env, m, "else", record);
  }

  /** `process_mapping(m.get(key))` is `process_mapping` of the key's value,
      None when the key is missing. */
  lemma EvalFieldDefault(env: Env, m: Value, key: string, record: Value)
    requires m.Obj?
    ensures EvalField(env, m, key, record) == Eval(env, GetOr(m.fields, key, Null), record)
  {
  }

  /** `and` is `all(...)` over its conditions: it is decided by the first
      condition that does not hold (False, or the exception it raised), the
      later ones never being evaluated; True when every condition holds. */
  lemma AndIsAll(env: Env, c: Value, conditions: Value, xs: seq<Value>, k: nat, record: Value)
    requires c.Obj? && Get(c.fields, "operator") == Some(Str("and"))
    requires Get(c.fields, "conditions") == Some(conditions)
    requires Iterate(conditions) == Ok(xs) && k <= |xs|
    requires forall j :: 0 <= j < k ==> EvalCond(env, xs[j], record) == Ok(true)
    requires k < |xs| ==> EvalCond(env, xs[k], record) != Ok(true)
    ensures EvalCond(env, c, record) == if k == |xs| then Ok(true) else EvalCond(env, xs[k], record)
  {
    CondAllElements(env, conditions, record);
    var rs := CondAll(env, conditions, record).value;
    assert EvalCond(env, c, record) == AllOf(rs, 0);
    AllOfStops(rs, 0, k);
  }

  /** `or` is `any(...)` over its conditions: it is decided by the first
      condition that is not False (True, or the exception it raised), the
      later ones never being evaluated; False when every condition fails. */
  lemma OrIsAny(env: Env, c: Value, conditions: Value, xs: seq<Value>, k: nat, record: Value)
    requires c.Obj? && Get(c.fields, "operator") == Some(Str("or"))
    requires Get(c.fields, "conditions") == Some(conditions)
    requires Iterate(conditions) == Ok(xs) && k <= |xs|
    requires forall j :: 0 <= j < k ==> EvalCond(env, xs[j], record) == Ok(false)
    requires k < |xs| ==> EvalCond(env, xs[k], record) != Ok(false)
    ensures EvalCond(env, c, record) == if k == |xs| then Ok(false) else EvalCond(env, xs[k], record)
  {
    CondAllElements(env, conditions, record);
    var rs := CondAll(env, conditions, record).value;
    assert EvalCond(env, c, record) == AnyOf(rs, 0);
    AnyOfStops(rs, 0, k);
  }

  /** `and` and `or` over a collection that is not iterable raise. */
  lemma ConnectiveNeedsIterable(env: Env, c: Value, conditions: Value, record: Value)
    requires c.Obj? && Get(c.fields, "operator") in {Some(Str("and")), Some(Str("or"))}
    requires Get(c.fields, "conditions") == Some(conditions) && Iterate(conditions).Fail?
    ensures EvalCond(env, c, record) == Fail
  {
    CondAllElements(env, conditions, record);
  }

  /** A comparison: the operator applied to the two sides, each evaluated
      as `process_mapping(obj.get(side))`; either side raising makes the
      condition raise. */
  lemma ComparisonSides(env: Env, c: Value, op: Value, record: Value)
    requires c.Obj? && Get(c.fields, "operator") == Some(op)
    requires op != Str("and") && op != Str("or")
    ensures
      var l := Eval(env, GetOr(c.fields, "left", Null), record);
      var r := Eval(env, GetOr(c.fields, "right", Null), record);
      EvalCond(env, c, record) == if l.Fail? || r.Fail? then Fail else Compare(op, l.value, r.value)
  {
    EvalFieldDefault(env, c, "left", record);
    EvalFieldDefault(env, c, "right", record);
  }

  /** An operator none of the seven names gives False. */
  lemma UnknownOperatorIsFalse(op: Value, left: Value, right: Value)
    requires op !in {Str("and"), Str("or"), Str("eq"), Str("lt"), Str("lte"), Str("gt"), Str("gte")}
    ensures Compare(op, left, right) == Ok(false)
  {
  }

  /** `gt` is `lt` with the sides swapped and `gte` is `lte` swapped, down
      to which pairs raise; `eq` does not depend on the order of its sides. */
  lemma CompareSwapped(left: Value, right: Value)
    ensures Compare(Str("gt"), left, right) == Compare(Str("lt"), right, left)
    ensures Compare(Str("gte"), left, right) == Compare(Str("lte"), right, left)
    ensures Compare(Str("eq"), left, right) == Compare(Str("eq"), right, left)
  {
    CompareFlip(Gt, left, right);
    CompareFlip(Ge, left, right);
    PyEqSymmetric(left, right);
  }

  /** An ordering comparison with a side that is None raises a TypeError;
      it is not a quiet False. */
  lemma OrderingWithNoneFails(op: Value, v: Value)
    requires op in {Str("lt"), Str("lte"), Str("gt"), Str("gte")}
    ensures Compare(op, Null, v) == Fail && Compare(op, v, Null) == Fail
  {
  }
}
