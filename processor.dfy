/**
  `Processor` of transform_singer/processor.py with its loops as loops:
  the `sum` and `difference` accumulators of `process_mapping`, the
  `properties` loop, the segments loop and the rules, keys and items loops
  of `process_record`. Records written with `singer.write_record` are
  appended to `written`. Each method is proved to compute what the
  functions of `Evaluator` and `Expander` specify.
 */
module Processor {
  import opened Json
  import opened Python
  import opened Paths
  import opened Iteration
  import opened Evaluator
  import opened Expander

  class Processor {
    const env: Env
    /** Every `singer.write_record(stream, record)` so far, in order. */
    var written: seq<Emitted>

    constructor(env: Env)
      ensures this.env == env && written == []
    {
      this.env := env;
      written := [];
    }

    /** `process_mapping(mapping, record)`, with the `sum` and `difference`
        loops run step by step; the other branches are comprehensions over
        sub-expressions and are evaluated as `Eval` states them. */
    method ProcessMapping(m: Value, record: Value) returns (r: Result<Value>)
      ensures r == Eval(env, m, record)
      decreases m, 4
    {
      if !Truthy(m) {
        return Ok(Null);
      }
      var tag := Field(m, "type");
      if tag == Ok(Str("sum")) {
        r := Sum(m, record);
        assert Eval(env, m, record) == EvalSum(env, m, record);
      } else if tag == Ok(Str("difference")) {
        r := Difference(m, record);
        assert Eval(env, m, record) == EvalDifference(env, m, record);
      } else {
        r := Eval(env, m, record);
      }
    }

    /** `process_mapping` of the object at `i` of the iterated `objects`; a
        string iterated out of a dict or a string is falsy (None) or raises
        at `obj['type']`. */
    method ProcessElement(m: Value, objects: Value, xs: seq<Value>, i: nat, record: Value) returns (r: Result<Value>)
      requires m.Obj? && Get(m.fields, "objects") == Some(objects)
      requires Iterate(objects) == Ok(xs) && i < |xs|
      ensures r == Eval(env, xs[i], record)
      decreases m, 0
    {
      if objects.Arr? {
        assert xs[i] == objects.items[i] < objects;
        r := ProcessMapping(xs[i], record);
      } else {
        assert xs[i].Str?;
        r := EvalText(xs[i]);
      }
    }

    /** `float(self.process_mapping(obj, record))` for the object at `i`. */
    method ObjectNumber(m: Value, objects: Value, xs: seq<Value>, ghost rs: seq<Result<Value>>, i: nat, record: Value)
      returns (f: Result<Option<real>>)
      requires m.Obj? && Get(m.fields, "objects") == Some(objects)
      requires Iterate(objects) == Ok(xs) && i < |xs| == |rs|
      requires forall k {:trigger Eval(env, xs[k], record)} :: 0 <= k < |xs| ==> rs[k] == Eval(env, xs[k], record)
      ensures f == NumberAt(env.py, rs, i)
      decreases m, 1
    {
      var v := ProcessElement(m, objects, xs, i, record);
      if v.Fail? {
        return Fail;
      }
      f := PyFloat(env.py, v.value);
    }

    /** The `sum` branch: `sum = 0`, then `sum += float(...)` for every
        object, a ValueError skipping the object. */
    method Sum(m: Value, record: Value) returns (r: Result<Value>)
      requires m.Obj?
      ensures r == EvalSum(env, m, record)
      decreases m, 3
    {
      var j := Find(m.fields, "objects");
      if j.None? {
        return Fail;
      }
      var objects := m.fields[j.value].1;
      var xs := Iterate(objects);
      if xs.Fail? {
        return Fail;
      }
      EvalAllElements(env, objects, record);
      ghost var rs := EvalAll(env, objects, record).value;
      r := SumObjects(m, objects, xs.value, rs, record);
    }

    /** The `sum` loop over the iterated objects, whose outcomes are `rs`. */
    method SumObjects(m: Value, objects: Value, xs: seq<Value>, ghost rs: seq<Result<Value>>, record: Value)
      returns (r: Result<Value>)
      requires m.Obj? && Get(m.fields, "objects") == Some(objects) && Iterate(objects) == Ok(xs)
      requires |rs| == |xs|
      requires forall k {:trigger Eval(env, xs[k], record)} :: 0 <= k < |xs| ==> rs[k] == Eval(env, xs[k], record)
      ensures r == SumLoop(env.py, rs, 0, Int(0))
      decreases m, 2
    {
      var sum := Int(0);
      var i := 0;
      while i < |xs|
        invariant i <= |xs| && IsNumber(sum)
        invariant SumLoop(env.py, rs, 0, Int(0)) == SumLoop(env.py, rs, i, sum)
      {
        var f := ObjectNumber(m, objects, xs, rs, i, record);
        if f.Fail? {
          SumLoopStep(env.py, rs, i, sum, None);
          return Fail;  // raised by the object, or the TypeError of float()
        }
        SumLoopStep(env.py, rs, i, sum, f.value);
        if f.value.Some? {
          sum := Float(NumOf(sum) + f.value.value);
        }
        i := i + 1;
      }
      return Ok(sum);
    }

    /** The `difference` branch: the first object sets `diff`, each later
        one is subtracted from it; `is_first` is cleared after the first
        object whether or not its `float()` raised a ValueError. */
    method Difference(m: Value, record: Value) returns (r: Result<Value>)
      requires m.Obj?
      ensures r == EvalDifference(env, m, record)
      decreases m, 3
    {
      var j := Find(m.fields, "objects");
      if j.None? {
        return Fail;
      }
      var objects := m.fields[j.value].1;
      var xs := Iterate(objects);
      if xs.Fail? {
        return Fail;
      }
      EvalAllElements(env, objects, record);
      ghost var rs := EvalAll(env, objects, record).value;
      r := DifferenceObjects(m, objects, xs.value, rs, record);
    }

    /** The `difference` loop over the iterated objects, whose outcomes are
        `rs`. */
    method DifferenceObjects(m: Value, objects: Value, xs: seq<Value>, ghost rs: seq<Result<Value>>, record: Value)
      returns (r: Result<Value>)
      requires m.Obj? && Get(m.fields, "objects") == Some(objects) && Iterate(objects) == Ok(xs)
      requires |rs| == |xs|
      requires forall k {:trigger Eval(env, xs[k], record)} :: 0 <= k < |xs| ==> rs[k] == Eval(env, xs[k], record)
      ensures r == DifferenceLoop(env.py, rs, 0, true, Int(0))
      decreases m, 2
    {
      var isFirst := true;
      var diff := Int(0);
      var i := 0;
      while i < |xs|
        invariant i <= |xs| && IsNumber(diff)
        invariant DifferenceLoop(env.py, rs, 0, true, Int(0)) == DifferenceLoop(env.py, rs, i, isFirst, diff)
      {
        var f := ObjectNumber(m, objects, xs, rs, i, record);
        if f.Fail? {
          DifferenceLoopStep(env.py, rs, i, isFirst, diff, None);
          return Fail;
        }
        DifferenceLoopStep(env.py, rs, i, isFirst, diff, f.value);
        if f.value.Some? {
          if isFirst {
            diff := Float(f.value.value);
          } else {
            diff := Float(NumOf(diff) - f.value.value);
          }
        }
        isFirst := false;
        i := i + 1;
      }
      return Ok(diff);
    }

    /** One pass of the rules loop: the `exclude` test, then the
        `properties` loop setting each target with `nested_set` on a fresh
        dict. */
    method ApplyRule(rule: Value, record: Value) returns (outcome: Result<Option<Emitted>>)
      ensures outcome == RuleOutcome(env, rule, record)
    {
      if !rule.Obj? {
        return Fail;
      }
      if HasKey(rule.fields, "exclude") {
        var x := ProcessMapping(GetOr(rule.fields, "exclude", Null), record);
        if x.Fail? {
          return Fail;
        }
        if Truthy(x.value) {
          return Ok(None);
        }
      }
      var props := Field(rule, "properties");
      if props.Fail? || !props.value.Obj? {
        return Fail;
      }
      var fields := props.value.fields;
      ghost var rs := Outcomes(env, fields, record);
      var out := SetProperties(fields, rs, record);
      if out.Fail? {
        return Fail;
      }
      var target := Field(rule, "stream");
      if target.Fail? {
        return Fail;
      }
      return Ok(Some(Emitted(target.value, out.value)));
    }

    /** The `properties` loop: `nested_set(out, target, process_mapping(...))`
        for each target in turn, on a dict that starts empty; `rs` are the
        outcomes of the expressions. */
    method SetProperties(fields: Fields, ghost rs: seq<Result<Value>>, record: Value) returns (r: Result<Value>)
      requires |rs| == |fields|
      requires forall k {:trigger Eval(env, fields[k].1, record)} :: 0 <= k < |fields| ==> rs[k] == Eval(env, fields[k].1, record)
      ensures r == Assemble(fields, rs, 0, Obj([]))
    {
      var out := Obj([]);
      var i := 0;
      while i < |fields|
        invariant i <= |fields|
        invariant Assemble(fields, rs, 0, Obj([])) == Assemble(fields, rs, i, out)
      {
        var v := ProcessMapping(fields[i].1, record);
        if v.Fail? {
          return Fail;
        }
        var step := NestedSet(out, fields[i].0, v.value);
        if step.Fail? {
          return Fail;
        }
        out := step.value;
        i := i + 1;
      }
      return Ok(out);
    }

    /** The segments loop for one configured key below `stream`: grow
        `next_level` segment by segment until `nested_get` finds a list. */
    method FindChild(stream: string, record: Value, key: string) returns (r: Result<Option<(string, seq<Value>)>>)
      requires StartsWith(key, stream + ".")
      ensures r == ChildStream(stream, record, key)
    {
      var parts := Split(key[|stream| + 1..]);
      var nextLevel := "";
      var i := 0;
      while i < |parts|
        invariant i <= |parts|
        invariant FindList(record, parts, "") == FindList(record, parts[i..], nextLevel)
      {
        assert parts[i..][1..] == parts[i + 1..];
        nextLevel := if nextLevel != "" then nextLevel + "." + parts[i] else parts[i];
        var items := NestedGet(record, nextLevel);
        if items.Fail? {
          return Fail;
        }
        if items.value.Arr? {
          return Ok(Some((stream + "." + nextLevel, items.value.items)));
        }
        i := i + 1;
      }
      return Ok(None);
    }

    /** `process_record({'stream': stream, 'record': record})`: the rules
        loop, then the search for child streams. Returns false when an
        exception escapes; what was written before it stays written. */
    method ProcessRecord(stream: string, record: Value) returns (ok: bool)
      modifies this
      ensures written == old(written) + Expand(env, stream, record).out
      ensures ok == Expand(env, stream, record).ok
      decreases Bound(env.config.mappings) - |stream|, 2
    {
      var rules := Get(env.config.mappings, stream);
      if rules.None? {
        assert written + [] == written;
        return true;
      }
      var xs := Iterate(rules.value);
      if xs.Fail? {
        assert written + [] == written;
        return false;
      }
      ghost var done: seq<Emitted> := [];
      var i := 0;
      while i < |xs.value|
        invariant i <= |xs.value|
        invariant written == old(written) + done
        invariant ApplyRules(env, xs.value, 0, record) == Then(Trace(done, true), ApplyRules(env, xs.value, i, record))
      {
        var outcome := ApplyRule(xs.value[i], record);
        if outcome.Fail? {
          RulesHalt(env, xs.value, i, record, done);
          return false;
        }
        RulesAdvance(env, xs.value, i, record, done, outcome.value);
        if outcome.value.Some? {
          AppendTwice(old(written), done, [outcome.value.value]);
          written := written + [outcome.value.value];
          done := done + [outcome.value.value];
        }
        i := i + 1;
      }
      RulesEnd(env, xs.value, record, done);
      ExpandAfterRules(env, stream, record, rules.value, xs.value, done);
      AppendTwice(old(written), done, ExpandKeys(env, stream, record, 0).out);
      ok := ScanKeys(stream, record);
    }

    /** The loop over the configured keys, looking for streams below
        `stream`. */
    method ScanKeys(stream: string, record: Value) returns (ok: bool)
      modifies this
      ensures written == old(written) + ExpandKeys(env, stream, record, 0).out
      ensures ok == ExpandKeys(env, stream, record, 0).ok
      decreases Bound(env.config.mappings) - |stream|, 1
    {
      var mappings := env.config.mappings;
      ghost var done: seq<Emitted> := [];
      var j := 0;
      while j < |mappings|
        invariant j <= |mappings|
        invariant written == old(written) + done
        invariant ExpandKeys(env, stream, record, 0) == Then(Trace(done, true), ExpandKeys(env, stream, record, j))
      {
        var key := mappings[j].0;
        if StartsWith(key, stream + ".") {
          var found := FindChild(stream, record, key);
          if found.Fail? {
            KeysHalt(env, stream, record, j, key, done);
            return false;
          }
          if found.value.Some? {
            var child, items := found.value.value.0, found.value.value.1;
            ghost var t := ExpandItems(env, stream, child, record, items, 0);
            KeysAdvance(env, stream, record, j, key, done, child, items, t);
            AppendTwice(old(written), done, t.out);
            var itemsOk := ProcessItems(stream, child, record, items);
            done := done + t.out;
            if !itemsOk {
              return false;
            }
          } else {
            KeysSkip(env, stream, record, j, key, done);
          }
        } else {
          KeysSkip(env, stream, record, j, key, done);
        }
        j := j + 1;
      }
      KeysEnd(env, stream, record, done);
      return true;
    }

    /** The loop over the items of the list found: each item, with
        `@parent` and `@index` added, is processed as a record of the child
        stream. */
    method ProcessItems(stream: string, child: string, record: Value, items: seq<Value>) returns (ok: bool)
      requires |stream| < |child| <= Bound(env.config.mappings)
      modifies this
      ensures written == old(written) + ExpandItems(env, stream, child, record, items, 0).out
      ensures ok == ExpandItems(env, stream, child, record, items, 0).ok
      decreases Bound(env.config.mappings) - |stream|, 0
    {
      ghost var done: seq<Emitted> := [];
      var i := 0;
      while i < |items|
        invariant i <= |items|
        invariant written == old(written) + done
        invariant ExpandItems(env, stream, child, record, items, 0) ==
          Then(Trace(done, true), ExpandItems(env, stream, child, record, items, i))
      {
        if !items[i].Obj? {
          ItemsHalt(env, stream, child, record, items, i, done);
          return false;  // `{**item, ...}` on a non-dict raises a TypeError
        }
        var childRecord := ChildRecord(items[i], record, i);
        ghost var t := Expand(env, child, childRecord);
        ItemsAdvance(env, stream, child, record, items, i, done, t);
        AppendTwice(old(written), done, t.out);
        var childOk := ProcessRecord(child, childRecord);
        done := done + t.out;
        if !childOk {
          return false;
        }
        i := i + 1;
      }
      ItemsEnd(env, stream, child, record, items, done);
      return true;
    }
  }
}
