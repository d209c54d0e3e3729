/**
  The record expander, `Processor.process_record` of
  transform_singer/processor.py, as a specification: what one call writes
  with `singer.write_record`, in order, and whether it returns normally.
  A message is its `stream` name and its `record`. For every rule
  configured for the stream, in order, the expander builds a fresh record
  from the rule's `properties` and writes it under the rule's `stream`;
  it then looks for configured streams below this one (`stream + '.'` a
  prefix of the key) and processes every item of the first list found
  along the key's segments as a message of its own, recursively.
 */
module Expander {
  import opened Json
  import opened Python
  import opened Paths
  import opened Evaluator

  /** One `singer.write_record(stream, record)`. */
  datatype Emitted = Emitted(stream: Value, record: Value)

  /** What a call wrote, in order, and whether it returned normally; when
      an exception escapes (`ok` false), what was written before it stays
      written. */
  datatype Trace = Trace(out: seq<Emitted>, ok: bool)

  /** Running `u` after `t`: `u` does not run when `t` raised. */
  function Then(t: Trace, u: Trace): (r: Trace)
    ensures !t.ok ==> r == t
    ensures t.ok ==> r.out == t.out + u.out && r.ok == u.ok
  {
    if t.ok then Trace(t.out + u.out, u.ok) else t
  }

  predicate StartsWith(s: string, prefix: string) {
    |prefix| <= |s| && s[..|prefix|] == prefix
  }

  // ---------------------------------------------------------------------
  // One rule.

  /** `'exclude' in mapping and bool(process_mapping(mapping['exclude'], record))` */
  function Excluded(env: Env, rule: Value, record: Value): Result<bool>
    requires rule.Obj?
  {
    match Get(rule.fields, "exclude")
    case None => Ok(false)
    case Some(x) =>
      var v :- Eval(env, x, record);
      Ok(Truthy(v))
  }

  /** The value of every expression of `properties`, position by position. */
  function Outcomes(env: Env, props: Fields, record: Value): (rs: seq<Result<Value>>)
    ensures |rs| == |props|
  {
    seq(|props|, k requires 0 <= k < |props| => Eval(env, props[k].1, record))
  }

  /** The `properties` loop from position `i` on, over the values of its
      expressions: each target is set, with `nested_set`, to its value, in
      the dict's order; the first expression or `nested_set` that raises
      ends it, the ones after it never being evaluated. */
  function Assemble(props: Fields, rs: seq<Result<Value>>, i: nat, acc: Value): Result<Value>
    requires i <= |props| == |rs|
    decreases |props| - i
  {
    if i == |props| then Ok(acc)
    else
      var v :- rs[i];
      var acc' :- NestedSet(acc, props[i].0, v);
      Assemble(props, rs, i + 1, acc')
  }

  /** One pass of the rules loop: `Ok(None)` when the rule is excluded,
      otherwise the record to write and the stream to write it under. A
      rule that is not a dict raises (`'exclude' in` a string or list is a
      membership test, but the subscript after it raises), and so does a
      `properties` that is not a dict (it has no `.items()`). */
  function RuleOutcome(env: Env, rule: Value, record: Value): Result<Option<Emitted>> {
    if !rule.Obj? then Fail
    else
      var skip :- Excluded(env, rule, record);
      if skip then Ok(None)
      else
        var props :- Field(rule, "properties");
        if !props.Obj? then Fail
        else
          var out :- Assemble(props.fields, Outcomes(env, props.fields, record), 0, Obj([]));
          var target :- Field(rule, "stream");
          Ok(Some(Emitted(target, out)))
  }

  /** The rules loop from position `i` on. */
  function ApplyRules(env: Env, rules: seq<Value>, i: nat, record: Value): Trace
    requires i <= |rules|
    decreases |rules| - i
  {
    if i == |rules| then Trace([], true)
    else match RuleOutcome(env, rules[i], record)
      case Fail => Trace([], false)
      case Ok(None) => ApplyRules(env, rules, i + 1, record)
      case Ok(Some(e)) =>
        var t := ApplyRules(env, rules, i + 1, record);
        Trace([e] + t.out, t.ok)
  }

  // ---------------------------------------------------------------------
  // The search for a list along a configured key.

  /** `next_level += '.' + part if next_level else part`: an empty
      `next_level` takes the part alone, so empty leading segments vanish. */
  function Grow(nextLevel: string, part: string): string {
    if nextLevel != "" then nextLevel + "." + part else part
  }

  /** The length `'.'.join(parts)` would have, plus one. */
  function Width(parts: seq<string>): nat {
    if parts == [] then 0 else |parts[0]| + 1 + Width(parts[1..])
  }

  /** The segments loop: grow `next_level` one part at a time and stop at
      the first `nested_get` that yields a list; `Ok(None)` when none does.
      The path found is never longer than the segments it was grown from. */
  function FindList(record: Value, parts: seq<string>, nextLevel: string): (r: Result<Option<(string, seq<Value>)>>)
    ensures r.Ok? && r.value.Some? ==>
      |r.value.value.0| + (if nextLevel == "" then 1 else 0) <= |nextLevel| + Width(parts)
    decreases |parts|
  {
    if parts == [] then Ok(None)
    else
      var level := Grow(nextLevel, parts[0]);
      var items :- NestedGet(record, level);
      if items.Arr? then Ok(Some((level, items.items)))
      else FindList(record, parts[1..], level)
  }

  /** `'.'.join` counts one separator fewer than `split('.')` has parts. */
  lemma {:induction false} WidthOfSplit(s: string)
    ensures Width(Split(s)) == |s| + 1
    decreases |s|
  {
    match FirstDot(s)
    case None =>
    case Some(d) =>
      WidthOfSplit(s[d + 1..]);
      assert Split(s)[1..] == Split(s[d + 1..]);
  }

  /** The longest configured stream path; no recursion goes past it. */
  function Bound(mappings: Fields): (n: nat)
    ensures forall j :: 0 <= j < |mappings| ==> |mappings[j].0| <= n
  {
    if mappings == [] then 0
    else
      var rest := Bound(mappings[1..]);
      if |mappings[0].0| > rest then |mappings[0].0| else rest
  }

  /** `{**item, '@parent': parent, '@index': i}`: the item's keys in their
      order, `@parent` and `@index` overwritten in place when the item has
      them and added last otherwise. */
  function ChildRecord(item: Value, parent: Value, i: nat): Value
    requires item.Obj?
  {
    Obj(Put(Put(item.fields, "@parent", parent), "@index", Int(i)))
  }

  // ---------------------------------------------------------------------
  // The whole call.

  /** `process_record({'stream': stream, 'record': record})`. The child
      streams it recurses into are strictly longer than `stream` and no
      longer than the configured key that led to them, which bounds the
      recursion. */
  function Expand(env: Env, stream: string, record: Value): Trace
    decreases Bound(env.config.mappings) - |stream|, 2, 0
  {
    match Get(env.config.mappings, stream)
    case None => Trace([], true)  // no rules: nothing written, no recursion
    case Some(rules) =>
      var written := match Iterate(rules)
        case Fail => Trace([], false)
        case Ok(xs) => ApplyRules(env, xs, 0, record);
      Then(written, ExpandKeys(env, stream, record, 0))
  }

  /** The scan over the configured keys from position `j` on. */
  function ExpandKeys(env: Env, stream: string, record: Value, j: nat): Trace
    requires j <= |env.config.mappings|
    decreases Bound(env.config.mappings) - |stream|, 1, |env.config.mappings| - j + 1
  {
    var mappings := env.config.mappings;
    if j == |mappings| then Trace([], true)
    else
      var key := mappings[j].0;
      var t := if StartsWith(key, stream + ".") then ExpandKey(env, stream, record, key) else Trace([], true);
      Then(t, ExpandKeys(env, stream, record, j + 1))
  }

  /** The child stream found under `key`, with the items of its list. */
  function ChildStream(stream: string, record: Value, key: string): (r: Result<Option<(string, seq<Value>)>>)
    requires StartsWith(key, stream + ".")
    ensures r.Ok? && r.value.Some? ==> |stream| < |r.value.value.0| <= |key|
  {
    var suffix := key[|stream| + 1..];
    WidthOfSplit(suffix);
    var found :- FindList(record, Split(suffix), "");
    match found
    case None => Ok(None)
    case Some((level, items)) => Ok(Some((stream + "." + level, items)))
  }

  /** One configured key below `stream`: every item of the list it leads to
      is processed as a message of the child stream. */
  function ExpandKey(env: Env, stream: string, record: Value, key: string): Trace
    requires StartsWith(key, stream + ".") && |key| <= Bound(env.config.mappings)
    decreases Bound(env.config.mappings) - |stream|, 1, 0
  {
    match ChildStream(stream, record, key)
    case Fail => Trace([], false)
    case Ok(None) => Trace([], true)  // no list along the key: the key is skipped
    case Ok(Some((child, items))) => ExpandItems(env, stream, child, record, items, 0)
  }

  /** The items loop from position `i` on; an item that is not a dict
      raises at `{**item, ...}`. */
  function ExpandItems(env: Env, stream: string, child: string, record: Value, items: seq<Value>, i: nat): Trace
    requires |stream| < |child| <= Bound(env.config.mappings) && i <= |items|
    decreases Bound(env.config.mappings) - |stream|, 0, |items| - i
  {
    if i == |items| then Trace([], true)
    else if !items[i].Obj? then Trace([], false)
    else
      Then(Expand(env, child, ChildRecord(items[i], record, i)),
           ExpandItems(env, stream, child, record, items, i + 1))
  }

  // ---------------------------------------------------------------------
  // One step of each loop, for the loops that run them.

  /** Writing `t` after `done`, then `u`: one trace. */
  lemma ThenAfter(done: seq<Emitted>, t: Trace, u: Trace)
    ensures Then(Trace(done, true), Then(t, u)) ==
      if t.ok then Then(Trace(done + t.out, true), u) else Trace(done + t.out, false)
  {
    if t.ok {
      assert done + (t.out + u.out) == (done + t.out) + u.out;
    }
  }

  /** Appending in two steps is appending once. */
  lemma AppendTwice(written: seq<Emitted>, done: seq<Emitted>, more: seq<Emitted>)
    ensures written + done + more == written + (done + more)
  {
  }

  /** Nothing more written after `done`. */
  lemma ThenNothing(done: seq<Emitted>, ok: bool)
    ensures Then(Trace(done, true), Trace([], ok)) == Trace(done, ok)
  {
    assert done + [] == done;
  }

  /** The rules loop takes one rule at a time. */
  lemma RulesStep(env: Env, rules: seq<Value>, i: nat, record: Value)
    requires i < |rules|
    ensures ApplyRules(env, rules, i, record) ==
      match RuleOutcome(env, rules[i], record)
      case Fail => Trace([], false)
      case Ok(None) => ApplyRules(env, rules, i + 1, record)
      case Ok(Some(e)) => Then(Trace([e], true), ApplyRules(env, rules, i + 1, record))
  {
  }

  /** The keys loop takes one key at a time. */
  lemma KeysStep(env: Env, stream: string, record: Value, j: nat, key: string)
    requires j < |env.config.mappings| && key == env.config.mappings[j].0
    ensures ExpandKeys(env, stream, record, j) ==
        if !StartsWith(key, stream + ".") then ExpandKeys(env, stream, record, j + 1)
        else match ChildStream(stream, record, key)
          case Fail => Trace([], false)
          case Ok(None) => ExpandKeys(env, stream, record, j + 1)
          case Ok(Some((child, items))) =>
            Then(ExpandItems(env, stream, child, record, items, 0), ExpandKeys(env, stream, record, j + 1))
  {
    if StartsWith(key, stream + ".") {
      assert ExpandKeys(env, stream, record, j) ==
        Then(ExpandKey(env, stream, record, key), ExpandKeys(env, stream, record, j + 1));
    }
  }

  // How each loop of `process_record` moves on. `done` is what the loop has
  // written so far; each lemma tells what is still to come after one more
  // turn, so that the loops in `Processor` need only call them.

  /** A rule that raises ends the rules loop. */
  lemma RulesHalt(env: Env, rules: seq<Value>, i: nat, record: Value, done: seq<Emitted>)
    requires i < |rules| && RuleOutcome(env, rules[i], record).Fail?
    requires ApplyRules(env, rules, 0, record) == Then(Trace(done, true), ApplyRules(env, rules, i, record))
    ensures ApplyRules(env, rules, 0, record) == Trace(done, false)
  {
    RulesStep(env, rules, i, record);
    ThenNothing(done, false);
  }

  /** A rule that does not raise adds its record, if any, to `done`. */
  lemma RulesAdvance(env: Env, rules: seq<Value>, i: nat, record: Value, done: seq<Emitted>, outcome: Option<Emitted>)
    requires i < |rules| && RuleOutcome(env, rules[i], record) == Ok(outcome)
    requires ApplyRules(env, rules, 0, record) == Then(Trace(done, true), ApplyRules(env, rules, i, record))
    ensures outcome.None? ==>
      ApplyRules(env, rules, 0, record) == Then(Trace(done, true), ApplyRules(env, rules, i + 1, record))
    ensures outcome.Some? ==>
      ApplyRules(env, rules, 0, record) == Then(Trace(done + [outcome.value], true), ApplyRules(env, rules, i + 1, record))
  {
    RulesStep(env, rules, i, record);
    if outcome.Some? {
      ThenAfter(done, Trace([outcome.value], true), ApplyRules(env, rules, i + 1, record));
    }
  }

  /** After the last rule, the rules loop has written `done`. */
  lemma RulesEnd(env: Env, rules: seq<Value>, record: Value, done: seq<Emitted>)
    requires ApplyRules(env, rules, 0, record) == Then(Trace(done, true), ApplyRules(env, rules, |rules|, record))
    ensures ApplyRules(env, rules, 0, record) == Trace(done, true)
  {
    ThenNothing(done, true);
  }

  /** A stream with rules writes what its rules wrote, then what the keys
      loop writes. */
  lemma ExpandAfterRules(env: Env, stream: string, record: Value, rules: Value, xs: seq<Value>, done: seq<Emitted>)
    requires Get(env.config.mappings, stream) == Some(rules) && Iterate(rules) == Ok(xs)
    requires ApplyRules(env, xs, 0, record) == Trace(done, true)
    ensures Expand(env, stream, record).out == done + ExpandKeys(env, stream, record, 0).out
    ensures Expand(env, stream, record).ok == ExpandKeys(env, stream, record, 0).ok
  {
    assert Expand(env, stream, record) == Then(ApplyRules(env, xs, 0, record), ExpandKeys(env, stream, record, 0));
  }

  /** A key that is not below `stream`, or under which no list was found,
      is passed over. */
  lemma KeysSkip(env: Env, stream: string, record: Value, j: nat, key: string, done: seq<Emitted>)
    requires j < |env.config.mappings| && key == env.config.mappings[j].0
    requires !StartsWith(key, stream + ".") || ChildStream(stream, record, key) == Ok(None)
    requires ExpandKeys(env, stream, record, 0) == Then(Trace(done, true), ExpandKeys(env, stream, record, j))
    ensures ExpandKeys(env, stream, record, 0) == Then(Trace(done, true), ExpandKeys(env, stream, record, j + 1))
  {
    KeysStep(env, stream, record, j, key);
  }

  /** `nested_get` raising ends the keys loop. */
  lemma KeysHalt(env: Env, stream: string, record: Value, j: nat, key: string, done: seq<Emitted>)
    requires j < |env.config.mappings| && key == env.config.mappings[j].0
    requires StartsWith(key, stream + ".") && ChildStream(stream, record, key).Fail?
    requires ExpandKeys(env, stream, record, 0) == Then(Trace(done, true), ExpandKeys(env, stream, record, j))
    ensures ExpandKeys(env, stream, record, 0) == Trace(done, false)
  {
    KeysStep(env, stream, record, j, key);
    ThenNothing(done, false);
  }

  /** A list found below `stream` has its items processed (writing `t`)
      before the next key. */
  lemma KeysAdvance(env: Env, stream: string, record: Value, j: nat, key: string, done: seq<Emitted>,
                    child: string, items: seq<Value>, t: Trace)
    requires j < |env.config.mappings| && key == env.config.mappings[j].0
    requires StartsWith(key, stream + ".") && ChildStream(stream, record, key) == Ok(Some((child, items)))
    requires t == ExpandItems(env, stream, child, record, items, 0)
    requires ExpandKeys(env, stream, record, 0) == Then(Trace(done, true), ExpandKeys(env, stream, record, j))
    ensures t.ok ==>
      ExpandKeys(env, stream, record, 0) == Then(Trace(done + t.out, true), ExpandKeys(env, stream, record, j + 1))
    ensures !t.ok ==> ExpandKeys(env, stream, record, 0) == Trace(done + t.out, false)
  {
    KeysStep(env, stream, record, j, key);
    ThenAfter(done, t, ExpandKeys(env, stream, record, j + 1));
  }

  /** After the last key, the keys loop has written `done`. */
  lemma KeysEnd(env: Env, stream: string, record: Value, done: seq<Emitted>)
    requires ExpandKeys(env, stream, record, 0) ==
      Then(Trace(done, true), ExpandKeys(env, stream, record, |env.config.mappings|))
    ensures ExpandKeys(env, stream, record, 0) == Trace(done, true)
  {
    ThenNothing(done, true);
  }

  /** An item that is not a dict raises and ends the items loop. */
  lemma ItemsHalt(env: Env, stream: string, child: string, record: Value, items: seq<Value>, i: nat, done: seq<Emitted>)
    requires |stream| < |child| <= Bound(env.config.mappings) && i < |items| && !items[i].Obj?
    requires ExpandItems(env, stream, child, record, items, 0) ==
      Then(Trace(done, true), ExpandItems(env, stream, child, record, items, i))
    ensures ExpandItems(env, stream, child, record, items, 0) == Trace(done, false)
  {
    ThenNothing(done, false);
  }

  /** A dict is processed as a record of the child stream (writing `t`)
      before the items after it. */
  lemma ItemsAdvance(env: Env, stream: string, child: string, record: Value, items: seq<Value>, i: nat,
                     done: seq<Emitted>, t: Trace)
    requires |stream| < |child| <= Bound(env.config.mappings) && i < |items| && items[i].Obj?
    requires t == Expand(env, child, ChildRecord(items[i], record, i))
    requires ExpandItems(env, stream, child, record, items, 0) ==
      Then(Trace(done, true), ExpandItems(env, stream, child, record, items, i))
    ensures t.ok ==>
      ExpandItems(env, stream, child, record, items, 0) ==
        Then(Trace(done + t.out, true), ExpandItems(env, stream, child, record, items, i + 1))
    ensures !t.ok ==> ExpandItems(env, stream, child, record, items, 0) == Trace(done + t.out, false)
  {
    assert ExpandItems(env, stream, child, record, items, i) ==
      Then(t, ExpandItems(env, stream, child, record, items, i + 1));
    ThenAfter(done, t, ExpandItems(env, stream, child, record, items, i + 1));
  }

  /** After the last item, the items loop has written `done`. */
  lemma ItemsEnd(env: Env, stream: string, child: string, record: Value, items: seq<Value>, done: seq<Emitted>)
    requires |stream| < |child| <= Bound(env.config.mappings)
    requires ExpandItems(env, stream, child, record, items, 0) ==
      Then(Trace(done, true), ExpandItems(env, stream, child, record, items, |items|))
    ensures ExpandItems(env, stream, child, record, items, 0) == Trace(done, true)
  {
    ThenNothing(done, true);
  }

  // ---------------------------------------------------------------------
  // What the expander promises.

  /** The records the rules wrote, in rule order: one per rule that was not
      excluded. */
  function Kept(outcomes: seq<Option<Emitted>>): (out: seq<Emitted>)
    ensures |out| <= |outcomes|
  {
    if outcomes == [] then []
    else (if outcomes[0].Some? then [outcomes[0].value] else []) + Kept(outcomes[1..])
  }

  /** The rules are applied in order, each writing its record (or nothing,
      when excluded) before the next one runs; the first rule that raises
      ends the call with the records of the rules before it written. */
  lemma {:induction false} RulesWrittenInOrder(env: Env, rules: seq<Value>, record: Value, outcomes: seq<Option<Emitted>>)
    requires |outcomes| <= |rules|
    requires forall j :: 0 <= j < |outcomes| ==> RuleOutcome(env, rules[j], record) == Ok(outcomes[j])
    requires |outcomes| < |rules| ==> RuleOutcome(env, rules[|outcomes|], record).Fail?
    ensures ApplyRules(env, rules, 0, record) == Trace(Kept(outcomes), |outcomes| == |rules|)
  {
    RulesFrom(env, rules, record, outcomes, 0);
  }

  lemma {:induction false} RulesFrom(env: Env, rules: seq<Value>, record: Value, outcomes: seq<Option<Emitted>>, i: nat)
    requires i <= |outcomes| <= |rules|
    requires forall j :: i <= j < |outcomes| ==> RuleOutcome(env, rules[j], record) == Ok(outcomes[j])
    requires |outcomes| < |rules| ==> RuleOutcome(env, rules[|outcomes|], record).Fail?
    ensures ApplyRules(env, rules, i, record) == Trace(Kept(outcomes[i..]), |outcomes| == |rules|)
    decreases |outcomes| - i
  {
    if i < |outcomes| {
      RulesFrom(env, rules, record, outcomes, i + 1);
      assert outcomes[i..][1..] == outcomes[i + 1..];
    }
  }

  /** A stream with no rules writes nothing and is not searched for child
      streams, even when streams below it are configured and the record
      holds their lists. */
  lemma NoRulesNoChildren(env: Env, stream: string, record: Value)
    requires !HasKey(env.config.mappings, stream)
    ensures Expand(env, stream, record) == Trace([], true)
  {
  }

  /** An excluded rule writes nothing, and neither its `properties` nor its
      `stream` are looked at. */
  lemma ExcludedRuleWritesNothing(env: Env, rule: Value, x: Value, v: Value, record: Value)
    requires rule.Obj? && Get(rule.fields, "exclude") == Some(x)
    requires Eval(env, x, record) == Ok(v)
    ensures Truthy(v) ==> RuleOutcome(env, rule, record) == Ok(None)
    ensures !Truthy(v) && Get(rule.fields, "properties") == Some(Obj([])) && Get(rule.fields, "stream").Some? ==>
      RuleOutcome(env, rule, record) == Ok(Some(Emitted(Get(rule.fields, "stream").value, Obj([]))))
  {
  }

  /** A rule whose targets have no dots, each taking the value of its
      expression, writes exactly those targets, in the order of
      `properties`, with those values. */
  lemma FlatProperties(env: Env, rule: Value, props: Fields, vs: seq<Value>, record: Value)
    requires rule.Obj? && !HasKey(rule.fields, "exclude")
    requires Get(rule.fields, "properties") == Some(Obj(props)) && Get(rule.fields, "stream").Some?
    requires DistinctKeys(props) && |vs| == |props|
    requires forall k :: 0 <= k < |props| ==> FirstDot(props[k].0).None?
    requires forall k :: 0 <= k < |props| ==> Eval(env, props[k].1, record) == Ok(vs[k])
    ensures RuleOutcome(env, rule, record) ==
      Ok(Some(Emitted(Get(rule.fields, "stream").value,
                      Obj(seq(|props|, k requires 0 <= k < |props| => (props[k].0, vs[k]))))))
  {
    AssembleFlat(props, Outcomes(env, props, record), vs, 0);
  }

  lemma {:induction false} AssembleFlat(props: Fields, rs: seq<Result<Value>>, vs: seq<Value>, i: nat)
    requires DistinctKeys(props) && |vs| == |props| == |rs| && i <= |props|
    requires forall k :: 0 <= k < |props| ==> FirstDot(props[k].0).None?
    requires forall k :: 0 <= k < |props| ==> rs[k] == Ok(vs[k])
    ensures Assemble(props, rs, i, Obj(seq(i, k requires 0 <= k < i => (props[k].0, vs[k])))) ==
      Ok(Obj(seq(|props|, k requires 0 <= k < |props| => (props[k].0, vs[k]))))
    decreases |props| - i
  {
    if i < |props| {
      var acc := seq(i, k requires 0 <= k < i => (props[k].0, vs[k]));
      var acc' := seq(i + 1, k requires 0 <= k < i + 1 => (props[k].0, vs[k]));
      assert !HasKey(acc, props[i].0) by {
        forall j | 0 <= j < i ensures acc[j].0 != props[i].0 {}
      }
      assert Put(acc, props[i].0, vs[i]) == acc';
      assert NestedSet(Obj(acc), props[i].0, vs[i]) == Ok(Obj(acc'));
      AssembleFlat(props, rs, vs, i + 1);
    }
  }

  /** Targets that pairwise diverge do not disturb each other: the rule
      writes one record, in which every target reads back the value of its
      own expression, dotted targets that share leading segments landing in
      the same nested dict. */
  lemma PropertiesReadBack(env: Env, rule: Value, props: Fields, vs: seq<Value>, record: Value)
    requires rule.Obj? && !HasKey(rule.fields, "exclude")
    requires Get(rule.fields, "properties") == Some(Obj(props)) && Get(rule.fields, "stream").Some?
    requires |vs| == |props|
    requires forall j, k :: 0 <= j < k < |props| ==> Diverge(props[j].0, props[k].0)
    requires forall k :: 0 <= k < |props| ==> Eval(env, props[k].1, record) == Ok(vs[k])
    ensures RuleOutcome(env, rule, record).Ok? && RuleOutcome(env, rule, record).value.Some?
    ensures forall k :: 0 <= k < |props| ==>
      NestedGet(RuleOutcome(env, rule, record).value.value.record, props[k].0) == Ok(vs[k])
  {
    forall k | 0 <= k < |props| ensures Addressable(Obj([]), props[k].0) {
      EmptyAddressable(props[k].0);
    }
    AssembleReadsBack(props, Outcomes(env, props, record), vs, 0, Obj([]));
  }

  lemma {:induction false} AssembleReadsBack(props: Fields, rs: seq<Result<Value>>, vs: seq<Value>, i: nat, acc: Value)
    requires i <= |props| == |vs| == |rs|
    requires forall j, k :: 0 <= j < k < |props| ==> Diverge(props[j].0, props[k].0)
    requires forall k :: 0 <= k < |props| ==> rs[k] == Ok(vs[k])
    requires forall k :: 0 <= k < i ==> NestedGet(acc, props[k].0) == Ok(vs[k])
    requires forall k :: i <= k < |props| ==> Addressable(acc, props[k].0)
    ensures Assemble(props, rs, i, acc).Ok?
    ensures forall k :: 0 <= k < |props| ==> NestedGet(Assemble(props, rs, i, acc).value, props[k].0) == Ok(vs[k])
    decreases |props| - i
  {
    if i < |props| {
      var acc' := NestedSet(acc, props[i].0, vs[i]).value;
      SetKeepsReadBack(props, vs, i, acc);
      AssembleReadsBack(props, rs, vs, i + 1, acc');
    }
  }

  /** One step of the `properties` loop keeps every earlier target reading
      back its value and every later target addressable. */
  lemma SetKeepsReadBack(props: Fields, vs: seq<Value>, i: nat, acc: Value)
    requires i < |props| == |vs|
    requires forall j, k :: 0 <= j < k < |props| ==> Diverge(props[j].0, props[k].0)
    requires forall k :: 0 <= k < i ==> NestedGet(acc, props[k].0) == Ok(vs[k])
    requires forall k :: i <= k < |props| ==> Addressable(acc, props[k].0)
    ensures NestedSet(acc, props[i].0, vs[i]).Ok?
    ensures forall k :: 0 <= k < i + 1 ==> NestedGet(NestedSet(acc, props[i].0, vs[i]).value, props[k].0) == Ok(vs[k])
    ensures forall k :: i + 1 <= k < |props| ==> Addressable(NestedSet(acc, props[i].0, vs[i]).value, props[k].0)
  {
    var acc' := NestedSet(acc, props[i].0, vs[i]).value;
    forall k | 0 <= k < i ensures NestedGet(acc', props[k].0) == Ok(vs[k]) {
      DivergeSymmetric(props[k].0, props[i].0);
      GetAfterSetElsewhere(acc, props[i].0, props[k].0, vs[i]);
    }
    GetAfterSet(acc, props[i].0, vs[i]);
    forall k | i < k < |props| ensures Addressable(acc', props[k].0) {
      AddressableAfterSet(acc, props[i].0, props[k].0, vs[i]);
    }
  }

  /** `{**item, '@parent': parent, '@index': i}` holds the parent record
      under `@parent`, the position under `@index` and everything else the
      item held. */
  lemma ChildRecordFields(item: Value, parent: Value, i: nat)
    requires item.Obj?
    ensures Get(ChildRecord(item, parent, i).fields, "@parent") == Some(parent)
    ensures Get(ChildRecord(item, parent, i).fields, "@index") == Some(Int(i))
    ensures forall k :: k != "@parent" && k != "@index" ==>
      Get(ChildRecord(item, parent, i).fields, k) == Get(item.fields, k)
  {
    var once := Put(item.fields, "@parent", parent);
    PutGet(once, "@index", Int(i), "@parent");
    PutGet(item.fields, "@parent", parent, "@parent");
    PutGet(once, "@index", Int(i), "@index");
    forall k | k != "@parent" && k != "@index"
      ensures Get(ChildRecord(item, parent, i).fields, k) == Get(item.fields, k)
    {
      PutGet(item.fields, "@parent", parent, k);
      PutGet(once, "@index", Int(i), k);
    }
  }

  /** The item's keys keep their order in the child record; `@parent` and
      `@index` come after them. */
  lemma ChildRecordKeys(item: Value, parent: Value, i: nat)
    requires item.Obj? && !HasKey(item.fields, "@parent") && !HasKey(item.fields, "@index")
    ensures Keys(ChildRecord(item, parent, i).fields) == Keys(item.fields) + ["@parent", "@index"]
  {
    var once := Put(item.fields, "@parent", parent);
    PutGet(item.fields, "@parent", parent, "@index");
    assert once == item.fields + [("@parent", parent)];
    assert ChildRecord(item, parent, i).fields == once + [("@index", Int(i))];
  }

  /** Unless the part of the key after `stream + '.'` starts with a dot, the
      child stream is the key cut at the end of a segment: a prefix of the
      key, the whole key when the list is found at the last segment. */
  lemma ChildStreamIsKeyPrefix(stream: string, record: Value, key: string)
    requires StartsWith(key, stream + ".")
    requires var suffix := key[|stream| + 1..]; suffix == "" || suffix[0] != '.'
    ensures ChildStream(stream, record, key).Ok? && ChildStream(stream, record, key).value.Some? ==>
      StartsWith(key, ChildStream(stream, record, key).value.value.0)
  {
    var suffix := key[|stream| + 1..];
    assert key == stream + "." + suffix;
    var parts := Split(suffix);
    var found := FindList(record, parts, "");
    match FirstDot(suffix)
    case None =>
      assert parts == [suffix] && parts[1..] == [];
      assert Grow("", suffix) == suffix;
      assert found.Ok? && found.value.Some? ==> found.value.value.0 == suffix by {
        var items := NestedGet(record, suffix);
        if items.Ok? && !items.value.Arr? {
          assert found == FindList(record, [], suffix);
        }
      }
    case Some(d) =>
      var head, rest := suffix[..d], suffix[d + 1..];
      assert d > 0;
      assert parts == [head] + Split(rest);
      assert parts[1..] == Split(rest);
      assert suffix == head + "." + rest;
      assert Grow("", head) == head;
      FindListPrefix(record, rest, head, suffix);
      assert found.Ok? && found.value.Some? ==> StartsWith(suffix, found.value.value.0) by {
        var items := NestedGet(record, head);
        if items.Ok? && !items.value.Arr? {
          assert found == FindList(record, Split(rest), head);
        }
      }
    if found.Ok? && found.value.Some? {
      PrefixExtend(stream + ".", suffix, found.value.value.0);
    }
  }

  lemma PrefixExtend(a: string, s: string, f: string)
    requires StartsWith(s, f)
    ensures StartsWith(a + s, a + f)
  {
    assert (a + s)[..|a + f|] == a + s[..|f|];
  }

  /** Past a non-empty `next_level`, whatever level the segments loop stops
      at is a prefix of the path the segments spell. */
  lemma {:induction false} FindListPrefix(record: Value, rest: string, nextLevel: string, s: string)
    requires nextLevel != "" && s == nextLevel + "." + rest
    ensures FindList(record, Split(rest), nextLevel).Ok? && FindList(record, Split(rest), nextLevel).value.Some? ==>
      StartsWith(s, FindList(record, Split(rest), nextLevel).value.value.0)
    decreases |rest|
  {
    var parts := Split(rest);
    match FirstDot(rest)
    case None =>
      assert parts == [rest];
      assert parts[1..] == [];
    case Some(d) =>
      var level := nextLevel + "." + rest[..d];
      assert parts == [rest[..d]] + Split(rest[d + 1..]);
      assert parts[1..] == Split(rest[d + 1..]);
      assert s == level + "." + rest[d + 1..];
      FindListPrefix(record, rest[d + 1..], level, s);
  }

  /** The exception to the prefix rule: with stream `a` and key `a..b`, the
      empty segment leaves `next_level` empty, the next one replaces it, and
      the child stream `a.b` is not a prefix of the key. */
  lemma EmptySegmentDropped()
    ensures
      var record := Obj([("b", Arr([Obj([])]))]);
      ChildStream("a", record, "a..b") == Ok(Some(("a.b", [Obj([])]))) && !StartsWith("a..b", "a.b")
  {
    var record := Obj([("b", Arr([Obj([])]))]);
    assert FirstDot(".b") == Some(0);
    assert FirstDot("b") == None;
    assert "a..b"[|"a"| + 1..] == ".b";
    assert Split(".b") == ["", "b"];
    assert Split(".b")[1..] == ["b"];
    assert NestedGet(record, "") == Ok(Null);
    assert NestedGet(record, "b") == Ok(Arr([Obj([])]));
    assert Grow("", "") == "" && Grow("", "b") == "b";
    assert FindList(record, ["b"], "") == Ok(Some(("b", [Obj([])])));
    assert FindList(record, ["", "b"], "") == FindList(record, ["b"], "") by {
      assert ["", "b"][1..] == ["b"];
    }
    assert "a" + "." + "b" == "a.b";
    assert "a..b"[..3][2] != "a.b"[2];
  }
}
