/**
  The examples of the repository's test suite, stated over the model: each
  lemma fixes the inputs of one test and proves the outcome the test
  expects (or, where the code does something else, the outcome the code
  produces).
 */
module Scenarios {
  import opened Json
  import opened Python
  import opened Paths
  import opened Iteration
  import opened Evaluator
  import opened Expander

  function RecordOf(key: string): Value {
    Obj([("type", Str("record")), ("key", Str(key))])
  }

  function TextOf(val: string): Value {
    Obj([("type", Str("text")), ("val", Str(val))])
  }

  /** Lookups in a two-entry dict with distinct keys. */
  lemma GetPair(k1: string, v1: Value, k2: string, v2: Value)
    requires k1 != k2
    ensures Get([(k1, v1), (k2, v2)], k1) == Some(v1)
    ensures Get([(k1, v1), (k2, v2)], k2) == Some(v2)
  {
    assert [(k1, v1), (k2, v2)][1..] == [(k2, v2)];
    assert Find([(k2, v2)], k2) == Some(0);
    assert Find([(k1, v1), (k2, v2)], k2) == Some(1);
  }

  /** A dot-free key, a dot, then the rest of the path. */
  lemma Dotted(h: string, rest: string)
    requires FirstDot(h) == None
    ensures FirstDot(h + "." + rest) == Some(|h|)
    ensures (h + "." + rest)[..|h|] == h && (h + "." + rest)[|h| + 1..] == rest
  {
    var s := h + "." + rest;
    assert s[|h|] == '.';
    assert forall i :: 0 <= i < |h| ==> s[i] == h[i];
    assert s[|h| + 1..] == rest;
  }

  /** `{"type": "record", "key": "foo"}` over `{"foo": "bar"}` is "bar". */
  lemma RecordExample(env: Env)
    ensures Eval(env, RecordOf("foo"), Obj([("foo", Str("bar"))])) == Ok(Str("bar"))
  {
    LookupExpressions(env, RecordOf("foo"), "foo", Obj([("foo", Str("bar"))]));
    assert FirstDot("foo") == None;
  }

  /** `{"type": "config", "key": "foo"}` reads `meta` of the configuration. */
  lemma ConfigExample(py: Builtins, mappings: Fields)
    ensures Eval(Env(Config(mappings, Some(Obj([("foo", Str("bar"))]))), py),
                 Obj([("type", Str("config")), ("key", Str("foo"))]), Obj([])) == Ok(Str("bar"))
  {
    var env := Env(Config(mappings, Some(Obj([("foo", Str("bar"))]))), py);
    LookupExpressions(env, Obj([("type", Str("config")), ("key", Str("foo"))]), "foo", Obj([]));
    assert FirstDot("foo") == None;
  }

  /** `{"type": "text", "val": "foo"}` is "foo". */
  lemma TextExample(env: Env)
    ensures Eval(env, TextOf("foo"), Obj([])) == Ok(Str("foo"))
  {
    TextIsVerbatim(env, TextOf("foo"), Str("foo"), Obj([]));
  }

  /** Joining two texts concatenates them ("foo" and "bar" give "foobar"). */
  lemma JoinExample(env: Env, a: string, b: string)
    ensures Eval(env, Obj([("type", Str("join")), ("pieces", Arr([TextOf(a), TextOf(b)]))]), Obj([]))
      == Ok(Str(a + b))
  {
    var m := Obj([("type", Str("join")), ("pieces", Arr([TextOf(a), TextOf(b)]))]);
    var xs := [TextOf(a), TextOf(b)];
    GetPair("type", Str("join"), "pieces", Arr(xs));
    GetPair("type", Str("text"), "val", Str(a));
    GetPair("type", Str("text"), "val", Str(b));
    TextIsVerbatim(env, TextOf(a), Str(a), Obj([]));
    TextIsVerbatim(env, TextOf(b), Str(b), Obj([]));
    JoinPieces(env, m, Arr(xs), xs, [Str(a), Str(b)], Obj([]));
    assert [Str(a), Str(b)][1..] == [Str(b)];
    assert ConcatStr(env.py, [Str(b)]) == b + ConcatStr(env.py, []);
    assert b + "" == b;
  }

  /** `coalesce` of two record lookups passes over the missing key and
      gives the value at the present one ("baz" in the test). */
  lemma CoalesceExample(env: Env, foo: string, bar: string, v: Value)
    requires FirstDot(foo) == None && FirstDot(bar) == None && foo != bar && Truthy(v)
    ensures Eval(env, Obj([("type", Str("coalesce")), ("objects", Arr([RecordOf(foo), RecordOf(bar)]))]),
                 Obj([(bar, v)])) == Ok(v)
  {
    var m := Obj([("type", Str("coalesce")), ("objects", Arr([RecordOf(foo), RecordOf(bar)]))]);
    var record := Obj([(bar, v)]);
    var xs := [RecordOf(foo), RecordOf(bar)];
    GetPair("type", Str("coalesce"), "objects", Arr(xs));
    GetPair("type", Str("record"), "key", Str(foo));
    GetPair("type", Str("record"), "key", Str(bar));
    LookupExpressions(env, RecordOf(foo), foo, record);
    LookupExpressions(env, RecordOf(bar), bar, record);
    assert Eval(env, xs[0], record) == Ok(Null);
    assert Eval(env, xs[1], record) == Ok(v);
    CoalesceStops(env, m, Arr(xs), xs, 1, record);
  }

  /** `nested_get` finds `foo.bar.biz` when it is there ... */
  lemma NestedGetExists(foo: string, bar: string, biz: string, v: Value)
    requires FirstDot(foo) == None && FirstDot(bar) == None && FirstDot(biz) == None
    ensures NestedGet(Obj([(foo, Obj([(bar, Obj([(biz, v)]))]))]), foo + "." + (bar + "." + biz)) == Ok(v)
  {
    var leaf := Obj([(biz, v)]);
    var mid := Obj([(bar, leaf)]);
    Dotted(foo, bar + "." + biz);
    Dotted(bar, biz);
    assert NestedGet(leaf, biz) == Ok(v);
    assert NestedGet(mid, bar + "." + biz) == NestedGet(leaf, biz);
  }

  /** ... and reads None when only `foo.bar` is. */
  lemma NestedGetMissing(foo: string, bar: string, biz: string)
    requires FirstDot(foo) == None && FirstDot(bar) == None
    ensures NestedGet(Obj([(foo, Obj([(bar, Obj([]))]))]), foo + "." + (bar + "." + biz)) == Ok(Null)
  {
    Dotted(foo, bar + "." + biz);
    Dotted(bar, biz);
    GetFromEmpty(biz);
  }

  /** `nested_set` replaces what stood at `foo.bar`, a string or a whole
      dict alike ... */
  lemma NestedSetOverwrites(foo: string, bar: string, was: Value, v: Value)
    requires FirstDot(foo) == None && FirstDot(bar) == None
    ensures NestedSet(Obj([(foo, Obj([(bar, was)]))]), foo + "." + bar, v) == Ok(Obj([(foo, Obj([(bar, v)]))]))
  {
    Dotted(foo, bar);
    SetTopLevel(Obj([(bar, was)]), bar, v);
    assert Find([(bar, was)], bar) == Some(0);
    assert Put([(bar, was)], bar, v) == [(bar, v)];
    assert Find([(foo, Obj([(bar, was)]))], foo) == Some(0);
    assert Put([(foo, Obj([(bar, was)]))], foo, Obj([(bar, v)])) == [(foo, Obj([(bar, v)]))];
  }

  /** ... creates the dicts on the way ... */
  lemma NestedSetCreates(foo: string, bar: string, v: Value)
    requires FirstDot(foo) == None && FirstDot(bar) == None
    ensures NestedSet(Obj([]), foo + "." + bar, v) == Ok(Obj([(foo, Obj([(bar, v)]))]))
  {
    Dotted(foo, bar);
    SetIntoEmpty(foo + "." + bar, v);
    assert Split(foo + "." + bar) == [foo] + Split(bar);
  }

  /** ... and sets a top-level key. */
  lemma NestedSetTopLevel(foo: string, v: Value)
    requires FirstDot(foo) == None
    ensures NestedSet(Obj([]), foo, v) == Ok(Obj([(foo, v)]))
  {
    SetTopLevel(Obj([]), foo, v);
    assert [] + [(foo, v)] == [(foo, v)];
  }

  /** Writing below a key that already holds `{}`. */
  lemma SetIntoChild(a: string, y: string, v: Value)
    requires FirstDot(a) == None && FirstDot(y) == None
    ensures NestedSet(Obj([(a, Obj([]))]), a + "." + y, v) == Ok(Obj([(a, Obj([(y, v)]))]))
  {
    Dotted(a, y);
    NestedSetTopLevel(y, v);
    assert Find([(a, Obj([]))], a) == Some(0);
    assert Put([(a, Obj([]))], a, Obj([(y, v)])) == [(a, Obj([(y, v)]))];
  }

  /** Every value an expression reads out of the record is a copy here, so
      a dotted target written into it leaves the record alone. With the
      properties `{a: record x, a.y: text one, b: record x}` over the record
      `{x: {}}`, the model writes `{a: {y: one}, b: {}}`. Python hands `a`
      the record's own dict, writes `y` into it in place, and so writes
      `{a: {y: one}, b: {y: one}}`: this aliasing is not modelled. */
  lemma SharedDictNotUpdated(env: Env, t: string, a: string, y: string, b: string, x: string, one: string)
    requires FirstDot(a) == None && FirstDot(y) == None && FirstDot(b) == None && FirstDot(x) == None
    requires a != b
    ensures
      RuleOutcome(env,
        Obj([("stream", Str(t)),
             ("properties", Obj([(a, RecordOf(x)), (a + "." + y, TextOf(one)), (b, RecordOf(x))]))]),
        Obj([(x, Obj([]))]))
      == Ok(Some(Emitted(Str(t), Obj([(a, Obj([(y, Str(one))])), (b, Obj([]))]))))
  {
    var props := [(a, RecordOf(x)), (a + "." + y, TextOf(one)), (b, RecordOf(x))];
    var rule := Obj([("stream", Str(t)), ("properties", Obj(props))]);
    GetPair("stream", Str(t), "properties", Obj(props));
    assert !HasKey(rule.fields, "exclude");
    SharedDictOutcomes(env, a, y, b, x, one);
    SharedDictAssembled(a, y, b, x, one);
  }

  /** The values of the three expressions of `SharedDictNotUpdated`. */
  lemma SharedDictOutcomes(env: Env, a: string, y: string, b: string, x: string, one: string)
    requires FirstDot(x) == None
    ensures Outcomes(env, [(a, RecordOf(x)), (a + "." + y, TextOf(one)), (b, RecordOf(x))], Obj([(x, Obj([]))]))
      == [Ok(Obj([])), Ok(Str(one)), Ok(Obj([]))]
  {
    var record := Obj([(x, Obj([]))]);
    GetPair("type", Str("record"), "key", Str(x));
    GetPair("type", Str("text"), "val", Str(one));
    LookupExpressions(env, RecordOf(x), x, record);
    assert Get(record.fields, x) == Some(Obj([]));
    TextIsVerbatim(env, TextOf(one), Str(one), record);
  }

  /** The `properties` loop of `SharedDictNotUpdated`, over those values. */
  lemma SharedDictAssembled(a: string, y: string, b: string, x: string, one: string)
    requires FirstDot(a) == None && FirstDot(y) == None && FirstDot(b) == None
    requires a != b
    ensures Assemble([(a, RecordOf(x)), (a + "." + y, TextOf(one)), (b, RecordOf(x))],
                     [Ok(Obj([])), Ok(Str(one)), Ok(Obj([]))], 0, Obj([]))
      == Ok(Obj([(a, Obj([(y, Str(one))])), (b, Obj([]))]))
  {
    var props := [(a, RecordOf(x)), (a + "." + y, TextOf(one)), (b, RecordOf(x))];
    var rs := [Ok(Obj([])), Ok(Str(one)), Ok(Obj([]))];
    var inner := Obj([(a, Obj([(y, Str(one))]))]);
    var out := Obj([(a, Obj([(y, Str(one))])), (b, Obj([]))]);
    NestedSetTopLevel(a, Obj([]));
    SetIntoChild(a, y, Str(one));
    SetTopLevel(inner, b, Obj([]));
    assert Find(inner.fields, b) == None;
    assert Put(inner.fields, b, Obj([])) == out.fields;
    assert Assemble(props, rs, 3, out) == Ok(out);
    assert Assemble(props, rs, 2, inner) == Ok(out);
    assert Assemble(props, rs, 1, Obj([(a, Obj([]))])) == Ok(out);
  }

  /** The configuration of the simple-stream test: one rule for the
      stream ("facilities") copying the record's `name` into a record for
      the target stream ("location"). */
  function SimpleConfig(stream: string, target: string, name: string): Config {
    Config([(stream, Arr([SimpleRule(target, name)]))], None)
  }

  function SimpleRule(target: string, name: string): Value {
    Obj([("stream", Str(target)), ("properties", Obj([(name, RecordOf(name))]))])
  }

  /** A record of the stream writes one record, holding its name, to the
      target stream, and nothing else. */
  lemma SimpleStream(py: Builtins, stream: string, target: string, name: string, v: Value)
    requires FirstDot(name) == None
    ensures Expand(Env(SimpleConfig(stream, target, name), py), stream, Obj([(name, v)]))
      == Trace([Emitted(Str(target), Obj([(name, v)]))], true)
  {
    var env := Env(SimpleConfig(stream, target, name), py);
    var record := Obj([(name, v)]);
    var rule := SimpleRule(target, name);
    var e := Emitted(Str(target), record);
    GetPair("type", Str("record"), "key", Str(name));
    GetPair("stream", Str(target), "properties", Obj([(name, RecordOf(name))]));
    LookupExpressions(env, RecordOf(name), name, record);
    assert Outcomes(env, [(name, RecordOf(name))], record) == [Ok(v)];
    NestedSetTopLevel(name, v);
    assert Assemble([(name, RecordOf(name))], [Ok(v)], 1, record) == Ok(record);
    assert Assemble([(name, RecordOf(name))], [Ok(v)], 0, Obj([])) == Ok(record);
    assert !HasKey(rule.fields, "exclude");
    assert RuleOutcome(env, rule, record) == Ok(Some(e));
    assert ApplyRules(env, [rule], 1, record) == Trace([], true);
    assert ApplyRules(env, [rule], 0, record) == Trace([e], true);
    assert !StartsWith(stream, stream + ".");
    assert ExpandKeys(env, stream, record, 1) == Trace([], true);
    assert ExpandKeys(env, stream, record, 0) == Trace([], true);
  }

  /** The rule of the simple-stream test copies `name` out of any record
      that holds it. */
  lemma SimpleRuleCopies(env: Env, target: string, name: string, record: Value, v: Value)
    requires FirstDot(name) == None && record.Obj? && Get(record.fields, name) == Some(v)
    ensures RuleOutcome(env, SimpleRule(target, name), record) == Ok(Some(Emitted(Str(target), Obj([(name, v)]))))
  {
    var rule := SimpleRule(target, name);
    GetPair("type", Str("record"), "key", Str(name));
    GetPair("stream", Str(target), "properties", Obj([(name, RecordOf(name))]));
    LookupExpressions(env, RecordOf(name), name, record);
    assert Outcomes(env, [(name, RecordOf(name))], record) == [Ok(v)];
    NestedSetTopLevel(name, v);
    assert Assemble([(name, RecordOf(name))], [Ok(v)], 1, Obj([(name, v)])) == Ok(Obj([(name, v)]));
    assert !HasKey(rule.fields, "exclude");
  }

  /** The nested-child test's configuration ("facilities.children" copying
      `name` to "location"), with the parent stream ("facilities") given
      an empty rule list. */
  function NestedConfig(stream: string, child: string, target: string, name: string): Config {
    Config([(stream, Arr([])), (stream + "." + child, Arr([SimpleRule(target, name)]))], None)
  }

  /** The children of the nested-child test: one `{name: v}` per value. */
  function ChildItems(name: string, vs: seq<Value>): seq<Value> {
    seq(|vs|, k requires 0 <= k < |vs| => Obj([(name, vs[k])]))
  }

  /** One "location" record per child, holding its name, in order. */
  function Copies(target: string, name: string, vs: seq<Value>): seq<Emitted> {
    if vs == [] then [] else [Emitted(Str(target), Obj([(name, vs[0])]))] + Copies(target, name, vs[1..])
  }

  /** A child record, with `@parent` and `@index` added, writes one record
      holding its name; nothing is configured below the child stream. */
  lemma ChildCopied(py: Builtins, stream: string, child: string, target: string, name: string,
                    v: Value, parent: Value, i: nat)
    requires FirstDot(name) == None && name != "@parent" && name != "@index"
    ensures Expand(Env(NestedConfig(stream, child, target, name), py), stream + "." + child,
                   ChildRecord(Obj([(name, v)]), parent, i))
      == Trace([Emitted(Str(target), Obj([(name, v)]))], true)
  {
    var env := Env(NestedConfig(stream, child, target, name), py);
    var key := stream + "." + child;
    var cr := ChildRecord(Obj([(name, v)]), parent, i);
    var rule := SimpleRule(target, name);
    var e := Emitted(Str(target), Obj([(name, v)]));
    ChildRecordFields(Obj([(name, v)]), parent, i);
    assert Get([(name, v)], name) == Some(v);
    SimpleRuleCopies(env, target, name, cr, v);
    assert |stream| < |key|;
    GetPair(stream, Arr([]), key, Arr([rule]));
    assert ApplyRules(env, [rule], 1, cr) == Trace([], true);
    assert ApplyRules(env, [rule], 0, cr) == Trace([e], true);
    assert !StartsWith(stream, key + ".") && !StartsWith(key, key + ".");
    assert ExpandKeys(env, key, cr, 1) == Trace([], true);
    assert ExpandKeys(env, key, cr, 0) == Trace([], true);
    ThenNothing([e], true);
  }

  /** The items loop over the children from `i` on writes their copies. */
  lemma {:induction false} ItemsCopied(py: Builtins, stream: string, child: string, target: string, name: string,
                                       vs: seq<Value>, parent: Value, i: nat)
    requires FirstDot(name) == None && name != "@parent" && name != "@index" && i <= |vs|
    requires |stream + "." + child| <= Bound(NestedConfig(stream, child, target, name).mappings)
    ensures ExpandItems(Env(NestedConfig(stream, child, target, name), py), stream, stream + "." + child,
                        parent, ChildItems(name, vs), i)
      == Trace(Copies(target, name, vs[i..]), true)
    decreases |vs| - i
  {
    if i < |vs| {
      var env := Env(NestedConfig(stream, child, target, name), py);
      var items := ChildItems(name, vs);
      assert items[i] == Obj([(name, vs[i])]);
      ChildCopied(py, stream, child, target, name, vs[i], parent, i);
      ItemsCopied(py, stream, child, target, name, vs, parent, i + 1);
      assert vs[i..][1..] == vs[i + 1..];
      assert ExpandItems(env, stream, stream + "." + child, parent, items, i) ==
        Then(Trace([Emitted(Str(target), Obj([(name, vs[i])]))], true),
             ExpandItems(env, stream, stream + "." + child, parent, items, i + 1));
    }
  }

  /** With the parent stream configured (here with no rules of its own),
      a parent record whose `children` list holds `{name: v}` dicts writes
      one "location" record per child, holding its name, in order: the
      three records the nested-child test expects from "Joe", "Bob" and
      "Ann". */
  lemma NestedChildStream(py: Builtins, stream: string, child: string, target: string, name: string, vs: seq<Value>)
    requires FirstDot(child) == None && FirstDot(name) == None && name != "@parent" && name != "@index"
    ensures Expand(Env(NestedConfig(stream, child, target, name), py), stream,
                   Obj([(child, Arr(ChildItems(name, vs)))]))
      == Trace(Copies(target, name, vs), true)
  {
    var env := Env(NestedConfig(stream, child, target, name), py);
    var mappings := env.config.mappings;
    var key := stream + "." + child;
    var items := ChildItems(name, vs);
    var record := Obj([(child, Arr(items))]);
    assert |stream| < |key|;
    GetPair(stream, Arr([]), key, Arr([SimpleRule(target, name)]));
    assert mappings[1].0 == key;
    assert ApplyRules(env, [], 0, record) == Trace([], true);
    // The key below the stream leads to the `children` list.
    assert StartsWith(key, stream + ".") && key[|stream| + 1..] == child;
    assert Split(child) == [child];
    assert NestedGet(record, child) == Ok(Arr(items));
    assert FindList(record, [child], "") == Ok(Some((child, items)));
    assert ChildStream(stream, record, key) == Ok(Some((key, items)));
    ItemsCopied(py, stream, child, target, name, vs, record, 0);
    assert vs[0..] == vs;
    assert !StartsWith(stream, stream + ".");
    assert ExpandKeys(env, stream, record, 2) == Trace([], true);
    ThenNothing(Copies(target, name, vs), true);
    assert ExpandKeys(env, stream, record, 1) == Trace(Copies(target, name, vs), true);
    assert ExpandKeys(env, stream, record, 0) == Trace(Copies(target, name, vs), true);
  }

  /** With rules only for the child stream ("facilities.children", the
      test's `location` rule), a parent record writes nothing, whatever
      children it holds: the parent stream has no rules of its own, so its
      children are never searched, and the three records the nested-child
      test expects are not written. */
  lemma ChildStreamWithoutParentRules(py: Builtins, stream: string, child: string, target: string, name: string,
                                      record: Value)
    ensures Expand(Env(Config([(stream + "." + child, Arr([SimpleRule(target, name)]))], None), py), stream, record)
      == Trace([], true)
  {
    var env := Env(Config([(stream + "." + child, Arr([SimpleRule(target, name)]))], None), py);
    assert |stream| < |stream + "." + child|;
    assert !HasKey(env.config.mappings, stream);
    NoRulesNoChildren(env, stream, record);
  }
}
