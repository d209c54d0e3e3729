# transform-singer, modelled in Dafny

transform-singer is a Singer transformer. It reads records of input streams
and writes records of output streams. A configuration maps each stream name
to a list of rules. Each rule names an output `stream` and a dict of
`properties`. Each property maps a dot-path target to a mapping expression
(`record`, `config`, `text`, `join`, `coalesce`, `substr`, `sum`,
`difference`, `if`). This project models the three pieces of that program
that hold its logic:

- **The dot-path accessor** `nested_get` / `nested_set` of
  `transform_singer/utils.py` (module `Paths`, on the ordered dicts of
  module `Json`). Both split a path on its first dot and recurse. `get`
  reads a missing key as `{}` and a missing leaf as None. `set` creates the
  missing intermediate dicts and replaces the leaf.
- **The expression evaluator** `Processor.process_mapping` and
  `Processor._process_condition` of `transform_singer/processor.py`:
  - module `Evaluator`, with the Python built-ins it relies on in `Python`;
  - the consumers of lists of sub-expressions (comprehension, `next`,
    `all`, `any`, the `sum` and `difference` loops) in `Iteration`.

  Expressions are read in their JSON form, as the Python code reads them.
  Every exception the code does not catch (KeyError, TypeError,
  AttributeError) is `Fail`. The ValueError of `float()` is the one
  exception the code catches: the `sum` / `difference` loops skip that
  object.
- **The record expander** `Processor.process_record`:
  - module `Expander` specifies it. It states what one call writes with
    `singer.write_record`, in order, and whether the call returns normally.
  - class `Processor.Processor` implements it. The rules, properties,
    segments, keys and items loops are written as loops, with `written` as
    the log of records written. Each method is proved to do what
    `Expander` (or `Evaluator`) specifies.

Module `Scenarios` restates the repository's unit tests over the model.
Each lemma proves the outcome the test expects, for any keys and values of
the shape the test uses.

### Where the tests and the code disagree
The model follows the code in each of these cases:

- **Streams without rules** (`transform_singer/processor.py:146-149`).
  `process_record` returns at once for a stream that has no rules of its
  own, so it never searches for that stream's children. The test
  `test_nested_child_stream` expects three records from the child stream
  `facilities.children` when only that child is configured.
  `Scenarios.ChildStreamWithoutParentRules` proves that, with the test's
  rule, the code writes nothing for any record. `Scenarios.NestedChildStream`
  proves that once `facilities` is configured (even with no rules), the
  code writes the test's three records, one per child, in order.
- **The call signature.** The record tests call
  `process_record(stream, record)`, but the code takes one message dict.
  The model's message is the pair of stream and record.
- **Array paths.** `foo[]` / `foo[1]` array paths, the `@root` and `@item`
  lineage keys, deep copies of child records, and descent into a child
  that is a dict rather than a list all appear in the tests or the repository's
  documentation. None of them is in the code.
- **The `next_level` update** (`transform_singer/processor.py:175`) only
  adds a dot when `next_level` is non-empty. A key with an empty segment
  right after the stream (`a..b`) therefore leads to the child stream
  `a.b`, which is not a prefix of the key. `Expander.EmptySegmentDropped`
  exhibits this. `Expander.ChildStreamIsKeyPrefix` proves the prefix
  property for every other key.

## Model

| member | source | states |
|---|---|---|
| Json.Find | transform_singer/utils.py:35 | `k in d`: the position reported holds the key and is its first occurrence; None exactly when no entry holds the key |
| Json.Put | transform_singer/utils.py:40 | `d[k] = v` keeps the key order when the key was present, and appends `(k, v)` when it was not |
| Json.PutGet | transform_singer/utils.py:36-40 | after `d[k] = v`, `d.get(k)` is `v` and every other key reads as before |
| Json.PutDistinct | transform_singer/utils.py:40 | assignment never makes a key appear twice |
| Json.Field | transform_singer/processor.py:59-67 | `m[k]` succeeds exactly when `m` is a dict holding `k` (KeyError / TypeError otherwise) and then gives `d.get(k)` |
| Python.PyFloat | transform_singer/processor.py:82-85 | `float(v)` raises an uncaught TypeError exactly for None, lists and dicts; a ValueError (skipped by the loops) comes only from an unparsable string; numbers and bools convert to their value |
| Python.PyStr | transform_singer/processor.py:70 | `str()`: no contract of its own; "None", "True"/"False", the decimal digits of an int, a string itself, and the `Python.Builtins` parameters for floats, lists and dicts; `Iteration.ConcatOfStrings` and `Evaluator.JoinPieces` use it |
| Python.PyEq | transform_singer/processor.py:43-44 | Python `==` on JSON values: no contract of its own; numbers and bools compare by value, lists and dicts item by item; `Python.PyEqSymmetric` characterises it |
| Python.PyCompare | transform_singer/processor.py:45-52 | Python `<`, `<=`, `>`, `>=` on JSON values: no contract of its own; `Python.CompareNoneFails` and `Python.CompareFlip` characterise it |
| Python.PyEqSymmetric | transform_singer/processor.py:43-44 | Python `==` on JSON values is symmetric |
| Python.CompareNoneFails | transform_singer/processor.py:45-52 | ordering against None raises in either position |
| Python.CompareFlip | transform_singer/processor.py:45-52 | `a < b` is `b > a` and `a <= b` is `b >= a`, down to which pairings raise |
| Python.PrefixSlice | transform_singer/processor.py:76 | `v[:length]` works on strings and lists only with a None/int/bool stop; the result is a prefix of `v`, of the clamped length for non-negative and negative stops, and `v` itself for None |
| Python.Iterate | transform_singer/processor.py:70-93 | `for x in v` works exactly on lists, dicts and strings: a list gives its items, a dict its keys, a string its one-character strings |
| Paths.FirstDot | transform_singer/utils.py:32-33 | `'.' in target` and the split point of `split('.', 1)`: the first dot, with no dot before it; None exactly when there is no dot |
| Paths.EmptyAddressable | transform_singer/utils.py:35-38 | `{}`, as created for a missing segment, can be read or written at any path |
| Paths.NestedGet | transform_singer/utils.py:61-65 | `nested_get` succeeds exactly on addressable paths, where every dict stepped into is a dict |
| Paths.NestedSet | transform_singer/utils.py:32-42 | `nested_set` succeeds exactly on addressable paths; it returns a dict in which every key other than the first segment reads as before, with the key order kept, and a missing first segment is appended last |
| Paths.GetAfterSet | transform_singer/utils.py:32-65 | round trip: `nested_get(nested_set(r, p, v), p) == v` on every addressable path, a dict at the leaf being replaced and not merged |
| Paths.GetAfterSetElsewhere | transform_singer/utils.py:32-42 | `nested_set` along `p` leaves `nested_get` along every path diverging from `p` unchanged, at every depth |
| Paths.AddressableAfterSet | transform_singer/utils.py:35-38 | a write along one path leaves every diverging path addressable |
| Paths.GetFromEmpty | transform_singer/utils.py:63-65 | on `{}`, every path reads None |
| Paths.GetMissingSegment | transform_singer/utils.py:61-65 | a missing first segment makes the whole read None, however long the path |
| Paths.GetCompose | transform_singer/utils.py:61-65 | once `nested_get` along `p` reaches a dict, reading on along `p.q` is reading `q` inside that dict |
| Paths.GetMissingDeep | transform_singer/utils.py:61-65 | a missing segment at any depth makes the whole read None |
| Paths.SetIntoEmpty | transform_singer/utils.py:32-42 | writing into `{}` builds one fresh dict per segment, with the value at the innermost |
| Paths.SetCreatesIntermediate | transform_singer/utils.py:35-38 | a missing first segment gets a fresh chain of dicts appended after the dict's existing entries, which are left untouched |
| Paths.SetTopLevel | transform_singer/utils.py:39-42 | a dot-free target is `record[target] = value` on the same dict, and the key then holds the value, whatever it held before |
| Iteration.FirstTruthy | transform_singer/processor.py:73 | the `next(...)` generator of `coalesce`: no contract of its own; `Iteration.FirstTruthyStops` characterises it |
| Iteration.AllOf | transform_singer/processor.py:36 | `all(...)`: no contract of its own; `Iteration.AllOfStops` characterises it |
| Iteration.AnyOf | transform_singer/processor.py:38 | `any(...)`: no contract of its own; `Iteration.AnyOfStops` characterises it |
| Iteration.SumLoop | transform_singer/processor.py:79-87 | the `sum` loop from a position and a running total: no contract of its own; `Iteration.SumLoopTotal` and `Iteration.SumLoopIsTotal` characterise it |
| Iteration.DifferenceLoop | transform_singer/processor.py:90-104 | the `difference` loop from a position: no contract of its own; `Iteration.DifferenceLoopRest` and `Iteration.DifferenceLoopIsFirstMinusRest` characterise it |
| Iteration.AllOk | transform_singer/processor.py:70 | a comprehension yields every value in order exactly when no element raised |
| Iteration.ConcatOfStrings | transform_singer/processor.py:70 | joining strings is their concatenation |
| Iteration.FirstTruthyStops | transform_singer/processor.py:73 | the `next(...)` generator returns the first outcome it does not pass over (a truthy value or the exception), and None when it passes over all |
| Iteration.AllOfStops | transform_singer/processor.py:36 | `all(...)` is decided by the first outcome that is not True, later ones being ignored; True when all are True |
| Iteration.AnyOfStops | transform_singer/processor.py:38 | `any(...)` is decided by the first outcome that is not False; False when all are False |
| Iteration.SumLoopTotal | transform_singer/processor.py:79-87 | from any point on, the `sum` loop adds the sum of the numbers still to come to its running total, which stays as it was (an int included) when none comes; it raises exactly when an outcome or a `float()` TypeError does |
| Iteration.DifferenceLoopRest | transform_singer/processor.py:93-104 | past the first object, the `difference` loop subtracts the sum of the numbers still to come, and raises exactly when an outcome or a `float()` TypeError does |
| Iteration.SumLoopIsTotal | transform_singer/processor.py:77-87 | the `sum` loop from `sum = 0` computes the sum of the converted numbers, or the int 0 when none converted |
| Iteration.DifferenceLoopIsFirstMinusRest | transform_singer/processor.py:88-104 | the `difference` loop computes the first object's number minus the sum of the others', or the int 0 when nothing converted; `is_first` clears even when the first object was skipped |
| Evaluator.Eval | transform_singer/processor.py:56-143 | `process_mapping`: no contract of its own; the lemmas below characterise it branch by branch, and `Processor.Processor.ProcessMapping` runs it |
| Evaluator.EvalCond | transform_singer/processor.py:19-54 | `_process_condition`: no contract of its own; `Evaluator.AndIsAll`, `Evaluator.OrIsAny`, `Evaluator.ConnectiveNeedsIterable`, `Evaluator.ComparisonSides` and `Evaluator.UnknownOperatorIsFalse` characterise it |
| Evaluator.Compare | transform_singer/processor.py:43-54 | the operator dispatch: no contract of its own; `Evaluator.CompareSwapped`, `Evaluator.OrderingWithNoneFails` and `Evaluator.UnknownOperatorIsFalse` characterise it |
| Evaluator.FalsyIsNone | transform_singer/processor.py:57-58 | a falsy mapping (None, `{}`, `""`, 0, `[]`) evaluates to None |
| Evaluator.UnknownType | transform_singer/processor.py:56-108 | a `type` that no branch names falls through to None; a non-empty dict without `type` raises |
| Evaluator.LookupExpressions | transform_singer/processor.py:59-64 | `record` is `nested_get` on the record and `config` is `nested_get` on `config['meta']`, which raises when `meta` is absent |
| Evaluator.RecordReadsBackSet | transform_singer/processor.py:59-61 | a `record` expression reads back exactly what `nested_set` wrote at its key |
| Evaluator.TextIsVerbatim | transform_singer/processor.py:65-67 | `text` returns its `val` verbatim, whatever JSON it holds |
| Evaluator.EvalAllElements | transform_singer/processor.py:68-104 | iterating `pieces` / `objects` succeeds exactly when the collection is iterable, and then yields, position by position, `process_mapping` of each element |
| Evaluator.CondAllElements | transform_singer/processor.py:35-38 | iterating `conditions` succeeds exactly when it is iterable, and then yields `_process_condition` of each element |
| Evaluator.JoinPieces | transform_singer/processor.py:68-70 | `join` is the in-order concatenation of `str()` of every piece's value, so None contributes "None" |
| Evaluator.JoinRaises | transform_singer/processor.py:68-70 | `join` raises exactly when `pieces` is not iterable or one of the pieces raises |
| Evaluator.CoalesceStops | transform_singer/processor.py:71-73 | `coalesce` returns the first truthy object, passing over falsy ones (0 and "" included); an object raising before it makes it raise; None when all are passed over |
| Evaluator.SubstrIsPrefix | transform_singer/processor.py:74-76 | `substr` is the prefix slice of the object's value, and a missing `length` raises |
| Evaluator.SumIsTotal | transform_singer/processor.py:77-87 | `sum` raises when `objects` is not iterable, and otherwise is the sum of the converted numbers (the int 0 when none converted) |
| Evaluator.DifferenceIsFirstMinusRest | transform_singer/processor.py:88-104 | `difference` raises when `objects` is not iterable, and otherwise is the first number minus the rest |
| Evaluator.EmptyFoldsAreZero | transform_singer/processor.py:77-104 | `sum` and `difference` over no objects give the int 0 |
| Evaluator.IfSelectsBranch | transform_singer/processor.py:138-143 | `if` evaluates `then` exactly when the condition holds and `else` otherwise, a missing branch giving None; a missing or raising condition raises |
| Evaluator.EvalFieldDefault | transform_singer/processor.py:140-143 | `process_mapping(m.get(key))` is `process_mapping` of the key's value, or None when the key is missing |
| Evaluator.AndIsAll | transform_singer/processor.py:35-36 | `and` is decided by the first condition that does not hold (False, or its exception); True when all hold |
| Evaluator.OrIsAny | transform_singer/processor.py:37-38 | `or` is decided by the first condition that is not False (True, or its exception); False when none is True |
| Evaluator.ConnectiveNeedsIterable | transform_singer/processor.py:35-38 | `and` / `or` over a non-iterable `conditions` raise |
| Evaluator.ComparisonSides | transform_singer/processor.py:40-52 | a comparison applies its operator to `process_mapping` of `left` and of `right` (None when missing); either side raising makes it raise |
| Evaluator.UnknownOperatorIsFalse | transform_singer/processor.py:43-54 | an operator none of the seven names gives False |
| Evaluator.CompareSwapped | transform_singer/processor.py:43-52 | `gt` is `lt` swapped and `gte` is `lte` swapped, including which pairs raise; `eq` ignores the order of its sides |
| Evaluator.OrderingWithNoneFails | transform_singer/processor.py:45-52 | an ordering comparison with None on either side raises rather than giving False |
| Expander.Expand | transform_singer/processor.py:145-192 | one `process_record` call as the records it writes and whether it returns normally: no contract of its own; `Expander.RulesWrittenInOrder`, `Expander.NoRulesNoChildren`, `Expander.ChildStream`, the scenarios and `Processor.Processor.ProcessRecord` characterise it |
| Expander.ExpandKeys | transform_singer/processor.py:167-192 | the search over the configured keys from a position: no contract of its own; `Processor.Processor.ScanKeys` runs it |
| Expander.ExpandItems | transform_singer/processor.py:186-192 | the items loop from a position: no contract of its own; `Processor.Processor.ProcessItems` runs it and `Scenarios.ItemsCopied` evaluates it |
| Expander.RuleOutcome | transform_singer/processor.py:153-164 | one pass of the rules loop: no contract of its own; `Expander.ExcludedRuleWritesNothing`, `Expander.FlatProperties`, `Expander.PropertiesReadBack` and `Scenarios.SharedDictNotUpdated` characterise it |
| Expander.Outcomes | transform_singer/processor.py:159-161 | the values of the property expressions: no contract of its own beyond one outcome per property; `Expander.FlatProperties` and `Expander.PropertiesReadBack` (which pass it to `Expander.AssembleFlat` and `Expander.AssembleReadsBack`) and `Scenarios.SharedDictOutcomes` characterise it |
| Expander.Assemble | transform_singer/processor.py:159-161 | the `properties` loop over the values: no contract of its own; `Expander.AssembleFlat` and `Expander.AssembleReadsBack` characterise it |
| Expander.AssembleFlat | transform_singer/processor.py:159-161 | with distinct dot-free targets, the loop from any position, over a record holding the earlier targets, ends with every target holding its value, in the order of `properties` |
| Expander.AssembleReadsBack | transform_singer/processor.py:159-161 | with pairwise diverging targets, the loop from any position, over a record that reads back the earlier targets and can address the later ones, succeeds and reads back every target |
| Expander.ChildRecord | transform_singer/processor.py:190 | `{**item, '@parent': ..., '@index': i}`: no contract of its own; `Expander.ChildRecordFields` and `Expander.ChildRecordKeys` characterise it |
| Expander.FindList | transform_singer/processor.py:173-180 | the level the segments loop stops at is never longer than the segments it was grown from |
| Expander.ChildStream | transform_singer/processor.py:169-184 | the child stream recursed into is strictly longer than the stream and no longer than the configured key, which bounds the recursion |
| Expander.ChildStreamIsKeyPrefix | transform_singer/processor.py:169-180 | unless the key's suffix starts with a dot, the child stream is a prefix of the configured key |
| Expander.EmptySegmentDropped | transform_singer/processor.py:175 | with stream `a` and key `a..b`, the child stream is `a.b`, which is not a prefix of the key |
| Expander.RulesWrittenInOrder | transform_singer/processor.py:151-164 | the rules loop writes one record per rule that is not excluded, in rule order; the first rule that raises ends the call with the earlier records written |
| Expander.NoRulesNoChildren | transform_singer/processor.py:146-149 | a stream with no rules writes nothing and is not searched for children |
| Expander.ExcludedRuleWritesNothing | transform_singer/processor.py:155-157 | a truthy `exclude` writes nothing, without looking at `properties` or `stream`; with a falsy one, a rule with empty `properties` writes `{}` to its `stream` |
| Expander.FlatProperties | transform_singer/processor.py:153-164 | a rule whose targets have no dots writes exactly those targets with their values, in the order of `properties`, to the rule's `stream` |
| Expander.PropertiesReadBack | transform_singer/processor.py:153-164 | when the targets pairwise diverge, the record written reads back every target's value with `nested_get` |
| Expander.ChildRecordFields | transform_singer/processor.py:190 | the child record holds the parent under `@parent`, the position under `@index`, and every other key of the item unchanged |
| Expander.ChildRecordKeys | transform_singer/processor.py:190 | the item's keys keep their order in the child record, with `@parent` and `@index` after them |
| Processor.Processor.constructor | transform_singer/processor.py:8-9 | a processor holds the configuration it was given and has written nothing |
| Processor.Processor.ProcessMapping | transform_singer/processor.py:56-143 | the method computes what the evaluator specifies for every expression |
| Processor.Processor.ProcessElement | transform_singer/processor.py:81-83 | `process_mapping` of the `i`-th iterated object, a string out of a dict or a string being None or raising |
| Processor.Processor.ObjectNumber | transform_singer/processor.py:83 | `float(process_mapping(obj))`: the object's exception, the TypeError, or the number (none for a ValueError) |
| Processor.Processor.Sum | transform_singer/processor.py:77-87 | the `sum` branch computes the evaluator's `sum`, so by `Evaluator.SumIsTotal` the total |
| Processor.Processor.SumObjects | transform_singer/processor.py:79-87 | the `sum` loop over the objects gives the `sum` fold of their outcomes, so by `Iteration.SumLoopIsTotal` their total |
| Processor.Processor.Difference | transform_singer/processor.py:88-104 | the `difference` branch computes the evaluator's `difference`, so by `Evaluator.DifferenceIsFirstMinusRest` the first number minus the rest |
| Processor.Processor.DifferenceObjects | transform_singer/processor.py:90-104 | the `difference` loop gives the `difference` fold of the outcomes, so by `Iteration.DifferenceLoopIsFirstMinusRest` the first minus the rest |
| Processor.Processor.ApplyRule | transform_singer/processor.py:153-164 | one pass of the rules loop: the `exclude` test, then the record built from `properties` and the target stream, as the expander specifies |
| Processor.Processor.SetProperties | transform_singer/processor.py:159-161 | the `properties` loop builds the record the expander's fold of `nested_set` over the targets gives, or raises where it raises |
| Processor.Processor.FindChild | transform_singer/processor.py:170-180 | the segments loop finds the child stream and list that the expander specifies |
| Processor.Processor.ProcessRecord | transform_singer/processor.py:145-192 | appends to `written` exactly the records the expander says one call writes, in order, and reports whether the call returns normally |
| Processor.Processor.ScanKeys | transform_singer/processor.py:166-192 | the keys loop appends what the expander's scan over the configured keys writes |
| Processor.Processor.ProcessItems | transform_singer/processor.py:186-192 | the items loop appends what processing every item as a child record writes, and stops at an item that is not a dict |
| Scenarios.RecordExample | tests/processor/test_process_mapping.py:9-19 | `record` with key `foo` over `{"foo": "bar"}` is "bar" |
| Scenarios.ConfigExample | tests/processor/test_process_mapping.py:22-36 | `config` with key `foo` reads "bar" from `meta` |
| Scenarios.TextExample | tests/processor/test_process_mapping.py:38-47 | `text` with `val` "foo" is "foo" |
| Scenarios.JoinExample | tests/processor/test_process_mapping.py:49-66 | joining two texts gives their concatenation ("foobar") |
| Scenarios.CoalesceExample | tests/processor/test_process_mapping.py:68-87 | `coalesce` of a missing and a present key gives the present key's truthy value ("baz") |
| Scenarios.NestedGetExists | tests/utils/test_nested_get.py:7-15 | `foo.bar.biz` reads the value stored there |
| Scenarios.NestedGetMissing | tests/utils/test_nested_get.py:17-24 | `foo.bar.biz` reads None when only `foo.bar` exists |
| Scenarios.NestedSetOverwrites | tests/utils/test_nested_set.py:7-10 | `foo.bar` replaces what stood there, a string here and a whole dict in `test_overwrite` (lines 22-25) alike |
| Scenarios.NestedSetCreates | tests/utils/test_nested_set.py:12-15 | `foo.bar` into `{}` creates `{"foo": {"bar": v}}` |
| Scenarios.NestedSetTopLevel | tests/utils/test_nested_set.py:17-20 | `foo` into `{}` gives `{"foo": v}` |
| Scenarios.SetIntoChild | transform_singer/utils.py:32-42 | a dotted target under a key holding `{}` writes the leaf into that dict |
| Scenarios.SharedDictNotUpdated | transform_singer/processor.py:159-161 | with properties `{a: record x, a.y: text one, b: record x}` over `{x: {}}`, the model writes `{a: {y: one}, b: {}}`, where Python writes `{y: one}` under `b` too (see Left out) |
| Scenarios.SimpleStream | tests/processor/test_process_record.py:9-26 | a `facilities` record writes exactly one `location` record holding its name |
| Scenarios.SimpleRuleCopies | tests/processor/test_process_record.py:33-39 | the test's `location` rule copies `name` out of any dict that holds it |
| Scenarios.ChildCopied | transform_singer/processor.py:186-192 | a child record built from `{name: v}` writes one `location` record holding `v`, nothing being configured below it |
| Scenarios.ItemsCopied | transform_singer/processor.py:186-192 | the items loop over `{name: v}` children writes their copies in order |
| Scenarios.NestedChildStream | tests/processor/test_process_record.py:29-59 | with `facilities` configured, a record whose `children` list holds `{name: v}` dicts writes one `location` record per child, in order: the three records the test expects |
| Scenarios.ChildStreamWithoutParentRules | tests/processor/test_process_record.py:29-59 | with the test's rule only for `facilities.children`, any `facilities` record writes nothing, not the three records the test expects |

## Left out

- Paths.NestedSet: `nested_set` updates the dict in place and returns it, and walks into the dicts it finds at intermediate segments. The model returns the updated dict as a new value and treats every dict as a copy, so aliasing (some other holder of one of those dicts seeing the write) is not captured.
- Expander.Assemble: the model treats the value of every expression as a copy. In Python, `record` and `config` expressions (`nested_get`) and `text` expressions return the dict stored in the message's record or in the configuration itself. When a later dotted target (`a.y`) walks into such a dict, `nested_set` (`transform_singer/processor.py:161`) writes into it in place. The outputs then differ: every later property, rule (`exclude` and `properties`), the child search (line 176), the `@parent` of child records (line 190) and, for a dict of the configuration, every later message see the write in Python and not in the model. Outputs agree whenever no dotted target goes below a dict an expression returned. `Scenarios.SharedDictNotUpdated` exhibits the difference.
- Expander.RuleOutcome: evaluates every property on the record as the message holds it, for the reason given for `Expander.Assemble`.
- Processor.Processor.SetProperties: follows `Expander.Assemble`, so it does not capture the in-place writes through dicts returned by expressions described there.
- Processor.Processor.ApplyRule: evaluates `exclude` and every property on the unchanged record, so it does not capture the in-place writes described for `Expander.Assemble`.
- Processor.Processor.ProcessMapping: only the `sum` and `difference` branches, which are loops over local variables, are run step by step. The other branches are comprehensions and recursive calls with no state of their own, and the method takes their value from the evaluator function.
- The grammar of `float()` on strings, the text of `str()` on floats, lists and dicts, and IEEE rounding are parameters (`Python.Builtins`). Numbers are exact reals.
- Python's int/float distinction is kept only as far as `sum` and `difference` need it (the int 0 when nothing converted). Big-int and float overflow are not modelled.
- `singer.write_record` is the append to `Processor.written`. The singer library itself is not part of this model.
- `process_schema`, `process_state`, the `process` dispatcher, `__init__.py`'s `main` (stdin, JSON parsing, arguments) and `setup.py` are I/O and plumbing around the core, and are not modelled.
- A message is modelled as its `stream` string and its `record`. Messages with a missing key or a non-string `stream` are not modelled.
- The second `difference` branch (`transform_singer/processor.py:105-107`) is unreachable behind the first, so it has no counterpart.
- `self.config['mappings']` is assumed present and a dict (`Evaluator.Config`). A configuration without it would raise on the first record.
- Array paths (`foo[]`, `foo[1]`), `@root` and `@item` come from the tests and the repository's documentation and are not in the code (see above), so `tests/utils/test_nested_set.py:27-53` has no scenario.
- The grandchild tests of `tests/processor/test_process_record.py` (lines 61-125 and 127-200) have no scenario of their own. The code writes nothing for them: only the grandchild stream is configured, so `process_record` returns for `facilities` before any child search (`transform_singer/processor.py:146-149`, `Expander.NoRulesNoChildren`). With `facilities` configured, the records would still differ from the expected ones: `@root` is not in the code, so `rootparent` would be None. In the first test the segments loop passes through the dict under `children` to the `grandchildren` list, so `@parent` would be the `facilities` record itself.
- Dicts (`Json.Value`'s `Obj`) are association lists, which can hold a key twice where no Python dict can. The model relies on distinct keys wherever it matters: `Json.Find` takes the first occurrence, `Json.Put` keeps keys distinct (`Json.PutDistinct`), and the properties lemmas require distinct targets. A configuration or record with a repeated key cannot come from `json.loads`, which keeps the last value, and is not modelled.
- Scenarios.ChildStreamWithoutParentRules: states what the code does, not what `test_nested_child_stream` expects (see above).
- Scenarios: the test inputs are generalised to any dot-free keys and values of the same shape, with the test's literals as one instance.
