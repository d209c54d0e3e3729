/**
  Dot-path access into nested dicts: `nested_get` and `nested_set` of
  transform_singer/utils.py. Both split the path on its first `.` only
  (`target.split('.', 1)`) and recurse on the remainder.
 */
module Paths {
  import opened Json

  /** The position of the first `.` in a path, if any. */
  function FirstDot(s: string): (r: Option<nat>)
    ensures r.Some? ==> r.value < |s| && s[r.value] == '.'
    ensures r.Some? ==> forall i :: 0 <= i < r.value ==> s[i] != '.'
    ensures r.None? <==> forall i :: 0 <= i < |s| ==> s[i] != '.'
  {
    if s == [] then None
    else if s[0] == '.' then Some(0)
    else match FirstDot(s[1..])
      case None => None
      case Some(d) => Some(d + 1)
  }

  /** The first segment of a path (`next_level`), the whole path when it has
      no dot. */
  function Head(s: string): string {
    match FirstDot(s)
    case None => s
    case Some(d) => s[..d]
  }

  /** What follows the first dot (`extra_levels`). */
  function Tail(s: string): string
    requires FirstDot(s).Some?
  {
    s[FirstDot(s).value + 1..]
  }

  /** The paths along which `nested_get` and `nested_set` succeed: every
      dict they step into is a dict. A missing key is fine (`get` reads on
      in `{}`, `set` creates `{}`); a present key holding a string, number,
      list or None makes Python raise. */
  predicate Addressable(record: Value, target: string)
    decreases |target|
  {
    record.Obj? &&
    match FirstDot(target)
    case None => true
    case Some(d) =>
      match Get(record.fields, target[..d])
      case None => true
      case Some(child) => Addressable(child, target[d + 1..])
  }

  /** An empty dict can be addressed at any path. */
  lemma {:induction false} EmptyAddressable(target: string)
    ensures Addressable(Obj([]), target)
    decreases |target|
  {
    match FirstDot(target)
    case None =>
    case Some(d) =>
  }

  /** `nested_get(record, target)`: a missing key on the way reads as `{}`,
      a missing leaf as None. */
  function NestedGet(record: Value, target: string): (r: Result<Value>)
    ensures r.Ok? <==> Addressable(record, target)
    decreases |target|
  {
    if !record.Obj? then Fail  // `.get` on a non-dict: AttributeError
    else match FirstDot(target)
      case Some(d) =>
        EmptyAddressable(target[d + 1..]);
        NestedGet(GetOr(record.fields, target[..d], Obj([])), target[d + 1..])
      case None =>
        Ok(GetOr(record.fields, target, Null))
  }

  /** `nested_set(record, target, value)`, which writes into `record` in place
      and returns it; here the updated dict is returned as a new value.
      Only the first segment's key is touched at this level: every other key
      keeps its value and its position, and a missing key is added last. */
  function NestedSet(record: Value, target: string, value: Value): (r: Result<Value>)
    ensures r.Ok? <==> Addressable(record, target)
    ensures r.Ok? ==> r.value.Obj?
    ensures r.Ok? ==> forall k :: k != Head(target) ==> Get(r.value.fields, k) == Get(record.fields, k)
    ensures r.Ok? && HasKey(record.fields, Head(target)) ==> Keys(r.value.fields) == Keys(record.fields)
    ensures r.Ok? && !HasKey(record.fields, Head(target)) ==>
      Keys(r.value.fields) == Keys(record.fields) + [Head(target)]
    decreases |target|
  {
    if !record.Obj? then Fail  // item assignment on a non-dict: TypeError
    else match FirstDot(target)
      case Some(d) =>
        var nextLevel, extraLevels := target[..d], target[d + 1..];
        var fields := if HasKey(record.fields, nextLevel) then record.fields
                      else Put(record.fields, nextLevel, Obj([]));
        EmptyAddressable(extraLevels);
        PutGet(record.fields, nextLevel, Obj([]), nextLevel);
        assert Addressable(record, target) <==> Addressable(GetOr(fields, nextLevel, Null), extraLevels);
        var child :- NestedSet(GetOr(fields, nextLevel, Null), extraLevels, value);
        PutLaws(record.fields, fields, nextLevel, child);
        Ok(Obj(Put(fields, nextLevel, child)))
      case None =>
        PutLaws(record.fields, record.fields, target, value);
        Ok(Obj(Put(record.fields, target, value)))
  }

  /** The frame of one dict assignment, for a dict that may already have
      had the key added. */
  lemma PutLaws(original: Fields, fields: Fields, k: string, v: Value)
    requires fields == original || fields == Put(original, k, Obj([]))
    ensures forall k' :: k' != k ==> Get(Put(fields, k, v), k') == Get(original, k')
    ensures HasKey(original, k) ==> Keys(Put(fields, k, v)) == Keys(original)
    ensures !HasKey(original, k) ==> Keys(Put(fields, k, v)) == Keys(original) + [k]
  {
    forall k' | k' != k ensures Get(Put(fields, k, v), k') == Get(original, k') {
      PutGet(fields, k, v, k');
      PutGet(original, k, Obj([]), k');
    }
    PutGet(original, k, Obj([]), k);
    if !HasKey(original, k) && fields != original {
      assert fields == original + [(k, Obj([]))];
      FindFirst(fields, k, |original|);
    }
  }

  /** Round trip: what `nested_set` wrote, `nested_get` reads back, exactly
      (a dict that stood at the leaf is replaced, not merged into). */
  lemma {:induction false} GetAfterSet(record: Value, target: string, value: Value)
    requires Addressable(record, target)
    ensures NestedGet(NestedSet(record, target, value).value, target) == Ok(value)
    decreases |target|
  {
    var r := NestedSet(record, target, value).value;
    match FirstDot(target)
    case None =>
      PutGet(record.fields, target, value, target);
    case Some(d) =>
      var nextLevel, extraLevels := target[..d], target[d + 1..];
      var fields := if HasKey(record.fields, nextLevel) then record.fields
                    else Put(record.fields, nextLevel, Obj([]));
      PutGet(record.fields, nextLevel, Obj([]), nextLevel);
      EmptyAddressable(extraLevels);
      var child := GetOr(fields, nextLevel, Null);
      GetAfterSet(child, extraLevels, value);
      PutGet(fields, nextLevel, NestedSet(child, extraLevels, value).value, nextLevel);
  }

  /** Two paths diverge when they part at some segment: neither is the other
      or an extension of it. */
  predicate Diverge(p: string, q: string)
    decreases |p|
  {
    Head(p) != Head(q) ||
    (FirstDot(p).Some? && FirstDot(q).Some? && Diverge(Tail(p), Tail(q)))
  }

  /** `nested_set` changes only the addressed path: a `nested_get` along any
      diverging path reads what it read before, at every depth. */
  lemma {:induction false} GetAfterSetElsewhere(record: Value, p: string, q: string, value: Value)
    requires Addressable(record, p)
    requires Diverge(p, q)
    ensures NestedGet(NestedSet(record, p, value).value, q) == NestedGet(record, q)
    decreases |p|
  {
    if Head(p) != Head(q) {
      GetAfterSetOtherHead(record, p, q, value);
    } else {
      var r := NestedSet(record, p, value).value;
      var h := Head(p);
      var dp, dq := FirstDot(p).value, FirstDot(q).value;
      assert q[..dq] == h;
      var fields := if HasKey(record.fields, h) then record.fields
                    else Put(record.fields, h, Obj([]));
      PutGet(record.fields, h, Obj([]), h);
      EmptyAddressable(Tail(p));
      var child := GetOr(fields, h, Null);
      GetAfterSetElsewhere(child, Tail(p), Tail(q), value);
      PutGet(fields, h, NestedSet(child, Tail(p), value).value, h);
      assert GetOr(r.fields, h, Obj([])) == NestedSet(child, Tail(p), value).value;
      if !HasKey(record.fields, h) {
        assert GetOr(record.fields, h, Obj([])) == child;
      }
    }
  }

  /** The base case of the frame: a path whose first segment differs from
      the written one reads through a key `nested_set` did not touch. */
  lemma GetAfterSetOtherHead(record: Value, p: string, q: string, value: Value)
    requires Addressable(record, p)
    requires Head(p) != Head(q)
    ensures NestedGet(NestedSet(record, p, value).value, q) == NestedGet(record, q)
  {
    var r := NestedSet(record, p, value).value;
    var hq := Head(q);
    assert Get(r.fields, hq) == Get(record.fields, hq);
    match FirstDot(q)
    case None =>
    case Some(dq) =>
      assert GetOr(r.fields, hq, Obj([])) == GetOr(record.fields, hq, Obj([]));
  }

  /** Diverging is symmetric. */
  lemma {:induction false} DivergeSymmetric(p: string, q: string)
    requires Diverge(p, q)
    ensures Diverge(q, p)
    decreases |p|
  {
    if Head(p) == Head(q) {
      DivergeSymmetric(Tail(p), Tail(q));
    }
  }

  /** `nested_set` along one path leaves every diverging path addressable:
      it only ever puts dicts on its own path, above the leaf. */
  lemma {:induction false} AddressableAfterSet(record: Value, q: string, p: string, value: Value)
    requires Addressable(record, q) && Addressable(record, p)
    requires Diverge(q, p)
    ensures Addressable(NestedSet(record, q, value).value, p)
    decreases |q|
  {
    var r := NestedSet(record, q, value).value;
    if Head(q) != Head(p) {
      var hp := Head(p);
      assert Get(r.fields, hp) == Get(record.fields, hp);
      match FirstDot(p)
      case None =>
      case Some(dp) =>
        assert p[..dp] == hp;
    } else {
      var h := Head(q);
      var dq, dp := FirstDot(q).value, FirstDot(p).value;
      assert p[..dp] == h && q[..dq] == h;
      var fields := if HasKey(record.fields, h) then record.fields
                    else Put(record.fields, h, Obj([]));
      PutGet(record.fields, h, Obj([]), h);
      EmptyAddressable(Tail(q));
      EmptyAddressable(Tail(p));
      var child := GetOr(fields, h, Null);
      AddressableAfterSet(child, Tail(q), Tail(p), value);
      PutGet(fields, h, NestedSet(child, Tail(q), value).value, h);
      assert Get(r.fields, h) == Some(NestedSet(child, Tail(q), value).value);
    }
  }

  /** `nested_get` reads None as soon as a segment is missing: below a
      missing key everything reads from `{}`. */
  lemma {:induction false} GetFromEmpty(target: string)
    ensures NestedGet(Obj([]), target) == Ok(Null)
    decreases |target|
  {
    match FirstDot(target)
    case None =>
    case Some(d) =>
      GetFromEmpty(target[d + 1..]);
  }

  /** A missing first segment makes the whole read None, however long the
      rest of the path. */
  lemma GetMissingSegment(record: Value, target: string)
    requires record.Obj? && !HasKey(record.fields, Head(target))
    ensures NestedGet(record, target) == Ok(Null)
  {
    match FirstDot(target)
    case None =>
    case Some(d) =>
      GetFromEmpty(target[d + 1..]);
  }

  /** Where `nested_get` along `p` reaches a dict, reading on along `q`
      reads `q` inside that dict. */
  lemma {:induction false} GetCompose(record: Value, p: string, q: string, d: Value)
    requires NestedGet(record, p) == Ok(d) && d.Obj?
    ensures NestedGet(record, p + "." + q) == NestedGet(d, q)
    decreases |p|
  {
    var s := p + "." + q;
    assert forall i :: 0 <= i < |p| ==> s[i] == p[i];
    assert s[|p|] == '.';
    match FirstDot(p)
    case None =>
      assert FirstDot(s) == Some(|p|);
      assert s[..|p|] == p && s[|p| + 1..] == q;
    case Some(k) =>
      assert FirstDot(s) == Some(k);
      assert s[..k] == p[..k];
      assert s[k + 1..] == p[k + 1..] + "." + q;
      GetCompose(GetOr(record.fields, p[..k], Obj([])), p[k + 1..], q, d);
  }

  /** A missing segment at any depth makes the read None: once `nested_get`
      along `p` reaches a dict without the next segment of `q`, the whole
      path reads None, however long the rest. */
  lemma GetMissingDeep(record: Value, p: string, q: string, d: Value)
    requires NestedGet(record, p) == Ok(d) && d.Obj? && !HasKey(d.fields, Head(q))
    ensures NestedGet(record, p + "." + q) == Ok(Null)
  {
    GetCompose(record, p, q, d);
    GetMissingSegment(d, q);
  }

  /** On `{}`, `nested_set` builds one fresh dict per segment, the value at
      the innermost. */
  function Chain(segments: seq<string>, value: Value): Value
    requires |segments| > 0
    decreases |segments|
  {
    if |segments| == 1 then Obj([(segments[0], value)])
    else Obj([(segments[0], Chain(segments[1..], value))])
  }

  /** `target.split('.')` */
  function Split(s: string): (parts: seq<string>)
    ensures |parts| > 0
    decreases |s|
  {
    match FirstDot(s)
    case None => [s]
    case Some(d) => [s[..d]] + Split(s[d + 1..])
  }

  /** A missing intermediate segment gets an empty dict created under it
      before the write descends: setting into `{}` yields the chain of
      fresh dicts spelled by the path's segments. */
  lemma {:induction false} SetIntoEmpty(target: string, value: Value)
    ensures NestedSet(Obj([]), target, value) == Ok(Chain(Split(target), value))
    decreases |target|
  {
    match FirstDot(target)
    case None =>
      assert Put([], target, value) == [(target, value)];
      assert Split(target) == [target];
    case Some(d) =>
      SetIntoEmpty(target[d + 1..], value);
      var h, rest := target[..d], target[d + 1..];
      assert Put([], h, Obj([])) == [(h, Obj([]))];
      FindFirst([(h, Obj([]))], h, 0);
      assert GetOr([(h, Obj([]))], h, Null) == Obj([]);
      var child := Chain(Split(rest), value);
      assert Put([(h, Obj([]))], h, child) == [(h, child)];
      assert Split(target) == [h] + Split(rest);
      assert Split(target)[1..] == Split(rest);
  }

  /** With a missing first segment, the old keys stay as they were and a
      fresh chain of dicts is appended under that segment. */
  lemma SetCreatesIntermediate(record: Value, target: string, value: Value)
    requires record.Obj? && FirstDot(target).Some? && !HasKey(record.fields, Head(target))
    ensures NestedSet(record, target, value) ==
      Ok(Obj(record.fields + [(Head(target), Chain(Split(Tail(target)), value))]))
  {
    var d := FirstDot(target).value;
    var h, rest := target[..d], target[d + 1..];
    SetIntoEmpty(rest, value);
    var fields := Put(record.fields, h, Obj([]));
    assert fields == record.fields + [(h, Obj([]))];
    FindFirst(fields, h, |record.fields|);
    assert GetOr(fields, h, Null) == Obj([]);
    var chain := Chain(Split(rest), value);
    assert Put(fields, h, chain) == record.fields + [(h, chain)];
  }

  /** A dot-free target is a plain `record[target] = value` on the same dict:
      the key now holds `value` (whatever it held before, a dict included),
      and nothing else changed. */
  lemma SetTopLevel(record: Value, target: string, value: Value)
    requires record.Obj? && FirstDot(target).None?
    ensures NestedSet(record, target, value) == Ok(Obj(Put(record.fields, target, value)))
    ensures Get(NestedSet(record, target, value).value.fields, target) == Some(value)
  {
    PutGet(record.fields, target, value, target);
  }
}
