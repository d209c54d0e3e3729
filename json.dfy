/**
  JSON values as the Python code sees them after `json.loads`: dicts keep
  their insertion order, so an object is an ordered association list, and
  the usual dict operations (`d.get(k)`, `k in d`, `d[k] = v`) are defined
  on it with Python's semantics.
 */
module Json {

  datatype Option<+T> = None | Some(value: T)

  /** The outcome of a Python computation: a value, or an exception that
      escaped (KeyError, TypeError, AttributeError, ...). */
  datatype Result<+T> = Ok(value: T) | Fail {
    predicate IsFailure() { Fail? }
    function PropagateFailure<U>(): Result<U> requires Fail? { Fail }
    function Extract(): T requires Ok? { value }
  }

  datatype Value =
    | Null
    | Bool(b: bool)
    | Int(i: int)
    | Float(f: real)
    | Str(s: string)
    | Arr(items: seq<Value>)
    | Obj(fields: seq<(string, Value)>)

  type Fields = seq<(string, Value)>

  /** The keys of a dict, in insertion order (`list(d.keys())`). */
  function Keys(fields: Fields): (ks: seq<string>)
    ensures |ks| == |fields|
    ensures forall j :: 0 <= j < |fields| ==> ks[j] == fields[j].0
  {
    if fields == [] then [] else [fields[0].0] + Keys(fields[1..])
  }

  /** Python dicts never hold a key twice. */
  predicate DistinctKeys(fields: Fields) {
    forall j, k :: 0 <= j < k < |fields| ==> fields[j].0 != fields[k].0
  }

  /** The position of key `k`, if present. */
  function Find(fields: Fields, k: string): (r: Option<nat>)
    ensures r.Some? ==> r.value < |fields| && fields[r.value].0 == k
    ensures r.Some? ==> forall j :: 0 <= j < r.value ==> fields[j].0 != k
    ensures r.None? <==> forall j :: 0 <= j < |fields| ==> fields[j].0 != k
  {
    if fields == [] then None
    else if fields[0].0 == k then Some(0)
    else match Find(fields[1..], k)
      case None => None
      case Some(j) => Some(j + 1)
  }

  /** `k in d` */
  predicate HasKey(fields: Fields, k: string) {
    Find(fields, k).Some?
  }

  /** `d.get(k)` */
  function Get(fields: Fields, k: string): Option<Value> {
    match Find(fields, k)
    case None => None
    case Some(j) => Some(fields[j].1)
  }

  /** `d.get(k, default)` */
  function GetOr(fields: Fields, k: string, default: Value): Value {
    match Get(fields, k)
    case None => default
    case Some(v) => v
  }

  /** `d[k] = v`: an existing key keeps its position, a new key goes last. */
  function Put(fields: Fields, k: string, v: Value): (r: Fields)
    ensures HasKey(fields, k) ==> Keys(r) == Keys(fields)
    ensures !HasKey(fields, k) ==> r == fields + [(k, v)]
  {
    match Find(fields, k)
    case Some(j) => fields[j := (k, v)]
    case None => fields + [(k, v)]
  }

  /** The position `Find` reports is the first one holding the key. */
  lemma FindFirst(fields: Fields, k: string, j: nat)
    requires j < |fields| && fields[j].0 == k
    requires forall i :: 0 <= i < j ==> fields[i].0 != k
    ensures Find(fields, k) == Some(j)
  {
  }

  /** After `d[k] = v`, `d.get(k)` is `v` and every other key reads as before. */
  lemma PutGet(fields: Fields, k: string, v: Value, k': string)
    ensures Get(Put(fields, k, v), k') == if k' == k then Some(v) else Get(fields, k')
  {
    var r := Put(fields, k, v);
    assert forall i :: 0 <= i < |fields| ==> r[i].0 == fields[i].0 by {
      if !HasKey(fields, k) { assert r == fields + [(k, v)]; }
    }
    match Find(fields, k')
    case Some(j) =>
      FindFirst(r, k', j);
    case None =>
      if k' == k {
        FindFirst(r, k', |fields|);
      } else {
        assert forall i :: 0 <= i < |r| ==> r[i].0 != k';
      }
  }

  /** Assignment keeps a dict a dict: no key appears twice. */
  lemma PutDistinct(fields: Fields, k: string, v: Value)
    requires DistinctKeys(fields)
    ensures DistinctKeys(Put(fields, k, v))
  {
  }

  /** Python truthiness, `bool(v)`. */
  predicate Truthy(v: Value) {
    match v
    case Null => false
    case Bool(b) => b
    case Int(i) => i != 0
    case Float(f) => f != 0.0
    case Str(s) => s != ""
    case Arr(items) => items != []
    case Obj(fields) => fields != []
  }

  /** `m[k]` on a value that should be a dict: a KeyError when the key is
      missing, a TypeError when `m` is not a dict. */
  function Field(m: Value, k: string): (r: Result<Value>)
    ensures r.Ok? <==> m.Obj? && HasKey(m.fields, k)
    ensures r.Ok? ==> Get(m.fields, k) == Some(r.value)
  {
    if !m.Obj? then Fail
    else match Find(m.fields, k)
      case None => Fail
      case Some(j) => Ok(m.fields[j].1)
  }
}
