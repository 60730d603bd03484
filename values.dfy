/** Python values as the gateway and its validators see them after JSON
    decoding, and the dict operations the modelled code performs. A dict is an
    association list in insertion order with distinct keys: assigning to an
    existing key replaces its value in place, assigning to a new key appends it. */
module PyValues {
  import opened Common

  /** A Python value as decoded from a JSON body; a dict keeps its insertion order. */
  datatype Value =
    | Null
    | Bool(b: bool)
    | Int(i: int)
    | Float(f: real)
    | Str(s: string)
    | List(items: seq<Value>)
    | Dict(entries: seq<(string, Value)>)

  /** The exceptions the modelled code can raise. */
  datatype PyException = TypeError | AttributeError | KeyError | ValueError

  /** `dict.get(key)`: the value stored under the first entry with the key, `None` when absent. */
  function Get(entries: seq<(string, Value)>, key: string): Value {
    if entries == [] then Null
    else if entries[0].0 == key then entries[0].1
    else Get(entries[1..], key)
  }

  /** `len(v)` is defined for strings, lists and dicts only. */
  predicate HasLen(v: Value) {
    v.Str? || v.List? || v.Dict?
  }

  function Len(v: Value): nat
    requires HasLen(v)
  {
    match v
    case Str(s) => |s|
    case List(xs) => |xs|
    case Dict(es) => |es|
  }

  /** `isinstance(v, int)`: a bool is an int in Python (`True == 1`, `False == 0`). */
  predicate IsInt(v: Value) {
    v.Int? || v.Bool?
  }

  function IntValue(v: Value): int
    requires IsInt(v)
  {
    if v.Int? then v.i else if v.b then 1 else 0
  }

  // ----- insertion-ordered dicts -----

  function Keys<V>(d: seq<(string, V)>): seq<string> {
    seq(|d|, i requires 0 <= i < |d| => d[i].0)
  }

  ghost predicate DistinctKeys<V>(d: seq<(string, V)>) {
    forall i, j :: 0 <= i < j < |d| ==> d[i].0 != d[j].0
  }

  /** `d[k]` as an option: the value of the first entry with the key. */
  function Lookup<V>(d: seq<(string, V)>, k: string): Option<V> {
    if d == [] then None
    else if d[0].0 == k then Some(d[0].1)
    else Lookup(d[1..], k)
  }

  /** `d[k] = v`. */
  function DictSet<V>(d: seq<(string, V)>, k: string, v: V): seq<(string, V)> {
    if d == [] then [(k, v)]
    else if d[0].0 == k then [(k, v)] + d[1..]
    else [d[0]] + DictSet(d[1..], k, v)
  }

  /** `del d[k]`. */
  function DictDel<V>(d: seq<(string, V)>, k: string): seq<(string, V)> {
    if d == [] then []
    else if d[0].0 == k then d[1..]
    else [d[0]] + DictDel(d[1..], k)
  }

  /** Assignment stores the value under the key and leaves every other key's value alone. */
  lemma {:induction false} DictSetLookup<V>(d: seq<(string, V)>, k: string, v: V)
    ensures forall x :: Lookup(DictSet(d, k, v), x) == if x == k then Some(v) else Lookup(d, x)
  {
    if d != [] && d[0].0 != k {
      DictSetLookup(d[1..], k, v);
    }
  }

  /** Assigning to a present key keeps every key in place; a new key goes last. */
  lemma {:induction false} DictSetShape<V>(d: seq<(string, V)>, k: string, v: V)
    ensures Lookup(d, k).Some? ==> |DictSet(d, k, v)| == |d| && forall i :: 0 <= i < |d| ==> DictSet(d, k, v)[i].0 == d[i].0
    ensures Lookup(d, k).None? ==> DictSet(d, k, v) == d + [(k, v)]
  {
    if Lookup(d, k).None? {
      DictSetNew(d, k, v);
    } else if d[0].0 != k {
      DictSetShape(d[1..], k, v);
      forall i | 0 < i < |d| ensures DictSet(d, k, v)[i] == DictSet(d[1..], k, v)[i - 1] {
      }
    }
  }

  /** Assignment keeps the key order (a new key goes last) and keeps keys distinct. */
  lemma DictSetKeys<V>(d: seq<(string, V)>, k: string, v: V)
    ensures Keys(DictSet(d, k, v)) == if Lookup(d, k).Some? then Keys(d) else Keys(d) + [k]
    ensures DistinctKeys(d) ==> DistinctKeys(DictSet(d, k, v))
  {
    DictSetShape(d, k, v);
    if Lookup(d, k).None? {
      forall j | 0 <= j < |d| ensures d[j].0 != k {
        KeyInKeys(d, j);
      }
    }
  }

  lemma {:induction false} KeyInKeys<V>(d: seq<(string, V)>, j: nat)
    requires j < |d|
    ensures Lookup(d, d[j].0).Some?
  {
    if j > 0 && d[0].0 != d[j].0 {
      KeyInKeys(d[1..], j - 1);
    }
  }

  lemma {:induction false} LookupSomeHasIndex<V>(d: seq<(string, V)>, k: string)
    requires Lookup(d, k).Some?
    ensures exists m :: 0 <= m < |d| && d[m].0 == k
  {
    if d[0].0 != k {
      LookupSomeHasIndex(d[1..], k);
      var m :| 0 <= m < |d[1..]| && d[1..][m].0 == k;
      assert d[m + 1].0 == k;
    }
  }

  predicate HasKey(data: seq<(string, Value)>, key: string) {
    exists k :: 0 <= k < |data| && data[k].0 == key
  }

  lemma {:induction false} LookupAbsent<V>(d: seq<(string, V)>, k: string)
    requires forall i :: 0 <= i < |d| ==> d[i].0 != k
    ensures Lookup(d, k) == None
  {
    if d != [] {
      assert forall i :: 0 <= i < |d[1..]| ==> d[1..][i] == d[i + 1];
      LookupAbsent(d[1..], k);
    }
  }

  lemma {:induction false} DictSetNew<V>(d: seq<(string, V)>, k: string, v: V)
    requires Lookup(d, k) == None
    ensures DictSet(d, k, v) == d + [(k, v)]
  {
    if d != [] {
      DictSetNew(d[1..], k, v);
      assert d == [d[0]] + d[1..];
    }
  }

  lemma {:induction false} GetAbsent(data: seq<(string, Value)>, key: string)
    requires forall k :: 0 <= k < |data| ==> data[k].0 != key
    ensures Get(data, key) == Null
  {
    if data != [] {
      assert forall k :: 0 <= k < |data[1..]| ==> data[1..][k] == data[k + 1];
      GetAbsent(data[1..], key);
    }
  }

  /** A field read as something other than `None` is stored under its key. */
  lemma {:induction false} GetPresent(data: seq<(string, Value)>, key: string)
    requires Get(data, key) != Null
    ensures exists k :: 0 <= k < |data| && data[k].0 == key && data[k].1 == Get(data, key)
  {
    if data[0].0 != key {
      GetPresent(data[1..], key);
      var k :| 0 <= k < |data[1..]| && data[1..][k].0 == key && data[1..][k].1 == Get(data[1..], key);
      assert data[k + 1] == data[1..][k];
    }
  }

  /** A key the lookup misses is in no entry. */
  lemma LookupNoneAbsent<V>(d: seq<(string, V)>, k: string)
    requires Lookup(d, k).None?
    ensures forall m :: 0 <= m < |d| ==> d[m].0 != k
  {
    forall m | 0 <= m < |d| ensures d[m].0 != k {
      KeyInKeys(d, m);
    }
  }

  // ----- operations on decoded values -----

  /** `v[k]` with a string key: a dict answers the key's value or raises
      `KeyError`; every other value raises `TypeError`. */
  function Index(v: Value, k: string): (r: Result<Value, PyException>)
    ensures r.Ok? <==> v.Dict? && HasKey(v.entries, k)
    ensures r.Ok? ==> Lookup(v.entries, k) == Some(r.value)
    ensures r.Err? ==> r.error == if v.Dict? then KeyError else TypeError
  {
    match v
    case Dict(es) =>
      if Lookup(es, k).Some? then
        LookupSomeHasIndex(es, k);
        Ok(Lookup(es, k).value)
      else
        LookupNoneAbsent(es, k);
        Err(KeyError)
    case _ => Err(TypeError)
  }

  /** `bool(v)`: `None`, `False`, zero and empty containers are false. */
  predicate Truthy(v: Value) {
    match v
    case Null => false
    case Bool(b) => b
    case Int(i) => i != 0
    case Float(f) => f != 0.0
    case Str(s) => s != ""
    case List(xs) => xs != []
    case Dict(es) => es != []
  }

  /** `for x in v`: a list yields its items, a dict its keys, a string its
      one-character strings; anything else raises `TypeError`. */
  function Iterate(v: Value): (r: Result<seq<Value>, PyException>)
    ensures r.Err? <==> !(v.List? || v.Dict? || v.Str?)
    ensures r.Err? ==> r.error == TypeError
    ensures r.Ok? ==> |r.value| == if v.Str? then |v.s| else Len(v)
    ensures v.List? ==> r == Ok(v.items)
    ensures v.Dict? ==> r.Ok? && forall i :: 0 <= i < |v.entries| ==> r.value[i] == Str(v.entries[i].0)
    ensures v.Str? ==> r.Ok? && forall i :: 0 <= i < |v.s| ==> r.value[i] == Str([v.s[i]])
  {
    match v
    case List(xs) => Ok(xs)
    case Dict(es) => Ok(seq(|es|, i requires 0 <= i < |es| => Str(es[i].0)))
    case Str(s) => Ok(seq(|s|, i requires 0 <= i < |s| => Str([s[i]])))
    case _ => Err(TypeError)
  }
}
