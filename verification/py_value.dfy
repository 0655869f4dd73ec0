/**
 * The JSON-shaped Python values the fake-data generator receives (`data`,
 * `personal_info`, a project entry, ...), with the three Python operations it
 * applies to them: `dict.get`, truthiness and iteration.
 */
module PyValue {
  import opened Wrappers

  /** A Python value parsed from JSON. A dict is an association list in
      insertion order. A Python dict never holds a key twice, and the
      statements about lookups assume the same of the list (`DistinctKeys`);
      the list type itself does not enforce it. */
  datatype Value =
    | Null
    | Bool(b: bool)
    | Int(i: int)
    | Str(s: string)
    | List(items: seq<Value>)
    | Dict(entries: seq<(string, Value)>)

  /** The exceptions the modelled code can raise on odd input. */
  datatype PyError = TypeError(what: string)

  /** No key occurs twice, as in every Python dict. */
  predicate DistinctKeys(entries: seq<(string, Value)>) {
    forall i, j :: 0 <= i < j < |entries| ==> entries[i].0 != entries[j].0
  }

  /** `d.get(key)`: the value stored for `key`, or `None` when absent. */
  function Get(entries: seq<(string, Value)>, key: string): (r: Value)
    ensures (forall i :: 0 <= i < |entries| ==> entries[i].0 != key) ==> r == Null
    ensures r != Null ==> exists i :: 0 <= i < |entries| && entries[i] == (key, r)
  {
    if entries == [] then Null
    else if entries[0].0 == key then entries[0].1
    else
      var r := Get(entries[1..], key);
      assert r != Null ==> exists i :: 1 <= i < |entries| && entries[i] == (key, r) by {
        if r != Null {
          var i :| 0 <= i < |entries[1..]| && entries[1..][i] == (key, r);
          assert entries[i + 1] == (key, r);
        }
      }
      r
  }

  /** With distinct keys, `get` returns the value stored under the key. */
  lemma {:induction false} GetStored(entries: seq<(string, Value)>, i: nat)
    requires DistinctKeys(entries) && i < |entries|
    ensures Get(entries, entries[i].0) == entries[i].1
  {
    if i > 0 {
      assert entries[1..][i - 1] == entries[i];
      GetStored(entries[1..], i - 1);
    }
  }

  /** Python truthiness (`if v:`). */
  predicate Truthy(v: Value)
    ensures !Truthy(v) <==>
      v == Null || v == Bool(false) || v == Int(0) || v == Str("") || v == List([]) || v == Dict([])
  {
    match v
    case Null => false
    case Bool(b) => b
    case Int(i) => i != 0
    case Str(s) => s != []
    case List(items) => items != []
    case Dict(entries) => entries != []
  }

  /** What `for x in v` yields: a list's items, a string's characters as
      one-character strings, a dict's keys; other values are not iterable. */
  function Iterate(v: Value): (r: Option<seq<Value>>)
    ensures r.Some? <==> v.Str? || v.List? || v.Dict?
    ensures v.List? ==> r == Some(v.items)
    ensures v.Str? ==> (r.Some? && |r.value| == |v.s|
      && forall i :: 0 <= i < |v.s| ==> r.value[i] == Str([v.s[i]]))
    ensures v.Dict? ==> (r.Some? && |r.value| == |v.entries|
      && forall i :: 0 <= i < |v.entries| ==> r.value[i] == Str(v.entries[i].0))
  {
    match v
    case Str(s) => Some(seq(|s|, i requires 0 <= i < |s| => Str([s[i]])))
    case List(items) => Some(items)
    case Dict(entries) => Some(seq(|entries|, i requires 0 <= i < |entries| => Str(entries[i].0)))
    case _ => None
  }
}
