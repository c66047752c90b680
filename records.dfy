/** A JavaScript object literal used as a lookup table: its own entries, in
    declaration order, as pairs of a key and a value. */
module Records {
  import opened Wrappers

  /** `Object.keys`: the keys in declaration order. */
  function Keys<T>(entries: seq<(string, T)>): (r: seq<string>)
    ensures |r| == |entries| && forall i :: 0 <= i < |entries| ==> r[i] == entries[i].0
  {
    seq(|entries|, i requires 0 <= i < |entries| => entries[i].0)
  }

  /** `record[name]`: the value under `name`, or None (`undefined`). */
  function Lookup<T>(entries: seq<(string, T)>, name: string): (r: Option<T>)
    ensures r.None? <==> name !in Keys(entries)
    ensures r.Some? ==> exists i :: 0 <= i < |entries| && entries[i] == (name, r.value)
    decreases |entries|
  {
    if entries == [] then None
    else if entries[0].0 == name then Some(entries[0].1)
    else
      var r := Lookup(entries[1..], name);
      assert Keys(entries) == [entries[0].0] + Keys(entries[1..]);
      if r.Some? then
        ghost var i :| 0 <= i < |entries[1..]| && entries[1..][i] == (name, r.value);
        assert entries[i + 1] == (name, r.value);
        r
      else r
  }

  /** Looking up a key that no earlier entry has finds its entry. */
  lemma {:induction false} LookupFirst<T>(entries: seq<(string, T)>, i: int)
    requires 0 <= i < |entries| && forall j :: 0 <= j < i ==> entries[j].0 != entries[i].0
    ensures Lookup(entries, entries[i].0) == Some(entries[i].1)
    decreases i
  {
    if i > 0 {
      LookupFirst(entries[1..], i - 1);
    }
  }
}
