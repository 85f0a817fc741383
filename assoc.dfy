/**
 * Python dictionaries with string keys, as association lists in insertion
 * order: `d[k] = v` overwrites an existing key in place and appends a new one.
 */
module Assoc {
  import opened Wrappers

  /** `list(d.keys())`. */
  function Keys<V>(m: seq<(string, V)>): (ks: seq<string>)
    ensures |ks| == |m|
    ensures forall i | 0 <= i < |m| :: ks[i] == m[i].0
  {
    if m == [] then [] else [m[0].0] + Keys(m[1..])
  }

  /** `k in d`. */
  predicate HasKey<V>(m: seq<(string, V)>, k: string) {
    k in Keys(m)
  }

  /** `d.get(k)`: the value of the first entry with key `k`. */
  function Lookup<V>(m: seq<(string, V)>, k: string): Option<V> {
    if m == [] then None
    else if m[0].0 == k then Some(m[0].1)
    else Lookup(m[1..], k)
  }

  /** `d.get(k)` finds a value exactly when `k in d`, and it is the value of an entry for `k`. */
  lemma {:induction false} LookupFound<V>(m: seq<(string, V)>, k: string)
    ensures Lookup(m, k).Some? <==> HasKey(m, k)
    ensures Lookup(m, k).Some? ==> (k, Lookup(m, k).value) in m
  {
    if m != [] {
      assert Keys(m) == [m[0].0] + Keys(m[1..]);
      LookupFound(m[1..], k);
    }
  }

  /** `list(d.values())`. */
  function Values<V>(m: seq<(string, V)>): (vs: seq<V>)
    ensures |vs| == |m|
    ensures forall i | 0 <= i < |m| :: vs[i] == m[i].1
  {
    if m == [] then [] else [m[0].1] + Values(m[1..])
  }

  /** Python's `d[k] = v`. */
  function Put<V>(m: seq<(string, V)>, k: string, v: V): seq<(string, V)> {
    if m == [] then [(k, v)]
    else if m[0].0 == k then [(k, v)] + m[1..]
    else [m[0]] + Put(m[1..], k, v)
  }

  /** `d[k] = v` leaves every other key's value alone. */
  lemma {:induction false} PutLookupOther<V>(m: seq<(string, V)>, k: string, v: V, j: string)
    requires j != k
    ensures Lookup(Put(m, k, v), j) == Lookup(m, j)
  {
    if m != [] {
      var r := Put(m, k, v);
      if m[0].0 == k {
        assert r[1..] == m[1..];
      } else {
        assert r[1..] == Put(m[1..], k, v);
        PutLookupOther(m[1..], k, v, j);
      }
    }
  }

  /** `d[k] = v` keeps the key order, appending `k` when it is new. */
  lemma {:induction false} PutKeys<V>(m: seq<(string, V)>, k: string, v: V)
    ensures Keys(Put(m, k, v)) == if HasKey(m, k) then Keys(m) else Keys(m) + [k]
  {
    if m != [] {
      var r := Put(m, k, v);
      assert Keys(m) == [m[0].0] + Keys(m[1..]);
      if m[0].0 == k {
        assert r[1..] == m[1..];
        assert Keys(r) == [k] + Keys(m[1..]);
      } else {
        assert r[1..] == Put(m[1..], k, v);
        PutKeys(m[1..], k, v);
        assert Keys(r) == [m[0].0] + Keys(Put(m[1..], k, v));
      }
    }
  }

  /** After `d[k] = v`, exactly the old keys and `k` are present. */
  lemma PutHasKey<V>(m: seq<(string, V)>, k: string, v: V, j: string)
    ensures HasKey(Put(m, k, v), j) <==> HasKey(m, j) || j == k
  {
    PutKeys(m, k, v);
  }

  /** After `d[k] = v`, `d.get(k)` is `v`. */
  lemma {:induction false} PutLookup<V>(m: seq<(string, V)>, k: string, v: V)
    ensures Lookup(Put(m, k, v), k) == Some(v)
  {
    if m != [] && m[0].0 != k {
      PutLookup(m[1..], k, v);
      assert Put(m, k, v)[1..] == Put(m[1..], k, v);
    }
  }

  /** The entry at `i` is found when no earlier entry has the same key. */
  lemma {:induction false} LookupAt<V>(m: seq<(string, V)>, i: nat)
    requires i < |m|
    requires forall j | 0 <= j < i :: m[j].0 != m[i].0
    ensures Lookup(m, m[i].0) == Some(m[i].1)
  {
    if i > 0 {
      LookupAt(m[1..], i - 1);
    }
  }

  /** The keys of a map with one entry appended are its keys and that entry's key. */
  lemma HasKeySnoc<V>(m: seq<(string, V)>, k: string)
    requires m != []
    ensures HasKey(m, k) <==> HasKey(m[..|m| - 1], k) || m[|m| - 1].0 == k
  {
    assert Keys(m) == Keys(m[..|m| - 1]) + [m[|m| - 1].0];
  }

  /** A key no entry carries is not found. */
  lemma LookupAbsent<V>(m: seq<(string, V)>, k: string)
    requires forall i | 0 <= i < |m| :: m[i].0 != k
    ensures Lookup(m, k) == None
  {
    LookupFound(m, k);
  }

  predicate UniqueKeys<V>(m: seq<(string, V)>) {
    forall i, j | 0 <= i < j < |m| :: m[i].0 != m[j].0
  }
}
