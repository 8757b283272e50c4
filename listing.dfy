/**
 * Snapshots of a map's values as a sequence, as `new LinkedList<>().addAll(map.values())`
 * produces them: one element per key, in some iteration order.
 */
module Listing {

  /** `vs` lists the values of `m` in the order of the pairwise distinct keys `keys`, which cover `m`. */
  ghost predicate IsListing<V>(m: map<string, V>, vs: seq<V>, keys: seq<string>)
  {
    && |keys| == |vs|
    && (forall i :: 0 <= i < |keys| ==> keys[i] in m && vs[i] == m[keys[i]])
    && (forall i, j :: 0 <= i < j < |keys| ==> keys[i] != keys[j])
    && (forall k :: k in m ==> k in keys)
  }

  /** `vs` is a listing of the values of `m` in some key order. */
  ghost predicate ListsValues<V>(m: map<string, V>, vs: seq<V>)
  {
    exists keys :: IsListing(m, vs, keys)
  }

  function ElementsOf(ks: seq<string>): (r: set<string>)
  {
    set k | k in ks
  }

  /** A sequence without repetitions has as many distinct elements as positions. */
  lemma {:induction false} DistinctElements(ks: seq<string>)
    requires forall i, j :: 0 <= i < j < |ks| ==> ks[i] != ks[j]
    ensures |ElementsOf(ks)| == |ks|
  {
    if ks != [] {
      var tail := ks[1..];
      assert forall i, j :: 0 <= i < j < |tail| ==> tail[i] != tail[j] by {
        forall i, j | 0 <= i < j < |tail| ensures tail[i] != tail[j] {
          assert tail[i] == ks[i + 1] && tail[j] == ks[j + 1];
        }
      }
      DistinctElements(tail);
      assert ElementsOf(ks) == ElementsOf(tail) + {ks[0]};
      assert ks[0] !in ElementsOf(tail);
    }
  }

  /** A listing has exactly one element per entry of the map. */
  lemma {:induction false} ListingLength<V>(m: map<string, V>, vs: seq<V>, keys: seq<string>)
    requires IsListing(m, vs, keys)
    ensures |vs| == |m|
  {
    DistinctElements(keys);
    assert ElementsOf(keys) == m.Keys;
  }

  /** Every value of `m` appears in a listing of it, and nothing else does. */
  lemma ListingMembers<V>(m: map<string, V>, vs: seq<V>)
    requires ListsValues(m, vs)
    ensures forall k :: k in m ==> m[k] in vs
    ensures forall i :: 0 <= i < |vs| ==> vs[i] in m.Values
  {
    var keys :| IsListing(m, vs, keys);
    forall k | k in m ensures m[k] in vs {
      var i :| 0 <= i < |keys| && keys[i] == k;
      assert vs[i] == m[k];
    }
  }

  /** Copies the values of `m` into a fresh sequence, one key at a time. */
  method Values<V(==)>(m: map<string, V>) returns (vs: seq<V>)
    ensures ListsValues(m, vs)
    ensures |vs| == |m|
    ensures forall k :: k in m ==> m[k] in vs
    ensures forall i :: 0 <= i < |vs| ==> vs[i] in m.Values
  {
    var rest := m.Keys;
    ghost var keys: seq<string> := [];
    vs := [];
    while rest != {}
      invariant rest <= m.Keys
      invariant |keys| == |vs|
      invariant forall i :: 0 <= i < |keys| ==> keys[i] in m && keys[i] !in rest && vs[i] == m[keys[i]]
      invariant forall i, j :: 0 <= i < j < |keys| ==> keys[i] != keys[j]
      invariant forall k :: k in m ==> k in rest || k in keys
      decreases rest
    {
      var k :| k in rest;
      vs, keys := vs + [m[k]], keys + [k];
      rest := rest - {k};
    }
    assert IsListing(m, vs, keys);
    ListingLength(m, vs, keys);
    ListingMembers(m, vs);
  }
}
