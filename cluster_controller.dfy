/**
 * The cluster list handler (controller/cluster.go): the names of all registered clusters,
 * collected from the registry map and sorted in ascending byte order (`sort.Strings`).
 */
module Clusters {
  import Strs
  import Registry

  /** Ascending without repeats. */
  predicate StrictlyAscending(list: seq<string>) {
    forall i, j :: 0 <= i < j < |list| ==> Strs.LessEq(list[i], list[j]) && list[i] != list[j]
  }

  /** Ascending, repeats allowed. */
  predicate Ascending(list: seq<string>) {
    forall i, j :: 0 <= i < j < |list| ==> Strs.LessEq(list[i], list[j])
  }

  /** `sort.Strings`: orders the list ascending, a permutation of its input (an insertion sort
      on a local copy; the library's own algorithm is not part of this model). */
  method SortStrings(list: seq<string>) returns (sorted: seq<string>)
    ensures multiset(sorted) == multiset(list)
    ensures Ascending(sorted)
  {
    sorted := list;
    var n := |sorted|;
    for i := 0 to n
      invariant |sorted| == n
      invariant multiset(sorted) == multiset(list)
      invariant Ascending(sorted[..i])
    {
      sorted := Insert(sorted, i);
    }
    assert sorted[..n] == sorted;
  }

  /** One insertion step: moves `s[i]` down into the ascending prefix `s[..i]`. */
  method Insert(s: seq<string>, i: nat) returns (sorted: seq<string>)
    requires i < |s| && Ascending(s[..i])
    ensures |sorted| == |s| && multiset(sorted) == multiset(s)
    ensures Ascending(sorted[..i + 1])
  {
    sorted := s;
    var j := i;
    assert AscendingBut(sorted, i, j) && BelowFollowers(sorted, i, j);
    while j > 0 && !Strs.LessEq(sorted[j - 1], sorted[j])
      invariant 0 <= j <= i < |sorted| == |s|
      invariant multiset(sorted) == multiset(s)
      invariant AscendingBut(sorted, i, j) && BelowFollowers(sorted, i, j)
    {
      Strs.LessEqTotal(sorted[j - 1], sorted[j]);
      SwapDown(sorted, i, j);
      sorted := sorted[j - 1 := sorted[j]][j := sorted[j - 1]];
      j := j - 1;
    }
    InsertPlaced(sorted, i, j);
  }

  /** The first `i + 1` entries are ascending once the one at `j` is left out. */
  predicate AscendingBut(s: seq<string>, i: nat, j: nat)
    requires i < |s|
  {
    forall a, b :: 0 <= a < b <= i && a != j && b != j ==> Strs.LessEq(s[a], s[b])
  }

  /** The entry at `j` is at most every entry after it up to `i`. */
  predicate BelowFollowers(s: seq<string>, i: nat, j: nat)
    requires j <= i < |s|
  {
    forall b :: j < b <= i ==> Strs.LessEq(s[j], s[b])
  }

  /** Swapping the entry at `j` with a larger predecessor keeps the insertion invariant. */
  lemma SwapDown(s: seq<string>, i: nat, j: nat)
    requires 0 < j <= i < |s|
    requires AscendingBut(s, i, j) && BelowFollowers(s, i, j)
    requires Strs.LessEq(s[j], s[j - 1])
    ensures var t := s[j - 1 := s[j]][j := s[j - 1]];
      && multiset(t) == multiset(s)
      && AscendingBut(t, i, j - 1) && BelowFollowers(t, i, j - 1)
  {
  }

  /** The insertion stops where the predecessor is no larger: the prefix is then ascending. */
  lemma InsertPlaced(s: seq<string>, i: nat, j: nat)
    requires j <= i < |s|
    requires AscendingBut(s, i, j) && BelowFollowers(s, i, j)
    requires j > 0 ==> Strs.LessEq(s[j - 1], s[j])
    ensures Ascending(s[..i + 1])
  {
    if j > 0 {
      forall a | 0 <= a < j - 1
        ensures Strs.LessEq(s[a], s[j])
      {
        Strs.LessEqTransitive(s[a], s[j - 1], s[j]);
      }
    }
  }

  /** An ascending list whose elements occur once each has no two equal entries. */
  lemma AscendingDistinct(list: seq<string>)
    requires Ascending(list)
    requires forall x :: multiset(list)[x] <= 1
    ensures StrictlyAscending(list)
  {
    forall i, j | 0 <= i < j < |list|
      ensures list[i] != list[j]
    {
      assert list == list[..i] + [list[i]] + list[i + 1..j] + [list[j]] + list[j + 1..];
      var m := multiset(list[..i]) + multiset{list[i]} + multiset(list[i + 1..j]) + multiset{list[j]} + multiset(list[j + 1..]);
      assert multiset(list) == m;
      assert m[list[i]] >= multiset{list[i]}[list[i]] + multiset{list[j]}[list[i]];
      assert multiset(list)[list[i]] <= 1;
    }
  }

  /** `GetClustersHandler`: every registered cluster name exactly once, nothing else, in
      ascending order; an empty registry gives an empty list. The registry is only read. */
  method GetClusters(k: Registry.K8s) returns (list: seq<string>)
    ensures StrictlyAscending(list)
    ensures forall x :: x in list <==> x in k.clientMap
    ensures |list| == |k.clientMap.Keys|
  {
    var collected: seq<string> := [];
    var remaining := k.clientMap.Keys;
    while remaining != {}
      invariant remaining <= k.clientMap.Keys
      invariant forall x :: x in collected <==> x in k.clientMap && x !in remaining
      invariant forall x :: multiset(collected)[x] <= 1
      invariant |collected| + |remaining| == |k.clientMap.Keys|
      decreases |remaining|
    {
      var key :| key in remaining;
      assert key !in collected;
      collected := collected + [key];
      remaining := remaining - {key};
    }
    list := SortStrings(collected);
    assert forall x :: x in list <==> x in multiset(list);
    assert forall x :: x in collected <==> x in multiset(collected);
    AscendingDistinct(list);
  }
}
