/**
 * The in-place sort applied to the merged defaults. It stands for the library's Array.Sort
 * with the InstanceDefault comparison, written here as an insertion sort.
 */
module Sorting {
  import opened InstanceDefaults

  /** Non-decreasing by plugin-type name: what a comparison sort guarantees for any input. */
  ghost predicate Ordered(s: seq<InstanceDefault>)
  {
    forall i, j :: 0 <= i < j < |s| ==> !Precedes(s[j], s[i])
  }

  /** No plugin type occurs twice. */
  ghost predicate DistinctPluginTypes(s: seq<InstanceDefault>)
  {
    forall i, j :: 0 <= i < |s| && 0 <= j < |s| && i != j ==> s[i].pluginTypeName != s[j].pluginTypeName
  }

  /** Ordered and free of repeated plugin types means strictly ascending. */
  lemma OrderedDistinctIsSorted(s: seq<InstanceDefault>)
    requires Ordered(s) && DistinctPluginTypes(s)
    ensures Sorted(s)
  {
    forall i, j | 0 <= i < j < |s|
      ensures Precedes(s[i], s[j])
    {
      OrdinalLessTotal(s[i].pluginTypeName, s[j].pluginTypeName);
    }
  }

  method SortByPluginType(a: array<InstanceDefault>)
    modifies a
    ensures Ordered(a[..])
    ensures multiset(a[..]) == multiset(old(a[..]))
    ensures DistinctPluginTypes(old(a[..])) ==> DistinctPluginTypes(a[..])
  {
    var i := 0;
    while i < a.Length
      invariant 0 <= i <= a.Length
      invariant Ordered(a[..i])
      invariant multiset(a[..]) == multiset(old(a[..]))
      invariant DistinctPluginTypes(old(a[..])) ==> DistinctPluginTypes(a[..])
    {
      InsertAt(a, i);
      i := i + 1;
    }
    assert a[..a.Length] == a[..];
  }

  /** Moves a[i] left past every entry that follows it, extending the ordered prefix by one. */
  method InsertAt(a: array<InstanceDefault>, i: nat)
    requires i < a.Length && Ordered(a[..i])
    modifies a
    ensures Ordered(a[..i + 1])
    ensures multiset(a[..]) == multiset(old(a[..]))
    ensures DistinctPluginTypes(old(a[..])) ==> DistinctPluginTypes(a[..])
  {
    var j := i;
    while 0 < j && Precedes(a[j], a[j - 1])
      invariant 0 <= j <= i
      invariant forall k, l :: 0 <= k < l <= i && k != j && l != j ==> !Precedes(a[l], a[k])
      invariant forall l :: j < l <= i ==> !Precedes(a[l], a[j])
      invariant multiset(a[..]) == multiset(old(a[..]))
      invariant DistinctPluginTypes(old(a[..])) ==> DistinctPluginTypes(a[..])
    {
      OrdinalLessAsymmetric(a[j].pluginTypeName, a[j - 1].pluginTypeName);
      Swap(a, j - 1, j);
      j := j - 1;
    }
    forall k | 0 <= k < j
      ensures !Precedes(a[j], a[k])
    {
      if k < j - 1 {
        OrdinalNotLessTransitive(a[k].pluginTypeName, a[j - 1].pluginTypeName, a[j].pluginTypeName);
      }
    }
  }

  method Swap(a: array<InstanceDefault>, i: nat, j: nat)
    requires i < j < a.Length
    modifies a
    ensures a[..] == old(a[..])[i := old(a[j])][j := old(a[i])]
    ensures multiset(a[..]) == multiset(old(a[..]))
    ensures DistinctPluginTypes(old(a[..])) ==> DistinctPluginTypes(a[..])
  {
    a[i], a[j] := a[j], a[i];
    ghost var s := old(a[..]);
    if DistinctPluginTypes(s) {
      forall x, y | 0 <= x < a.Length && 0 <= y < a.Length && x != y
        ensures a[x].pluginTypeName != a[y].pluginTypeName
      {
        var x' := if x == i then j else if x == j then i else x;
        var y' := if y == i then j else if y == j then i else y;
        assert a[x] == s[x'] && a[y] == s[y'];
      }
    }
  }
}
