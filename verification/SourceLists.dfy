/** Sorted source lists, the form in which the runtime hands source sets to its backend
    (sortedSources, sourceSet and the list comparisons of internal/multicast/runtime.go). */
module SourceLists {
  import opened MulticastTypes

  predicate Ascending(list: seq<Addr>) {
    forall i, j :: 0 <= i < j < |list| ==> list[i].Below(list[j])
  }

  /** `list` enumerates `sources` in ascending order, each address once. */
  ghost predicate Lists(list: seq<Addr>, sources: set<Addr>) {
    && Ascending(list)
    && forall a :: a in list <==> a in sources
  }

  lemma BelowIsTotal(a: Addr, b: Addr)
    ensures a.Below(b) || a == b || b.Below(a)
    ensures !(a.Below(b) && b.Below(a)) && !a.Below(a)
  {}

  lemma BelowIsTransitive(a: Addr, b: Addr, c: Addr)
    requires a.Below(b) && b.Below(c)
    ensures a.Below(c)
  {}

  method SortedSources(sources: set<Addr>) returns (list: seq<Addr>)
    ensures Lists(list, sources)
  {
    list := [];
    var rest := sources;
    while rest != {}
      invariant rest <= sources
      invariant Lists(list, sources - rest)
      decreases |rest|
    {
      var a :| a in rest;
      rest := rest - {a};
      ghost var before := list;
      list := InsertInOrder(list, a);
      assert forall x :: x in list <==> x in sources - rest;
    }
    assert sources - {} == sources;
  }

  method InsertInOrder(list: seq<Addr>, a: Addr) returns (more: seq<Addr>)
    requires Ascending(list) && a !in list
    ensures Ascending(more) && (forall x :: x in more <==> x in list || x == a)
  {
    var i := 0;
    while i < |list| && list[i].Below(a)
      invariant 0 <= i <= |list|
      invariant forall k :: 0 <= k < i ==> list[k].Below(a)
    {
      i := i + 1;
    }
    AboveFrom(list, a, i);
    more := list[..i] + [a] + list[i..];
    assert list == list[..i] + list[i..];
  }

  lemma AboveFrom(list: seq<Addr>, a: Addr, i: nat)
    requires Ascending(list) && a !in list && i <= |list|
    requires i < |list| ==> !list[i].Below(a)
    ensures forall k :: i <= k < |list| ==> a.Below(list[k])
  {
    if i < |list| {
      BelowIsTotal(list[i], a);
      assert list[i] != a;
      forall k | i <= k < |list| ensures a.Below(list[k]) {
        if i < k {
          BelowIsTransitive(a, list[i], list[k]);
        }
      }
    }
  }

  method SourceSet(list: seq<Addr>) returns (sources: set<Addr>)
    ensures forall a :: a in sources <==> a in list
  {
    sources := {};
    for i := 0 to |list|
      invariant forall a :: a in sources <==> a in list[..i]
    {
      sources := sources + {list[i]};
      assert list[..i + 1] == list[..i] + [list[i]];
    }
    assert list[..|list|] == list;
  }

  /** The list of a set is unique, so equal lists and equal sets are the same thing. */
  lemma {:induction false} ListIsUnique(left: seq<Addr>, right: seq<Addr>, sources: set<Addr>)
    requires Lists(left, sources) && Lists(right, sources)
    ensures left == right
    decreases |left|
  {
    assert forall i :: 0 <= i < |left| ==> left[i] in sources && left[i] in right;
    assert forall i :: 0 <= i < |right| ==> right[i] in sources && right[i] in left;
    if left != [] {
      var i :| 0 <= i < |left| && left[i] == right[0];
      var j :| 0 <= j < |right| && right[j] == left[0];
      BelowIsTotal(left[0], right[0]);
      Tail(left, sources);
      Tail(right, sources);
      ListIsUnique(left[1..], right[1..], sources - {left[0]});
    }
  }

  lemma Tail(list: seq<Addr>, sources: set<Addr>)
    requires Lists(list, sources) && list != []
    ensures Lists(list[1..], sources - {list[0]})
  {
    forall a ensures a in list[1..] <==> a in sources - {list[0]} {
      BelowIsTotal(list[0], list[0]);
      if a in list[1..] {
        var i :| 0 <= i < |list| - 1 && list[1..][i] == a;
        assert list[0].Below(list[i + 1]);
      }
      assert a in list <==> a == list[0] || a in list[1..];
    }
  }
}
