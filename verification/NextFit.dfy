/** Packing a sequence of sized items, in order, into as few bounded groups as possible. The MIB upload of
    internal/engine/engine.go uses it twice: attributes into entries, and entries into commands. */
module NextFit {
  import opened Sequences

  function Sum(sizes: seq<nat>): nat {
    if sizes == [] then 0 else Sum(sizes[..|sizes| - 1]) + sizes[|sizes| - 1]
  }

  lemma {:induction false} SumConcat(a: seq<nat>, b: seq<nat>)
    ensures Sum(a + b) == Sum(a) + Sum(b)
  {
    if b == [] {
      assert a + b == a;
    } else {
      assert (a + b)[..|a + b| - 1] == a + b[..|b| - 1];
      SumConcat(a, b[..|b| - 1]);
    }
  }

  /** A wider slice weighs at least as much. */
  lemma SumSlice(sizes: seq<nat>, a: nat, b: nat, c: nat, d: nat)
    requires a <= b <= c <= d <= |sizes|
    ensures Sum(sizes[b..c]) <= Sum(sizes[a..d])
  {
    assert sizes[a..d] == sizes[a..b] + (sizes[b..c] + sizes[c..d]);
    SumConcat(sizes[a..b], sizes[b..c] + sizes[c..d]);
    SumConcat(sizes[b..c], sizes[c..d]);
  }

  // ---------- packings as cut positions ----------

  /** Group k takes the items from cuts[k] up to cuts[k + 1]. */
  ghost predicate Packing(cuts: seq<nat>, sizes: seq<nat>, limit: nat) {
    && |cuts| > 0 && cuts[0] == 0 && cuts[|cuts| - 1] == |sizes|
    && (forall i :: 0 <= i < |cuts| - 1 ==> Fits(cuts, sizes, limit, i))
  }

  ghost predicate Fits(cuts: seq<nat>, sizes: seq<nat>, limit: nat, i: nat)
    requires i + 1 < |cuts|
  {
    cuts[i] <= cuts[i + 1] <= |sizes| && Sum(sizes[cuts[i]..cuts[i + 1]]) <= limit
  }

  /** No group but the last could take one item more, and no group is empty. */
  ghost predicate Greedy(cuts: seq<nat>, sizes: seq<nat>, limit: nat) {
    && (forall i :: 0 <= i < |cuts| - 1 ==> cuts[i] < cuts[i + 1])
    && (forall i :: 0 <= i < |cuts| - 2 ==> Full(cuts, sizes, limit, i))
  }

  ghost predicate Full(cuts: seq<nat>, sizes: seq<nat>, limit: nat, i: nat)
    requires i + 1 < |cuts|
  {
    cuts[i] <= cuts[i + 1] < |sizes| && Sum(sizes[cuts[i]..cuts[i + 1] + 1]) > limit
  }

  lemma {:induction false} GreedyIsAhead(greedy: seq<nat>, other: seq<nat>, sizes: seq<nat>, limit: nat, k: nat)
    requires Packing(greedy, sizes, limit) && Greedy(greedy, sizes, limit) && Packing(other, sizes, limit)
    requires k < |greedy| && k < |other|
    ensures greedy[k] >= other[k]
  {
    if k > 0 {
      GreedyIsAhead(greedy, other, sizes, limit, k - 1);
      assert Fits(other, sizes, limit, k - 1);
      if k < |greedy| - 1 && greedy[k] < other[k] {
        assert Full(greedy, sizes, limit, k - 1);
        SumSlice(sizes, other[k - 1], greedy[k - 1], greedy[k] + 1, other[k]);
        assert false;
      }
    }
  }

  lemma {:induction false} Increasing(cuts: seq<nat>, i: nat, j: nat)
    requires forall k :: 0 <= k < |cuts| - 1 ==> cuts[k] < cuts[k + 1]
    requires i < j < |cuts|
    ensures cuts[i] < cuts[j]
  {
    if i + 1 < j {
      Increasing(cuts, i, j - 1);
    }
  }

  /** No packing in the same order has fewer groups. */
  lemma GreedyIsOptimal(greedy: seq<nat>, other: seq<nat>, sizes: seq<nat>, limit: nat)
    requires Packing(greedy, sizes, limit) && Greedy(greedy, sizes, limit) && Packing(other, sizes, limit)
    ensures |greedy| <= |other|
  {
    if |other| < |greedy| {
      GreedyIsAhead(greedy, other, sizes, limit, |other| - 1);
      Increasing(greedy, |other| - 1, |greedy| - 1);
      assert false;
    }
  }

  // ---------- the loop ----------

  /** The items of each group, and where the groups are cut. */
  ghost predicate Grouped<T>(groups: seq<seq<T>>, items: seq<T>, cuts: seq<nat>) {
    && |cuts| == |groups| + 1
    && Concat(groups) == items
    && (forall i :: 0 <= i < |groups| ==> IsGroup(groups, items, cuts, i))
  }

  ghost predicate IsGroup<T>(groups: seq<seq<T>>, items: seq<T>, cuts: seq<nat>, i: nat)
    requires i < |groups| && |cuts| == |groups| + 1
  {
    cuts[i] <= cuts[i + 1] <= |items| && groups[i] == items[cuts[i]..cuts[i + 1]]
  }

  /** The state of the loop: closed groups, and an open one that starts at the last cut. */
  ghost predicate Open<T>(groups: seq<seq<T>>, current: seq<T>, used: nat, items: seq<T>, sizes: seq<nat>, limit: nat,
                          cuts: seq<nat>, n: nat) {
    && n <= |items| == |sizes| && |cuts| == |groups| + 1 && cuts[0] == 0 && cuts[|groups|] <= n
    && current == items[cuts[|groups|]..n] && used == Sum(sizes[cuts[|groups|]..n]) && used <= limit
    && (n > 0 ==> cuts[|groups|] < n)
    && Concat(groups) == items[..cuts[|groups|]]
    && (forall i :: 0 <= i < |groups| ==> Closed(groups, items, sizes, limit, cuts, i))
  }

  ghost predicate Closed<T>(groups: seq<seq<T>>, items: seq<T>, sizes: seq<nat>, limit: nat, cuts: seq<nat>, i: nat)
    requires i < |groups| && |cuts| == |groups| + 1
  {
    && cuts[i] < cuts[i + 1] < |items| == |sizes| && groups[i] == items[cuts[i]..cuts[i + 1]]
    && Sum(sizes[cuts[i]..cuts[i + 1]]) <= limit && Sum(sizes[cuts[i]..cuts[i + 1] + 1]) > limit
  }

  lemma Append<T>(groups: seq<seq<T>>, current: seq<T>, used: nat, items: seq<T>, sizes: seq<nat>, limit: nat,
                  cuts: seq<nat>, n: nat)
    requires Open(groups, current, used, items, sizes, limit, cuts, n) && n < |items| && used + sizes[n] <= limit
    ensures Open(groups, current + [items[n]], used + sizes[n], items, sizes, limit, cuts, n + 1)
  {
    var start := cuts[|groups|];
    assert sizes[start..n + 1] == sizes[start..n] + [sizes[n]];
    SumConcat(sizes[start..n], [sizes[n]]);
    assert Sum([sizes[n]]) == sizes[n] by {
      assert [sizes[n]][..0] == [];
    }
  }

  lemma Flush<T>(groups: seq<seq<T>>, current: seq<T>, used: nat, items: seq<T>, sizes: seq<nat>, limit: nat,
                 cuts: seq<nat>, n: nat)
    requires Open(groups, current, used, items, sizes, limit, cuts, n) && 0 < n < |items|
    requires used + sizes[n] > limit && sizes[n] <= limit
    ensures Open(groups + [current], [items[n]], sizes[n], items, sizes, limit, cuts + [n], n + 1)
  {
    var start, more, next := cuts[|groups|], groups + [current], cuts + [n];
    assert sizes[start..n + 1] == sizes[start..n] + [sizes[n]];
    SumConcat(sizes[start..n], [sizes[n]]);
    assert Sum([sizes[n]]) == sizes[n] by {
      assert [sizes[n]][..0] == [];
    }
    assert sizes[n..n + 1] == [sizes[n]];
    assert more[..|groups|] == groups;
    assert items[..n] == items[..start] + current;
    forall i | 0 <= i < |more| ensures Closed(more, items, sizes, limit, next, i) {
      if i < |groups| {
        assert Closed(groups, items, sizes, limit, cuts, i);
      }
    }
  }

  lemma Finish<T>(groups: seq<seq<T>>, current: seq<T>, used: nat, items: seq<T>, sizes: seq<nat>, limit: nat,
                  cuts: seq<nat>)
    requires Open(groups, current, used, items, sizes, limit, cuts, |items|) && items != []
    ensures Grouped(groups + [current], items, cuts + [|items|])
    ensures Packing(cuts + [|items|], sizes, limit) && Greedy(cuts + [|items|], sizes, limit)
  {
    var n, more, next := |items|, groups + [current], cuts + [|items|];
    assert more[..|groups|] == groups;
    assert items == items[..cuts[|groups|]] + current;
    forall i | 0 <= i < |next| - 1 ensures Fits(next, sizes, limit, i) && next[i] < next[i + 1] {
      if i < |groups| {
        assert Closed(groups, items, sizes, limit, cuts, i);
      }
    }
    forall i | 0 <= i < |next| - 2 ensures Full(next, sizes, limit, i) {
      assert Closed(groups, items, sizes, limit, cuts, i);
    }
    forall i | 0 <= i < |more| ensures IsGroup(more, items, next, i) {
      if i < |groups| {
        assert Closed(groups, items, sizes, limit, cuts, i);
      }
    }
  }

  lemma Starts<T>(items: seq<T>, sizes: seq<nat>, limit: nat)
    requires |items| == |sizes|
    ensures Open([], [], 0, items, sizes, limit, [0], 0)
  {}

  /** The groups are the items in order, none is over the limit, and there are as few as possible. */
  method Pack<T>(items: seq<T>, sizes: seq<nat>, limit: nat) returns (groups: seq<seq<T>>)
    requires |items| == |sizes| && forall i :: 0 <= i < |sizes| ==> sizes[i] <= limit
    ensures Packed(groups, items, sizes, limit)
  {
    if |items| == 0 {
      assert PackedAt([], items, sizes, limit, [0]);
      return [];
    }
    hide Open, Grouped, Packing, Greedy, Sum;
    groups := [];
    ghost var cuts: seq<nat> := [0];
    var current: seq<T>, used: nat := [], 0;
    Starts(items, sizes, limit);
    for i := 0 to |items|
      invariant Open(groups, current, used, items, sizes, limit, cuts, i)
    {
      if i > 0 && used + sizes[i] > limit {
        Flush(groups, current, used, items, sizes, limit, cuts, i);
        groups, cuts := groups + [current], cuts + [i];
        current, used := [items[i]], sizes[i];
      } else {
        OpenFits(groups, current, used, items, sizes, limit, cuts, i);
        Append(groups, current, used, items, sizes, limit, cuts, i);
        current, used := current + [items[i]], used + sizes[i];
      }
    }
    Finish(groups, current, used, items, sizes, limit, cuts);
    groups, cuts := groups + [current], cuts + [|items|];
    assert PackedAt(groups, items, sizes, limit, cuts);
  }

  ghost predicate Packed<T>(groups: seq<seq<T>>, items: seq<T>, sizes: seq<nat>, limit: nat) {
    exists cuts :: PackedAt(groups, items, sizes, limit, cuts)
  }

  ghost predicate PackedAt<T>(groups: seq<seq<T>>, items: seq<T>, sizes: seq<nat>, limit: nat, cuts: seq<nat>) {
    Grouped(groups, items, cuts) && Packing(cuts, sizes, limit) && Greedy(cuts, sizes, limit)
  }

  lemma OpenFits<T>(groups: seq<seq<T>>, current: seq<T>, used: nat, items: seq<T>, sizes: seq<nat>, limit: nat,
                    cuts: seq<nat>, n: nat)
    requires Open(groups, current, used, items, sizes, limit, cuts, n)
    ensures n == 0 ==> used == 0
    ensures n > 0 <==> current != []
  {}
}
