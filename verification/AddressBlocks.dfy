/** Covering an address interval with CIDR blocks: one greedy function on naturals, proved exact,
    bounded and optimal. The 32-bit and 128-bit implementations refine it. */
module AddressBlocks {
  import opened Arithmetic
  import opened PowersOfTwo

  /** The 2^bits addresses from base upwards. */
  datatype Block = Block(base: nat, bits: nat)

  predicate Aligned(b: Block) { b.base % Pow2(b.bits) == 0 }

  predicate Holds(b: Block, a: nat) { b.base <= a < b.base + Pow2(b.bits) }

  ghost predicate Held(blocks: seq<Block>, a: nat) {
    exists b :: b in blocks && Holds(b, a)
  }

  /** The blocks hold exactly the addresses low, ..., high-1. */
  ghost predicate CoverExactly(blocks: seq<Block>, low: nat, high: nat) {
    forall a: nat :: Held(blocks, a) <==> low <= a < high
  }

  predicate AllAligned(blocks: seq<Block>) {
    forall b :: b in blocks ==> Aligned(b)
  }

  predicate AscendingAndDisjoint(blocks: seq<Block>) {
    forall i, j :: 0 <= i < j < |blocks| ==> blocks[i].base + Pow2(blocks[i].bits) <= blocks[j].base
  }

  // ---------- the greedy choice ----------

  /** An aligned block of 2^bits addresses can start at low without passing high. */
  predicate Fits(low: nat, high: nat, bits: nat) {
    low % Pow2(bits) == 0 && low + Pow2(bits) <= high
  }

  function Largest(low: nat, high: nat): (k: nat)
    requires low < high
    ensures Fits(low, high, k) && !Fits(low, high, k + 1)
  {
    LargestFrom(low, high, 0)
  }

  function LargestFrom(low: nat, high: nat, k: nat): (r: nat)
    requires Fits(low, high, k)
    ensures Fits(low, high, r) && !Fits(low, high, r + 1)
    decreases high - Pow2(k)
  {
    if Fits(low, high, k + 1) then LargestFrom(low, high, k + 1) else k
  }

  function Greedy(low: nat, high: nat): seq<Block>
    decreases high - low
  {
    if low >= high then []
    else
      var k := Largest(low, high);
      [Block(low, k)] + Greedy(low + Pow2(k), high)
  }

  lemma GreedyUnfold(low: nat, high: nat)
    requires low < high
    ensures var k := Largest(low, high); var next := low + Pow2(k);
      low < next <= high && Greedy(low, high) == [Block(low, k)] + Greedy(next, high)
  {}

  // ---------- divisibility ----------

  lemma DividesDown(x: nat, j: nat, k: nat)
    requires j <= k && x % Pow2(k) == 0
    ensures x % Pow2(j) == 0
  {
    Pow2Add(k - j, j);
    var q := x / Pow2(k);
    assert x == q * Pow2(k) + 0;
    Regroup(q, Pow2(k - j), Pow2(j));
    DivMod(q * Pow2(k - j), 0, Pow2(j));
  }

  lemma Regroup(a: nat, b: nat, c: nat)
    ensures a * (b * c) == (a * b) * c
  {}

  lemma FitsDown(low: nat, high: nat, j: nat, k: nat)
    requires j <= k && Fits(low, high, k)
    ensures Fits(low, high, j)
  {
    DividesDown(low, j, k);
    if j < k { Pow2Monotone(j, k); }
  }

  lemma LargestIsMaximal(low: nat, high: nat, j: nat)
    requires low < high && Fits(low, high, j)
    ensures j <= Largest(low, high)
  {
    var k := Largest(low, high);
    if j > k {
      FitsDown(low, high, k + 1, j);
    }
  }

  /** Fitting at k and not at k+1 settles the greedy choice. */
  lemma LargestIs(low: nat, high: nat, k: nat)
    requires low < high && Fits(low, high, k) && !Fits(low, high, k + 1)
    ensures Largest(low, high) == k
  {
    var j := Largest(low, high);
    LargestIsMaximal(low, high, k);
    if j > k {
      FitsDown(low, high, k + 1, j);
    }
  }

  /** Two multiples of the same unit that lie less than a unit apart are equal. */
  lemma MultiplesApart(x: nat, y: nat, unit: nat)
    requires unit > 0 && x % unit == 0 && y % unit == 0
    ensures x < y ==> x + unit <= y
  {
    var p, q := x / unit, y / unit;
    assert x == p * unit && y == q * unit;
    MulMonotone(p + 1, q, unit);
    MulMonotone(q, p, unit);
  }

  /** Power-of-two blocks are nested or disjoint. */
  lemma NestedOrDisjoint(big: Block, small: Block)
    requires Aligned(big) && Aligned(small) && small.bits <= big.bits
    requires big.base <= small.base < big.base + Pow2(big.bits)
    ensures small.base + Pow2(small.bits) <= big.base + Pow2(big.bits)
  {
    DividesDown(big.base, small.bits, big.bits);
    Pow2Divides(small.bits, big.bits);
    SumDivides(big.base, Pow2(big.bits), Pow2(small.bits));
    MultiplesApart(small.base, big.base + Pow2(big.bits), Pow2(small.bits));
  }

  lemma Pow2Divides(j: nat, k: nat)
    requires j <= k
    ensures Pow2(k) % Pow2(j) == 0
  {
    Pow2Add(k - j, j);
    DivMod(Pow2(k - j), 0, Pow2(j));
  }

  lemma SumDivides(x: nat, y: nat, unit: nat)
    requires unit > 0 && x % unit == 0 && y % unit == 0
    ensures (x + y) % unit == 0
  {
    var p, q := x / unit, y / unit;
    assert x + y == (p + q) * unit + 0;
    DivMod(p + q, 0, unit);
  }

  // ---------- exactness ----------

  lemma {:induction false} GreedyAscends(low: nat, high: nat)
    ensures AscendingAndDisjoint(Greedy(low, high))
    ensures forall i :: 0 <= i < |Greedy(low, high)| ==> low <= Greedy(low, high)[i].base
    decreases high - low
  {
    if low < high {
      var first := Block(low, Largest(low, high));
      var next := low + Pow2(first.bits);
      var rest := Greedy(next, high);
      GreedyAscends(next, high);
      assert Greedy(low, high) == [first] + rest;
      hide Greedy, Pow2;
      assert forall i :: 0 < i < |[first] + rest| ==> ([first] + rest)[i] == rest[i - 1];
    }
  }

  lemma {:induction false} GreedyCovers(low: nat, high: nat)
    ensures AllAligned(Greedy(low, high)) && CoverExactly(Greedy(low, high), low, high)
    decreases high - low
  {
    if low < high {
      var first := Block(low, Largest(low, high));
      var next := low + Pow2(first.bits);
      GreedyCovers(next, high);
      HeldByCons(first, Greedy(next, high));
    }
  }

  lemma HeldByCons(first: Block, rest: seq<Block>)
    ensures forall a: nat :: Held([first] + rest, a) <==> Holds(first, a) || Held(rest, a)
    ensures AllAligned([first] + rest) <==> Aligned(first) && AllAligned(rest)
  {
    assert first in [first] + rest;
    assert forall b :: b in rest ==> b in [first] + rest;
  }

  /** The greedy blocks are aligned, ascending, disjoint and hold exactly the interval. */
  lemma GreedyExact(low: nat, high: nat)
    ensures AllAligned(Greedy(low, high))
    ensures AscendingAndDisjoint(Greedy(low, high))
    ensures CoverExactly(Greedy(low, high), low, high)
  {
    GreedyAscends(low, high);
    GreedyCovers(low, high);
  }

  // ---------- the number of blocks ----------

  /** An interval that fits in one aligned block of 2^k needs at most k blocks, or the block itself. */
  lemma {:induction false} DescentLength(low: nat, high: nat, k: nat)
    requires low % Pow2(k) == 0 && low < high <= low + Pow2(k)
    ensures high == low + Pow2(k) ==> |Greedy(low, high)| == 1
    ensures high < low + Pow2(k) ==> |Greedy(low, high)| <= k
    decreases k
  {
    if high == low + Pow2(k) {
      LargestIs(low, high, k);
      assert Greedy(high, high) == [];
    } else {
      assert k > 0;
      DividesDown(low, k - 1, k);
      if high <= low + Pow2(k - 1) {
        DescentLength(low, high, k - 1);
      } else {
        LargestIs(low, high, k - 1);
        SumDivides(low, Pow2(k - 1), Pow2(k - 1));
        DescentLength(low + Pow2(k - 1), high, k - 1);
      }
    }
  }

  lemma {:induction false} ClimbLength(low: nat, high: nat, a: nat, width: nat)
    requires width >= 2
    requires low % Pow2(a) == 0 && 0 < low < high <= Pow2(width)
    ensures a < width
    ensures |Greedy(low, high)| <= 2 * (width - 1) - a
    decreases high - low
  {
    AlignmentBelowWidth(low, a, width);
    var j := Largest(low, high);
    if low % Pow2(j + 1) != 0 {
      if a > j {
        DividesDown(low, j + 1, a);
      }
      OddMultiple(low, j);
      if low + Pow2(j) < high {
        ClimbLength(low + Pow2(j), high, j + 1, width);
      }
    } else {
      AlignmentBelowWidth(low, j + 1, width);
      DescentLength(low, high, j + 1);
    }
  }

  lemma AlignmentBelowWidth(low: nat, a: nat, width: nat)
    requires low % Pow2(a) == 0 && 0 < low < Pow2(width)
    ensures a < width
  {
    assert 0 % Pow2(a) == 0;
    MultiplesApart(0, low, Pow2(a));
    if width < a { Pow2Monotone(width, a); }
  }

  lemma OddMultiple(low: nat, j: nat)
    requires low % Pow2(j) == 0 && low % Pow2(j + 1) != 0
    ensures (low + Pow2(j)) % Pow2(j + 1) == 0
  {
    var q := low / Pow2(j);
    assert low == q * Pow2(j) + 0;
    var h := q / 2;
    Regroup(h, 2, Pow2(j));
    if q % 2 == 0 {
      assert q == h * 2;
      DivMod(h, 0, Pow2(j + 1));
    } else {
      assert q == h * 2 + 1;
      assert low + Pow2(j) == (h + 1) * Pow2(j + 1) + 0;
      DivMod(h + 1, 0, Pow2(j + 1));
    }
  }

  /** At most 2w-2 blocks inside a w-bit address space: 62 for IPv4, 254 for IPv6. */
  lemma GreedyLength(low: nat, high: nat, width: nat)
    requires width >= 2 && high <= Pow2(width)
    ensures |Greedy(low, high)| <= 2 * width - 2
  {
    if low < high {
      if low > 0 {
        assert low % Pow2(0) == 0;
        ClimbLength(low, high, 0, width);
      } else {
        assert 0 % Pow2(width) == 0;
        DescentLength(0, high, width);
      }
    }
  }

  // ---------- optimality ----------

  function From(blocks: seq<Block>, low: nat): (r: seq<Block>)
    ensures |r| <= |blocks|
    ensures forall b :: b in r <==> b in blocks && b.base >= low
  {
    if blocks == [] then []
    else (if blocks[0].base >= low then [blocks[0]] else []) + From(blocks[1..], low)
  }

  lemma {:induction false} FromDropsOne(blocks: seq<Block>, low: nat, b: Block)
    requires b in blocks && b.base < low
    ensures |From(blocks, low)| < |blocks|
  {
    if blocks[0] != b {
      FromDropsOne(blocks[1..], low, b);
    }
  }

  /** No aligned block inside the interval crosses the end of the greedy first block. */
  lemma NoBlockStraddles(b: Block, low: nat, high: nat)
    requires low < high && Aligned(b)
    requires low <= b.base && b.base + Pow2(b.bits) <= high
    ensures var next := low + Pow2(Largest(low, high));
      b.base < next ==> b.base + Pow2(b.bits) <= next
  {
    var k := Largest(low, high);
    if b.base < low + Pow2(k) {
      if b.bits <= k {
        NestedOrDisjoint(Block(low, k), b);
      } else {
        DividesDown(b.base, k, b.bits);
        MultiplesApart(low, b.base, Pow2(k));
        LargestIsMaximal(low, high, b.bits);
      }
    }
  }

  lemma BlockInside(blocks: seq<Block>, low: nat, high: nat, b: Block)
    requires CoverExactly(blocks, low, high) && b in blocks
    ensures low <= b.base && b.base + Pow2(b.bits) <= high
  {
    assert Holds(b, b.base) && Holds(b, b.base + Pow2(b.bits) - 1);
    assert Held(blocks, b.base) && Held(blocks, b.base + Pow2(b.bits) - 1);
  }

  lemma RestCovers(blocks: seq<Block>, low: nat, high: nat)
    requires low < high && AllAligned(blocks) && CoverExactly(blocks, low, high)
    ensures var next := low + Pow2(Largest(low, high)); CoverExactly(From(blocks, next), next, high)
  {
    var next := low + Pow2(Largest(low, high));
    var rest := From(blocks, next);
    forall a: nat ensures Held(rest, a) <==> next <= a < high {
      if Held(rest, a) {
        var b :| b in rest && Holds(b, a);
        BlockInside(blocks, low, high, b);
      }
      if next <= a < high {
        assert Held(blocks, a);
        var b :| b in blocks && Holds(b, a);
        BlockInside(blocks, low, high, b);
        NoBlockStraddles(b, low, high);
        assert b in rest;
      }
    }
  }

  /** No list of aligned power-of-two blocks that covers the same interval is shorter. */
  lemma {:induction false} GreedyOptimal(low: nat, high: nat, blocks: seq<Block>)
    requires AllAligned(blocks) && CoverExactly(blocks, low, high)
    ensures |Greedy(low, high)| <= |blocks|
    decreases high - low
  {
    if low < high {
      var next := low + Pow2(Largest(low, high));
      assert Held(blocks, low);
      var b :| b in blocks && Holds(b, low);
      BlockInside(blocks, low, high, b);
      FromDropsOne(blocks, next, b);
      RestCovers(blocks, low, high);
      GreedyOptimal(next, high, From(blocks, next));
    }
  }
}
