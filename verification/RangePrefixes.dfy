/** The two prefix loops of the filter backend (internal/multicast/linux_backend.go):
    32-bit arithmetic with wrap-around for IPv4, 16-byte arithmetic for IPv6. */
module RangePrefixes {
  import opened Arithmetic
  import opened PowersOfTwo
  import opened WireBytes
  import opened AddressBlocks

  type Address4 = x: nat | x < 0x1_0000_0000
  type Address16 = s: seq<Byte> | |s| == 16 witness seq(16, _ => 0)

  // ---------- machine words ----------

  /** The number of times a positive number can be halved. */
  function Alignment(x: nat): nat
    requires x > 0
  {
    if x % 2 == 1 then 0 else Alignment(x / 2) + 1
  }

  /** It is the exponent of the largest power of two dividing the number. */
  lemma {:induction false} AlignmentExact(x: nat)
    requires x > 0
    ensures x % Pow2(Alignment(x)) == 0 && x % Pow2(Alignment(x) + 1) != 0
  {
    if x % 2 == 1 {
      assert Pow2(0) == 1 && Pow2(1) == 2;
    } else {
      AlignmentExact(x / 2);
      HalfAligned(x / 2, Alignment(x / 2));
      HalfAligned(x / 2, Alignment(x / 2) + 1);
    }
  }

  /** bits.TrailingZeros32: 32 for zero. */
  function TrailingZeros32(x: Address4): nat { if x == 0 then 32 else Alignment(x) }

  lemma AlignmentIs(x: nat, n: nat)
    requires x > 0 && x % Pow2(n) == 0 && x % Pow2(n + 1) != 0
    ensures Alignment(x) == n
  {
    var a := Alignment(x);
    AlignmentExact(x);
    if a > n {
      DividesDown(x, n + 1, a);
    } else if a < n {
      DividesDown(x, a + 1, n);
    }
  }

  lemma HalfAligned(x: nat, k: nat)
    ensures (2 * x) % Pow2(k + 1) == 0 <==> x % Pow2(k) == 0
  {
    HalfMultiple(x, Pow2(k));
  }

  lemma HalfMultiple(x: nat, p: nat)
    requires p > 0
    ensures (2 * x) % (2 * p) == 0 <==> x % p == 0
  {
    var q, r := x / p, x % p;
    Regroup(q, 2, p);
    DivMod(q, 2 * r, 2 * p);
  }

  /** bits.Len64. */
  function Len64(x: nat): (n: nat)
    ensures x > 0 ==> n > 0 && Pow2(n - 1) <= x < Pow2(n)
  {
    if x == 0 then 0 else 1 + Len64(x / 2)
  }

  /** A 32-bit left shift of one; shifting by 32 or more leaves nothing. */
  function Bit32(n: nat): Address4 { if n < 32 then (Pow2Monotone32(n); Pow2(n)) else 0 }

  lemma Pow2Monotone32(n: nat)
    requires n < 32
    ensures Pow2(n) < 0x1_0000_0000
  {
    Pow2Of32();
    Pow2Monotone(n, 32);
  }

  lemma Pow2Of32()
    ensures Pow2(32) == 0x1_0000_0000
  {
    assert Pow2(8) == 256;
    Pow2Add(8, 8);
    Pow2Add(16, 16);
  }

  // ---------- IPv4 ----------

  /** netip.Prefix: an address and a prefix length. */
  datatype Prefix4 = Prefix4(address: Address4, length: nat)

  function Blocks4(prefixes: seq<Prefix4>): seq<Block>
    requires forall p :: p in prefixes ==> p.length <= 32
  {
    seq(|prefixes|, i requires 0 <= i < |prefixes| =>
      assert prefixes[i] in prefixes; Block(prefixes[i].address, 32 - prefixes[i].length))
  }

  function BlockBits4(current: Address4, last: Address4): nat
    requires current <= last
  {
    var alignment, sizeBits := TrailingZeros32(current), Len64(last - current + 1) - 1;
    if alignment <= sizeBits then alignment else sizeBits
  }

  /** The smaller of the alignment and the size of the rest is the greedy choice. */
  lemma GreedyBits4(current: Address4, last: Address4)
    requires current <= last
    ensures BlockBits4(current, last) == Largest(current, last + 1) <= 32
  {
    var alignment, sizeBits := TrailingZeros32(current), Len64(last - current + 1) - 1;
    SizeBits4(current, last);
    if alignment <= sizeBits {
      AlignmentLimits(current, last);
    } else {
      SizeLimits(current, last);
    }
  }

  lemma SizeBits4(current: Address4, last: Address4)
    requires current <= last
    ensures var sizeBits := Len64(last - current + 1) - 1;
      current + Pow2(sizeBits) <= last + 1 < current + Pow2(sizeBits + 1) && sizeBits <= 32
  {
    var sizeBits := Len64(last - current + 1) - 1;
    Pow2Of32();
    if sizeBits > 32 { Pow2Monotone(32, sizeBits); }
  }

  lemma AlignmentLimits(current: Address4, last: Address4)
    requires current <= last && TrailingZeros32(current) <= Len64(last - current + 1) - 1
    ensures Largest(current, last + 1) == TrailingZeros32(current)
  {
    hide Pow2, Alignment, Len64;
    var alignment, sizeBits := TrailingZeros32(current), Len64(last - current + 1) - 1;
    SizeBits4(current, last);
    if alignment < sizeBits { Pow2Monotone(alignment, sizeBits); }
    NotAlignedFurther(current);
    Pow2Of32();
    Pow2Monotone(32, 33);
    LargestIs(current, last + 1, alignment);
  }

  lemma NotAlignedFurther(current: Address4)
    ensures current % Pow2(TrailingZeros32(current)) == 0
    ensures current > 0 ==> current % Pow2(TrailingZeros32(current) + 1) != 0
  {
    ZeroDivisible(Pow2(32));
    if current > 0 { AlignmentExact(current); }
  }

  lemma SizeLimits(current: Address4, last: Address4)
    requires current <= last && TrailingZeros32(current) > Len64(last - current + 1) - 1
    ensures Largest(current, last + 1) == Len64(last - current + 1) - 1
  {
    hide Pow2, Alignment, Len64;
    var alignment, sizeBits := TrailingZeros32(current), Len64(last - current + 1) - 1;
    SizeBits4(current, last);
    NotAlignedFurther(current);
    DividesDown(current, sizeBits, alignment);
    LargestIs(current, last + 1, sizeBits);
  }

  lemma ZeroDivisible(p: nat)
    requires p > 0
    ensures 0 % p == 0
  {}

  /** One round of the IPv4 loop: the greedy function unfolds, and the 32-bit sum
      either moves on or wraps exactly at the top. */
  lemma Advance4(current: Address4, last: Address4)
    requires current <= last
    ensures var k := Largest(current, last + 1); var next := current + Pow2(k);
      && k <= 32 && current < next <= last + 1
      && Greedy(current, last + 1) == [Block(current, k)] + Greedy(next, last + 1)
    ensures var k := Largest(current, last + 1);
      (current + Bit32(k)) % 0x1_0000_0000 == Wrap32(current + Pow2(k))
  {
    hide Largest, Greedy, Pow2, TrailingZeros32, Len64, BlockBits4, Bit32, Wrap32;
    GreedyBits4(current, last);
    GreedyUnfold(current, last + 1);
    Wraps(current, Largest(current, last + 1));
  }

  function Wrap32(x: nat): nat { if x == 0x1_0000_0000 then 0 else x }

  lemma Wraps(current: Address4, k: nat)
    requires k <= 32 && current + Pow2(k) <= 0x1_0000_0000
    ensures (current + Bit32(k)) % 0x1_0000_0000 == Wrap32(current + Pow2(k))
  {
    if k < 32 {
      Pow2Monotone32(k);
    } else {
      Pow2Of32();
    }
  }

  lemma GreedyEmpty(low: nat, high: nat)
    requires low >= high
    ensures Greedy(low, high) == []
  {}

  method Ipv4RangePrefixes(start: Address4, stop: Address4) returns (result: seq<Prefix4>)
    ensures forall p :: p in result ==> p.length <= 32
    ensures Blocks4(result) == Greedy(start, stop + 1)
  {
    hide Largest, Greedy, Pow2, Fits, TrailingZeros32, Len64, Bit32;
    var current: Address4 := start;
    var last: Address4 := stop;
    result := [];
    ghost var done: seq<Block> := [];
    ghost var rest := Greedy(start, stop + 1);
    if start > stop { GreedyEmpty(start, stop + 1); }
    while current <= last
      invariant forall p :: p in result ==> p.length <= 32
      invariant Blocks4(result) == done
      invariant done + rest == Greedy(start, stop + 1)
      invariant if current <= last then rest == Greedy(current, last + 1) else rest == []
      decreases last + 1 - current
    {
      GreedyBits4(current, last);
      Advance4(current, last);
      var alignment := TrailingZeros32(current);
      var remaining := last - current + 1;
      var sizeBits := Len64(remaining) - 1;
      var blockBits := if alignment <= sizeBits then alignment else sizeBits;
      assert blockBits == BlockBits4(current, last);
      result := result + [Prefix4(current, 32 - blockBits)];
      rest := Greedy(current + Pow2(blockBits), last + 1);
      AppendConcat(done, Block(current, blockBits), rest);
      done := done + [Block(current, blockBits)];
      assert Blocks4(result) == done;
      if current + Pow2(blockBits) > last { GreedyEmpty(current + Pow2(blockBits), last + 1); }
      current := (current + Bit32(blockBits)) % 0x1_0000_0000;
      if current == 0 {
        break;
      }
    }
    assert done + [] == done;
  }

  lemma AppendConcat(a: seq<Block>, b: Block, c: seq<Block>)
    ensures a + ([b] + c) == (a + [b]) + c
  {}

  // ---------- IPv6 ----------

  /** Big-endian value of a byte string. */
  function Value(s: seq<Byte>): nat {
    if s == [] then 0 else Value(s[..|s| - 1]) * 256 + s[|s| - 1]
  }

  lemma {:induction false} ValueSplit(a: seq<Byte>, b: seq<Byte>)
    ensures Value(a + b) == Value(a) * Pow2(8 * |b|) + Value(b)
    ensures Value(b) < Pow2(8 * |b|)
  {
    if b == [] {
      assert a + b == a;
    } else {
      var n := |b| - 1;
      ValueSplit(a, b[..n]);
      assert (a + b)[..|a + b| - 1] == a + b[..n];
      Pow2Step8(n);
      ScaleBy256(Value(a), Pow2(8 * n), Value(b[..n]));
    }
  }

  lemma Pow2Step8(n: nat)
    ensures Pow2(8 * n + 8) == 256 * Pow2(8 * n)
  {
    Pow2Add(8, 8 * n);
    assert Pow2(8) == 256;
  }

  lemma ScaleBy256(v: nat, p: nat, w: nat)
    ensures (v * p + w) * 256 == v * (256 * p) + w * 256
  {}

  lemma ValueOf16(s: Address16)
    ensures Value(s) < Pow2(128)
  {
    hide Value, Pow2;
    ValueSplit([], s);
  }

  /** Value at a position: the bytes before it, the byte, the bytes after it. */
  lemma ValueAt(s: seq<Byte>, i: nat)
    requires i < |s|
    ensures var n := |s| - i - 1;
      && Value(s) == (Value(s[..i]) * 256 + s[i]) * Pow2(8 * n) + Value(s[i + 1..])
      && Value(s[i + 1..]) < Pow2(8 * n)
  {
    hide Value, Pow2;
    assert s[..i + 1] + s[i + 1..] == s;
    ValueSnoc(s, i);
    ValueSplit(s[..i + 1], s[i + 1..]);
  }

  lemma ValueSnoc(s: seq<Byte>, i: nat)
    requires i < |s|
    ensures Value(s[..i + 1]) == Value(s[..i]) * 256 + s[i]
  {
    assert s[..i + 1][..i] == s[..i];
  }

  method Compare16(left: Address16, right: Address16) returns (order: int)
    ensures order == -1 <==> Value(left) < Value(right)
    ensures order == 1 <==> Value(left) > Value(right)
    ensures order == 0 <==> Value(left) == Value(right)
    ensures order == 0 <==> left == right
  {
    for index := 0 to 16
      invariant left[..index] == right[..index]
    {
      if left[index] < right[index] {
        FirstDifference(left, right, index);
        return -1;
      }
      if left[index] > right[index] {
        FirstDifference(right, left, index);
        return 1;
      }
    }
    assert left[..16] == left && right[..16] == right;
    return 0;
  }

  lemma FirstDifference(small: Address16, large: Address16, index: nat)
    requires index < 16 && small[..index] == large[..index] && small[index] < large[index]
    ensures Value(small) < Value(large)
  {
    hide Value, Pow2;
    ValueAt(small, index);
    ValueAt(large, index);
    var v, p := Value(small[..index]) * 256, Pow2(8 * (15 - index));
    MulMonotone(v + small[index] + 1, v + large[index], p);
    Distribute(v + small[index], p);
  }

  method Increment16(start: Address16) returns (value: Address16, overflow: bool)
    ensures overflow <==> Value(start) + 1 == Pow2(128)
    ensures !overflow ==> Value(value) == Value(start) + 1
  {
    hide Value, Pow2;
    value := start;
    ValueOf16(start);
    EmptyTail(start);
    UnitPower();
    for index := 16 downto 0
      invariant |value| == 16 && value[..index] == start[..index]
      invariant Value(value[index..]) == 0
      invariant Value(start[index..]) + 1 == Pow2(8 * (16 - index))
    {
      var octet: nat := value[index];
      assert start[index] == octet;
      value := value[index := (octet + 1) % 256];
      assert value[..index] == start[..index];
      if value[index] != 0 {
        CarryStops(start, value, index);
        return value, false;
      }
      CarryGoesOn(start, value, index);
    }
    return value, true;
  }

  lemma UnitPower()
    ensures Pow2(0) == 1
  {}

  /** The incremented byte did not wrap: everything after it did, so the value grew by one. */
  lemma CarryStops(start: Address16, value: Address16, index: nat)
    requires index < 16 && value[..index] == start[..index] && value[index] as nat == start[index] as nat + 1
    requires Value(value[index + 1..]) == 0
    requires Value(start[index + 1..]) + 1 == Pow2(8 * (15 - index))
    ensures Value(value) == Value(start) + 1
    ensures Value(start) + 1 < Pow2(128)
  {
    hide Value, Pow2;
    ValueAt(start, index);
    ValueAt(value, index);
    Distribute(Value(start[..index]) * 256 + start[index], Pow2(8 * (15 - index)));
    ValueOf16(value);
  }

  lemma CarryGoesOn(start: Address16, value: Address16, index: nat)
    requires index < 16 && value[index] == 0 && start[index] == 255
    requires Value(value[index + 1..]) == 0
    requires Value(start[index + 1..]) + 1 == Pow2(8 * (15 - index))
    ensures Value(value[index..]) == 0
    ensures Value(start[index..]) + 1 == Pow2(8 * (16 - index))
  {
    ValueCons(value[index..]);
    ValueCons(start[index..]);
    assert value[index..][1..] == value[index + 1..] && start[index..][1..] == start[index + 1..];
    hide Value, Pow2;
    Pow2Step8(15 - index);
    Distribute(255, Pow2(8 * (15 - index)));
  }

  lemma ValueCons(s: seq<Byte>)
    requires s != []
    ensures Value(s) == s[0] * Pow2(8 * (|s| - 1)) + Value(s[1..])
  {
    assert s[..0] == [];
    assert Value([]) == 0;
    hide Value, Pow2;
    ValueAt(s, 0);
  }

  method TrailingZeros16(value: Address16) returns (count: nat)
    ensures Value(value) == 0 ==> count == 128
    ensures Value(value) > 0 ==> count == Alignment(Value(value))
  {
    hide Value, Alignment, Pow2;
    EmptyTail(value);
    count := 0;
    for index := 16 downto 0
      invariant count == 8 * (16 - index)
      invariant Value(value[index..]) == 0
    {
      ValueFromByte(value, index);
      if value[index] != 0 {
        AlignmentAtByte(value, index);
        count := count + Alignment(value[index]);
        return;
      }
      count := count + 8;
    }
  }

  lemma EmptyTail(s: Address16)
    ensures Value(s[16..]) == 0 && s[0..] == s
  {}

  lemma ValueFromByte(s: Address16, index: nat)
    requires index < 16
    ensures Value(s[index..]) == s[index] * Pow2(8 * (15 - index)) + Value(s[index + 1..])
  {
    ValueCons(s[index..]);
    assert s[index..][1..] == s[index + 1..];
  }

  /** The lowest non-zero byte decides the alignment of the whole address. */
  lemma AlignmentAtByte(value: Address16, index: nat)
    requires index < 16 && value[index] > 0 && Value(value[index + 1..]) == 0
    ensures Value(value) > 0
    ensures Alignment(Value(value)) == 8 * (15 - index) + Alignment(value[index])
  {
    hide Value, Pow2, Alignment;
    var head, octet, k := Value(value[..index]), value[index], 8 * (15 - index);
    var t := Alignment(octet);
    ValueAt(value, index);
    OctetAlignment(head, octet);
    var x := head * 256 + octet;
    AlignmentScales(x, k);
    AlignmentIs(x, t);
  }

  lemma OctetAlignment(head: nat, octet: Byte)
    requires octet > 0
    ensures var t := Alignment(octet); var x := head * 256 + octet;
      t < 8 && x % Pow2(t) == 0 && x % Pow2(t + 1) != 0
  {
    hide Pow2, Alignment;
    var t := Alignment(octet);
    AlignmentExact(octet);
    OctetPower();
    AlignmentBelowWidth(octet, t, 8);
    Pow2Divides(t, 8);
    Pow2Divides(t + 1, 8);
    MultipleDivides(head, 256, Pow2(t));
    MultipleDivides(head, 256, Pow2(t + 1));
    SumDivides(head * 256, octet, Pow2(t));
    RemainderOfSum(head * 256, octet, Pow2(t + 1));
  }

  lemma OctetPower()
    ensures Pow2(8) == 256
  {}

  lemma MultipleDivides(h: nat, x: nat, unit: nat)
    requires unit > 0 && x % unit == 0
    ensures (h * x) % unit == 0
  {
    var q := x / unit;
    assert x == q * unit + 0;
    Regroup(h, q, unit);
    DivMod(h * q, 0, unit);
  }

  lemma RemainderOfSum(x: nat, y: nat, unit: nat)
    requires unit > 0 && x % unit == 0
    ensures (x + y) % unit == y % unit
  {
    var p, q, r := x / unit, y / unit, y % unit;
    assert x == p * unit + 0 && y == q * unit + r;
    assert x + y == (p + q) * unit + r;
    DivMod(p + q, r, unit);
  }

  lemma {:induction false} AlignmentScales(x: nat, k: nat)
    requires x > 0
    ensures x * Pow2(k) > 0 && Alignment(x * Pow2(k)) == Alignment(x) + k
  {
    if k > 0 {
      AlignmentScales(x, k - 1);
      ScaleTwice(x, Pow2(k - 1));
      AlignmentDouble(x * Pow2(k - 1));
    }
  }

  lemma ScaleTwice(x: nat, p: nat)
    ensures x * (2 * p) == 2 * (x * p)
  {}

  lemma AlignmentDouble(y: nat)
    requires y > 0
    ensures Alignment(2 * y) == Alignment(y) + 1
  {}

  // ---------- the last address of a prefix ----------

  /** v with the bits of weight 2^m up to 2^(h-1) set, the others as they were. */
  function Filled(v: nat, h: nat, m: nat): int {
    v - v % Pow2(h) + Pow2(h) - Pow2(m) + v % Pow2(m)
  }

  function OrBit(octet: Byte, weight: nat): nat {
    if octet / Pow2(weight) % 2 == 1 then octet else octet + Pow2(weight)
  }

  lemma OrBitIsByte(octet: Byte, weight: nat)
    requires weight < 8
    ensures OrBit(octet, weight) < 256
  {
    Pow2Add(7 - weight, weight);
    assert Pow2(7) == 128;
    hide Pow2;
    ClearBitHasRoom(octet, Pow2(weight), Pow2(7 - weight));
  }

  /** A number below 2*rest*p whose quotient by p is even stays below when p is added. */
  lemma ClearBitHasRoom(x: nat, p: nat, rest: nat)
    requires p > 0 && x < 2 * (rest * p)
    ensures x / p % 2 == 0 ==> x + p < 2 * (rest * p)
  {
    var q := x / p;
    assert x == q * p + x % p;
    Regroup(2, rest, p);
    MulMonotone(2 * rest, q, p);
    if q % 2 == 0 {
      MulMonotone(q + 2, 2 * rest, p);
      Distribute(q, p);
      Distribute(q + 1, p);
    }
  }

  method PrefixLast16(address: Address16, prefixLength: nat) returns (result: Address16)
    requires prefixLength <= 128
    ensures Value(result) == Filled(Value(address), 128 - prefixLength, 0)
  {
    hide Value, Pow2, Filled, OrBit;
    result := address;
    ghost var v, h := Value(address), 128 - prefixLength;
    FilledNothing(v, h);
    for bit := prefixLength to 128
      invariant Value(result) == Filled(v, h, 128 - bit)
    {
      ghost var before := result;
      OrBitIsByte(result[bit / 8], 7 - bit % 8);
      result := result[bit / 8 := OrBit(result[bit / 8], 7 - bit % 8)];
      SetBit(before, bit, result);
      FillStep(v, h, 128 - bit);
    }
  }

  lemma FilledNothing(v: nat, h: nat)
    ensures Filled(v, h, h) == v
  {}

  /** Setting one bit of one byte adds its weight unless it was set already. */
  lemma SetBit(s: Address16, bit: nat, r: Address16)
    requires bit < 128 && r[..bit / 8] == s[..bit / 8] && r[bit / 8 + 1..] == s[bit / 8 + 1..]
    requires r[bit / 8] == OrBit(s[bit / 8], 7 - bit % 8)
    ensures var u := Pow2(127 - bit);
      Value(r) == if Value(s) / u % 2 == 1 then Value(s) else Value(s) + u
  {
    hide Value, Pow2;
    var i, w := bit / 8, 7 - bit % 8;
    var n := 8 * (15 - i);
    ValueAt(s, i);
    ValueAt(r, i);
    Pow2Add(n, w);
    assert n + w == 127 - bit;
    BitOfByte(Value(s[..i]), s[i], w, Value(s[i + 1..]), n);
    Distribute3(Value(s[..i]) * 256 + s[i], Pow2(w), Pow2(n));
  }

  lemma Distribute3(x: nat, y: nat, p: nat)
    ensures (x + y) * p == x * p + p * y
  {}

  /** The bit of weight 2^(n+w) of an address is the bit of weight 2^w of its byte at 2^n. */
  lemma BitOfByte(head: nat, octet: Byte, w: nat, low: nat, n: nat)
    requires w < 8 && low < Pow2(n)
    ensures ((head * 256 + octet) * Pow2(n) + low) / Pow2(n + w) % 2 == octet / Pow2(w) % 2
  {
    Pow2Add(n, w);
    Pow2Add(7 - w, w);
    assert Pow2(7) == 128;
    hide Pow2;
    BitOfDigit(head, octet, Pow2(w), Pow2(7 - w), low, Pow2(n));
  }

  lemma BitOfDigit(head: nat, octet: nat, p: nat, rest: nat, low: nat, u: nat)
    requires p > 0 && rest * p == 128 && low < u
    ensures u * p > 0 && ((head * 256 + octet) * u + low) / (u * p) % 2 == octet / p % 2
  {
    var oq, or := octet / p, octet % p;
    assert octet == oq * p + or;
    HeadQuotient(head, oq, rest, p);
    var q := head * (2 * rest) + oq;
    assert head * 256 + octet == q * p + or;
    QuotientTwice(q, or, p, low, u);
    EvenHead(head, rest, oq);
  }

  lemma EvenHead(head: nat, rest: nat, oq: nat)
    ensures (head * (2 * rest) + oq) % 2 == oq % 2
  {
    Regroup(head, 2, rest);
    assert head * (2 * rest) == 2 * (head * rest);
    Parity(head * rest, oq);
  }

  lemma HeadQuotient(head: nat, oq: nat, rest: nat, p: nat)
    requires rest * p == 128
    ensures (head * (2 * rest) + oq) * p == head * 256 + oq * p
  {
    Regroup(head, 2 * rest, p);
    Regroup(2, rest, p);
  }

  lemma Parity(x: nat, y: nat)
    ensures (2 * x + y) % 2 == y % 2
  {}

  lemma QuotientTwice(q: nat, r: nat, p: nat, low: nat, u: nat)
    requires r < p && low < u
    ensures ((q * p + r) * u + low) / (u * p) == q
  {
    var rest := r * u + low;
    MulMonotone(r + 1, p, u);
    Distribute(r, u);
    Regroup(q, p, u);
    assert (q * p + r) * u + low == q * (u * p) + rest;
    DivMod(q, rest, u * p);
  }

  lemma FillStep(v: nat, h: nat, m: nat)
    requires 0 < m <= h
    ensures var f := Filled(v, h, m); var u := Pow2(m - 1);
      && f >= 0
      && Filled(v, h, m - 1) == if f / u % 2 == 1 then f else f + u
  {
    hide Pow2;
    Pow2Units(h, m);
    HalfOf(v, m);
    var u, k := Pow2(m - 1), Pow2(h - m);
    WholePart(v, Pow2(h));
    FillOneBit(v / Pow2(h), v % Pow2(m), k, u);
  }

  lemma Pow2Units(h: nat, m: nat)
    requires 0 < m <= h
    ensures Pow2(m) == 2 * Pow2(m - 1) && Pow2(h) == Pow2(h - m) * (2 * Pow2(m - 1))
  {
    Pow2Add(h - m, m);
  }

  lemma WholePart(v: nat, p: nat)
    requires p > 0
    ensures v - v % p == (v / p) * p && v % p < p
  {}

  /** The arithmetic of one step: f is (q*k + k - 1) whole units of 2u, plus what v has below. */
  lemma FillOneBit(q: nat, r: nat, k: nat, u: nat)
    requires k > 0 && u > 0 && r < 2 * u
    ensures var f := q * (k * (2 * u)) + k * (2 * u) - 2 * u + r;
      && f >= 0
      && f - r + u + r % u == if f / u % 2 == 1 then f else f + u
  {
    FilledShape(q, k, 2 * u, r);
    var a := q * k + k - 1;
    assert a >= 0;
    var b, t := r / u, r % u;
    assert r == b * u + t;
    MulMonotone(2, b, u);
    Spread(a, b, u);
    DivMod(2 * a + b, t, u);
    Parity(a, b);
  }

  lemma Spread(a: nat, b: nat, u: nat)
    ensures (2 * a + b) * u == a * (2 * u) + b * u
  {}

  lemma FilledShape(q: nat, k: nat, p: nat, r: nat)
    requires k > 0
    ensures q * (k * p) + k * p - p + r == (q * k + k - 1) * p + r
  {
    Regroup(q, k, p);
  }

  lemma HalfOf(v: nat, m: nat)
    requires m > 0
    ensures v % Pow2(m - 1) == v % Pow2(m) % Pow2(m - 1)
  {
    var u := Pow2(m - 1);
    var q, r := v / (2 * u), v % (2 * u);
    assert v == q * (2 * u) + r;
    Regroup(q, 2, u);
    var b, t := r / u, r % u;
    assert r == b * u + t;
    assert v == (q * 2 + b) * u + t by { Spread(q, b, u); }
    DivMod(q * 2 + b, t, u);
  }

  // ---------- IPv6 ----------

  datatype Prefix6 = Prefix6(address: Address16, length: nat)

  function Blocks6(prefixes: seq<Prefix6>): seq<Block>
    requires forall p :: p in prefixes ==> p.length <= 128
  {
    seq(|prefixes|, i requires 0 <= i < |prefixes| =>
      assert prefixes[i] in prefixes; Block(Value(prefixes[i].address), 128 - prefixes[i].length))
  }

  method BlockBits6(current: Address16, last: Address16) returns (blockBits: nat)
    requires Value(current) <= Value(last)
    ensures blockBits == Largest(Value(current), Value(last) + 1) <= 128
  {
    hide Value, Filled, Alignment, Largest, Pow2;
    ghost var v, high := Value(current), Value(last) + 1;
    ValueOf16(current);
    ValueOf16(last);
    blockBits := TrailingZeros16(current);
    AlignmentFits(v, high, blockBits);
    while blockBits > 0
      invariant blockBits <= 128
      invariant v % Pow2(blockBits) == 0 && !Fits(v, high, blockBits + 1)
    {
      var end := PrefixLast16(current, 128 - blockBits);
      AlignedEnd(v, blockBits);
      var order := Compare16(end, last);
      if order <= 0 {
        break;
      }
      DividesDown(v, blockBits - 1, blockBits);
      blockBits := blockBits - 1;
    }
    UnitPower();
    LargestIs(v, high, blockBits);
  }

  lemma AlignmentFits(v: nat, high: nat, n: nat)
    requires v < high <= Pow2(128)
    requires if v == 0 then n == 128 else n == Alignment(v)
    ensures n <= 128 && v % Pow2(n) == 0 && !Fits(v, high, n + 1)
  {
    Pow2Monotone(128, 129);
    if v > 0 {
      AlignmentExact(v);
      AlignmentBelowWidth(v, n, 128);
    }
  }

  lemma AlignedEnd(v: nat, h: nat)
    requires v % Pow2(h) == 0
    ensures Filled(v, h, 0) == v + Pow2(h) - 1
  {
    assert Pow2(0) == 1;
  }

  method Ipv6RangePrefixes(start: Address16, stop: Address16) returns (result: seq<Prefix6>)
    ensures forall p :: p in result ==> p.length <= 128
    ensures Blocks6(result) == Greedy(Value(start), Value(stop) + 1)
  {
    hide Value, Largest, Greedy, Pow2, Fits, Filled;
    var current, last := start, stop;
    result := [];
    ghost var high := Value(stop) + 1;
    ghost var done: seq<Block> := [];
    ghost var rest := Greedy(Value(start), high);
    if Value(start) >= high { GreedyEmpty(Value(start), high); }
    var order := Compare16(current, last);
    while order <= 0
      invariant order <= 0 <==> Value(current) <= Value(last)
      invariant forall p :: p in result ==> p.length <= 128
      invariant Blocks6(result) == done
      invariant done + rest == Greedy(Value(start), high)
      invariant if order <= 0 then rest == Greedy(Value(current), high) else rest == []
      decreases high - Value(current)
    {
      var blockBits := BlockBits6(current, last);
      GreedyUnfold(Value(current), high);
      result := result + [Prefix6(current, 128 - blockBits)];
      ghost var next := Value(current) + Pow2(blockBits);
      rest := Greedy(next, high);
      AppendConcat(done, Block(Value(current), blockBits), rest);
      done := done + [Block(Value(current), blockBits)];
      assert Blocks6(result) == done;
      if next >= high { GreedyEmpty(next, high); }
      var end := PrefixLast16(current, 128 - blockBits);
      LargestAligned(Value(current), high);
      AlignedEnd(Value(current), blockBits);
      ValueOf16(last);
      var following, overflow := Increment16(end);
      if overflow {
        break;
      }
      current := following;
      order := Compare16(current, last);
    }
    assert done + [] == done;
  }

  lemma LargestAligned(low: nat, high: nat)
    requires low < high
    ensures low % Pow2(Largest(low, high)) == 0
  {}

  // ---------- the theorem for both families ----------

  /** The blocks are aligned, ascending and disjoint, hold exactly the closed interval, number at most 2w-2,
      and no list of aligned blocks holding the same addresses is shorter. */
  ghost predicate OptimalCover(blocks: seq<Block>, start: nat, stop: nat, width: nat)
    requires width > 0
  {
    && AllAligned(blocks) && AscendingAndDisjoint(blocks) && CoverExactly(blocks, start, stop + 1)
    && |blocks| <= 2 * width - 2
    && forall other: seq<Block> | AllAligned(other) && CoverExactly(other, start, stop + 1) :: |blocks| <= |other|
  }

  lemma GreedyIsOptimalCover(start: nat, stop: nat, width: nat)
    requires width >= 2 && stop < Pow2(width)
    ensures OptimalCover(Greedy(start, stop + 1), start, stop, width)
  {
    hide Greedy, Pow2, AllAligned, AscendingAndDisjoint, CoverExactly;
    GreedyExact(start, stop + 1);
    GreedyLength(start, stop + 1, width);
    forall other: seq<Block> | AllAligned(other) && CoverExactly(other, start, stop + 1)
      ensures |Greedy(start, stop + 1)| <= |other|
    {
      GreedyOptimal(start, stop + 1, other);
    }
  }

  datatype IpAddress = Invalid | V4(four: Address4) | V6(six: Address16)

  datatype Prefixes = NoPrefixes | Prefixes4(fours: seq<Prefix4>) | Prefixes6(sixes: seq<Prefix6>)

  /** What addressRangePrefixes promises: mixed families, invalid addresses and inverted ranges are refused. */
  ghost predicate RangeAnswer(start: IpAddress, stop: IpAddress, result: Prefixes) {
    match (start, stop)
    case (V4(a), V4(b)) => if a > b then result == NoPrefixes else CoveredBy4(result, a, b)
    case (V6(a), V6(b)) => if Value(a) > Value(b) then result == NoPrefixes else CoveredBy6(result, a, b)
    case _ => result == NoPrefixes
  }

  ghost predicate CoveredBy4(result: Prefixes, start: Address4, stop: Address4) {
    && result.Prefixes4? && (forall p :: p in result.fours ==> p.length <= 32)
    && OptimalCover(Blocks4(result.fours), start, stop, 32)
  }

  ghost predicate CoveredBy6(result: Prefixes, start: Address16, stop: Address16) {
    && result.Prefixes6? && (forall p :: p in result.sixes ==> p.length <= 128)
    && OptimalCover(Blocks6(result.sixes), Value(start), Value(stop), 128)
  }

  method AddressRangePrefixes(start: IpAddress, stop: IpAddress) returns (result: Prefixes)
    ensures RangeAnswer(start, stop, result)
  {
    hide Value, Greedy, OptimalCover, Pow2;
    match (start, stop) {
      case (V4(a), V4(b)) =>
        if a > b {
          return NoPrefixes;
        }
        var fours := Ipv4RangePrefixes(a, b);
        Pow2Of32();
        GreedyIsOptimalCover(a, b, 32);
        return Prefixes4(fours);
      case (V6(a), V6(b)) =>
        var order := Compare16(a, b);
        if order > 0 {
          return NoPrefixes;
        }
        var sixes := Ipv6RangePrefixes(a, b);
        ValueOf16(b);
        GreedyIsOptimalCover(Value(a), Value(b), 128);
        return Prefixes6(sixes);
      case _ =>
        return NoPrefixes;
    }
  }
}
