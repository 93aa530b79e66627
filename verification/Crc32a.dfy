/** CRC-32/ITU-I.363.5 as used for OMCI software images and for the GPON OMCI MIC
    (internal/checksum/crc32a.go), and the algebra behind its error detection. */
module Crc32a {

  type Octet = bv8
  type Octets = seq<bv8>

  const POLYNOMIAL: bv32 := 0x04c1_1db7
  const INITIAL: bv32 := 0xffff_ffff

  // ---------- the register as a linear machine ----------

  /** Addition of registers as polynomials over GF(2). */
  function Add(x: bv32, y: bv32): bv32 { x ^ y }

  /** One shift of the register: multiplication by x modulo the generator polynomial. */
  function Shift(crc: bv32): bv32 {
    if crc & 0x8000_0000 != 0 then (crc << 1) ^ POLYNOMIAL else crc << 1
  }

  function Shifts(crc: bv32, n: nat): bv32 {
    if n == 0 then crc else Shift(Shifts(crc, n - 1))
  }

  /** The register with the next octet folded into its top byte. */
  function Load(crc: bv32, octet: bv8): bv32 { crc ^ ((octet as bv32) << 24) }

  function Absorb(crc: bv32, octet: bv8): bv32 { Shifts(Load(crc, octet), 8) }

  /** The register after a whole message has been fed in. */
  function Feed(crc: bv32, value: Octets): bv32 {
    if value == [] then crc
    else Absorb(Feed(crc, value[..|value| - 1]), value[|value| - 1])
  }

  function Sum(crc: bv32): bv32 { crc ^ 0xffff_ffff }

  function Checksum(value: Octets): bv32 { Sum(Feed(INITIAL, value)) }

  // ---------- the implementation ----------

  method UpdateCRC32A(start: bv32, value: Octets) returns (crc: bv32)
    ensures crc == Feed(start, value)
  {
    crc := start;
    for i := 0 to |value|
      invariant crc == Feed(start, value[..i])
    {
      assert value[..i + 1][..i] == value[..i];
      crc := crc ^ ((value[i] as bv32) << 24);
      ghost var loaded := crc;
      for bit := 0 to 8
        invariant crc == Shifts(loaded, bit)
      {
        if crc & 0x8000_0000 != 0 {
          crc := (crc << 1) ^ POLYNOMIAL;
        } else {
          crc := crc << 1;
        }
      }
    }
    assert value[..|value|] == value;
  }

  method CRC32A(value: Octets) returns (sum: bv32)
    ensures sum == Checksum(value)
  {
    var crc := UpdateCRC32A(INITIAL, value);
    sum := crc ^ 0xffff_ffff;
  }

  // ---------- composition over concatenation ----------

  lemma {:induction false} FeedConcat(crc: bv32, a: Octets, b: Octets)
    ensures Feed(crc, a + b) == Feed(Feed(crc, a), b)
  {
    if b == [] {
      assert a + b == a;
    } else {
      FeedConcat(crc, a, b[..|b| - 1]);
      assert (a + b)[..|a + b| - 1] == a + b[..|b| - 1];
    }
  }

  // ---------- linearity over exclusive or ----------

  function Xor(a: Octets, b: Octets): (r: Octets)
    requires |a| == |b|
    ensures |r| == |a|
    ensures forall i :: 0 <= i < |a| ==> r[i] == a[i] ^ b[i]
  {
    seq(|a|, i requires 0 <= i < |a| => a[i] ^ b[i])
  }

  lemma ShiftLinear(x: bv32, y: bv32)
    ensures Shift(Add(x, y)) == Add(Shift(x), Shift(y))
  {
    hide Add, Shift;
    if x & 0x8000_0000 == 0 {
      if y & 0x8000_0000 == 0 { ShiftClearClear(x, y); } else { ShiftClearSet(x, y); }
    } else {
      if y & 0x8000_0000 == 0 {
        AddCommutes(x, y);
        ShiftClearSet(y, x);
        AddCommutes(Shift(x), Shift(y));
      } else {
        ShiftSetSet(x, y);
      }
    }
  }

  lemma AddCommutes(x: bv32, y: bv32)
    ensures Add(x, y) == Add(y, x)
  {}

  lemma ShiftClearClear(x: bv32, y: bv32)
    requires x & 0x8000_0000 == 0 && y & 0x8000_0000 == 0
    ensures Shift(Add(x, y)) == Add(Shift(x), Shift(y))
  {}

  lemma ShiftClearSet(x: bv32, y: bv32)
    requires x & 0x8000_0000 == 0 && y & 0x8000_0000 != 0
    ensures Shift(Add(x, y)) == Add(Shift(x), Shift(y))
  {}

  lemma ShiftSetSet(x: bv32, y: bv32)
    requires x & 0x8000_0000 != 0 && y & 0x8000_0000 != 0
    ensures Shift(Add(x, y)) == Add(Shift(x), Shift(y))
  {}

  lemma TopBit(x: bv32)
    ensures x & 0x8000_0000 == 0 || x & 0x8000_0000 == 0x8000_0000
  {}

  lemma XorCancel(x: bv32, y: bv32, p: bv32)
    ensures (x ^ p) ^ (y ^ p) == x ^ y
    ensures (x ^ p) ^ p == x
  {}

  lemma {:induction false} ShiftsLinear(x: bv32, y: bv32, n: nat)
    ensures Shifts(Add(x, y), n) == Add(Shifts(x, n), Shifts(y, n))
  {
    hide Add, Shift;
    if n > 0 {
      ShiftsLinear(x, y, n - 1);
      ShiftLinear(Shifts(x, n - 1), Shifts(y, n - 1));
    }
  }

  lemma LoadLinear(x: bv32, y: bv32, p: bv8, q: bv8)
    ensures Load(Add(x, y), p ^ q) == Add(Load(x, p), Load(y, q))
  {}

  lemma AbsorbLinear(x: bv32, y: bv32, p: bv8, q: bv8)
    ensures Absorb(Add(x, y), p ^ q) == Add(Absorb(x, p), Absorb(y, q))
  {
    hide Add, Load, Shifts;
    LoadLinear(x, y, p, q);
    ShiftsLinear(Load(x, p), Load(y, q), 8);
  }

  /** Feeding the exclusive or of two messages is the exclusive or of feeding each. */
  lemma {:induction false} FeedLinear(x: bv32, y: bv32, a: Octets, b: Octets)
    requires |a| == |b|
    ensures Feed(Add(x, y), Xor(a, b)) == Add(Feed(x, a), Feed(y, b))
  {
    hide Add, Absorb;
    if a != [] {
      var n := |a| - 1;
      FeedLinear(x, y, a[..n], b[..n]);
      assert Xor(a, b)[..n] == Xor(a[..n], b[..n]);
      AbsorbLinear(Feed(x, a[..n]), Feed(y, b[..n]), a[n], b[n]);
    }
  }

  // ---------- injectivity ----------

  /** The generator has a constant term, so a shift loses nothing. */
  lemma ShiftInjective(x: bv32, y: bv32)
    requires Shift(x) == Shift(y)
    ensures x == y
  {
    TopBit(x);
    TopBit(y);
    LowBit(x);
    LowBit(y);
    XorCancel(x << 1, y << 1, POLYNOMIAL);
    ShlInjective(x, y);
  }

  lemma LowBit(x: bv32)
    ensures (x << 1) & 1 == 0 && ((x << 1) ^ POLYNOMIAL) & 1 == 1
  {}

  lemma ShlInjective(x: bv32, y: bv32)
    ensures x << 1 == y << 1 && x & 0x8000_0000 == y & 0x8000_0000 ==> x == y
  {}

  lemma {:induction false} ShiftsInjective(x: bv32, y: bv32, n: nat)
    requires Shifts(x, n) == Shifts(y, n)
    ensures x == y
  {
    if n > 0 {
      ShiftInjective(Shifts(x, n - 1), Shifts(y, n - 1));
      ShiftsInjective(x, y, n - 1);
    }
  }

  lemma LoadInjective(x: bv32, y: bv32, octet: bv8)
    requires Load(x, octet) == Load(y, octet)
    ensures x == y
  {
    XorCancel(x, y, (octet as bv32) << 24);
    XorCancel(y, x, (octet as bv32) << 24);
  }

  /** Different registers stay different under the same input. */
  lemma {:induction false} FeedInjective(x: bv32, y: bv32, value: Octets)
    requires Feed(x, value) == Feed(y, value)
    ensures x == y
  {
    if value != [] {
      var n := |value| - 1;
      ShiftsInjective(Load(Feed(x, value[..n]), value[n]), Load(Feed(y, value[..n]), value[n]), 8);
      LoadInjective(Feed(x, value[..n]), Feed(y, value[..n]), value[n]);
      FeedInjective(x, y, value[..n]);
    }
  }

  // ---------- four octets at once ----------

  /** Big-endian 32-bit word of four octets. */
  function Word(b0: bv8, b1: bv8, b2: bv8, b3: bv8): bv32 {
    ((b0 as bv32) << 24) | ((b1 as bv32) << 16) | ((b2 as bv32) << 8) | (b3 as bv32)
  }

  function Pack(b: Octets): bv32
    requires |b| == 4
  {
    Word(b[0], b[1], b[2], b[3])
  }

  /** The unique four octets that pack to w. */
  function Unpack(w: bv32): (b: Octets)
    ensures |b| == 4 && Pack(b) == w
  {
    UnpackWord(w);
    [(w >> 24) as bv8, ((w >> 16) & 0xff) as bv8, ((w >> 8) & 0xff) as bv8, (w & 0xff) as bv8]
  }

  lemma UnpackWord(w: bv32)
    ensures Word((w >> 24) as bv8, ((w >> 16) & 0xff) as bv8, ((w >> 8) & 0xff) as bv8, (w & 0xff) as bv8) == w
  {}

  lemma PackInjective(a: Octets, b: Octets)
    requires |a| == |b| == 4 && Pack(a) == Pack(b)
    ensures a == b
  {
    UnpackPack(a[0], a[1], a[2], a[3]);
    UnpackPack(b[0], b[1], b[2], b[3]);
    assert a == [a[0], a[1], a[2], a[3]] && b == [b[0], b[1], b[2], b[3]];
  }

  lemma UnpackPack(b0: bv8, b1: bv8, b2: bv8, b3: bv8)
    ensures Unpack(Word(b0, b1, b2, b3)) == [b0, b1, b2, b3]
  {}

  /** Eight shifts of a register whose top byte is clear just move it up. */
  lemma ShiftSmall(x: bv32)
    requires x & 0xff00_0000 == 0
    ensures Shifts(x, 8) == x << 8
  {
    SmallBits(x);
    assert Shifts(x, 1) == x << 1;
    assert Shifts(x, 2) == x << 2;
    assert Shifts(x, 3) == x << 3;
    assert Shifts(x, 4) == x << 4;
    assert Shifts(x, 5) == x << 5;
    assert Shifts(x, 6) == x << 6;
    assert Shifts(x, 7) == x << 7;
  }

  lemma SmallBits(x: bv32)
    requires x & 0xff00_0000 == 0
    ensures Shift(x) == x << 1
    ensures Shift(x << 1) == x << 2
    ensures Shift(x << 2) == x << 3
    ensures Shift(x << 3) == x << 4
    ensures Shift(x << 4) == x << 5
    ensures Shift(x << 5) == x << 6
    ensures Shift(x << 6) == x << 7
    ensures Shift(x << 7) == x << 8
  {}

  lemma {:induction false} ShiftsAdd(x: bv32, m: nat, n: nat)
    ensures Shifts(x, m + n) == Shifts(Shifts(x, m), n)
  {
    if n > 0 {
      ShiftsAdd(x, m, n - 1);
    }
  }

  /** An octet folded in after eight shifts could as well have been folded in before them,
      eight places further down. */
  lemma FoldEarlier(y: bv32, v: bv32)
    requires v & 0xff00_0000 == 0
    ensures Add(Shifts(y, 8), v << 8) == Shifts(Add(y, v), 8)
  {
    hide Add, Shifts;
    ShiftSmall(v);
    ShiftsLinear(y, v, 8);
  }

  lemma OctetPlaces(b: bv8)
    ensures ((b as bv32) << 16) & 0xff00_0000 == 0 && ((b as bv32) << 8) & 0xff00_0000 == 0
    ensures (b as bv32) & 0xff00_0000 == 0
    ensures ((b as bv32) << 16) << 8 == (b as bv32) << 24
    ensures ((b as bv32) << 8) << 8 == (b as bv32) << 16
    ensures (b as bv32) << 8 == (b as bv32) << 8
  {}

  lemma WordByAdding(r: bv32, b0: bv8, b1: bv8, b2: bv8, b3: bv8)
    ensures Add(Add(Add(Add(r, (b0 as bv32) << 24), (b1 as bv32) << 16), (b2 as bv32) << 8), b3 as bv32)
         == Add(r, Word(b0, b1, b2, b3))
  {
    hide Add;
    WordIsSum(b0, b1, b2, b3);
    var w1 := Add((b0 as bv32) << 24, (b1 as bv32) << 16);
    AddAssociative(r, (b0 as bv32) << 24, (b1 as bv32) << 16);
    AddAssociative(r, w1, (b2 as bv32) << 8);
    AddAssociative(r, Add(w1, (b2 as bv32) << 8), b3 as bv32);
  }

  lemma WordIsSum(b0: bv8, b1: bv8, b2: bv8, b3: bv8)
    ensures Word(b0, b1, b2, b3)
         == Add(Add(Add((b0 as bv32) << 24, (b1 as bv32) << 16), (b2 as bv32) << 8), b3 as bv32)
  {
    WordPlaces(b0, b1, b2, b3);
    DisjointSum((b0 as bv32) << 24, (b1 as bv32) << 16);
    DisjointSum(((b0 as bv32) << 24) | ((b1 as bv32) << 16), (b2 as bv32) << 8);
    DisjointSum(((b0 as bv32) << 24) | ((b1 as bv32) << 16) | ((b2 as bv32) << 8), b3 as bv32);
  }

  lemma WordPlaces(b0: bv8, b1: bv8, b2: bv8, b3: bv8)
    ensures ((b0 as bv32) << 24) & ((b1 as bv32) << 16) == 0
    ensures (((b0 as bv32) << 24) | ((b1 as bv32) << 16)) & ((b2 as bv32) << 8) == 0
    ensures (((b0 as bv32) << 24) | ((b1 as bv32) << 16) | ((b2 as bv32) << 8)) & (b3 as bv32) == 0
  {}

  lemma DisjointSum(x: bv32, y: bv32)
    requires x & y == 0
    ensures x | y == Add(x, y)
  {}

  lemma AddAssociative(x: bv32, y: bv32, z: bv32)
    ensures Add(Add(x, y), z) == Add(x, Add(y, z))
  {}

  lemma FoldTwice(y: bv32, b: bv8)
    ensures Add(Shifts(y, 16), (b as bv32) << 24) == Shifts(Add(y, (b as bv32) << 8), 16)
  {
    hide Add;
    OctetPlaces(b);
    ShiftsAdd(y, 8, 8);
    FoldEarlier(Shifts(y, 8), (b as bv32) << 16);
    FoldEarlier(y, (b as bv32) << 8);
    ShiftsAdd(Add(y, (b as bv32) << 8), 8, 8);
  }

  lemma FoldThrice(y: bv32, b: bv8)
    ensures Add(Shifts(y, 24), (b as bv32) << 24) == Shifts(Add(y, b as bv32), 24)
  {
    hide Add;
    OctetPlaces(b);
    ShiftsAdd(y, 8, 16);
    FoldTwice(Shifts(y, 8), b);
    FoldEarlier(y, b as bv32);
    ShiftsAdd(Add(y, b as bv32), 8, 16);
  }

  /** Feeding four octets is adding their word and shifting 32 places. */
  lemma FeedWord(r: bv32, b: Octets)
    requires |b| == 4
    ensures Feed(r, b) == Shifts(Add(r, Pack(b)), 32)
  {
    hide Add, Word, Shifts, Absorb;
    assert b[..1][..0] == [] && b[..2][..1] == b[..1] && b[..3][..2] == b[..2] && b[..4] == b;
    assert Feed(r, []) == r;
    assert Feed(r, b[..1]) == Absorb(r, b[0]);
    assert Feed(r, b[..2]) == Absorb(Feed(r, b[..1]), b[1]);
    assert Feed(r, b[..3]) == Absorb(Feed(r, b[..2]), b[2]);
    assert Feed(r, b) == Absorb(Feed(r, b[..3]), b[3]);
    FourSteps(r, b[0], b[1], b[2], b[3]);
  }

  lemma FourSteps(r: bv32, b0: bv8, b1: bv8, b2: bv8, b3: bv8)
    ensures Absorb(Absorb(Absorb(Absorb(r, b0), b1), b2), b3) == Shifts(Add(r, Word(b0, b1, b2, b3)), 32)
  {
    hide Add, Word, Shifts, Load;
    var y0 := Add(r, (b0 as bv32) << 24);
    var y1 := Add(y0, (b1 as bv32) << 16);
    var y2 := Add(y1, (b2 as bv32) << 8);
    var y3 := Add(y2, b3 as bv32);
    LoadIsAdd(r, b0);
    LoadIsAdd(Shifts(y0, 8), b1);
    OctetPlaces(b1);
    FoldEarlier(y0, (b1 as bv32) << 16);
    ShiftsAdd(y1, 8, 8);
    LoadIsAdd(Shifts(y1, 16), b2);
    FoldTwice(y1, b2);
    ShiftsAdd(y2, 16, 8);
    LoadIsAdd(Shifts(y2, 24), b3);
    FoldThrice(y2, b3);
    ShiftsAdd(y3, 24, 8);
    WordByAdding(r, b0, b1, b2, b3);
  }

  lemma LoadIsAdd(r: bv32, b: bv8)
    ensures Load(r, b) == Add(r, (b as bv32) << 24)
  {}

  // ---------- burst detection ----------

  predicate AllZero(e: Octets) {
    forall i :: 0 <= i < |e| ==> e[i] == 0
  }

  lemma ZeroFixed()
    ensures Shift(0) == 0 && Load(0, 0) == 0
  {}

  lemma {:induction false} ZeroShifts(n: nat)
    ensures Shifts(0, n) == 0
  {
    ZeroFixed();
    if n > 0 { ZeroShifts(n - 1); }
  }

  lemma {:induction false} ZeroFeed(e: Octets)
    requires AllZero(e)
    ensures Feed(0, e) == 0
  {
    if e != [] {
      ZeroFeed(e[..|e| - 1]);
      ZeroFixed();
      ZeroShifts(8);
    }
  }

  /** A non-zero error pattern confined to four consecutive octets never leaves the register clear. */
  lemma BurstLeavesTrace(e: Octets, at: nat)
    requires at + 4 <= |e|
    requires AllZero(e[..at]) && AllZero(e[at + 4..]) && !AllZero(e)
    ensures Feed(0, e) != 0
  {
    var w := e[at..at + 4];
    assert forall i :: at <= i < at + 4 ==> e[i] == w[i - at];
    assert forall i :: at + 4 <= i < |e| ==> e[i] == e[at + 4..][i - at - 4];
    assert w != [0, 0, 0, 0];
    assert e == (e[..at] + w) + e[at + 4..];
    FeedConcat(0, e[..at] + w, e[at + 4..]);
    FeedConcat(0, e[..at], w);
    ZeroFeed(e[..at]);
    WindowLeavesTrace(w);
    if Feed(0, e) == 0 {
      ZeroFeed(e[at + 4..]);
      FeedInjective(Feed(0, w), 0, e[at + 4..]);
    }
  }

  lemma WindowLeavesTrace(w: Octets)
    requires |w| == 4 && w != [0, 0, 0, 0]
    ensures Feed(0, w) != 0
  {
    hide Add, Shifts, Pack, Feed;
    FeedWord(0, w);
    ZeroShifts(32);
    if Add(0, Pack(w)) == 0 {
      ZeroWord(Pack(w));
      PackInjective(w, [0, 0, 0, 0]);
    } else if Shifts(Add(0, Pack(w)), 32) == 0 {
      ShiftsInjective(Add(0, Pack(w)), 0, 32);
    }
  }

  lemma ZeroWord(w: bv32)
    requires Add(0, w) == 0
    ensures w == 0 && Pack([0, 0, 0, 0]) == 0
  {}

  /** A message followed by its own checksum always leaves the same register. */
  lemma ChecksumResidue(contents: Octets, mic: Octets)
    requires |mic| == 4 && Pack(mic) == Checksum(contents)
    ensures Feed(INITIAL, contents + mic) == Shifts(0xffff_ffff, 32)
  {
    FeedConcat(INITIAL, contents, mic);
    FeedWord(Feed(INITIAL, contents), mic);
    SelfSum(Feed(INITIAL, contents));
  }

  lemma SelfSum(crc: bv32)
    ensures Add(crc, Sum(crc)) == 0xffff_ffff
  {}
}
