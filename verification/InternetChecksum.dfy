/** The one's-complement checksum of IP, IGMP and ICMPv6 (internetChecksum and icmpv6Checksum of
    internal/multicast/report.go). */
module InternetChecksum {
  import opened WireBytes

  /** The sum of the 16-bit words; an odd last byte counts as the high half of a word. */
  function WordSum(data: Bytes): nat {
    if |data| >= 2 then Word(data, 0) + WordSum(data[2..])
    else if |data| == 1 then data[0] as nat * 256
    else 0
  }

  /** Adds the carries back in until 16 bits remain. */
  function Fold(sum: nat): (folded: nat)
    ensures folded < 0x1_0000
    decreases sum
  {
    if sum < 0x1_0000 then sum else Fold(sum % 0x1_0000 + sum / 0x1_0000)
  }

  function Checksum(data: Bytes): (checksum: nat)
    ensures checksum < 0x1_0000
  {
    0xffff - Fold(WordSum(data))
  }

  method ComputeChecksum(data: Bytes) returns (checksum: nat)
    ensures checksum == Checksum(data)
  {
    var sum: nat, rest := 0, data;
    while |rest| >= 2
      invariant sum + WordSum(rest) == WordSum(data)
      decreases |rest|
    {
      sum := sum + Word(rest, 0);
      rest := rest[2..];
    }
    if |rest| != 0 {
      sum := sum + rest[0] as nat * 256;
    }
    ghost var total := sum;
    while sum / 0x1_0000 != 0
      invariant Fold(sum) == Fold(total)
      decreases sum
    {
      sum := sum % 0x1_0000 + sum / 0x1_0000;
    }
    checksum := 0xffff - sum;
  }

  /** Folding keeps the residue modulo 65535, and only a zero sum folds to zero. */
  lemma {:induction false} FoldResidue(sum: nat)
    ensures Fold(sum) % 0xffff == sum % 0xffff
    ensures Fold(sum) == 0 <==> sum == 0
    decreases sum
  {
    if sum >= 0x1_0000 {
      FoldResidue(sum % 0x1_0000 + sum / 0x1_0000);
      CarryResidue(sum / 0x1_0000, sum % 0x1_0000, sum);
    }
  }

  lemma CarryResidue(carry: nat, rest: nat, sum: nat)
    requires sum == carry * 0x1_0000 + rest
    ensures (rest + carry) % 0xffff == sum % 0xffff
  {
    assert sum == carry * 0xffff + (rest + carry);
  }

  lemma {:induction false} WordSumConcat(a: Bytes, b: Bytes)
    requires |a| % 2 == 0
    ensures WordSum(a + b) == WordSum(a) + WordSum(b)
    decreases |a|
  {
    if |a| == 0 {
      assert a + b == b;
    } else {
      assert (a + b)[2..] == a[2..] + b;
      WordSumConcat(a[2..], b);
    }
  }

  /** Filling a zero field with the checksum makes the checksum of the whole zero, whatever the data. */
  lemma FilledChecksumIsZero(before: Bytes, after: Bytes)
    requires |before| % 2 == 0
    ensures Checksum(before + WordBytes(Checksum(before + [0, 0] + after)) + after) == 0
  {
    var sum := WordSum(before) + WordSum(after);
    var checksum := Checksum(before + [0, 0] + after);
    SumWithField(before, [0, 0], after);
    SumWithField(before, WordBytes(checksum), after);
    FoldResidue(sum);
    FoldResidue(sum + checksum);
    Complement(sum, Fold(sum), Fold(sum + checksum));
  }

  lemma SumWithField(before: Bytes, field: Bytes, after: Bytes)
    requires |before| % 2 == 0 && |field| == 2
    ensures WordSum(before + field + after) == WordSum(before) + Word(field, 0) + WordSum(after)
  {
    WordSumConcat(before + field, after);
    WordSumConcat(before, field);
    assert field[2..] == [];
  }

  lemma Complement(sum: nat, folded: nat, result: nat)
    requires folded < 0x1_0000 && folded % 0xffff == sum % 0xffff && (folded == 0 <==> sum == 0)
    requires result < 0x1_0000 && result % 0xffff == (sum + 0xffff - folded) % 0xffff
    requires result == 0 <==> sum + 0xffff - folded == 0
    ensures result == 0xffff
  {
    assert (sum - folded) % 0xffff == 0;
  }

  // ---------- ICMPv6 ----------

  /** The IPv6 pseudo header, with the 32-bit length of the payload. */
  function PseudoHeader(source: Bytes, destination: Bytes, length: nat): Bytes {
    source + destination + WordBytes(length / 0x1_0000 % 0x1_0000) + WordBytes(length % 0x1_0000) + [0, 0, 0, 58]
  }

  function ICMPv6Checksum(source: Bytes, destination: Bytes, payload: Bytes): (checksum: nat)
    ensures checksum < 0x1_0000
  {
    Checksum(PseudoHeader(source, destination, |payload|) + payload)
  }

  lemma FilledICMPv6ChecksumIsZero(source: Bytes, destination: Bytes, before: Bytes, after: Bytes)
    requires |source| == 16 && |destination| == 16 && |before| % 2 == 0
    ensures var checksum := ICMPv6Checksum(source, destination, before + [0, 0] + after);
      ICMPv6Checksum(source, destination, before + WordBytes(checksum) + after) == 0
  {
    var pseudo := PseudoHeader(source, destination, |before| + 2 + |after|);
    var checksum := ICMPv6Checksum(source, destination, before + [0, 0] + after);
    assert pseudo + (before + [0, 0] + after) == (pseudo + before) + [0, 0] + after;
    assert pseudo + (before + WordBytes(checksum) + after) == (pseudo + before) + WordBytes(checksum) + after;
    FilledChecksumIsZero(pseudo + before, after);
  }
}
