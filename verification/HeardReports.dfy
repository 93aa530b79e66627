/** The record the network hears is the record in the frame: reports on addresses, and the bytes built for
    them (BuildUpstreamFrame of internal/multicast/report_build.go). */
module HeardReports {
  import opened Arithmetic
  import opened MulticastTypes
  import opened WireBytes
  import M = Membership
  import N = NetworkView
  import W = MembershipWire
  import F = MembershipFrames

  /** The value in `width` bytes, most significant first. */
  function BigEndian(value: nat, width: nat): (bytes: Bytes)
    ensures |bytes| == width
  {
    if width == 0 then [] else BigEndian(value / 256, width - 1) + [(value % 256) as Byte]
  }

  predicate Fits(a: Addr) {
    match a
    case NoAddr => true
    case V4(v) => v < 0x1_0000_0000
    case V6(v) => v < 0x1_0000_0000_0000_0000_0000_0000_0000_0000
  }

  function AddrBytes(a: Addr): Bytes {
    match a
    case NoAddr => []
    case V4(v) => BigEndian(v, 4)
    case V6(v) => BigEndian(v, 16)
  }

  function AllBytes(list: seq<Addr>): seq<Bytes> { seq(|list|, i requires 0 <= i < |list| => AddrBytes(list[i])) }

  function Power(width: nat): (p: nat)
    ensures p > 0
  {
    if width == 0 then 1 else 256 * Power(width - 1)
  }

  lemma {:induction false} ZeroBytes(value: nat, width: nat)
    requires value < Power(width)
    ensures W.IsUnspecified(BigEndian(value, width)) <==> value == 0
  {
    if width > 0 {
      ZeroBytes(value / 256, width - 1);
      var before, bytes := BigEndian(value / 256, width - 1), BigEndian(value, width);
      assert forall i :: 0 <= i < width - 1 ==> bytes[i] == before[i];
      assert bytes[width - 1] == value % 256;
    }
  }

  /** The front of a big-endian number is the number without its last bytes. */
  lemma {:induction false} Front(value: nat, width: nat, n: nat)
    requires n <= width
    ensures BigEndian(value, width)[..width - n] == BigEndian(value / Power(n), width - n)
  {
    if n == 0 {
      assert value / 1 == value;
    } else {
      Front(value / 256, width - 1, n - 1);
      DivideTwice(value, Power(n - 1));
    }
  }

  lemma DivideTwice(value: nat, p: nat)
    requires p > 0
    ensures value / 256 / p == value / (256 * p)
  {
    var a, q := value / 256, value / 256 / p;
    var rest := 256 * (a - p * q) + value % 256;
    Divided(a, p);
    assert 256 * (p * q) == (256 * p) * q by { Regroup(p, q); }
    QuotientIs(256 * p, q, rest);
  }

  lemma Divided(a: nat, p: nat)
    requires p > 0
    ensures 0 <= a - p * (a / p) < p
  {}

  lemma Regroup(p: nat, q: nat)
    ensures 256 * (p * q) == (256 * p) * q
  {}

  lemma QuotientIs(p: nat, q: nat, r: nat)
    requires r < p
    ensures (p * q + r) / p == q
  {
    var x := (p * q + r) / p;
    MulMonotone(x + 1, q, p);
    MulMonotone(q + 1, x, p);
    assert p * x <= p * q + r < p * x + p;
  }

  // ---------- addresses ----------

  lemma Widths(a: Addr)
    ensures |AddrBytes(a)| == if a.NoAddr? then 0 else if a.V4? then 4 else 16
  {}

  lemma Powers()
    ensures Power(3) == 0x100_0000 && Power(4) == 0x1_0000_0000
    ensures Power(15) == 0x1_00_0000_0000_0000_0000_0000_0000_0000
    ensures Power(16) == 0x1_0000_0000_0000_0000_0000_0000_0000_0000
  {}

  lemma SameUnspecified(a: Addr)
    requires Fits(a) && a.IsValid()
    ensures W.IsUnspecified(AddrBytes(a)) <==> a.IsUnspecified()
  {
    Powers();
    ZeroBytes(a.value, if a.V4? then 4 else 16);
  }

  lemma LeadingByte(value: nat, width: nat)
    requires width > 0 && value < 256 * Power(width - 1)
    ensures BigEndian(value, width)[0] == value / Power(width - 1)
  {
    hide BigEndian, Power;
    var p := Power(width - 1);
    Front(value, width, width - 1);
    assert BigEndian(value, width)[0] == BigEndian(value, width)[..1][0];
    OneByte(value / p);
    QuotientBelow(value, p);
  }

  lemma OneByte(value: nat)
    ensures BigEndian(value, 1) == [(value % 256) as Byte]
  {}

  lemma QuotientBelow(value: nat, p: nat)
    requires p > 0 && value < 256 * p
    ensures value / p < 256
  {
    MulMonotone(256, value / p, p);
  }

  lemma SameMulticast(a: Addr)
    requires Fits(a)
    ensures W.IsMulticast(AddrBytes(a)) <==> a.IsMulticast()
  {
    Powers();
    if a.V4? {
      LeadingByte(a.value, 4);
    } else if a.V6? {
      LeadingByte(a.value, 16);
    }
  }

  lemma SameMapped(a: Addr)
    requires Fits(a) && a.IsValid()
    ensures W.Is4In6(AddrBytes(a)) <==> N.Mapped(a)
  {
    if a.V6? {
      Powers();
      var bytes, u := AddrBytes(a), a.value / 0x1_0000_0000;
      Front(a.value, 16, 4);
      var top, front := BigEndian(u, 12), BigEndian(u / 256 / 256, 10);
      assert BigEndian(u, 12) == BigEndian(u / 256, 11) + [(u % 256) as Byte];
      assert BigEndian(u / 256, 11) == front + [(u / 256 % 256) as Byte];
      assert bytes[..12] == top && bytes[10] == bytes[..12][10] && bytes[11] == bytes[..12][11];
      assert bytes[..10] == bytes[..12][..10] == front;
      Bounded(u);
      ZeroBytes(u / 256 / 256, 10);
    }
  }

  lemma Bounded(u: nat)
    ensures u < 0x1_00_0000_0000_0000_0000_0000_00 ==> u / 256 / 256 < Power(10)
  {}

  // ---------- reports ----------

  function ReportFor(version: nat, join: bool, g: ActiveGroup): F.Report {
    F.Report(join, version, AddrBytes(g.group), AddrBytes(g.source), AddrBytes(g.client), AllBytes(g.includedSources),
             AllBytes(g.excludedSources))
  }

  predicate AllFit(g: ActiveGroup) {
    && Fits(g.group) && Fits(g.source) && Fits(g.client)
    && (forall a :: a in g.includedSources ==> Fits(a)) && (forall a :: a in g.excludedSources ==> Fits(a))
  }

  function CodeOf(kind: M.RecordType): nat {
    match kind
    case ModeIsInclude => 1
    case ModeIsExclude => F.IS_EXCLUDE
    case ChangeToIncludeMode => F.INCLUDE_MODE
    case ChangeToExcludeMode => F.EXCLUDE_MODE
    case AllowNewSources => 5
    case BlockOldSources => F.BLOCK_SOURCES
    case OtherRecord(code) => code
  }

  function WireOf(record: M.MembershipRecord): W.WireRecord {
    W.WireRecord(CodeOf(record.kind), AddrBytes(record.group), AllBytes(record.sources))
  }

  /** There is no frame exactly when there is no record, and a frame carries the record. */
  lemma SameRecord(version: nat, join: bool, g: ActiveGroup)
    requires AllFit(g) && g.source.IsValid() && g.source.SameFamily(g.group)
    ensures N.RecordSent(version, join, g).None? <==> version == 1 && !join
    ensures N.RecordSent(version, join, g).Some? ==>
              F.RecordOf(ReportFor(version, join, g)) == WireOf(N.RecordSent(version, join, g).value)
  {
    SameUnspecified(g.source);
    assert g.source.IsUnspecified() <==> g.source == Wildcard(g.group);
    assert AllBytes([]) == [] && AllBytes([g.source]) == [AddrBytes(g.source)];
    assert g.includedSources == [] <==> AllBytes(g.includedSources) == [];
    SameIncluded(version, join, g);
  }

  lemma SameIncluded(version: nat, join: bool, g: ActiveGroup)
    requires AllFit(g) && g.source.IsValid() && g.source.SameFamily(g.group)
    ensures F.IncludedSources(ReportFor(version, join, g)) == AllBytes(N.IncludedSources(g))
  {
    SameUnspecified(g.source);
    assert g.source.IsUnspecified() <==> g.source == Wildcard(g.group);
    assert AllBytes([g.source]) == [AddrBytes(g.source)];
    assert |AllBytes(g.includedSources)| == |g.includedSources|;
  }

  /** What a report must satisfy to be sent is what its frame must satisfy to be built. */
  lemma SameDemands(version: nat, join: bool, g: ActiveGroup)
    requires AllFit(g)
    ensures N.Sendable(version, join, g) <==>
            F.Buildable(ReportFor(version, join, g))
            && ((version == 1 && !join) || F.Listable(ReportFor(version, join, g)))
  {
    hide BigEndian, F.RecordOf, N.RecordSent, W.IsMulticast, W.Is4In6, N.Mapped;
    var r := ReportFor(version, join, g);
    Widths(g.group);
    Widths(g.source);
    Widths(g.client);
    SameMulticast(g.group);
    if F.Buildable(r) && F.Grouped(r) {
      SameRecord(version, join, g);
      SameIncluded(version, join, g);
      ListedSources(version, join, g);
    }
  }

  lemma ListedSources(version: nat, join: bool, g: ActiveGroup)
    requires AllFit(g) && g.group.IsValid() && g.source.IsValid() && g.source.SameFamily(g.group)
    requires N.ListsSources(version)
    ensures var record, width := N.RecordSent(version, join, g).value, |AddrBytes(g.group)|;
      && (join ==> (W.Listed(AllBytes(record.sources), width) <==>
                    forall a :: a in record.sources ==> a.IsValid() && a.SameFamily(g.group) && !N.Mapped(a)))
      && (!join || W.Listed(AllBytes(record.sources), width) ==> W.AllOf(AllBytes(record.sources), width))
  {
    hide BigEndian, W.Is4In6, N.Mapped;
    var record := N.RecordSent(version, join, g).value;
    Widths(g.group);
    forall a | a in record.sources
      ensures Fits(a) && |AddrBytes(a)| == (if a.NoAddr? then 0 else if a.V4? then 4 else 16)
      ensures a.IsValid() ==> (W.Is4In6(AddrBytes(a)) <==> N.Mapped(a))
    {
      Widths(a);
      if a.IsValid() {
        SameMapped(a);
      }
    }
    if W.Listed(AllBytes(record.sources), |AddrBytes(g.group)|) {
      forall a | a in record.sources ensures a.IsValid() && a.SameFamily(g.group) && !N.Mapped(a) {
        var i :| 0 <= i < |record.sources| && record.sources[i] == a;
        assert AllBytes(record.sources)[i] == AddrBytes(a);
      }
    }
  }

  /** A parser of the frame reads exactly the record that the network is said to hear. */
  lemma ReportIsHeard(version: nat, join: bool, g: ActiveGroup, sourceMAC: Bytes, tags: seq<W.Tag>)
    requires AllFit(g) && N.Sendable(version, join, g) && N.RecordSent(version, join, g).Some?
    requires |sourceMAC| == 6 && W.ValidTags(tags) && forall i :: 0 <= i < |tags| ==> W.SixteenBits(tags[i])
    requires var r := ReportFor(version, join, g); F.Buildable(r) && F.Listable(r) && F.FitsLength(r)
    ensures var r := ReportFor(version, join, g);
      var frame := F.EthernetFrame(F.MulticastMAC(F.ReportDestination(r)), sourceMAC, tags,
                                   if g.group.V4? then 0x0800 else 0x86dd, F.ReportPacket(r));
      var heard := F.ParseMembershipFrame(frame);
      heard.Some?
      && heard.value.body == F.ReportBody(version, AddrBytes(g.client), [WireOf(N.RecordSent(version, join, g).value)])
  {
    hide F.ReportPacket, F.ParseMembershipFrame, F.FitsLength, F.Listable, F.RecordOf, N.RecordSent, BigEndian;
    SameRecord(version, join, g);
    Widths(g.group);
    F.ReportRoundTrip(ReportFor(version, join, g), sourceMAC, tags);
  }
}
