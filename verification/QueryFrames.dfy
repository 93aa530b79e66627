/** Downstream membership queries of a proxy (internal/multicast/query_build.go; section 4.1 of RFC 3376,
    section 5.1 of RFC 3810). */
module QueryFrames {
  import opened Sequences
  import opened WireBytes
  import opened InternetChecksum
  import opened MembershipWire
  import opened FloatingCode
  import opened MembershipFrames

  /** A query without a group is a general one. Times are in tenths of a second (the response) and in
      seconds (the interval); an effective response time is never zero. */
  datatype Query = Query(version: nat, group: Option<Bytes>, source: Option<Bytes>, response: nat, robustness: nat,
                         interval: nat, querier: Bytes)

  function Width(version: nat): nat { if version <= 3 then 4 else 16 }

  predicate ValidQuery(q: Query) {
    && (1 <= q.version <= 3 || q.version == 16 || q.version == 17)
    && (q.group.Some? ==> IsMulticast(q.group.value) && |q.group.value| == Width(q.version))
    && (q.source.Some? ==> q.group.Some? && |q.source.value| == Width(q.version) && (q.version == 3 || q.version == 17))
    && q.response > 0 && |q.querier| == 4
  }

  function GroupBytes(q: Query): Bytes { if q.group.Some? then q.group.value else Zeros(Width(q.version)) }

  function SourcesOf(q: Query): seq<Bytes> { if q.source.Some? then [q.source.value] else [] }

  /** A robustness above seven cannot be carried and is sent as zero. */
  function CarriedRobustness(q: Query): (carried: nat)
    ensures carried < 8
  {
    if q.robustness <= 7 then q.robustness else 0
  }

  /** The codes of the two times; which field they use depends on the version. */
  ghost predicate Coded(q: Query, responseCode: nat, intervalCode: nat) {
    && (q.version == 3 ==> IsLeastCode(OCTET_MANTISSAS, responseCode, q.response))
    && (q.version == 17 ==> IsLeastCode(WORD_MANTISSAS, responseCode, q.response * 100))
    && (q.version == 2 ==> responseCode == Least(q.response, 255))
    && (q.version == 16 ==> responseCode == Least(q.response * 100, 0xffff))
    && (q.version == 1 ==> responseCode == 0)
    && (q.version == 3 || q.version == 17 ==> IsLeastCode(OCTET_MANTISSAS, intervalCode, q.interval))
  }

  predicate CodesFit(q: Query, responseCode: nat, intervalCode: nat) {
    && responseCode < (if q.version <= 3 then 256 else 0x1_0000)
    && (q.version == 3 || q.version == 17 ==> intervalCode < 256)
  }

  function Tail(q: Query, intervalCode: nat): Bytes
    requires (q.version == 3 || q.version == 17) && intervalCode < 256
  {
    [CarriedRobustness(q) as Byte, intervalCode as Byte] + WordBytes(|SourcesOf(q)|) +
      (if q.source.Some? then q.source.value else [])
  }

  /** The first two octets, and everything after the checksum. */
  function QueryParts(q: Query, responseCode: nat, intervalCode: nat): (Bytes, Bytes)
    requires ValidQuery(q) && CodesFit(q, responseCode, intervalCode)
  {
    var tail := if q.version == 3 || q.version == 17 then Tail(q, intervalCode) else [];
    if q.version <= 3 then ([0x11, responseCode as Byte], GroupBytes(q) + tail)
    else ([130, 0], WordBytes(responseCode) + [0, 0] + GroupBytes(q) + tail)
  }

  const ALL_SYSTEMS_V4: Bytes := [224, 0, 0, 1]

  function QueryDestination(q: Query): Bytes {
    if q.group.Some? then q.group.value else if q.version <= 3 then ALL_SYSTEMS_V4 else LinkScope(1)
  }

  function QueryClient(q: Query): Bytes { if q.version <= 3 then q.querier else Zeros(16) }

  function QueryPacket(q: Query, responseCode: nat, intervalCode: nat): Bytes
    requires ValidQuery(q) && CodesFit(q, responseCode, intervalCode)
  {
    var (before, after) := QueryParts(q, responseCode, intervalCode);
    if q.version <= 3 then IPv4Packet(q.querier, QueryDestination(q), Filled(before, after))
    else IPv6Packet(Zeros(16), QueryDestination(q), Filled6(Zeros(16), QueryDestination(q), before, after))
  }

  /** What a reader learns: the times as their codes stand for them. */
  function ReadBack(q: Query, responseCode: nat, intervalCode: nat): Body {
    var record := WireRecord(0, GroupBytes(q), SourcesOf(q));
    var response :=
      if q.version <= 2 then responseCode
      else if q.version == 3 then DecodeFloating8(responseCode)
      else if q.version == 16 then Deciseconds(responseCode)
      else Least(Deciseconds(DecodeFloating16(responseCode)), 0xffff_ffff);
    if q.version == 3 || q.version == 17 then
      Body(QueryMessage, q.version, QueryClient(q), CarriedRobustness(q), DecodeFloating8(intervalCode), response,
           [record])
    else Body(QueryMessage, q.version, QueryClient(q), 0, 0, response, [record])
  }

  lemma CodesAlwaysFit(q: Query, responseCode: nat, intervalCode: nat)
    requires ValidQuery(q) && Coded(q, responseCode, intervalCode)
    ensures CodesFit(q, responseCode, intervalCode)
    ensures (q.version == 1 ==> responseCode == 0) && (q.version == 2 ==> responseCode > 0)
  {}

  lemma GroupIsReadable(q: Query)
    requires ValidQuery(q)
    ensures |GroupBytes(q)| == Width(q.version)
    ensures Readable(GroupBytes(q))
  {}

  lemma OneSource(q: Query)
    requires ValidQuery(q)
    ensures |SourcesOf(q)| <= 1 && AllOf(SourcesOf(q), Width(q.version))
    ensures Concat(SourcesOf(q)) == if q.source.Some? then q.source.value else []
  {
    if q.source.Some? {
      SingleFlat(q.source.value);
    }
  }

  predicate Readable(group: Bytes) { IsUnspecified(group) || IsMulticast(group) }

  lemma LegacyIGMPQuery(code: Byte, checksum: Bytes, group: Bytes, client: Bytes)
    requires |checksum| == 2 && |group| == 4 && Readable(group)
    ensures var payload := [0x11, code] + checksum + group;
      ParseIGMPPayload(payload, client) ==
      Some(Body(QueryMessage, if code == 0 then 1 else 2, client, 0, 0, code, [WireRecord(0, group, [])]))
  {
    hide IsMulticast, IsUnspecified;
    assert ([0x11, code] + checksum + group)[4..8] == group;
  }

  /** A version 3 query: twelve octets, and then the sources they count. */
  lemma IGMPv3Query(head: Bytes, sources: seq<Bytes>, client: Bytes)
    requires |head| == 12 && head[0] == 0x11 && Readable(head[4..8])
    requires Word(head, 10) == |sources| && AllOf(sources, 4)
    ensures ParseIGMPPayload(head + Concat(sources), client) ==
            Some(Body(QueryMessage, 3, client, head[8] % 8, DecodeFloating8(head[9]), DecodeFloating8(head[1]),
                      [WireRecord(0, head[4..8], sources)]))
  {
    hide IsMulticast, IsUnspecified, DecodeFloating8;
    var payload := head + Concat(sources);
    TakeFlat(sources, 4, []);
    FlatLength(sources, 4);
    hide Concat, TakeSources;
    assert payload[4..8] == head[4..8] && payload[8] == head[8] && payload[9] == head[9];
    assert Word(payload, 10) == Word(head, 10);
    assert payload[12..] == Concat(sources) == Concat(sources) + [];
  }

  lemma LegacyMLDQuery(checksum: Bytes, delay: Bytes, group: Bytes, source: Bytes)
    requires |checksum| == 2 && |delay| == 2 && |group| == 16 && Readable(group)
    ensures var payload := [130, 0] + checksum + delay + [0, 0] + group;
      ParseMLDPayload(payload, source) ==
      Some(Body(QueryMessage, 16, source, 0, 0, Deciseconds(Word(delay, 0)), [WireRecord(0, group, [])]))
  {
    hide IsMulticast, IsUnspecified, Deciseconds;
    var payload := [130, 0] + checksum + delay + [0, 0] + group;
    assert payload[8..24] == group && payload[4] == delay[0] && payload[5] == delay[1];
    assert Word(payload, 4) == Word(delay, 0);
  }

  lemma MLDv2Query(head: Bytes, sources: seq<Bytes>, source: Bytes)
    requires |head| == 28 && head[0] == 130 && Readable(head[8..24])
    requires Word(head, 26) == |sources| && AllOf(sources, 16)
    ensures ParseMLDPayload(head + Concat(sources), source) ==
            Some(Body(QueryMessage, 17, source, head[24] % 8, DecodeFloating8(head[25]),
                      Least(Deciseconds(DecodeFloating16(Word(head, 4))), 0xffff_ffff),
                      [WireRecord(0, head[8..24], sources)]))
  {
    hide IsMulticast, IsUnspecified, Deciseconds, DecodeFloating8, DecodeFloating16, Least;
    var payload := head + Concat(sources);
    TakeFlat(sources, 16, []);
    FlatLength(sources, 16);
    hide Concat, TakeSources;
    assert payload[8..24] == head[8..24] && payload[24] == head[24] && payload[25] == head[25];
    assert Word(payload, 26) == Word(head, 26) && Word(payload, 4) == Word(head, 4);
    assert payload[28..] == Concat(sources) == Concat(sources) + [];
  }

  /** A version 3 or MLDv2 query up to its sources. */
  function Head(start: Bytes, group: Bytes, robustness: nat, interval: nat, count: nat): (head: Bytes)
    requires robustness < 8 && interval < 256 && count < 0x1_0000
    ensures |head| == |start| + |group| + 4
    ensures forall i :: 0 <= i < |start| ==> head[i] == start[i]
    ensures head[|start|..|start| + |group|] == group
    ensures head[|start| + |group|] == robustness && head[|start| + |group| + 1] == interval
    ensures Word(head, |start| + |group| + 2) == count
  {
    var end := [robustness as Byte, interval as Byte] + WordBytes(count);
    assert end[2] == WordBytes(count)[0] && end[3] == WordBytes(count)[1];
    var head := start + group + end;
    assert head[|start| + |group|..] == end;
    assert forall i :: 0 <= i < 4 ==> head[|start| + |group| + i] == end[i];
    head
  }

  predicate IsPayload(q: Query, responseCode: nat, intervalCode: nat, checksum: Bytes, payload: Bytes)
    requires ValidQuery(q) && CodesFit(q, responseCode, intervalCode)
  {
    var (before, after) := QueryParts(q, responseCode, intervalCode);
    |checksum| == 2 && payload == before + checksum + after
  }

  lemma LegacyQueryRoundTrip(q: Query, responseCode: nat, intervalCode: nat, checksum: Bytes, payload: Bytes)
    requires ValidQuery(q) && CodesFit(q, responseCode, intervalCode) && q.version != 3 && q.version != 17
    requires (q.version == 1 ==> responseCode == 0) && (q.version == 2 ==> responseCode > 0)
    requires IsPayload(q, responseCode, intervalCode, checksum, payload)
    ensures 8 <= |payload| <= 24
    ensures q.version <= 3 ==> ParseIGMPPayload(payload, q.querier) == Some(ReadBack(q, responseCode, intervalCode))
    ensures q.version > 3 ==>
              |payload| == 24 && ParseMLDPayload(payload, Zeros(16)) == Some(ReadBack(q, responseCode, intervalCode))
  {
    GroupIsReadable(q);
    hide IsMulticast, IsUnspecified, DecodeFloating8, DecodeFloating16, Deciseconds, Least, ParseIGMPPayload,
         ParseMLDPayload,
         GroupBytes, CarriedRobustness, Zeros, Readable;
    var group := GroupBytes(q);
    if q.version > 3 {
      LegacyMLDQuery(checksum, WordBytes(responseCode), group, Zeros(16));
      assert payload == [130, 0] + checksum + WordBytes(responseCode) + [0, 0] + group;
    } else {
      LegacyIGMPQuery(responseCode, checksum, group, q.querier);
      assert payload == [0x11, responseCode as Byte] + checksum + group;
    }
  }

  /** Where the head of a query holds what. */
  lemma HeadFields(start: Bytes, group: Bytes, robustness: nat, interval: nat, count: nat)
    requires robustness < 8 && interval < 256 && count < 0x1_0000
    ensures var head, n := Head(start, group, robustness, interval, count), |start|;
      && (forall i :: 0 <= i < n ==> head[i] == start[i])
      && (forall i :: 0 <= i < n - 1 ==> Word(head, i) == Word(start, i))
      && head[n..n + |group|] == group && head[n + |group|] == robustness && head[n + |group| + 1] == interval
      && Word(head, n + |group| + 2) == count
  {}

  lemma IGMPv3Layout(q: Query, responseCode: nat, intervalCode: nat, checksum: Bytes, payload: Bytes)
    requires ValidQuery(q) && CodesFit(q, responseCode, intervalCode) && q.version == 3 && |SourcesOf(q)| <= 1
    requires IsPayload(q, responseCode, intervalCode, checksum, payload)
    ensures |checksum| == 2
    ensures payload == Head([0x11, responseCode as Byte] + checksum, GroupBytes(q), CarriedRobustness(q), intervalCode,
                            |SourcesOf(q)|) + Concat(SourcesOf(q))
  {
    hide IsMulticast, IsUnspecified, Concat, GroupBytes, CarriedRobustness, Readable;
    TailIsCounted(q, intervalCode);
  }

  lemma ShortReadBack(q: Query, responseCode: nat, intervalCode: nat)
    requires ValidQuery(q) && q.version == 3
    ensures ReadBack(q, responseCode, intervalCode) ==
            Body(QueryMessage, 3, q.querier, CarriedRobustness(q), DecodeFloating8(intervalCode),
                 DecodeFloating8(responseCode), [WireRecord(0, GroupBytes(q), SourcesOf(q))])
  {
    hide DecodeFloating8, DecodeFloating16, Deciseconds, Least, GroupBytes, SourcesOf, CarriedRobustness;
  }

  lemma IGMPv3QueryRoundTrip(q: Query, responseCode: nat, intervalCode: nat, checksum: Bytes, payload: Bytes)
    requires ValidQuery(q) && CodesFit(q, responseCode, intervalCode) && q.version == 3
    requires IsPayload(q, responseCode, intervalCode, checksum, payload)
    ensures 8 <= |payload| <= 16
    ensures ParseIGMPPayload(payload, q.querier) == Some(ReadBack(q, responseCode, intervalCode))
  {
    GroupIsReadable(q);
    OneSource(q);
    hide IsMulticast, IsUnspecified, DecodeFloating8, Concat, ParseIGMPPayload, GroupBytes, CarriedRobustness, Readable;
    ShortReadBack(q, responseCode, intervalCode);
    IGMPv3Layout(q, responseCode, intervalCode, checksum, payload);
    hide IsPayload, QueryParts, Head, ReadBack, SourcesOf, Tail, Word;
    var start := [0x11, responseCode as Byte] + checksum;
    HeadFields(start, GroupBytes(q), CarriedRobustness(q), intervalCode, |SourcesOf(q)|);
    var head := Head(start, GroupBytes(q), CarriedRobustness(q), intervalCode, |SourcesOf(q)|);
    IGMPv3Query(head, SourcesOf(q), q.querier);
  }

  lemma MLDv2Layout(q: Query, responseCode: nat, intervalCode: nat, checksum: Bytes, payload: Bytes)
    requires ValidQuery(q) && CodesFit(q, responseCode, intervalCode) && q.version == 17 && |SourcesOf(q)| <= 1
    requires IsPayload(q, responseCode, intervalCode, checksum, payload)
    ensures |checksum| == 2
    ensures payload == Head([130, 0] + checksum + WordBytes(responseCode) + [0, 0], GroupBytes(q), CarriedRobustness(q),
                            intervalCode, |SourcesOf(q)|) + Concat(SourcesOf(q))
  {
    hide IsMulticast, IsUnspecified, Concat, GroupBytes, CarriedRobustness, Readable;
    TailIsCounted(q, intervalCode);
  }

  lemma LongReadBack(q: Query, responseCode: nat, intervalCode: nat)
    requires ValidQuery(q) && q.version == 17
    ensures ReadBack(q, responseCode, intervalCode) ==
            Body(QueryMessage, 17, Zeros(16), CarriedRobustness(q), DecodeFloating8(intervalCode),
                 Least(Deciseconds(DecodeFloating16(responseCode)), 0xffff_ffff),
                 [WireRecord(0, GroupBytes(q), SourcesOf(q))])
  {
    hide DecodeFloating8, DecodeFloating16, Deciseconds, Least, GroupBytes, SourcesOf, CarriedRobustness, Zeros;
  }

  lemma MLDv2QueryRoundTrip(q: Query, responseCode: nat, intervalCode: nat, checksum: Bytes, payload: Bytes)
    requires ValidQuery(q) && CodesFit(q, responseCode, intervalCode) && q.version == 17
    requires IsPayload(q, responseCode, intervalCode, checksum, payload)
    ensures 24 <= |payload| <= 44
    ensures ParseMLDPayload(payload, Zeros(16)) == Some(ReadBack(q, responseCode, intervalCode))
  {
    GroupIsReadable(q);
    OneSource(q);
    hide IsMulticast, IsUnspecified, DecodeFloating8, DecodeFloating16, Deciseconds, Least, Concat, ParseMLDPayload,
         GroupBytes, CarriedRobustness, Zeros, Readable;
    LongReadBack(q, responseCode, intervalCode);
    MLDv2Layout(q, responseCode, intervalCode, checksum, payload);
    var start := [130, 0] + checksum + WordBytes(responseCode) + [0, 0];
    assert Word(start, 4) == Word(WordBytes(responseCode), 0);
    hide IsPayload, QueryParts, Head, ReadBack, SourcesOf, Tail, Word;
    HeadFields(start, GroupBytes(q), CarriedRobustness(q), intervalCode, |SourcesOf(q)|);
    var head := Head(start, GroupBytes(q), CarriedRobustness(q), intervalCode, |SourcesOf(q)|);
    MLDv2Query(head, SourcesOf(q), Zeros(16));
  }

  lemma TailIsCounted(q: Query, intervalCode: nat)
    requires ValidQuery(q) && (q.version == 3 || q.version == 17) && intervalCode < 256
    ensures |SourcesOf(q)| < 0x1_0000
    ensures Tail(q, intervalCode) ==
            [CarriedRobustness(q) as Byte, intervalCode as Byte] + WordBytes(|SourcesOf(q)|) + Concat(SourcesOf(q))
  {
    OneSource(q);
  }

  lemma AnyQueryRoundTrip(q: Query, responseCode: nat, intervalCode: nat, checksum: Bytes, payload: Bytes)
    requires ValidQuery(q) && Coded(q, responseCode, intervalCode) && CodesFit(q, responseCode, intervalCode)
    requires IsPayload(q, responseCode, intervalCode, checksum, payload)
    ensures 8 <= |payload| <= 44
    ensures q.version <= 3 ==> ParseIGMPPayload(payload, q.querier) == Some(ReadBack(q, responseCode, intervalCode))
    ensures q.version > 3 ==> ParseMLDPayload(payload, Zeros(16)) == Some(ReadBack(q, responseCode, intervalCode))
  {
    CodesAlwaysFit(q, responseCode, intervalCode);
    hide Coded, CodesFit, ReadBack, ParseIGMPPayload, ParseMLDPayload, IsPayload, Zeros;
    if q.version == 3 {
      IGMPv3QueryRoundTrip(q, responseCode, intervalCode, checksum, payload);
    } else if q.version == 17 {
      MLDv2QueryRoundTrip(q, responseCode, intervalCode, checksum, payload);
    } else {
      LegacyQueryRoundTrip(q, responseCode, intervalCode, checksum, payload);
    }
  }

  lemma IGMPQueryPacket(q: Query, responseCode: nat, intervalCode: nat)
    requires ValidQuery(q) && Coded(q, responseCode, intervalCode) && CodesFit(q, responseCode, intervalCode)
    requires q.version <= 3
    ensures ParseIGMP(QueryPacket(q, responseCode, intervalCode)) == Some(ReadBack(q, responseCode, intervalCode))
  {
    hide ParseIGMPPayload, ParseIGMP, Checksum, ReadBack, Coded, QueryParts, IsMulticast, CodesFit, IPv4Packet;
    var (before, after) := QueryParts(q, responseCode, intervalCode);
    assert |before| == 2 by { BeforeIsTwo(q, responseCode, intervalCode); }
    var payload := Filled(before, after);
    AnyQueryRoundTrip(q, responseCode, intervalCode, WordBytes(Checksum(before + [0, 0] + after)), payload);
    FilledChecksumIsZero(before, after);
    IPv4RoundTrip(q.querier, QueryDestination(q), payload);
  }

  lemma MLDQueryPacket(q: Query, responseCode: nat, intervalCode: nat)
    requires ValidQuery(q) && Coded(q, responseCode, intervalCode) && CodesFit(q, responseCode, intervalCode)
    requires q.version > 3
    ensures ParseMLD(QueryPacket(q, responseCode, intervalCode)) == Some(ReadBack(q, responseCode, intervalCode))
  {
    hide ParseMLDPayload, ParseMLD, ICMPv6Checksum, ReadBack, Coded, QueryParts, IsMulticast, CodesFit, IPv6Packet,
         Zeros;
    var (before, after) := QueryParts(q, responseCode, intervalCode);
    assert |before| == 2 by { BeforeIsTwo(q, responseCode, intervalCode); }
    var destination := QueryDestination(q);
    var payload := Filled6(Zeros(16), destination, before, after);
    AnyQueryRoundTrip(q, responseCode, intervalCode,
                      WordBytes(ICMPv6Checksum(Zeros(16), destination, before + [0, 0] + after)),
                      payload);
    FilledICMPv6ChecksumIsZero(Zeros(16), destination, before, after);
    IPv6RoundTrip(Zeros(16), destination, payload);
  }

  lemma BeforeIsTwo(q: Query, responseCode: nat, intervalCode: nat)
    requires ValidQuery(q) && CodesFit(q, responseCode, intervalCode)
    ensures |QueryParts(q, responseCode, intervalCode).0| == 2
  {}

  /** Every query that is built is read back with its tags, addresses, version, group and source; its
      times come back as the values of their codes. */
  lemma QueryRoundTrip(q: Query, responseCode: nat, intervalCode: nat, sourceMAC: Bytes, tags: seq<Tag>)
    requires ValidQuery(q) && Coded(q, responseCode, intervalCode) && CodesFit(q, responseCode, intervalCode)
    requires |sourceMAC| == 6 && ValidTags(tags) && forall i :: 0 <= i < |tags| ==> SixteenBits(tags[i])
    ensures |QueryDestination(q)| == Width(q.version)
    ensures ParseMembershipFrame(EthernetFrame(MulticastMAC(QueryDestination(q)), sourceMAC, tags,
                                               if q.version <= 3 then 0x0800 else 0x86dd,
                                               QueryPacket(q, responseCode, intervalCode))) ==
            Some(Message(MulticastMAC(QueryDestination(q)), sourceMAC, tags, tags != [],
                         if tags == [] then 0 else tags[0].tci % 0x1000, ReadBack(q, responseCode, intervalCode)))
  {
    hide ParseIGMP, ParseMLD, ParseMembershipFrame, ReadBack, Coded, QueryPacket, IsMulticast, MulticastMAC,
         EthernetFrame;
    if q.version <= 3 {
      IGMPQueryPacket(q, responseCode, intervalCode);
    } else {
      MLDQueryPacket(q, responseCode, intervalCode);
    }
    EthernetRoundTrip(MulticastMAC(QueryDestination(q)), sourceMAC, tags, if q.version <= 3 then 0x0800 else 0x86dd,
                      QueryPacket(q, responseCode, intervalCode), ReadBack(q, responseCode, intervalCode));
  }

  /** BuildDownstreamQueryFrame: a query of the wrong family, with a source it cannot carry, or with more
      than two tags or an unknown one is refused. */
  method BuildDownstreamQueryFrame(q: Query, sourceMAC: Bytes, tags: seq<Tag>)
    returns (frame: Option<Bytes>, ghost responseCode: nat, ghost intervalCode: nat)
    requires q.response > 0 && |q.querier| == 4 && forall i :: 0 <= i < |tags| ==> SixteenBits(tags[i])
    ensures frame.Some? <==> ValidQuery(q) && ValidTags(tags)
    ensures frame.Some? ==> Coded(q, responseCode, intervalCode) && CodesFit(q, responseCode, intervalCode)
    ensures frame.Some? ==> |QueryDestination(q)| == Width(q.version)
    ensures frame.Some? ==>
              frame.value == EthernetFrame(MulticastMAC(QueryDestination(q)), sourceMAC, tags,
                                           if q.version <= 3 then 0x0800 else 0x86dd,
                                           QueryPacket(q, responseCode, intervalCode))
  {
    hide QueryPacket, IsMulticast, Decode, IsLeastCode, EthernetFrame;
    responseCode, intervalCode := 0, 0;
    if !ValidQuery(q) || !ValidTags(tags) {
      return None, 0, 0;
    }
    var response, interval := EncodeTimes(q);
    responseCode, intervalCode := response, interval;
    CodesAlwaysFit(q, response, interval);
    var destination := QueryDestination(q);
    var packet := QueryPacket(q, response, interval);
    frame :=
      Some(EthernetFrame(MulticastMAC(destination), sourceMAC, tags, if q.version <= 3 then 0x0800 else 0x86dd,
                         packet));
  }

  method EncodeTimes(q: Query) returns (responseCode: nat, intervalCode: nat)
    requires ValidQuery(q)
    ensures Coded(q, responseCode, intervalCode)
  {
    hide IsLeastCode;
    responseCode, intervalCode := 0, 0;
    if q.version == 3 || q.version == 17 {
      intervalCode := EncodeFloating8(q.interval);
    }
    if q.version == 2 {
      responseCode := Least(q.response, 255);
    } else if q.version == 3 {
      responseCode := EncodeFloating8(q.response);
    } else if q.version == 16 {
      responseCode := Least(q.response * 100, 0xffff);
    } else if q.version == 17 {
      responseCode := EncodeFloating16(q.response * 100);
    }
  }
}
