/** Whole membership frames: Ethernet, IPv4 or IPv6 with Router Alert, and IGMP or MLD inside
    (internal/multicast/report_build.go, query_build.go and report.go). */
module MembershipFrames {
  import opened Sequences
  import opened WireBytes
  import opened InternetChecksum
  import opened MembershipWire
  import opened FloatingCode

  datatype Kind = QueryMessage | ReportMessage

  /** What a packet says, apart from the Ethernet frame around it. */
  datatype Body = Body(kind: Kind, version: nat, client: Bytes, robustness: nat, interval: nat, maxResponse: nat,
                       records: seq<WireRecord>)

  datatype Message = Message(destinationMAC: Bytes, sourceMAC: Bytes, tags: seq<Tag>, tagged: bool, vlan: nat,
                             body: Body)

  const INCLUDE_MODE: nat := 3
  const EXCLUDE_MODE: nat := 4
  const IS_EXCLUDE: nat := 2
  const BLOCK_SOURCES: nat := 6

  // ---------- parsing ----------

  function ReportBody(version: nat, client: Bytes, records: seq<WireRecord>): Body {
    Body(ReportMessage, version, client, 0, 0, 0, records)
  }

  function ParseIGMPPayload(payload: Bytes, client: Bytes): Option<Body>
    requires |payload| >= 8
  {
    var group := payload[4..8];
    if payload[0] == 0x11 then
      if !IsUnspecified(group) && !IsMulticast(group) then None
      else if |payload| == 8 then
        Some(Body(QueryMessage, if payload[1] == 0 then 1 else 2, client, 0, 0, payload[1], [WireRecord(0, group, [])]))
      else if |payload| < 12 || |payload| != 12 + Word(payload, 10) * 4 then None
      else
        Some(Body(QueryMessage, 3, client, payload[8] as nat % 8, DecodeFloating8(payload[9]),
                  DecodeFloating8(payload[1]),
                  [WireRecord(0, group, TakeSources(payload[12..], 4, Word(payload, 10)))]))
    else if payload[0] == 0x12 || payload[0] == 0x16 || payload[0] == 0x17 then
      if !IsMulticast(group) then None
      else
        Some(ReportBody(if payload[0] == 0x12 then 1 else 2, client,
                        [WireRecord(if payload[0] == 0x17 then INCLUDE_MODE else IS_EXCLUDE, group, [])]))
    else if payload[0] == 0x22 then
      var records := ParseRecords(payload[8..], 4, Word(payload, 6));
      if records.None? then None else Some(ReportBody(3, client, records.value))
    else None
  }

  function ParseIGMP(packet: Bytes): Option<Body> {
    if |packet| < 20 || packet[0] / 16 != 4 then None
    else
      var headerLength, totalLength := packet[0] as nat % 16 * 4, Word(packet, 2);
      if headerLength < 20 || totalLength < headerLength + 8 || totalLength > |packet| then None
      else if packet[9] != 2 || Word(packet, 6) % 0x4000 != 0 then None
      else
        var payload := packet[headerLength..totalLength];
        if Checksum(payload) != 0 then None else ParseIGMPPayload(payload, packet[12..16])
  }

  function Deciseconds(milliseconds: nat): nat { (milliseconds + 99) / 100 }

  function Least(a: nat, b: nat): nat { if a < b then a else b }

  function ParseMLDPayload(payload: Bytes, source: Bytes): Option<Body>
    requires |payload| >= 8
  {
    if payload[0] == 130 then
      if |payload| < 24 then None
      else
        var group := payload[8..24];
        if !IsUnspecified(group) && !IsMulticast(group) then None
        else if |payload| == 24 then
          Some(Body(QueryMessage, 16, source, 0, 0, Deciseconds(Word(payload, 4)), [WireRecord(0, group, [])]))
        else if |payload| < 28 || |payload| != 28 + Word(payload, 26) * 16 then None
        else
          Some(Body(QueryMessage, 17, source, payload[24] as nat % 8, DecodeFloating8(payload[25]),
                    Least(Deciseconds(DecodeFloating16(Word(payload, 4))), 0xffff_ffff),
                    [WireRecord(0, group, TakeSources(payload[28..], 16, Word(payload, 26)))]))
    else if payload[0] == 131 || payload[0] == 132 then
      if |payload| != 24 || !IsMulticast(payload[8..24]) then None
      else
        Some(ReportBody(16, source,
                        [WireRecord(if payload[0] == 132 then INCLUDE_MODE else IS_EXCLUDE, payload[8..24], [])]))
    else if payload[0] == 143 then
      var records := ParseRecords(payload[8..], 16, Word(payload, 6));
      if records.None? then None else Some(ReportBody(17, source, records.value))
    else None
  }

  predicate IsExtension(header: nat) { header == 0 || header == 43 || header == 60 }

  /** Skips the extension headers in front of the payload. */
  function SkipExtensions(packet: Bytes, offset: nat, end: nat, header: nat): Option<(nat, nat)>
    requires offset <= end <= |packet|
    decreases end - offset
  {
    if !IsExtension(header) then Some((offset, header))
    else if end - offset < 8 then None
    else
      var length := (packet[offset + 1] as nat + 1) * 8;
      if length > end - offset then None else SkipExtensions(packet, offset + length, end, packet[offset])
  }

  method SkipExtensionHeaders(packet: Bytes, start: nat, end: nat, first: nat) returns (result: Option<(nat, nat)>)
    requires start <= end <= |packet|
    ensures result == SkipExtensions(packet, start, end, first)
  {
    var offset, header := start, first;
    while IsExtension(header)
      invariant offset <= end
      invariant SkipExtensions(packet, offset, end, header) == SkipExtensions(packet, start, end, first)
      decreases end - offset
    {
      if end - offset < 8 {
        return None;
      }
      var length := (packet[offset + 1] as nat + 1) * 8;
      if length > end - offset {
        return None;
      }
      header, offset := packet[offset], offset + length;
    }
    result := Some((offset, header));
  }

  lemma {:induction false} SkippedStaysInside(packet: Bytes, offset: nat, end: nat, header: nat)
    requires offset <= end <= |packet|
    ensures SkipExtensions(packet, offset, end, header).Some? ==>
              offset <= SkipExtensions(packet, offset, end, header).value.0 <= end
    decreases end - offset
  {
    if IsExtension(header) && end - offset >= 8 {
      var length := (packet[offset + 1] as nat + 1) * 8;
      if length <= end - offset {
        SkippedStaysInside(packet, offset + length, end, packet[offset]);
      }
    }
  }

  function ParseMLD(packet: Bytes): Option<Body> {
    if |packet| < 48 || packet[0] / 16 != 6 then None
    else if Word(packet, 4) + 40 > |packet| then None
    else
      var end := 40 + Word(packet, 4);
      var skipped := SkipExtensions(packet, 40, end, packet[6]);
      SkippedStaysInside(packet, 40, end, packet[6]);
      if skipped.None? || skipped.value.1 != 58 then None
      else
        var payload := packet[skipped.value.0..end];
        if |payload| < 8 || ICMPv6Checksum(packet[8..24], packet[24..40], payload) != 0 then None
        else ParseMLDPayload(payload, packet[8..24])
  }

  function ParseMembershipFrame(frame: Bytes): Option<Message> {
    if |frame| < 14 then None
    else
      var tagged := ParseTags(frame[12..], 2);
      if tagged.None? then None
      else
        var (tags, etherType, packet) := tagged.value;
        var body :=
          if etherType == 0x0800 then ParseIGMP(packet) else if etherType == 0x86dd then ParseMLD(packet) else None;
        if body.None? then None
        else Some(Message(frame[0..6], frame[6..12], tags, tags != [], if tags == [] then 0 else tags[0].tci % 0x1000,
                          body.value))
  }

  // ---------- building ----------

  function Filled(before: Bytes, after: Bytes): Bytes {
    before + WordBytes(Checksum(before + [0, 0] + after)) + after
  }

  function Filled6(source: Bytes, destination: Bytes, before: Bytes, after: Bytes): Bytes {
    before + WordBytes(ICMPv6Checksum(source, destination, before + [0, 0] + after)) + after
  }

  /** TTL 1, protocol 2 and the Router Alert option; the length field has 16 bits. */
  function IPv4Packet(client: Bytes, destination: Bytes, igmp: Bytes): Bytes {
    var before := [0x46, 0] + WordBytes((24 + |igmp|) % 0x1_0000) + [0, 0, 0, 0, 1, 2];
    var after := client + destination + [0x94, 4, 0, 0];
    Filled(before, after) + igmp
  }

  /** Hop limit 1 and a hop-by-hop Router Alert. */
  function IPv6Packet(source: Bytes, destination: Bytes, icmp: Bytes): Bytes {
    [0x60, 0, 0, 0] + WordBytes((8 + |icmp|) % 0x1_0000) + [0, 1] + source + destination + [58, 0, 5, 2, 0, 0, 1, 0] +
    icmp
  }

  function EthernetFrame(destinationMAC: Bytes, sourceMAC: Bytes, tags: seq<Tag>, etherType: nat, packet: Bytes): Bytes
    requires etherType < 0x1_0000 && forall i :: 0 <= i < |tags| ==> SixteenBits(tags[i])
  {
    destinationMAC + sourceMAC + TagBytes(tags) + WordBytes(etherType) + packet
  }

  // ---------- around the message ----------

  lemma IPv4RoundTrip(client: Bytes, destination: Bytes, igmp: Bytes)
    requires |client| == 4 && |destination| == 4 && 8 <= |igmp| && 24 + |igmp| < 0x1_0000 && Checksum(igmp) == 0
    ensures ParseIGMP(IPv4Packet(client, destination, igmp)) == ParseIGMPPayload(igmp, client)
  {
    hide Checksum, ParseIGMPPayload;
    var packet := IPv4Packet(client, destination, igmp);
    var before := [0x46, 0] + WordBytes(24 + |igmp|) + [0, 0, 0, 0, 1, 2];
    var checksum := WordBytes(Checksum(before + [0, 0] + (client + destination + [0x94, 4, 0, 0])));
    assert packet == before + checksum + client + destination + [0x94, 4, 0, 0] + igmp;
    assert packet[..10] == before && packet[12..16] == client && packet[24..] == igmp;
    assert packet[0] == before[0] && packet[2] == before[2] && packet[3] == before[3] && packet[6] == before[6]
        && packet[7] == before[7] && packet[9] == before[9];
    assert Word(packet, 2) == 24 + |igmp| == |packet|;
    assert packet[24..24 + |igmp|] == igmp;
  }

  lemma IPv6RoundTrip(source: Bytes, destination: Bytes, icmp: Bytes)
    requires |source| == 16 && |destination| == 16 && 8 <= |icmp| && 8 + |icmp| < 0x1_0000
    requires ICMPv6Checksum(source, destination, icmp) == 0
    ensures ParseMLD(IPv6Packet(source, destination, icmp)) == ParseMLDPayload(icmp, source)
  {
    hide ICMPv6Checksum, ParseMLDPayload;
    var packet := IPv6Packet(source, destination, icmp);
    var start := [0x60, 0, 0, 0] + WordBytes(8 + |icmp|) + [0, 1];
    assert packet == start + source + destination + [58, 0, 5, 2, 0, 0, 1, 0] + icmp;
    assert packet[..8] == start && packet[8..24] == source && packet[24..40] == destination && packet[48..] == icmp;
    assert packet[0] == start[0] && packet[4] == start[4] && packet[5] == start[5] && packet[6] == start[6];
    assert packet[40] == 58 && packet[41] == 0;
    assert Word(packet, 4) == 8 + |icmp| == |packet| - 40;
    assert packet[48..48 + |icmp|] == icmp;
    assert SkipExtensions(packet, 40, |packet|, 0) == SkipExtensions(packet, 48, |packet|, 58);
  }

  lemma EthernetRoundTrip(destinationMAC: Bytes, sourceMAC: Bytes, tags: seq<Tag>, etherType: nat, packet: Bytes,
                          body: Body)
    requires |destinationMAC| == 6 && |sourceMAC| == 6 && ValidTags(tags)
    requires forall i :: 0 <= i < |tags| ==> SixteenBits(tags[i])
    requires || (etherType == 0x0800 && ParseIGMP(packet) == Some(body))
             || (etherType == 0x86dd && ParseMLD(packet) == Some(body))
    ensures ParseMembershipFrame(EthernetFrame(destinationMAC, sourceMAC, tags, etherType, packet)) ==
            Some(Message(destinationMAC, sourceMAC, tags, tags != [], if tags == [] then 0 else tags[0].tci % 0x1000,
                         body))
  {
    hide ParseIGMP, ParseMLD;
    var frame := EthernetFrame(destinationMAC, sourceMAC, tags, etherType, packet);
    assert frame[0..6] == destinationMAC && frame[6..12] == sourceMAC;
    assert frame[12..] == TagBytes(tags) + WordBytes(etherType) + packet;
    TagsRoundTrip(tags, etherType, packet, 2);
  }

  // ---------- reports ----------

  datatype Report = Report(join: bool, version: nat, group: Bytes, source: Bytes, client: Bytes, included: seq<Bytes>,
                           excluded: seq<Bytes>)

  /** The family the builder works in, and what it demands of a report before it serializes one. */
  predicate Buildable(r: Report) {
    && IsMulticast(r.group) && |r.source| == |r.group| && |r.client| == |r.group|
    && if |r.group| == 4 then 1 <= r.version <= 3 else r.version == 16 || r.version == 17
  }

  predicate Grouped(r: Report) { r.version == 3 || r.version == 17 }

  function IncludedSources(r: Report): seq<Bytes> {
    if r.included == [] && !IsUnspecified(r.source) then [r.source] else r.included
  }

  /** The record a report carries or, for the older versions, the one it is read back as. */
  function RecordOf(r: Report): WireRecord {
    if !Grouped(r) then WireRecord(if r.join then IS_EXCLUDE else INCLUDE_MODE, r.group, [])
    else if r.join then
      if IsUnspecified(r.source) then WireRecord(EXCLUDE_MODE, r.group, r.excluded)
      else WireRecord(INCLUDE_MODE, r.group, IncludedSources(r))
    else if IsUnspecified(r.source) then WireRecord(INCLUDE_MODE, r.group, [])
    else WireRecord(BLOCK_SOURCES, r.group, [r.source])
  }

  /** Both source lists fit the 16-bit count, and the listed one is of the group's family. */
  predicate Listable(r: Report) {
    Grouped(r) ==>
      && |r.excluded| < 0x1_0000 && |IncludedSources(r)| < 0x1_0000
      && AllOf(RecordOf(r).sources, |r.group|)
      && (r.join ==> Listed(RecordOf(r).sources, |r.group|))
  }

  /** The type octet and everything after the checksum. */
  function ReportParts(r: Report): (Byte, Bytes)
    requires Buildable(r) && Listable(r)
  {
    if r.version == 1 then (0x12, r.group)
    else if r.version == 2 then (if r.join then 0x16 else 0x17, r.group)
    else if r.version == 16 then (if r.join then 131 else 132, [0, 0, 0, 0] + r.group)
    else (if r.version == 3 then 0x22 else 143, [0, 0] + WordBytes(1) + RecordBytes(RecordOf(r)))
  }

  const ALL_ROUTERS_V4: Bytes := [224, 0, 0, 2]
  const IGMPV3_ROUTERS: Bytes := [224, 0, 0, 22]

  function LinkScope(last: Byte): Bytes { [0xff, 2, 0, 0, 0, 0, 0, 0, 0, 0, 0, 0, 0, 0, 0, last] }

  function ReportDestination(r: Report): (destination: Bytes)
    requires Buildable(r)
    ensures |destination| == |r.group|
  {
    if r.version == 3 then IGMPV3_ROUTERS
    else if r.version == 17 then LinkScope(22)
    else if r.version == 2 && !r.join then ALL_ROUTERS_V4
    else if r.version == 16 && !r.join then LinkScope(2)
    else r.group
  }

  function MulticastMAC(address: Bytes): (mac: Bytes)
    requires |address| == 4 || |address| == 16
    ensures |mac| == 6
  {
    if |address| == 4 then [0x01, 0x00, 0x5e, (address[1] as nat % 128) as Byte, address[2], address[3]]
    else [0x33, 0x33] + address[12..16]
  }

  function ReportPacket(r: Report): Bytes
    requires Buildable(r) && Listable(r)
  {
    var (kind, after) := ReportParts(r);
    if |r.group| == 4 then IPv4Packet(r.client, ReportDestination(r), Filled([kind, 0], after))
    else IPv6Packet(r.client, ReportDestination(r), Filled6(r.client, ReportDestination(r), [kind, 0], after))
  }

  predicate ReadsBack(r: Report, payload: Bytes) {
    && |payload| >= 8
    && (|r.group| == 4 ==> ParseIGMPPayload(payload, r.client) == Some(ReportBody(r.version, r.client, [RecordOf(r)])))
    && (|r.group| == 16 ==> ParseMLDPayload(payload, r.client) == Some(ReportBody(r.version, r.client, [RecordOf(r)])))
  }

  lemma GroupedPayloadRoundTrip(r: Report, payload: Bytes, kind: Byte, after: Bytes, checksum: nat)
    requires Buildable(r) && Listable(r) && Grouped(r) && checksum < 0x1_0000
    requires (kind, after) == ReportParts(r) && payload == [kind, 0] + WordBytes(checksum) + after
    ensures ReadsBack(r, payload)
  {
    hide ParseRecords, RecordBytes, IsMulticast;
    var record := RecordOf(r);
    ReportRecordIsValid(r);
    RecordsRoundTrip([record], |r.group|);
    assert AllRecordBytes([record]) == RecordBytes(record) by {
      assert [record][1..] == [];
    }
    assert payload[0] == kind && payload[4..] == after;
    assert payload[8..] == RecordBytes(record);
    assert payload[6] == after[2] && payload[7] == after[3];
    assert Word(payload, 6) == 1;
  }

  lemma LegacyPayloadRoundTrip(r: Report, payload: Bytes, kind: Byte, after: Bytes, checksum: nat)
    requires Buildable(r) && Listable(r) && !Grouped(r) && (r.version == 1 ==> r.join) && checksum < 0x1_0000
    requires (kind, after) == ReportParts(r) && payload == [kind, 0] + WordBytes(checksum) + after
    ensures ReadsBack(r, payload)
  {
    GroupWidth(r.group);
    hide ParseRecords, RecordBytes, IsMulticast;
    assert payload[0] == kind && payload[4..] == after;
    if |r.group| == 4 {
      assert payload[4..8] == r.group;
    } else {
      assert payload[8..24] == r.group;
    }
  }

  lemma ReportPayloadRoundTrip(r: Report, payload: Bytes, kind: Byte, after: Bytes, checksum: nat)
    requires Buildable(r) && Listable(r) && (r.version == 1 ==> r.join) && checksum < 0x1_0000
    requires (kind, after) == ReportParts(r) && payload == [kind, 0] + WordBytes(checksum) + after
    ensures ReadsBack(r, payload)
  {
    hide ReadsBack, ReportParts;
    if Grouped(r) {
      GroupedPayloadRoundTrip(r, payload, kind, after, checksum);
    } else {
      LegacyPayloadRoundTrip(r, payload, kind, after, checksum);
    }
  }

  lemma GroupWidth(address: Bytes)
    requires IsMulticast(address)
    ensures |address| == 4 || |address| == 16
  {}

  lemma ReportRecordIsValid(r: Report)
    requires Buildable(r) && Listable(r)
    ensures ValidRecord(RecordOf(r), |r.group|) && Encodable(RecordOf(r))
  {}

  /** The length field of IPv4 counts the whole packet, the one of IPv6 only what follows its header. */
  predicate FitsLength(r: Report)
    requires Buildable(r) && Listable(r)
  {
    |ReportPacket(r)| < if |r.group| == 4 then 0x1_0000 else 0x1_0000 + 40
  }

  /** Every report that the builder serializes and whose packet fits the 16-bit length field is read back
      with its tags, addresses, version, group and source list. */
  lemma ReportRoundTrip(r: Report, sourceMAC: Bytes, tags: seq<Tag>)
    requires Buildable(r) && Listable(r) && (r.version == 1 ==> r.join) && |sourceMAC| == 6 && ValidTags(tags)
    requires forall i :: 0 <= i < |tags| ==> SixteenBits(tags[i])
    requires FitsLength(r)
    ensures ParseMembershipFrame(EthernetFrame(MulticastMAC(ReportDestination(r)), sourceMAC, tags,
                                               if |r.group| == 4 then 0x0800 else 0x86dd, ReportPacket(r))) ==
            Some(Message(MulticastMAC(ReportDestination(r)), sourceMAC, tags, tags != [],
                         if tags == [] then 0 else tags[0].tci % 0x1000,
                         ReportBody(r.version, r.client, [RecordOf(r)])))
  {
    hide ParseIGMPPayload, ParseMLDPayload, ParseIGMP, ParseMLD, Checksum, ICMPv6Checksum, RecordBytes,
         ParseMembershipFrame;
    var (kind, after) := ReportParts(r);
    var destination := ReportDestination(r);
    if |r.group| == 4 {
      var payload := Filled([kind, 0], after);
      ReportPayloadRoundTrip(r, payload, kind, after, Checksum([kind, 0] + [0, 0] + after));
      FilledChecksumIsZero([kind, 0], after);
      IPv4RoundTrip(r.client, destination, payload);
    } else {
      var payload := Filled6(r.client, destination, [kind, 0], after);
      ReportPayloadRoundTrip(r, payload, kind, after,
                             ICMPv6Checksum(r.client, destination, [kind, 0] + [0, 0] + after));
      FilledICMPv6ChecksumIsZero(r.client, destination, [kind, 0], after);
      IPv6RoundTrip(r.client, destination, payload);
    }
    EthernetRoundTrip(MulticastMAC(destination), sourceMAC, tags, if |r.group| == 4 then 0x0800 else 0x86dd,
                      ReportPacket(r), ReportBody(r.version, r.client, [RecordOf(r)]));
  }

  datatype Built = Frame(bytes: Bytes) | NoFrame | BuildError

  /** The packet of a report, with its source list appended one address at a time. */
  method BuildReportPacket(r: Report) returns (packet: Option<Bytes>)
    requires Buildable(r)
    ensures packet == if Listable(r) then Some(ReportPacket(r)) else None
  {
    hide Filled, Filled6, IPv4Packet, IPv6Packet, IsMulticast;
    var width := |r.group|;
    var parts: (Byte, Bytes);
    if !Grouped(r) {
      parts := ReportParts(r);
    } else {
      if |r.excluded| > 0xffff || |IncludedSources(r)| > 0xffff {
        return None;
      }
      var record := RecordOf(r);
      var head := [record.kind as Byte, 0] + WordBytes(|record.sources|) + r.group;
      var listed: Option<Bytes>;
      if r.join {
        listed := AppendSources(head, record.sources, width);
      } else {
        SingleFlat(r.source);
        listed := Some(head + if IsUnspecified(r.source) then [] else r.source);
      }
      if listed.None? {
        return None;
      }
      AllListed(record.sources, width);
      parts := (if r.version == 3 then 0x22 else 143, [0, 0] + WordBytes(1) + listed.value);
      assert listed.value == RecordBytes(record);
    }
    assert parts == ReportParts(r);
    var destination := ReportDestination(r);
    if width == 4 {
      packet := Some(IPv4Packet(r.client, destination, Filled([parts.0, 0], parts.1)));
    } else {
      packet := Some(IPv6Packet(r.client, destination, Filled6(r.client, destination, [parts.0, 0], parts.1)));
    }
  }

  lemma AllListed(sources: seq<Bytes>, width: nat)
    ensures Listed(sources, width) ==> AllOf(sources, width)
  {}

  lemma SingleFlat(source: Bytes)
    ensures Concat([source]) == source && Concat<Byte>([]) == []
  {
    assert [source] == [] + [source];
    FlatSnoc([], source);
  }

  /** BuildUpstreamFrame: an IGMPv1 leave has no frame; everything else is serialized or refused. */
  method BuildUpstreamFrame(r: Report, sourceMAC: Bytes, original: seq<Tag>, control: nat, tci: nat)
    returns (built: Built)
    requires tci < 0x1_0000 && forall i :: 0 <= i < |original| ==> SixteenBits(original[i])
    ensures built == BuildError <==>
              || !Buildable(r)
              || (!(r.version == 1 && !r.join) && (!Listable(r) || control > 3))
    ensures built == NoFrame <==> Buildable(r) && r.version == 1 && !r.join
    ensures built.Frame? ==>
              var tags := UpstreamTags(original, control, tci).value;
              && (forall i :: 0 <= i < |tags| ==> SixteenBits(tags[i]))
              && built.bytes == EthernetFrame(MulticastMAC(ReportDestination(r)), sourceMAC, tags,
                                              if |r.group| == 4 then 0x0800 else 0x86dd, ReportPacket(r))
  {
    hide ReportPacket, Listable, IsMulticast;
    if !Buildable(r) {
      return BuildError;
    }
    if r.version == 1 && !r.join {
      return NoFrame;
    }
    var packet := BuildReportPacket(r);
    if packet.None? || control > 3 {
      return BuildError;
    }
    var tags := UpstreamTags(original, control, tci).value;
    WideTags(original, control, tci);
    BuildableWidth(r);
    var head := SerializeTags(MulticastMAC(ReportDestination(r)) + sourceMAC, tags);
    built := Frame(head + WordBytes(if |r.group| == 4 then 0x0800 else 0x86dd) + packet.value);
  }

  lemma BuildableWidth(r: Report)
    requires Buildable(r)
    ensures |r.group| == 4 || |r.group| == 16
  {}

  lemma WideTags(original: seq<Tag>, control: nat, tci: nat)
    requires control <= 3 && tci < 0x1_0000 && forall i :: 0 <= i < |original| ==> SixteenBits(original[i])
    ensures forall i :: 0 <= i < |UpstreamTags(original, control, tci).value| ==>
              SixteenBits(UpstreamTags(original, control, tci).value[i])
  {}

  // ---------- the parser ----------

  /** ParseMembershipFrame with its loops over tags and extension headers; the loops over records and
      sources are ParseRecordList and ParseSources. */
  method ParseFrame(frame: Bytes) returns (result: Option<Message>)
    ensures result == ParseMembershipFrame(frame)
  {
    hide ParseIGMP, ParseMLD, ParseTags;
    if |frame| < 14 {
      return None;
    }
    var tagged := ParseTagList(frame[12..]);
    if tagged.None? {
      return None;
    }
    var tags, etherType, packet := tagged.value.0, tagged.value.1, tagged.value.2;
    var body: Option<Body> := None;
    if etherType == 0x0800 {
      body := ParseIGMPPacket(packet);
    } else if etherType == 0x86dd {
      body := ParseMLDPacket(packet);
    }
    if body.None? {
      return None;
    }
    result := Some(Message(frame[0..6], frame[6..12], tags, |tags| != 0,
                           if |tags| == 0 then 0 else tags[0].tci % 0x1000, body.value));
  }

  method ParseIGMPPacket(packet: Bytes) returns (body: Option<Body>)
    ensures body == ParseIGMP(packet)
  {
    hide Checksum, ParseIGMPPayload;
    if |packet| < 20 || packet[0] / 16 != 4 {
      return None;
    }
    var headerLength, totalLength := packet[0] as nat % 16 * 4, Word(packet, 2);
    if headerLength < 20 || totalLength < headerLength + 8 || totalLength > |packet| {
      return None;
    }
    if packet[9] != 2 || Word(packet, 6) % 0x4000 != 0 {
      return None;
    }
    var payload := packet[headerLength..totalLength];
    var checksum := ComputeChecksum(payload);
    if checksum != 0 {
      return None;
    }
    body := ReadIGMPPayload(payload, packet[12..16]);
  }

  method ReadIGMPPayload(payload: Bytes, client: Bytes) returns (body: Option<Body>)
    requires |payload| >= 8
    ensures body == ParseIGMPPayload(payload, client)
  {
    hide ParseRecords, IsMulticast, IsUnspecified;
    var group := payload[4..8];
    if payload[0] == 0x22 {
      var records := ParseRecordList(payload[8..], 4, Word(payload, 6));
      return if records.None? then None else Some(ReportBody(3, client, records.value));
    }
    if payload[0] == 0x11 && |payload| >= 12 && |payload| == 12 + Word(payload, 10) * 4 {
      if !IsUnspecified(group) && !IsMulticast(group) {
        return None;
      }
      var sources := ParseSources(payload[12..], 4, Word(payload, 10));
      return Some(Body(QueryMessage, 3, client, payload[8] as nat % 8, DecodeFloating8(payload[9]),
                       DecodeFloating8(payload[1]), [WireRecord(0, group, sources)]));
    }
    body := ParseIGMPPayload(payload, client);
  }

  method ParseMLDPacket(packet: Bytes) returns (body: Option<Body>)
    ensures body == ParseMLD(packet)
  {
    hide ICMPv6Checksum, ParseMLDPayload, SkipExtensions;
    if |packet| < 48 || packet[0] / 16 != 6 || Word(packet, 4) + 40 > |packet| {
      return None;
    }
    var end := 40 + Word(packet, 4);
    var skipped := SkipExtensionHeaders(packet, 40, end, packet[6]);
    SkippedStaysInside(packet, 40, end, packet[6]);
    if skipped.None? || skipped.value.1 != 58 {
      return None;
    }
    var payload := packet[skipped.value.0..end];
    if |payload| < 8 {
      return None;
    }
    var checksum := ComputeICMPv6Checksum(packet[8..24], packet[24..40], payload);
    if checksum != 0 {
      return None;
    }
    body := ReadMLDPayload(payload, packet[8..24]);
  }

  method ComputeICMPv6Checksum(source: Bytes, destination: Bytes, payload: Bytes) returns (checksum: nat)
    ensures checksum == ICMPv6Checksum(source, destination, payload)
  {
    hide Checksum;
    checksum := ComputeChecksum(PseudoHeader(source, destination, |payload|) + payload);
  }

  method ReadMLDPayload(payload: Bytes, source: Bytes) returns (body: Option<Body>)
    requires |payload| >= 8
    ensures body == ParseMLDPayload(payload, source)
  {
    hide ParseRecords, IsMulticast, IsUnspecified;
    if payload[0] == 143 {
      var records := ParseRecordList(payload[8..], 16, Word(payload, 6));
      return if records.None? then None else Some(ReportBody(17, source, records.value));
    }
    if payload[0] == 130 && |payload| >= 28 && |payload| == 28 + Word(payload, 26) * 16 {
      var group := payload[8..24];
      if !IsUnspecified(group) && !IsMulticast(group) {
        return None;
      }
      var sources := ParseSources(payload[28..], 16, Word(payload, 26));
      return Some(Body(QueryMessage, 17, source, payload[24] as nat % 8, DecodeFloating8(payload[25]),
                       Least(Deciseconds(DecodeFloating16(Word(payload, 4))), 0xffff_ffff),
                       [WireRecord(0, group, sources)]));
    }
    body := ParseMLDPayload(payload, source);
  }
}
