/** The byte layout of IGMP and MLD messages: source lists, membership records, VLAN tags and extension
    headers (internal/multicast/report.go and report_build.go; section 4 of RFC 3376, section 5 of RFC 3810).
    An address is its 4 or 16 bytes. */
module MembershipWire {
  import opened Arithmetic
  import opened Sequences
  import opened WireBytes

  datatype Tag = Tag(tpid: nat, tci: nat)

  datatype WireRecord = WireRecord(kind: nat, group: Bytes, sources: seq<Bytes>)

  predicate IsMulticast(address: Bytes) {
    (|address| == 4 && address[0] / 16 == 14) || (|address| == 16 && address[0] == 0xff)
  }

  predicate IsUnspecified(address: Bytes) { forall i :: 0 <= i < |address| ==> address[i] == 0 }

  // ---------- source lists ----------

  predicate AllOf(sources: seq<Bytes>, width: nat) { forall i :: 0 <= i < |sources| ==> |sources[i]| == width }

  lemma {:induction false} FlatLength(sources: seq<Bytes>, width: nat)
    requires AllOf(sources, width)
    ensures |Concat(sources)| == |sources| * width
  {
    if sources != [] {
      FlatLength(sources[..|sources| - 1], width);
      Distribute(|sources| - 1, width);
    }
  }

  lemma FlatSnoc(sources: seq<Bytes>, next: Bytes)
    ensures Concat(sources + [next]) == Concat(sources) + next
  {
    assert (sources + [next])[..|sources|] == sources;
  }

  /** An IPv4 address in its IPv6-mapped form. */
  predicate Is4In6(address: Bytes) {
    |address| == 16 && IsUnspecified(address[..10]) && address[10] == 0xff && address[11] == 0xff
  }

  predicate Listed(sources: seq<Bytes>, width: nat) {
    forall i :: 0 <= i < |sources| ==> |sources[i]| == width && !Is4In6(sources[i])
  }

  /** The builder's loop over a source list, which refuses an address of the other family. */
  method AppendSources(start: Bytes, sources: seq<Bytes>, width: nat) returns (result: Option<Bytes>)
    ensures result == if Listed(sources, width) then Some(start + Concat(sources)) else None
  {
    hide Is4In6;
    var bytes := start;
    for i := 0 to |sources|
      invariant Listed(sources[..i], width) && bytes == start + Concat(sources[..i])
    {
      if |sources[i]| != width || Is4In6(sources[i]) {
        return None;
      }
      assert sources[..i + 1] == sources[..i] + [sources[i]];
      FlatSnoc(sources[..i], sources[i]);
      bytes := bytes + sources[i];
    }
    assert sources[..|sources|] == sources;
    result := Some(bytes);
  }

  /** The first n addresses of the bytes. */
  function TakeSources(bytes: Bytes, width: nat, n: nat): seq<Bytes>
    requires n * width <= |bytes|
  {
    if n == 0 then []
    else
      Distribute(n - 1, width);
      [bytes[..width]] + TakeSources(bytes[width..], width, n - 1)
  }

  lemma {:induction false} TakeFlat(sources: seq<Bytes>, width: nat, more: Bytes)
    requires AllOf(sources, width)
    ensures |sources| * width <= |Concat(sources) + more|
    ensures TakeSources(Concat(sources) + more, width, |sources|) == sources
  {
    FlatLength(sources, width);
    if sources != [] {
      assert [sources[0]] + sources[1..] == sources;
      ConcatCons(sources[0], sources[1..]);
      assert (Concat(sources) + more)[..width] == sources[0];
      assert (Concat(sources) + more)[width..] == Concat(sources[1..]) + more;
      TakeFlat(sources[1..], width, more);
    }
  }

  lemma {:induction false} TakeOneMore(bytes: Bytes, width: nat, n: nat)
    requires (n + 1) * width <= |bytes|
    ensures n * width <= |bytes| && n * width + width <= |bytes|
    ensures TakeSources(bytes, width, n + 1) ==
            TakeSources(bytes, width, n) + [bytes[n * width..n * width + width]]
  {
    Distribute(n, width);
    if n > 0 {
      Distribute(n - 1, width);
      TakeOneMore(bytes[width..], width, n - 1);
      assert bytes[width..][(n - 1) * width..(n - 1) * width + width] == bytes[n * width..n * width + width];
    }
  }

  /** The parser's loop over a source list. */
  method ParseSources(bytes: Bytes, width: nat, n: nat) returns (sources: seq<Bytes>)
    requires n * width <= |bytes|
    ensures sources == TakeSources(bytes, width, n)
  {
    sources := [];
    var start: nat := 0;
    for i := 0 to n
      invariant start == i * width <= n * width && i * width <= |bytes|
      invariant sources == TakeSources(bytes, width, i)
    {
      Fits(i, n, width);
      TakeOneMore(bytes, width, i);
      sources := sources + [bytes[start..start + width]];
      start := start + width;
    }
  }

  lemma Fits(i: nat, n: nat, width: nat)
    requires i < n
    ensures (i + 1) * width <= n * width && (i + 1) * width == i * width + width
  {
    Distribute(i, width);
    MulMonotone(i + 1, n, width);
  }

  // ---------- membership records ----------

  predicate Encodable(r: WireRecord) { r.kind < 256 && |r.sources| < 0x1_0000 }

  function RecordBytes(r: WireRecord): Bytes
    requires Encodable(r)
  {
    [r.kind as Byte, 0] + WordBytes(|r.sources|) + r.group + Concat(r.sources)
  }

  /** One record at the front of the bytes, and what follows it. */
  function ParseRecord(bytes: Bytes, width: nat): Option<(WireRecord, Bytes)> {
    if |bytes| < 4 + width || bytes[0] < 1 || bytes[0] > 6 then None
    else
      var count := Word(bytes, 2);
      var length := 4 + width + count * width + bytes[1] as nat * 4;
      if |bytes| < length || !IsMulticast(bytes[4..4 + width]) then None
      else
        Some((WireRecord(bytes[0], bytes[4..4 + width], TakeSources(bytes[4 + width..], width, count)),
              bytes[length..]))
  }

  /** Exactly `count` records and nothing after them. */
  function ParseRecords(bytes: Bytes, width: nat, count: nat): Option<seq<WireRecord>> {
    if count == 0 then if bytes == [] then Some([]) else None
    else
      var first := ParseRecord(bytes, width);
      if first.None? then None
      else
        var others := ParseRecords(first.value.1, width, count - 1);
        if others.None? then None else Some([first.value.0] + others.value)
  }

  function Prepend(records: seq<WireRecord>, others: Option<seq<WireRecord>>): Option<seq<WireRecord>> {
    if others.None? then None else Some(records + others.value)
  }

  lemma PrependNothing(others: Option<seq<WireRecord>>)
    ensures Prepend([], others) == others
  {
    if others.Some? {
      assert [] + others.value == others.value;
    }
  }

  /** The parser's loop over the records of a report. */
  method ParseRecordList(payload: Bytes, width: nat, count: nat) returns (result: Option<seq<WireRecord>>)
    ensures result == ParseRecords(payload, width, count)
  {
    hide ParseRecord;
    var records: seq<WireRecord>, rest := [], payload;
    PrependNothing(ParseRecords(payload, width, count));
    for i := 0 to count
      invariant ParseRecords(payload, width, count) == Prepend(records, ParseRecords(rest, width, count - i))
    {
      var next := NextRecord(rest, width);
      if next.None? {
        return None;
      }
      var others := ParseRecords(next.value.1, width, count - i - 1);
      assert others.Some? ==> records + ([next.value.0] + others.value) == records + [next.value.0] + others.value;
      records, rest := records + [next.value.0], next.value.1;
    }
    if |rest| != 0 {
      return None;
    }
    assert records + [] == records;
    result := Some(records);
  }

  method NextRecord(bytes: Bytes, width: nat) returns (next: Option<(WireRecord, Bytes)>)
    ensures next == ParseRecord(bytes, width)
  {
    if |bytes| < 4 + width || bytes[0] < 1 || bytes[0] > 6 {
      return None;
    }
    var count := Word(bytes, 2);
    var length := 4 + width + count * width + bytes[1] as nat * 4;
    if |bytes| < length || !IsMulticast(bytes[4..4 + width]) {
      return None;
    }
    var sources := ParseSources(bytes[4 + width..], width, count);
    next := Some((WireRecord(bytes[0], bytes[4..4 + width], sources), bytes[length..]));
  }

  predicate ValidRecord(r: WireRecord, width: nat) {
    && Encodable(r)
    && 1 <= r.kind <= 6 && |r.group| == width && IsMulticast(r.group)
    && |r.sources| < 0x1_0000 && AllOf(r.sources, width)
  }

  /** A record survives serialization, whatever follows it. */
  lemma RecordRoundTrip(r: WireRecord, width: nat, more: Bytes)
    requires ValidRecord(r, width)
    ensures ParseRecord(RecordBytes(r) + more, width) == Some((r, more))
  {
    var bytes := RecordBytes(r) + more;
    var head := [r.kind as Byte, 0] + WordBytes(|r.sources|) + r.group;
    FlatLength(r.sources, width);
    assert bytes == head + (Concat(r.sources) + more);
    assert bytes[0] == r.kind && bytes[1] == 0;
    assert bytes[2] == WordBytes(|r.sources|)[0] && bytes[3] == WordBytes(|r.sources|)[1];
    assert bytes[4..4 + width] == r.group;
    assert bytes[4 + width..] == Concat(r.sources) + more;
    TakeFlat(r.sources, width, more);
    assert bytes[4 + width + |r.sources| * width..] == more;
  }

  function AllRecordBytes(records: seq<WireRecord>): Bytes
    requires forall i :: 0 <= i < |records| ==> Encodable(records[i])
  {
    if records == [] then [] else RecordBytes(records[0]) + AllRecordBytes(records[1..])
  }

  /** So does any list of records. */
  lemma {:induction false} RecordsRoundTrip(records: seq<WireRecord>, width: nat)
    requires forall i :: 0 <= i < |records| ==> Encodable(records[i]) && ValidRecord(records[i], width)
    ensures ParseRecords(AllRecordBytes(records), width, |records|) == Some(records)
  {
    hide ParseRecord, RecordBytes;
    if records != [] {
      RecordsRoundTrip(records[1..], width);
      RecordRoundTrip(records[0], width, AllRecordBytes(records[1..]));
      assert records == [records[0]] + records[1..];
    }
  }

  // ---------- VLAN tags ----------

  predicate IsTPID(tpid: nat) { tpid == 0x8100 || tpid == 0x88a8 || tpid == 0x9100 }

  predicate SixteenBits(tag: Tag) { tag.tpid < 0x1_0000 && tag.tci < 0x1_0000 }

  predicate KnownTag(tag: Tag) { IsTPID(tag.tpid) && SixteenBits(tag) }

  predicate ValidTags(tags: seq<Tag>) {
    |tags| <= 2 && forall i :: 0 <= i < |tags| ==> KnownTag(tags[i])
  }

  function TagBytes(tags: seq<Tag>): Bytes
    requires forall i :: 0 <= i < |tags| ==> SixteenBits(tags[i])
  {
    if tags == [] then []
    else
      assert SixteenBits(tags[0]);
      WordBytes(tags[0].tpid) + WordBytes(tags[0].tci) + TagBytes(tags[1..])
  }

  lemma {:induction false} TagBytesSnoc(tags: seq<Tag>, next: Tag)
    requires forall i :: 0 <= i < |tags| ==> SixteenBits(tags[i])
    requires SixteenBits(next)
    ensures TagBytes(tags + [next]) == TagBytes(tags) + WordBytes(next.tpid) + WordBytes(next.tci)
  {
    if tags == [] {
      assert [next][1..] == [];
    } else {
      assert (tags + [next])[1..] == tags[1..] + [next];
      TagBytesSnoc(tags[1..], next);
    }
  }

  /** The builder's loop over the tags. */
  method SerializeTags(start: Bytes, tags: seq<Tag>) returns (bytes: Bytes)
    requires forall i :: 0 <= i < |tags| ==> SixteenBits(tags[i])
    ensures bytes == start + TagBytes(tags)
  {
    bytes := start;
    for i := 0 to |tags|
      invariant bytes == start + TagBytes(tags[..i])
    {
      assert SixteenBits(tags[i]);
      assert tags[..i + 1] == tags[..i] + [tags[i]];
      TagBytesSnoc(tags[..i], tags[i]);
      bytes := bytes + WordBytes(tags[i].tpid) + WordBytes(tags[i].tci);
    }
    assert tags[..|tags|] == tags;
  }

  /** The tag-control operation of the multicast operations profile. */
  function UpstreamTags(original: seq<Tag>, control: nat, tci: nat): Option<seq<Tag>> {
    if control > 3 then None
    else if control == 0 then Some(original)
    else if control == 1 then Some([Tag(0x8100, tci)] + original)
    else if original == [] then Some([Tag(0x8100, tci)])
    else if control == 2 then Some([original[0].(tci := tci)] + original[1..])
    else Some([original[0].(tci := original[0].tci / 0x1000 * 0x1000 + tci % 0x1000)] + original[1..])
  }

  /** Tag control keeps every tag below the outer one, never drops a tag, and with control 3 keeps the
      outer priority while it replaces the VLAN. */
  lemma TagControl(original: seq<Tag>, control: nat, tci: nat)
    requires control <= 3 && tci < 0x1_0000 && forall i :: 0 <= i < |original| ==> KnownTag(original[i])
    ensures var tags := UpstreamTags(original, control, tci).value;
      && (forall i :: 0 <= i < |tags| ==> KnownTag(tags[i]))
      && |original| <= |tags| <= |original| + 1 && (control > 0 ==> tags != [])
      && (control == 3 && original != [] ==>
            tags[0].tci / 0x1000 == original[0].tci / 0x1000 && tags[0].tci % 0x1000 == tci % 0x1000)
      && (control == 1 ==> tags[1..] == original)
      && (control >= 2 && original != [] ==> tags[1..] == original[1..])
  {}

  /** The tags in front of an EtherType, at most two of them, and the bytes after the EtherType. */
  function ParseTags(bytes: Bytes, room: nat): Option<(seq<Tag>, nat, Bytes)> {
    if |bytes| < 2 then None
    else if !IsTPID(Word(bytes, 0)) then Some(([], Word(bytes, 0), bytes[2..]))
    else if room == 0 || |bytes| < 6 then None
    else
      var others := ParseTags(bytes[4..], room - 1);
      if others.None? then None
      else Some(([Tag(Word(bytes, 0), Word(bytes, 2))] + others.value.0, others.value.1, others.value.2))
  }

  /** The parser's loop over the tags. */
  method ParseTagList(bytes: Bytes) returns (result: Option<(seq<Tag>, nat, Bytes)>)
    requires |bytes| >= 2
    ensures result == ParseTags(bytes, 2)
  {
    var tags: seq<Tag>, offset := [], 0;
    var etherType := Word(bytes, 0);
    ghost var whole := ParseTags(bytes, 2);
    assert bytes[0..] == bytes && (whole.Some? ==> [] + whole.value.0 == whole.value.0);
    while IsTPID(etherType)
      invariant offset + 2 <= |bytes| && |tags| <= 2 && etherType == Word(bytes[offset..], 0)
      invariant var others := ParseTags(bytes[offset..], 2 - |tags|);
        ParseTags(bytes, 2) ==
        if others.None? then None else Some((tags + others.value.0, others.value.1, others.value.2))
      decreases |bytes| - offset
    {
      if |tags| == 2 || |bytes| < offset + 6 {
        return None;
      }
      var tci := Word(bytes, offset + 2);
      assert bytes[offset..][4..] == bytes[offset + 4..];
      ghost var others := ParseTags(bytes[offset + 4..], 1 - |tags|);
      assert others.Some? ==>
        tags + ([Tag(etherType, tci)] + others.value.0) == tags + [Tag(etherType, tci)] + others.value.0;
      tags := tags + [Tag(etherType, tci)];
      etherType, offset := Word(bytes, offset + 4), offset + 4;
    }
    assert tags + [] == tags;
    assert bytes[offset..][2..] == bytes[offset + 2..];
    result := Some((tags, etherType, bytes[offset + 2..]));
  }

  lemma {:induction false} TagsRoundTrip(tags: seq<Tag>, etherType: nat, payload: Bytes, room: nat)
    requires |tags| <= room && etherType < 0x1_0000 && !IsTPID(etherType)
    requires forall i :: 0 <= i < |tags| ==> SixteenBits(tags[i]) && KnownTag(tags[i])
    ensures ParseTags(TagBytes(tags) + WordBytes(etherType) + payload, room) == Some((tags, etherType, payload))
  {
    var bytes := TagBytes(tags) + WordBytes(etherType) + payload;
    if tags == [] {
      assert bytes == WordBytes(etherType) + payload;
      assert Word(bytes, 0) == Word(WordBytes(etherType), 0);
      assert bytes[2..] == payload;
    } else {
      var rest := TagBytes(tags[1..]) + WordBytes(etherType) + payload;
      assert bytes == WordBytes(tags[0].tpid) + WordBytes(tags[0].tci) + rest;
      assert Word(bytes, 0) == Word(WordBytes(tags[0].tpid), 0) && Word(bytes, 2) == Word(WordBytes(tags[0].tci), 0);
      assert bytes[4..] == rest && |rest| >= 2;
      TagsRoundTrip(tags[1..], etherType, payload, room - 1);
      assert tags == [tags[0]] + tags[1..];
    }
  }
}
