/** Acceptance of downstream OMCI frames (validateFrame and validateGPONMIC of internal/engine/engine.go),
    and what the GPON MIC can and cannot detect. */
module GponFrame {
  import opened Crc32a

  const BASELINE_IDENT: bv8 := 0x0a
  const EXTENDED_IDENT: bv8 := 0x0b
  const MAX_BASELINE_LENGTH := 48
  const MAX_EXTENDED_LENGTH := 1980

  datatype Mode = GPON | XGSPON | Unsupported

  /** Octets 8 and 9 of an extended frame announce the length of its contents. */
  function PayloadEnd(f: Octets): nat
    requires |f| >= 10
  {
    10 + (f[8] as int) * 256 + f[9] as int
  }

  /** The frame reads as one whose MIC, or whole trailer, the adapter has already removed. */
  predicate Stripped(f: Octets) {
    if |f| < 4 then false
    else if f[3] == BASELINE_IDENT then
      |f| == MAX_BASELINE_LENGTH - 4 || |f| == MAX_BASELINE_LENGTH - 8
    else
      f[3] == EXTENDED_IDENT && |f| >= 10 && PayloadEnd(f) == |f| <= MAX_EXTENDED_LENGTH - 4
  }

  /** The frame reads as one whose last four octets are the MIC of the rest. */
  predicate CarriesMic(f: Octets) {
    if |f| < 4 then false
    else if f[3] == BASELINE_IDENT then |f| == MAX_BASELINE_LENGTH
    else
      f[3] == EXTENDED_IDENT && |f| >= 14 && PayloadEnd(f) + 4 == |f| <= MAX_EXTENDED_LENGTH
  }

  predicate MicHolds(f: Octets)
    requires |f| >= 4
  {
    Pack(f[|f| - 4..]) == Checksum(f[..|f| - 4])
  }

  predicate Accepts(mode: Mode, f: Octets, micVerified: bool) {
    match mode
    case GPON => Stripped(f) || (CarriesMic(f) && MicHolds(f))
    case XGSPON => micVerified && Stripped(f)
    case Unsupported => false
  }

  method ValidateGPONMIC(contents: Octets, encodedMIC: Octets) returns (ok: bool)
    requires |encodedMIC| == 4
    ensures ok <==> Pack(encodedMIC) == Checksum(contents)
  {
    var sum := CRC32A(contents);
    ok := Pack(encodedMIC) == sum;
  }

  method ValidateFrame(mode: Mode, frame: Octets, micVerified: bool) returns (ok: bool)
    ensures ok <==> Accepts(mode, frame, micVerified)
  {
    if mode == Unsupported {
      return false;
    }
    if |frame| < 4 || |frame| > MAX_EXTENDED_LENGTH {
      return false;
    }
    if frame[3] == BASELINE_IDENT {
      if mode == XGSPON && !micVerified {
        return false;
      }
      if |frame| != MAX_BASELINE_LENGTH && |frame| != MAX_BASELINE_LENGTH - 4 &&
         |frame| != MAX_BASELINE_LENGTH - 8 {
        return false;
      }
      if mode == GPON && |frame| == MAX_BASELINE_LENGTH {
        ok := ValidateGPONMIC(frame[..MAX_BASELINE_LENGTH - 4], frame[MAX_BASELINE_LENGTH - 4..]);
        return;
      }
      if mode == XGSPON && |frame| == MAX_BASELINE_LENGTH {
        return false;
      }
    } else if frame[3] == EXTENDED_IDENT {
      if mode == XGSPON && !micVerified {
        return false;
      }
      if |frame| < 10 {
        return false;
      }
      var payloadEnd := PayloadEnd(frame);
      if payloadEnd > MAX_EXTENDED_LENGTH - 4 || (|frame| != payloadEnd && |frame| != payloadEnd + 4) {
        return false;
      }
      if mode == GPON && |frame| == payloadEnd + 4 {
        ok := ValidateGPONMIC(frame[..payloadEnd], frame[payloadEnd..]);
        return;
      }
      if mode == XGSPON && |frame| == payloadEnd + 4 {
        return false;
      }
    } else {
      return false;
    }
    return true;
  }

  /** The altered frame differs from the original, and only inside octets at .. at+3. */
  predicate Burst(f: Octets, altered: Octets, at: nat) {
    && |altered| == |f| && at + 4 <= |f|
    && altered != f
    && (forall i :: 0 <= i < |f| && !(at <= i < at + 4) ==> altered[i] == f[i])
  }

  /** No burst of up to 32 bits turns a frame with a correct MIC into another one. */
  lemma BurstBreaksMic(f: Octets, altered: Octets, at: nat)
    requires |f| >= 4 && MicHolds(f) && Burst(f, altered, at)
    ensures !MicHolds(altered)
  {
    hide Add, Feed, Shifts, Pack, Checksum;
    if MicHolds(altered) {
      var n := |f| - 4;
      ChecksumResidue(f[..n], f[n..]);
      ChecksumResidue(altered[..n], altered[n..]);
      assert f[..n] + f[n..] == f && altered[..n] + altered[n..] == altered;
      FeedLinear(INITIAL, INITIAL, f, altered);
      SelfCancels(INITIAL);
      SelfCancels(Feed(INITIAL, f));
      ErrorPattern(f, altered, at);
      BurstLeavesTrace(Xor(f, altered), at);
    }
  }

  lemma ErrorPattern(f: Octets, altered: Octets, at: nat)
    requires Burst(f, altered, at)
    ensures var e := Xor(f, altered); AllZero(e[..at]) && AllZero(e[at + 4..]) && !AllZero(e)
  {
    var e := Xor(f, altered);
    forall i | 0 <= i < |f| ensures e[i] == 0 <==> altered[i] == f[i] {
      OctetDifference(f[i], altered[i]);
    }
    assert forall i :: at + 4 <= i < |e| ==> e[at + 4..][i - at - 4] == e[i];
    var i :| 0 <= i < |f| && altered[i] != f[i];
    assert e[i] != 0;
  }

  lemma SelfCancels(x: bv32)
    ensures Add(x, x) == 0
  {}

  lemma OctetDifference(p: bv8, q: bv8)
    ensures p ^ q == 0 <==> q == p
  {}

  /** Burst detection by validateFrame, exactly: a burst inside a GPON frame that carried a correct MIC
      is missed if and only if the altered frame now reads as one whose MIC was already removed. */
  lemma BurstDetection(f: Octets, altered: Octets, at: nat, micVerified: bool)
    requires CarriesMic(f) && MicHolds(f) && Burst(f, altered, at)
    ensures Accepts(GPON, altered, micVerified) <==> Stripped(altered)
  {
    BurstBreaksMic(f, altered, at);
  }

  /** So a burst that spares the device identifier and, in an extended frame, the length field is detected. */
  lemma BurstOutsideHeaderIsDetected(f: Octets, altered: Octets, at: nat, micVerified: bool)
    requires CarriesMic(f) && MicHolds(f) && Burst(f, altered, at)
    requires altered[3] == f[3]
    requires f[3] == EXTENDED_IDENT ==> altered[8] == f[8] && altered[9] == f[9]
    ensures !Accepts(GPON, altered, micVerified)
  {
    BurstBreaksMic(f, altered, at);
  }

  /** A burst that is missed: adding four to the announced length of an extended frame hides its MIC,
      whatever the contents are. */
  lemma LengthBurstIsMissed(contents: Octets, micVerified: bool) returns (f: Octets, altered: Octets)
    requires 10 <= |contents| <= MAX_EXTENDED_LENGTH - 8
    requires contents[3] == EXTENDED_IDENT && PayloadEnd(contents) == |contents|
    requires contents[9] < 252
    ensures CarriesMic(f) && MicHolds(f) && Burst(f, altered, 8) && contents <= f
    ensures Accepts(GPON, f, micVerified) && Accepts(GPON, altered, micVerified)
  {
    f := contents + Unpack(Checksum(contents));
    altered := f[9 := contents[9] + 4];
    assert f[..|contents|] == contents && f[|contents|..] == Unpack(Checksum(contents));
  }
}
