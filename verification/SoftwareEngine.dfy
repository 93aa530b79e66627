/** The software download of the engine (internal/engine/software.go): the counters, the running
    checksum and the finishing handshake, refining the window protocol of SoftwareTransfer. */
module SoftwareEngine {
  import opened Sequences
  import opened Crc32a
  import opened SoftwareTransfer

  const MAX_VERSION_LENGTH := 14
  const MAX_PRODUCT_CODE_LENGTH := 25

  datatype Phase = Receiving | Finalizing | Complete | Failed

  datatype StartRequest = StartRequest(entityClass: nat, entityInstance: nat, imageSize: nat,
                                       numberOfCircuitPacks: nat, circuitPacks: seq<nat>, windowSize: nat)

  datatype SectionRequest = SectionRequest(entityClass: nat, entityInstance: nat, sectionNumber: nat,
                                           sectionData: Octets)

  datatype EndRequest = EndRequest(entityClass: nat, entityInstance: nat, crc32: bv32, imageSize: nat,
                                   numberOfInstances: nat, imageInstances: seq<nat>)

  datatype EndTerms = EndTerms(entityID: nat, device: Device, crc: bv32, size: nat)

  /** What the MIB says about a software image. */
  datatype ImageLookup = Refused(result: Reply) | Image(active: bool, committed: bool, valid: bool)

  /** The answer of the platform to finishing the image. */
  datatype FinishResult = FinishResult(ok: bool, versionLength: nat, productCodeLength: nat)

  /** The staging area of the platform. A refused write may leave anything behind. */
  class Sink {
    var written: Octets
    var aborted: bool

    constructor ()
      ensures written == [] && !aborted
    {
      written, aborted := [], false;
    }

    method Write(data: Octets, accepts: bool) returns (count: nat, ok: bool)
      modifies this
      ensures aborted == old(aborted)
      ensures accepts ==> ok && count == |data| && written == old(written) + data
      ensures !accepts ==> !ok || count != |data|
    {
      if accepts {
        written := written + data;
        count, ok := |data|, true;
      } else {
        written := *;
        count, ok := 0, false;
      }
    }

    method Abort()
      modifies this
      ensures aborted && written == old(written)
    {
      aborted := true;
    }
  }

  class SoftwareDownload {
    const entityID: nat
    const device: Device
    const expectedSize: nat
    const windowSize: nat
    const sink: Sink
    var received: nat
    var expectedSection: nat
    var window: Octets
    var windowFailed: bool
    var crc: bv32
    var digested: Octets  // what the MD5 state has consumed
    var phase: Phase
    var end: EndTerms
    var finished: Option<FinishResult>
    ghost var sections: seq<Octets>

    ghost predicate Valid()
      reads this, sink
    {
      && 0 < windowSize <= 256
      && received == |sink.written| <= expectedSize
      && crc == Feed(INITIAL, sink.written)
      && digested == sink.written
      && window == Concat(sections)
      && expectedSection == |sections| < windowSize
      && received + |window| <= expectedSize
      && (windowFailed ==> sections == [])
      && (phase != Receiving ==>
        && sections == [] && !windowFailed
        && end == EndTerms(entityID, device, Checksum(sink.written), expectedSize)
        && |sink.written| == expectedSize)
    }

    ghost function Terms(): Terms
    {
      SoftwareTransfer.Terms.Terms(device, expectedSize, windowSize)
    }

    ghost function State(): Transfer
      reads this, sink
    {
      Active(sink.written, if windowFailed then Broken else Open(sections))
    }

    constructor (entityID: nat, device: Device, expectedSize: nat, windowSize: nat, sink: Sink)
      requires 0 < windowSize <= 256 && sink.written == []
      ensures Valid() && phase == Receiving && State() == SoftwareTransfer.Fresh && this.sink == sink
      ensures Terms() == SoftwareTransfer.Terms.Terms(device, expectedSize, windowSize)
      ensures this.entityID == entityID
    {
      this.entityID, this.device, this.expectedSize := entityID, device, expectedSize;
      this.windowSize, this.sink := windowSize, sink;
      received, expectedSection, window, windowFailed := 0, 0, [], false;
      crc, digested, phase, finished := INITIAL, [], Receiving, None;
      end := EndTerms(0, device, 0, 0);
      sections := [];
    }

    method ResetWindow()
      requires Valid()
      modifies this`window, this`windowFailed, this`expectedSection, this`sections
      ensures Valid() && State() == Active(sink.written, Open([]))
    {
      ResetFields();
    }

    method ExtendWindow(data: Octets)
      requires Valid() && phase == Receiving && !windowFailed
      requires |data| <= expectedSize - received - |window|
      modifies this`window, this`windowFailed, this`expectedSection, this`sections
      ensures Valid()
      ensures forall accepts ::
        (State(), Success) == Extend(Terms(), sink.written, old(sections), data, false, accepts)
    {
      ghost var whole := sections + [data];
      assert whole[..|whole| - 1] == sections;
      window := window + data;
      var next := expectedSection + 1;
      if next >= windowSize {
        window, windowFailed, expectedSection := [], true, 0;
        sections := [];
        return;
      }
      expectedSection := next;
      sections := whole;
    }

    /** Hand the window, with the acknowledged section at its end, to the sink. */
    method CommitWindow(data: Octets, sinkAccepts: bool) returns (ok: bool)
      requires Valid() && phase == Receiving && !windowFailed
      requires |data| <= expectedSize - received - |window|
      modifies this, sink
      ensures ok <==> sinkAccepts || Concat(old(sections) + [data]) == []
      ensures ok ==> Valid() && phase == Receiving
      ensures ok ==> State() == Active(old(sink.written) + Concat(old(sections) + [data]), Open([]))
      ensures phase == old(phase)
    {
      hide Feed, AllZero, Sum;
      ghost var whole := sections + [data];
      assert whole[..|whole| - 1] == sections;
      window := window + data;
      if |window| != 0 {
        var count, accepted := sink.Write(window, sinkAccepts);
        if !accepted || count != |window| {
          return false;
        }
        FeedConcat(INITIAL, old(sink.written), window);
        crc := UpdateCRC32A(crc, window);
        digested := digested + window;
        received := received + |window|;
      }
      assert sink.written == old(sink.written) + Concat(whole);
      ResetFields();
      return true;
    }

    method ResetFields()
      modifies this`window, this`windowFailed, this`expectedSection, this`sections
      ensures window == [] && !windowFailed && expectedSection == 0 && sections == []
    {
      window, windowFailed, expectedSection := [], false, 0;
      sections := [];
    }

    method FitSection(section: Octets) returns (fitting: Fitting)
      requires Valid()
      ensures 0 <= Room(Terms(), sink.written, sections)
      ensures fitting == Fit(Terms(), Room(Terms(), sink.written, sections), section)
      ensures fitting.Fits? ==> |fitting.data| <= expectedSize - received - |window|
    {
      var remaining := expectedSize - received - |window|;
      var data := section;
      if |data| > remaining {
        var zero := ZeroOctets(data[remaining..]);
        if device != Baseline || !zero {
          return TooLong;
        }
        data := data[..remaining];
      }
      return Fits(data);
    }

    method RejectWindow(acknowledged: bool, reply: Reply) returns (result: Reply)
      requires Valid() && phase == Receiving
      modifies this`window, this`windowFailed, this`expectedSection, this`sections
      ensures Valid()
      ensures (State(), result) == Reject(old(State()), acknowledged, reply)
    {
      window, expectedSection := [], 0;
      sections := [];
      if acknowledged {
        windowFailed := false;
        return reply;
      }
      windowFailed := true;
      return Success;
    }

    /** One section of this image. `failed` reports that the sink refused the window. */
    method Receive(number: nat, section: Octets, acknowledged: bool, sinkAccepts: bool)
      returns (result: Reply, failed: bool)
      requires Valid() && phase == Receiving
      modifies this, sink
      ensures var (t, reply) := Step(Terms(), old(State()), Section(number, section, acknowledged, sinkAccepts));
        && result == reply && (failed <==> t == Dead)
        && (!failed ==> Valid() && State() == t)
      ensures phase == Receiving
    {
      hide Feed, Concat, AllZero, Sum, Fit, Extend;
      failed := false;
      if |section| == 0 {
        result := RejectWindow(acknowledged, ParameterError);
        return;
      }
      if windowFailed {
        if number != 0 {
          if acknowledged {
            ResetWindow();
            return ProcessingError, false;
          }
          return Success, false;
        }
        ResetWindow();
      }
      if number != expectedSection {
        result := RejectWindow(acknowledged, ProcessingError);
        return;
      }
      var fitting := FitSection(section);
      if fitting.TooLong? {
        result := RejectWindow(acknowledged, ProcessingError);
        return;
      }
      result, failed := AcceptSection(fitting.data, acknowledged, sinkAccepts);
    }

    /** The section fits: extend the window or, if it is acknowledged, commit it. */
    method AcceptSection(data: Octets, acknowledged: bool, sinkAccepts: bool)
      returns (result: Reply, failed: bool)
      requires Valid() && phase == Receiving && !windowFailed
      requires |data| <= expectedSize - received - |window|
      modifies this, sink
      ensures var (t, reply) := Extend(Terms(), old(sink.written), old(sections), data, acknowledged, sinkAccepts);
        && result == reply && (failed <==> t == Dead)
        && (!failed ==> Valid() && State() == t)
      ensures phase == Receiving
    {
      hide Feed, AllZero, Sum, Concat;
      if !acknowledged {
        ExtendWindow(data);
        return Success, false;
      }
      var ok := CommitWindow(data, sinkAccepts);
      return if ok then Success else ProcessingError, !ok;
    }
  }

  method ZeroOctets(value: Octets) returns (zero: bool)
    ensures zero <==> AllZero(value)
  {
    for i := 0 to |value|
      invariant AllZero(value[..i])
    {
      if value[i] != 0 {
        return false;
      }
    }
    assert value[..|value|] == value;
    return true;
  }

  class SoftwareEngine {
    const available: bool  // a platform controller is present
    var download: SoftwareDownload?
    var statusPhase: string
    var statusBytes: nat

    constructor (available: bool)
      ensures Valid() && download == null && this.available == available
    {
      this.available := available;
      download, statusPhase, statusBytes := null, "idle", 0;
    }

    ghost function Repr(): set<object>
      reads this
    {
      {this} + if download == null then {} else {download, download.sink}
    }

    ghost predicate Valid()
      reads this, Repr()
    {
      download != null ==> download.Valid() && (download.phase == Receiving ==> statusBytes == download.received)
    }

    /** The window protocol state; no receiving download counts as dead. */
    ghost function State(): Transfer
      reads this, Repr()
    {
      if download == null || download.phase != Receiving then Dead else download.State()
    }

    predicate Busy()
      reads this, Repr()
    {
      download != null && (download.phase == Receiving || download.phase == Finalizing)
    }

    method FailDownload()
      modifies Repr()
      ensures download == null && statusPhase == "failed"
      ensures old(download != null && download.phase == Receiving) ==> old(download).sink.aborted
    {
      if download != null && download.phase == Receiving {
        download.sink.Abort();
      }
      download := null;
      statusPhase := "failed";
    }

    /** Everything that is checked before the platform is asked: an idle engine, one known circuit pack,
        and an image that is neither active nor committed. */
    predicate Eligible(request: StartRequest, image: ImageLookup)
      reads this, Repr()
    {
      && available && !Busy() && request.entityClass == SOFTWARE_IMAGE_CLASS
      && request.entityInstance <= 1 && request.imageSize > 0
      && request.numberOfCircuitPacks == 1 && request.circuitPacks == [request.entityInstance]
      && image.Image? && !image.active && !image.committed
    }

    method StartSoftwareDownload(request: StartRequest, device: Device, image: ImageLookup,
                                 starts: bool, mibAccepts: bool) returns (result: Reply)
      requires Valid() && request.windowSize < 256 && (image.Refused? ==> image.result != Success)
      modifies this
      ensures Valid()
      ensures result == Success <==> old(Eligible(request, image)) && starts && mibAccepts
      // an eligible request gives up the previous, finished download even when it then fails
      ensures result != Success ==> download == if old(Eligible(request, image)) then null else old(download)
      ensures result == Success ==>
        && download != null && fresh(download) && fresh(download.sink) && download.phase == Receiving
        && State() == SoftwareTransfer.Fresh && download.entityID == request.entityInstance
        && download.Terms() == SoftwareTransfer.Terms.Terms(device, request.imageSize, request.windowSize + 1)
    {
      if !available {
        return NotSupported;
      }
      if Busy() {
        return DeviceBusy;
      }
      if request.entityClass != SOFTWARE_IMAGE_CLASS {
        return UnknownEntity;
      }
      if request.entityInstance > 1 {
        return UnknownInstance;
      }
      if request.imageSize == 0 || request.numberOfCircuitPacks != 1 ||
         |request.circuitPacks| != 1 || request.circuitPacks[0] != request.entityInstance {
        return ParameterError;
      }
      if image.Refused? {
        return image.result;
      }
      if image.active || image.committed {
        return ParameterError;
      }
      download := null;
      if !starts {
        return ProcessingError;
      }
      var sink := new Sink();
      if !mibAccepts {
        sink.Abort();
        return ProcessingError;
      }
      download := new SoftwareDownload(request.entityInstance, device, request.imageSize,
                                       request.windowSize + 1, sink);
      statusPhase, statusBytes := "downloading", 0;
      return Success;
    }

    /** The request belongs to the download in progress. */
    predicate Addressed(request: SectionRequest, device: Device)
      reads this, Repr()
    {
      && download != null && download.phase == Receiving
      && request.entityClass == SOFTWARE_IMAGE_CLASS
      && request.entityInstance == download.entityID && device == download.device
    }

    method DownloadSoftwareSection(request: SectionRequest, device: Device, acknowledged: bool, sinkAccepts: bool)
      returns (result: Reply)
      requires Valid() && request.sectionNumber < 256
      modifies Repr()
      ensures Valid()
      ensures !old(Addressed(request, device)) ==>
        download == old(download) && State() == old(State()) && result in {ProcessingError, ParameterError}
      ensures old(Addressed(request, device)) ==>
        (State(), result) == Step(old(download.Terms()), old(State()),
          Section(request.sectionNumber, request.sectionData, acknowledged, sinkAccepts))
      ensures download == old(download) || (download == null && old(download).sink.aborted)
    {
      hide Feed, Concat, AllZero, Sum, Step;
      if download == null || download.phase != Receiving {
        return ProcessingError;
      }
      if request.entityClass != SOFTWARE_IMAGE_CLASS ||
         request.entityInstance != download.entityID || device != download.device {
        return ParameterError;
      }
      var failed;
      result, failed := download.Receive(request.sectionNumber, request.sectionData, acknowledged, sinkAccepts);
      if failed {
        FailDownload();
        return;
      }
      statusBytes := download.received;
    }

    /** The image the request names is the image in progress, asked for by the same kind of device. */
    predicate Ends(request: EndRequest, device: Device)
      reads this, Repr()
    {
      && download != null
      && request.entityClass == SOFTWARE_IMAGE_CLASS && request.entityInstance <= 1
      && request.entityInstance == download.entityID && device == download.device
    }

    /** The sink holds the whole image, no window is open, and size and checksum are those requested. */
    ghost predicate Intact(request: EndRequest)
      reads this, Repr()
    {
      && download != null
      && State() == Active(download.sink.written, Open([]))
      && |download.sink.written| == download.expectedSize == request.imageSize
      && Checksum(download.sink.written) == request.crc32
      && request.numberOfInstances == 1 && request.imageInstances == [download.entityID]
    }

    method EndSoftwareDownload(request: EndRequest, device: Device,
                               arrived: Option<FinishResult>, mibAccepts: bool) returns (result: Reply)
      requires Valid()
      modifies this, download
      modifies if download == null then {} else {download.sink}
      ensures Valid()
      // Success: the sink holds exactly the announced image with the requested checksum
      ensures result == Success ==>
        && download == old(download) != null && download.phase == Complete
        && download.sink.written == old(download.sink.written)
        && |download.sink.written| == request.imageSize == download.expectedSize
        && Checksum(download.sink.written) == request.crc32
        && download.digested == download.sink.written
      // the first End is accepted exactly when the image is intact, and otherwise ends the download
      ensures old(Ends(request, device)) && old(download.phase) == Receiving ==>
        && (result == DeviceBusy <==> old(Intact(request)))
        && (result == DeviceBusy ==> download == old(download) && download.phase == Finalizing)
        && (result != DeviceBusy ==> result == ProcessingError && download == null && old(download).sink.aborted)
      ensures !old(Ends(request, device)) ==>
        download == old(download) && result in {ProcessingError, UnknownEntity, UnknownInstance}
    {
      hide Feed;
      if download == null {
        return ProcessingError;
      }
      if request.entityClass != SOFTWARE_IMAGE_CLASS {
        return UnknownEntity;
      }
      if request.entityInstance > 1 {
        return UnknownInstance;
      }
      if request.entityInstance != download.entityID || device != download.device {
        return ProcessingError;
      }
      var end := EndTerms(request.entityInstance, device, request.crc32, request.imageSize);
      if download.phase != Receiving {
        if end != download.end {
          return ProcessingError;
        }
        result := FinishStatus(arrived, mibAccepts);
        return;
      }
      var validRequest := request.imageSize == download.expectedSize && request.imageSize == download.received &&
        request.numberOfInstances == 1 && |request.imageInstances| == 1 &&
        request.imageInstances[0] == download.entityID && |download.window| == 0 &&
        !download.windowFailed && download.expectedSection == 0;
      if !validRequest || request.crc32 != Sum(download.crc) {
        FailDownload();
        return ProcessingError;
      }
      download.phase := Finalizing;
      download.end := end;
      statusPhase := "finalizing";
      return DeviceBusy;
    }

    method FinishStatus(arrived: Option<FinishResult>, mibAccepts: bool) returns (result: Reply)
      requires Valid() && download != null && download.phase != Receiving
      modifies this`statusPhase, this`statusBytes, download`phase, download`finished
      ensures Valid() && download.phase != Receiving
      ensures result == Success <==> download.phase == Complete
      ensures result == DeviceBusy ==> download.phase == Finalizing == old(download.phase)
      ensures old(download.phase) == Complete ==> result == Success
      ensures old(download.phase) == Failed ==> result == ProcessingError && download.phase == Failed
      ensures result == Success && old(download.phase) == Finalizing ==>
        mibAccepts && download.finished.Some? && download.finished.value.ok
    {
      if download.phase == Complete {
        return Success;
      }
      if download.phase == Failed {
        return ProcessingError;
      }
      if download.finished.None? {
        if arrived.None? {
          return DeviceBusy;
        }
        download.finished := arrived;
      }
      var outcome := download.finished.value;
      if !outcome.ok || outcome.versionLength > MAX_VERSION_LENGTH ||
         outcome.productCodeLength > MAX_PRODUCT_CODE_LENGTH {
        download.phase := Failed;
        statusPhase := "failed";
        return ProcessingError;
      }
      if !mibAccepts {
        return ProcessingError;
      }
      download.phase := Complete;
      statusPhase := "staged";
      statusBytes := download.expectedSize;
      return Success;
    }
  }
}
