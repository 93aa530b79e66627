/** The window protocol of a software download, as a machine over whole windows.
    A window is the list of sections received since the last boundary; acknowledging its last
    section commits it. The engine (SoftwareEngine) keeps counters and a running CRC instead. */
module SoftwareTransfer {
  import opened Sequences
  import opened Crc32a

  /** The managed entity class of a software image. */
  const SOFTWARE_IMAGE_CLASS: nat := 7

  datatype Device = Baseline | Extended

  /** One section message that is addressed to the image being downloaded. */
  datatype Section = Section(number: nat, data: Octets, acknowledged: bool, sinkAccepts: bool)

  datatype Window = Open(sections: seq<Octets>) | Broken

  datatype Transfer =
    | Active(committed: Octets, window: Window)
    | Dead  // the sink refused a write and the download was given up

  /** OMCI result codes. */
  datatype Reply =
    | Success | ProcessingError | NotSupported | ParameterError | UnknownEntity | UnknownInstance | DeviceBusy

  /** The fixed terms of one download. */
  datatype Terms = Terms(device: Device, size: nat, windowSize: nat)

  datatype Fitting = Fits(data: Octets) | TooLong

  /** The part of a section that still belongs to the image; only a baseline section may be padded with zeros. */
  function Fit(terms: Terms, room: nat, data: Octets): Fitting {
    if |data| <= room then Fits(data)
    else if terms.device.Baseline? && AllZero(data[room..]) then Fits(data[..room])
    else TooLong
  }

  function Room(terms: Terms, committed: Octets, sections: seq<Octets>): int {
    terms.size - |committed| - |Concat(sections)|
  }

  function Reject(t: Transfer, acknowledged: bool, reply: Reply): (Transfer, Reply)
    requires t.Active?
  {
    if acknowledged then (t.(window := Open([])), reply) else (t.(window := Broken), Success)
  }

  predicate Within(terms: Terms, t: Transfer) {
    t.Active? ==>
      && |t.committed| <= terms.size
      && (t.window.Open? ==>
        |t.window.sections| < terms.windowSize && Room(terms, t.committed, t.window.sections) >= 0)
  }

  function Step(terms: Terms, t: Transfer, s: Section): (r: (Transfer, Reply))
    requires terms.windowSize > 0 && Within(terms, t)
    ensures Within(terms, r.0)
  {
    if t.Dead? then (t, ProcessingError)
    else if s.data == [] then Reject(t, s.acknowledged, ParameterError)
    else if t.window.Broken? && s.number != 0 then
      if s.acknowledged then (t.(window := Open([])), ProcessingError) else (t, Success)
    else
      var sections := if t.window.Broken? then [] else t.window.sections;
      if s.number != |sections| then Reject(t, s.acknowledged, ProcessingError)
      else
        match Fit(terms, Room(terms, t.committed, sections), s.data)
        case TooLong => Reject(t, s.acknowledged, ProcessingError)
        case Fits(data) => Extend(terms, t.committed, sections, data, s.acknowledged, s.sinkAccepts)
  }

  function Extend(terms: Terms, committed: Octets, sections: seq<Octets>, data: Octets,
                  acknowledged: bool, sinkAccepts: bool)
    : (r: (Transfer, Reply))
    requires |sections| < terms.windowSize
    requires |data| <= Room(terms, committed, sections)
    ensures Within(terms, r.0)
  {
    var whole := sections + [data];
    assert whole[..|sections|] == sections;
    var bytes := Concat(whole);
    if !acknowledged then
      (Active(committed, if |whole| >= terms.windowSize then Broken else Open(whole)), Success)
    else if bytes != [] && !sinkAccepts then (Dead, ProcessingError)
    else (Active(committed + bytes, Open([])), Success)
  }

  // ---------- whole runs ----------

  const Fresh: Transfer := Active([], Open([]))

  function Run(terms: Terms, log: seq<Section>): (t: Transfer)
    requires terms.windowSize > 0
    ensures Within(terms, t)
  {
    if log == [] then Fresh
    else Step(terms, Run(terms, log[..|log| - 1]), log[|log| - 1]).0
  }

  /** What the last section message of a run is answered. */
  function LastReply(terms: Terms, log: seq<Section>): Reply
    requires terms.windowSize > 0 && log != []
  {
    Step(terms, Run(terms, log[..|log| - 1]), log[|log| - 1]).1
  }

  /** `kept` is a section's data, cut only where baseline zero padding begins. */
  predicate Trimmed(terms: Terms, data: Octets, kept: Octets) {
    kept <= data && (kept != data ==> terms.device.Baseline? && AllZero(data[|kept|..]))
  }

  /** An open window is exactly the tail of the run: unacknowledged sections numbered 0, 1, 2, ... */
  ghost predicate IsTail(terms: Terms, log: seq<Section>, sections: seq<Octets>) {
    && |sections| <= |log|
    && forall i :: 0 <= i < |sections| ==> InOrder(terms, log[|log| - |sections| + i], i, sections[i])
  }

  predicate InOrder(terms: Terms, s: Section, i: nat, kept: Octets) {
    s.number == i && !s.acknowledged && Trimmed(terms, s.data, kept)
  }

  lemma FitTrims(terms: Terms, room: nat, data: Octets)
    ensures Fit(terms, room, data).Fits? ==> Trimmed(terms, data, Fit(terms, room, data).data)
  {}

  /** The sections already gathered when a message arrives: a broken window starts again from nothing. */
  function Gathered(t: Transfer): seq<Octets>
    requires t.Active?
  {
    if t.window.Broken? then [] else t.window.sections
  }

  lemma RoomIsNat(terms: Terms, t: Transfer)
    requires Within(terms, t) && t.Active?
    ensures Room(terms, t.committed, Gathered(t)) >= 0
  {}

  lemma RunUnfolds(terms: Terms, before: seq<Section>, s: Section)
    requires terms.windowSize > 0
    ensures Run(terms, before + [s]) == Step(terms, Run(terms, before), s).0
    ensures LastReply(terms, before + [s]) == Step(terms, Run(terms, before), s).1
  {
    assert (before + [s])[..|before|] == before;
  }

  /** An open, non-empty window was extended by an unacknowledged section with the next number. */
  lemma StepExtends(terms: Terms, t: Transfer, s: Section)
    requires terms.windowSize > 0 && Within(terms, t) && t.Active?
    ensures var t' := Step(terms, t, s).0;
      t'.Active? && t'.window.Open? && t'.window.sections != [] ==>
        var sections := t'.window.sections;
        && !s.acknowledged && s.number == |Gathered(t)| == |sections| - 1
        && sections[..|sections| - 1] == Gathered(t)
        && Trimmed(terms, s.data, sections[|sections| - 1])
  {
    RoomIsNat(terms, t);
    hide AllZero, Concat, Trimmed;
    if s.number == |Gathered(t)| {
      FitTrims(terms, Room(terms, t.committed, Gathered(t)), s.data);
    }
  }

  lemma {:induction false} OpenWindowIsTail(terms: Terms, log: seq<Section>)
    requires terms.windowSize > 0
    ensures var t := Run(terms, log); t.Active? ==> IsTail(terms, log, Gathered(t))
  {
    if log != [] {
      var before, s := log[..|log| - 1], log[|log| - 1];
      OpenWindowIsTail(terms, before);
      assert before + [s] == log;
      RunUnfolds(terms, before, s);
      hide Step, Trimmed, Run, IsTail, Within;
      var t, t' := Run(terms, before), Run(terms, log);
      if t'.Active? {
        DeadStaysDead(terms, t, s);
        StepExtends(terms, t, s);
        if Gathered(t') != [] {
          TailExtends(terms, before, s, Gathered(t'));
        } else {
          EmptyTail(terms, log);
        }
      }
    }
  }

  lemma DeadStaysDead(terms: Terms, t: Transfer, s: Section)
    requires terms.windowSize > 0 && Within(terms, t)
    ensures t.Dead? ==> Step(terms, t, s) == (Dead, ProcessingError)
  {}

  lemma EmptyTail(terms: Terms, log: seq<Section>)
    ensures IsTail(terms, log, [])
  {}

  lemma TailExtends(terms: Terms, before: seq<Section>, s: Section, sections: seq<Octets>)
    requires sections != [] && IsTail(terms, before, sections[..|sections| - 1])
    requires s.number == |sections| - 1 && !s.acknowledged
    requires Trimmed(terms, s.data, sections[|sections| - 1])
    ensures IsTail(terms, before + [s], sections)
  {
    hide Trimmed;
    var log, n := before + [s], |sections| - 1;
    forall i | 0 <= i <= n ensures InOrder(terms, log[|log| - |sections| + i], i, sections[i]) {
      if i < n {
        assert sections[..n][i] == sections[i];
        assert log[|log| - |sections| + i] == before[|before| - n + i];
      }
    }
  }

  /** A committed window: the sections gathered so far and the acknowledged one. */
  ghost predicate IsWindow(terms: Terms, before: seq<Section>, s: Section, sections: seq<Octets>) {
    && |sections| == s.number + 1
    && IsTail(terms, before, sections[..s.number])
    && Trimmed(terms, s.data, sections[s.number])
  }

  lemma StepCommits(terms: Terms, t: Transfer, s: Section) returns (kept: Octets)
    requires terms.windowSize > 0 && Within(terms, t) && t.Active?
    requires s.acknowledged && Step(terms, t, s).1 == Success
    ensures s.number == |Gathered(t)| && Trimmed(terms, s.data, kept)
    ensures Step(terms, t, s).0 == Active(t.committed + Concat(Gathered(t) + [kept]), Open([]))
  {
    RoomIsNat(terms, t);
    hide AllZero, Concat, Trimmed;
    FitTrims(terms, Room(terms, t.committed, Gathered(t)), s.data);
    kept := Fit(terms, Room(terms, t.committed, Gathered(t)), s.data).data;
  }

  /** Rejection leaves no trace: a refused section, or one that only extends or breaks a window,
      changes no committed byte, and a refusal that is acknowledged leaves an empty window. */
  lemma StepKeepsCommitted(terms: Terms, t: Transfer, s: Section)
    requires terms.windowSize > 0 && Within(terms, t) && t.Active?
    requires !(s.acknowledged && Step(terms, t, s).1 == Success)
    ensures var t' := Step(terms, t, s).0; t'.Active? ==> t'.committed == t.committed
    ensures var t' := Step(terms, t, s).0; t'.Active? && s.acknowledged ==> t'.window == Open([])
  {
    hide AllZero, Concat;
  }

  /** Committing. An acknowledged section numbered k that is answered Success adds to the sink exactly the
      last k+1 section messages of the run, numbered 0 to k in order; nothing else ever adds to it. */
  lemma CommitIsConsecutiveWindow(terms: Terms, log: seq<Section>) returns (sections: seq<Octets>)
    requires terms.windowSize > 0 && log != []
    requires Run(terms, log[..|log| - 1]).Active? && Run(terms, log).Active?
    ensures var c, c' := Run(terms, log[..|log| - 1]).committed, Run(terms, log).committed;
      var s := log[|log| - 1];
      if s.acknowledged && LastReply(terms, log) == Success then
        c' == c + Concat(sections) && IsWindow(terms, log[..|log| - 1], s, sections)
      else c' == c
  {
    var before, s := log[..|log| - 1], log[|log| - 1];
    hide Step, Trimmed, IsTail, Run, LastReply, Concat, Within;
    sections := [];
    assert before + [s] == log;
    RunUnfolds(terms, before, s);
    OpenWindowIsTail(terms, before);
    var t := Run(terms, before);
    if s.acknowledged && LastReply(terms, log) == Success {
      var kept := StepCommits(terms, t, s);
      sections := Gathered(t) + [kept];
      assert sections[..s.number] == Gathered(t);
    } else {
      StepKeepsCommitted(terms, t, s);
    }
  }

  /** The sink only ever grows, and never beyond the announced size. */
  lemma {:induction false} CommittedGrows(terms: Terms, log: seq<Section>, n: nat)
    requires terms.windowSize > 0 && n <= |log|
    ensures var t, t' := Run(terms, log[..n]), Run(terms, log);
      t'.Active? ==> t.Active? && t.committed <= t'.committed && |t'.committed| <= terms.size
  {
    hide Step;
    if n == |log| {
      assert log[..n] == log;
    } else {
      var before := log[..|log| - 1];
      CommittedGrows(terms, before, n);
      assert before[..n] == log[..n];
      StepOnlyGrows(terms, Run(terms, before), log[|log| - 1]);
    }
  }

  lemma StepOnlyGrows(terms: Terms, t: Transfer, s: Section)
    requires terms.windowSize > 0 && Within(terms, t)
    ensures var t' := Step(terms, t, s).0;
      t'.Active? ==> t.Active? && t.committed <= t'.committed && |t'.committed| <= terms.size
  {
    hide Concat, Fit;
  }

  /** A window sent cleanly: section i carries number i, and only the last one asks for an answer. */
  predicate SentCleanly(sections: seq<Octets>, log: seq<Section>) {
    && |sections| == |log|
    && forall i :: 0 <= i < |log| ==>
         log[i] == Section(i, sections[i], i == |log| - 1, true) && sections[i] != []
  }

  /** Recovery. Whatever happened before, a window sent from section 0 with every section in order and
      the last one acknowledged is committed, provided it is not empty, fits, and the sink takes it. */
  lemma {:induction false} CleanWindowIsCommitted(terms: Terms, t: Transfer, sections: seq<Octets>, log: seq<Section>)
    requires terms.windowSize > 0 && Within(terms, t) && t.Active?
    requires t.window == Broken || t.window == Open([])
    requires SentCleanly(sections, log) && 0 < |log| <= terms.windowSize
    requires |t.committed| + |Concat(sections)| <= terms.size
    ensures FoldSteps(terms, t, log) == Active(t.committed + Concat(sections), Open([]))
  {
    var n := |log| - 1;
    PrefixStaysOpen(terms, t, sections, log, n);
    StepInOrder(terms, FoldSteps(terms, t, log[..n]), log[n], sections);
  }

  function FoldSteps(terms: Terms, t: Transfer, log: seq<Section>): (r: Transfer)
    requires terms.windowSize > 0 && Within(terms, t)
    ensures Within(terms, r)
  {
    if log == [] then t
    else Step(terms, FoldSteps(terms, t, log[..|log| - 1]), log[|log| - 1]).0
  }

  lemma OneMoreStep(terms: Terms, t: Transfer, log: seq<Section>, n: nat)
    requires terms.windowSize > 0 && Within(terms, t) && 0 < n <= |log|
    ensures FoldSteps(terms, t, log[..n]) == Step(terms, FoldSteps(terms, t, log[..n - 1]), log[n - 1]).0
  {
    hide Step, Within;
    assert log[..n][..n - 1] == log[..n - 1] && log[..n][n - 1] == log[n - 1];
  }

  lemma {:induction false} PrefixStaysOpen(terms: Terms, t: Transfer, sections: seq<Octets>, log: seq<Section>, n: nat)
    requires terms.windowSize > 0 && Within(terms, t) && t.Active?
    requires t.window == Broken || t.window == Open([])
    requires SentCleanly(sections, log) && n < |log| <= terms.windowSize
    requires |t.committed| + |Concat(sections)| <= terms.size
    ensures FoldSteps(terms, t, log[..n]) == if n == 0 then t else Active(t.committed, Open(sections[..n]))
  {
    if n > 0 {
      hide Step, Concat, Within, FoldSteps, SentCleanly;
      PrefixStaysOpen(terms, t, sections, log, n - 1);
      OneMoreStep(terms, t, log, n);
      PrefixStep(terms, t.committed, FoldSteps(terms, t, log[..n - 1]), sections, log, n);
    }
  }

  /** The next section of a clean window, other than the last, keeps the window open. */
  lemma PrefixStep(terms: Terms, committed: Octets, before: Transfer, sections: seq<Octets>, log: seq<Section>, n: nat)
    requires terms.windowSize > 0 && Within(terms, before) && before.Active?
    requires SentCleanly(sections, log) && 0 < n < |log| <= terms.windowSize
    requires before.committed == committed && Gathered(before) == sections[..n - 1]
    requires |committed| + |Concat(sections)| <= terms.size
    ensures Step(terms, before, log[n - 1]).0 == Active(committed, Open(sections[..n]))
  {
    hide Step, Concat, Within;
    FlattenPrefix(sections, n);
    assert sections[..n][..n - 1] == sections[..n - 1];
    StepInOrder(terms, before, log[n - 1], sections[..n]);
  }

  /** A non-empty section with the next number that fits, unacknowledged, extends the window. */
  lemma StepInOrder(terms: Terms, t: Transfer, s: Section, whole: seq<Octets>)
    requires terms.windowSize > 0 && Within(terms, t) && t.Active?
    requires whole != [] && whole[..|whole| - 1] == Gathered(t) && whole[|whole| - 1] == s.data != []
    requires s.number == |Gathered(t)| && |whole| <= terms.windowSize
    requires |t.committed| + |Concat(whole)| <= terms.size
    ensures !s.acknowledged && |whole| < terms.windowSize ==>
      Step(terms, t, s) == (Active(t.committed, Open(whole)), Success)
    ensures s.acknowledged && s.sinkAccepts ==>
      Step(terms, t, s) == (Active(t.committed + Concat(whole), Open([])), Success)
  {
    assert Gathered(t) + [s.data] == whole;
  }

  lemma {:induction false} FlattenPrefix(sections: seq<Octets>, n: nat)
    requires n <= |sections|
    ensures Concat(sections[..n]) <= Concat(sections)
  {
    if n == |sections| {
      assert sections[..n] == sections;
    } else {
      FlattenPrefix(sections[..|sections| - 1], n);
      assert sections[..|sections| - 1][..n] == sections[..n];
    }
  }
}
