/** What the network has heard about each group, and what the clients of the group accept
    (sendReportLocked and its callers in internal/multicast/runtime.go, and the membership records of
    internal/multicast/report_build.go). */
module NetworkView {
  import opened Clock
  import opened Sequences
  import opened MulticastTypes
  import opened Membership
  import opened StreamTable
  import opened ReportRate
  import PolicyMatch

  /** Streams of one subscriber, interface, group and VLAN are reported together. */
  datatype GroupKey = GroupKey(subscriberID: nat, interfaceName: string, group: Addr, vlan: VLAN)

  function GroupOf(key: StreamKey): GroupKey { GroupKey(key.subscriberID, key.interfaceName, key.group, key.vlan) }

  /** The sources the network delivers for each group, as the records it has heard ask for. */
  type Heard = map<GroupKey, iset<Addr>>

  ghost function Believed(heard: Heard, group: GroupKey): iset<Addr> { if group in heard then heard[group] else iset{} }

  // ---------- one report ----------

  /** The versions whose reports carry source lists. */
  predicate ListsSources(version: nat) { version == 3 || version == 17 }

  predicate Mapped(a: Addr) { a.V6? && a.value / 0x1_0000_0000 == 0xffff }

  function IncludedSources(report: ActiveGroup): seq<Addr> {
    if report.includedSources == [] && report.source != Wildcard(report.group) then [report.source]
    else report.includedSources
  }

  /** The record of the frame built for a report; an IGMPv1 leave has no frame. */
  function RecordSent(version: nat, join: bool, report: ActiveGroup): Option<MembershipRecord> {
    if version == 1 && !join then None
    else if !ListsSources(version) then
      Some(MembershipRecord(if join then ModeIsExclude else ChangeToIncludeMode, report.group, []))
    else if join then
      if report.source == Wildcard(report.group)
      then Some(MembershipRecord(ChangeToExcludeMode, report.group, report.excludedSources))
      else Some(MembershipRecord(ChangeToIncludeMode, report.group, IncludedSources(report)))
    else if report.source == Wildcard(report.group) then Some(MembershipRecord(ChangeToIncludeMode, report.group, []))
    else Some(MembershipRecord(BlockOldSources, report.group, [report.source]))
  }

  /** What the builder demands of a report before it makes a frame of it. */
  predicate Sendable(version: nat, join: bool, report: ActiveGroup) {
    && report.group.IsMulticast() && report.source.IsValid() && report.source.SameFamily(report.group)
    && report.client.IsValid() && report.client.SameFamily(report.group)
    && (if report.group.V4? then 1 <= version <= 3 else version == 16 || version == 17)
    && (ListsSources(version) ==>
          && |report.excludedSources| < 0x1_0000 && |IncludedSources(report)| < 0x1_0000
          && (join ==> forall a :: a in RecordSent(version, join, report).value.sources ==>
                a.IsValid() && a.SameFamily(report.group) && !Mapped(a)))
  }

  ghost function HeardAfter(heard: Heard, group: GroupKey, record: Option<MembershipRecord>): Heard {
    if record.None? then heard else heard[group := Meaning(Believed(heard, group), record.value)]
  }

  /** One attempt to report under the profile's limit, and what the network hears if the backend sends it. */
  ghost function Delivered(rates: Rates, heard: Heard, key: StreamKey, profile: Profile, join: bool,
                           report: ActiveGroup,
                           now: Time, sent: bool): (Rates, Heard) {
    var (next, admitted) := Attempted(rates, RateKeyOf(key, profile), profile.upstreamRate, now);
    (next,
     if admitted && sent then HeardAfter(heard, GroupOf(key), RecordSent(profile.igmpVersion, join, report)) else heard)
  }

  function RateKeyOf(key: StreamKey, profile: Profile): RateKey {
    RateKey(key.subscriberID, key.interfaceName, profile.entityID)
  }

  // ---------- clients and reports, step by step ----------

  datatype View = View(streams: Streams, heard: Heard, rates: Rates)

  const Nothing: View := View(map[], map[], map[])

  /** What the runtime does to one stream, with the report it attempts, if any. `sent` is the backend's
      answer: a frame that no interface can carry is not sent. */
  datatype Event =
    | Joined(key: StreamKey, id: Identity, client: Client, changed: bool, profile: Profile, report: ActiveGroup,
             now: Time,
             sent: bool)
    | Departed(key: StreamKey, id: Identity, reported: bool, profile: Profile, report: ActiveGroup, now: Time,
               sent: bool)
    | Announced(key: StreamKey, id: Identity, profile: Profile, report: ActiveGroup, now: Time, sent: bool)
    | Forwarded(key: StreamKey, profile: Profile, report: ActiveGroup, now: Time, sent: bool)

  /** What a configuration installs: its profiles, and the subscriber of each bound interface. */
  datatype Setup = Setup(profiles: map<nat, Profile>, bindings: map<string, Subscriber>)

  /** The profile is in force for the subscriber of the interface and the VLAN. */
  predicate InForce(bindings: map<string, Subscriber>, key: StreamKey, profileID: nat) {
    && key.interfaceName in bindings && bindings[key.interfaceName].entityID == key.subscriberID
    && profileID in PolicyMatch.InForce(bindings[key.interfaceName], key.vlan)
  }

  /** The profile is a configured one, up to the learned robustness, and in force for the stream. */
  predicate Knows(setup: Setup, key: StreamKey, profile: Profile) {
    && profile.entityID in setup.profiles
    && setup.profiles[profile.entityID].(robustness := profile.robustness) == profile
    && InForce(setup.bindings, key, profile.entityID)
  }

  function WithClient(streams: Streams, key: StreamKey, id: Identity, client: Client): Streams {
    streams[key := (if key in streams then streams[key] else map[])[id := client]]
  }

  /** Removing a client removes its stream with the last one. */
  function WithoutClient(streams: Streams, key: StreamKey, id: Identity): Streams {
    if key !in streams || id !in streams[key] then streams
    else if streams[key].Keys == {id} then streams - {key}
    else streams[key := streams[key] - {id}]
  }

  predicate Has(streams: Streams, key: StreamKey, id: Identity) { key in streams && id in streams[key] }

  ghost predicate Alive(streams: Streams, key: StreamKey) { exists other :: other in streams && Sibling(other, key) }

  /** A snooping profile reports every change of a client, a proxy only what changes for the group. */
  predicate Sends(e: Event) {
    match e
    case Joined(_, _, _, changed, profile, _, _, _) => profile.igmpFunction == 0 || changed
    case Departed(_, _, reported, _, _, _, _) => reported
    case Announced(_, _, _, _, _, _) => true
    case Forwarded(_, _, _, _, _) => true
  }

  ghost predicate IsJoin(e: Event, after: Streams) {
    match e
    case Joined(_, _, _, _, _, _, _, _) => true
    case Departed(_, _, _, profile, _, _, _) => profile.igmpFunction != 0 && Alive(after, e.key)
    case Announced(_, _, _, _, _, _) => false
    case Forwarded(_, _, _, _, _) => true
  }

  function StreamsAfter(streams: Streams, e: Event): Streams {
    match e
    case Joined(key, id, client, _, _, _, _, _) => WithClient(streams, key, id, client)
    case Departed(key, id, _, _, _, _, _) => WithoutClient(streams, key, id)
    case Announced(_, _, _, _, _, _) => streams
    case Forwarded(_, _, _, _, _) => streams
  }

  /** A proxy's report: a join asks for exactly what the clients of the group accept, and a leave is sent
      for the whole group, only when no client is left. */
  ghost predicate Truthful(join: bool, report: ActiveGroup, streams: Streams, key: StreamKey) {
    && report.group == key.group && join == Alive(streams, key)
    && (if join then AsksFor(report, streams, key) else report.source == Wildcard(report.group))
  }

  ghost predicate AsksFor(report: ActiveGroup, streams: Streams, key: StreamKey) {
    && (report.source.IsUnspecified() <==> report.source == Wildcard(report.group))
    && (!report.source.IsUnspecified() ==> report.includedSources != [])
    && forall a :: Asks(report, a) <==> SomeoneAccepts(streams, key, a)
  }

  /** A snooping profile reports the client; a proxy reports the group unless its exclusions stay. */
  ghost predicate ReportsJoin(before: Streams, after: Streams, key: StreamKey, client: Client, changed: bool,
                              profile: Profile, report: ActiveGroup) {
    && (!changed ==>
          && key in before && key in after
          && Exclusions(key.source, before[key]) == Exclusions(key.source, after[key]))
    && (profile.igmpFunction == 0 ==> report == client.group)
    && (profile.igmpFunction != 0 && changed ==> Truthful(true, report, after, key))
  }

  /** A snooping profile reports the client's stream; a proxy what is left of the group, unless that
      accepts what it accepted before. */
  ghost predicate ReportsLeave(before: Streams, after: Streams, key: StreamKey, reported: bool, profile: Profile,
                               report: ActiveGroup) {
    && (profile.igmpFunction == 0 ==> report.source == key.source && report.group == key.group)
    && (profile.igmpFunction != 0 && reported ==> Truthful(Alive(after, key), report, after, key))
    && (profile.igmpFunction != 0 && !reported ==>
          forall a :: SomeoneAccepts(before, key, a) <==> SomeoneAccepts(after, key, a))
  }

  /** What is reported, and when a proxy need not report. */
  ghost predicate Reports(before: Streams, e: Event, after: Streams) {
    match e
    case Joined(key, id, client, changed, profile, report, _, _) =>
      Filed(key, client) && key.group.IsValid() && ReportsJoin(before, after, key, client, changed, profile, report)
    case Departed(key, id, reported, profile, report, _, _) =>
      key in before && ReportsLeave(before, after, key, reported, profile, report)
    case Announced(key, id, profile, report, _, _) =>
      profile.igmpFunction == 0 && Has(before, key, id) && report.source == key.source && report.group == key.group
    case Forwarded(key, profile, report, _, _) =>
      profile.unauthorizedJoinBehaviour && report.source == key.source && report.group == key.group
  }

  ghost predicate Step(setup: Setup, before: View, e: Event, after: View) {
    && Knows(setup, e.key, e.profile) && AllPeopled(after.streams)
    && after.streams == StreamsAfter(before.streams, e)
    && Reports(before.streams, e, after.streams)
    && Transmits(before, after, e.key, e.profile, IsJoin(e, after.streams), e.report, e.now, Sends(e), e.sent)
  }

  /** A due report is attempted under the limit; only a sendable one can be sent. */
  ghost predicate Transmits(before: View, after: View, key: StreamKey, profile: Profile, join: bool,
                            report: ActiveGroup,
                           now: Time, due: bool, sent: bool) {
    && (due && sent && Attempted(before.rates, RateKeyOf(key, profile), profile.upstreamRate, now).1 ==>
          Sendable(profile.igmpVersion, join, report))
    && (after.rates, after.heard) ==
       if due then Delivered(before.rates, before.heard, key, profile, join, report, now, sent)
       else (before.rates, before.heard)
  }

  ghost predicate LimitAdmits(before: View, e: Event) {
    Attempted(before.rates, RateKeyOf(e.key, e.profile), e.profile.upstreamRate, e.now).1
  }

  lemma JoinedStep(setup: Setup, before: View, after: View, key: StreamKey, id: Identity, client: Client,
                   changed: bool, profile: Profile, report: ActiveGroup, now: Time, sent: bool)
    requires Knows(setup, key, profile) && Filed(key, client) && key.group.IsValid() && AllPeopled(after.streams)
    requires after.streams == WithClient(before.streams, key, id, client)
    requires ReportsJoin(before.streams, after.streams, key, client, changed, profile, report)
    requires Transmits(before, after, key, profile, true, report, now, profile.igmpFunction == 0 || changed, sent)
    ensures Step(setup, before, Joined(key, id, client, changed, profile, report, now, sent), after)
  {
    hide Knows, AllPeopled, ReportsJoin, Transmits, WithClient;
  }

  lemma DepartedStep(setup: Setup, before: View, after: View, key: StreamKey, id: Identity,
                     reported: bool,
                     profile: Profile, report: ActiveGroup, now: Time, sent: bool)
    requires Knows(setup, key, profile) && key in before.streams && AllPeopled(after.streams)
    requires after.streams == WithoutClient(before.streams, key, id)
    requires ReportsLeave(before.streams, after.streams, key, reported, profile, report)
    requires Transmits(before, after, key, profile, profile.igmpFunction != 0 && Alive(after.streams, key), report, now,
                       reported, sent)
    ensures Step(setup, before, Departed(key, id, reported, profile, report, now, sent), after)
  {
    hide Knows, AllPeopled, ReportsLeave, Transmits, WithoutClient, Alive;
  }

  /** A run since a configuration, which forgets all clients. */
  datatype Run = Run(views: seq<View>, events: seq<Event>)

  ghost predicate IsRun(setup: Setup, run: Run) {
    && |run.views| == |run.events| + 1 && run.views[0].streams == map[]
    && forall i :: 0 <= i < |run.events| ==> Step(setup, run.views[i], run.events[i], run.views[i + 1])
  }

  ghost function Last(run: Run): View
    requires |run.views| > 0
  {
    run.views[|run.views| - 1]
  }

  ghost predicate Traced(setup: Setup, run: Run, view: View) {
    IsRun(setup, run) && Last(run) == view
  }

  function Extended(run: Run, e: Event, view: View): Run { Run(run.views + [view], run.events + [e]) }

  lemma RunExtends(setup: Setup, run: Run, e: Event, view: View)
    requires IsRun(setup, run) && Step(setup, Last(run), e, view)
    ensures Traced(setup, Extended(run, e, view), view)
  {
    hide Step;
    var next := Extended(run, e, view);
    forall i | 0 <= i < |next.events| ensures Step(setup, next.views[i], next.events[i], next.views[i + 1]) {
      if i < |run.events| {
        assert next.views[i] == run.views[i] && next.views[i + 1] == run.views[i + 1];
        assert next.events[i] == run.events[i];
      }
    }
  }

  /** The run has gone one step further, in which the client joined. */
  ghost predicate JoinRecorded(before: Run, after: Run, view: View, key: StreamKey, id: Identity, client: Client,
                               profile: Profile, now: Time, sent: bool) {
    exists changed, report ::
      after == Extended(before, Joined(key, id, client, changed, profile, report, now, sent), view)
  }

  ghost predicate ForwardRecorded(before: Run, after: Run, view: View, key: StreamKey, profile: Profile, now: Time,
                                  sent: bool) {
    exists report :: after == Extended(before, Forwarded(key, profile, report, now, sent), view)
  }

  /** The run has gone one step further, in which the client left; a snooping profile reported it if asked to. */
  ghost predicate DepartRecorded(before: Run, after: Run, view: View, key: StreamKey, id: Identity, profile: Profile,
                                 sendReport: bool, now: Time, sent: bool) {
    exists reported, report ::
      && (profile.igmpFunction == 0 ==> reported == sendReport)
      && after == Extended(before, Departed(key, id, reported, profile, report, now, sent), view)
  }

  /** The last step of a run. */
  lemma LastStep(setup: Setup, before: Run, e: Event, view: View)
    requires IsRun(setup, before) && IsRun(setup, Extended(before, e, view))
    ensures |before.views| > 0 && Step(setup, Last(before), e, view) && AllPeopled(Last(before).streams)
  {
    RunIsPeopled(setup, before, |before.events|);
    hide Step;
    var after, n := Extended(before, e, view), |before.events|;
    assert Step(setup, after.views[n], after.events[n], after.views[n + 1]);
  }

  lemma RunStarts(setup: Setup, heard: Heard)
    ensures Traced(setup, Run([View(map[], heard, map[])], []), View(map[], heard, map[]))
  {}

  // ---------- an informed network ----------

  /** The network delivers for the group exactly the sources that some client accepts, none without
      clients. */
  ghost predicate Informed(view: View, key: StreamKey) {
    Believed(view.heard, GroupOf(key)) == iset a | SomeoneAccepts(view.streams, key, a)
  }

  ghost predicate AllInformed(view: View) { forall key :: Informed(view, key) }

  /** A proxy's step whose report, if one is due, reaches the network with its sources. */
  ghost predicate Faithful(before: View, e: Event) {
    && e.profile.igmpFunction != 0 && ListsSources(e.profile.igmpVersion) && !e.Forwarded?
    && (Sends(e) ==> LimitAdmits(before, e) && e.sent)
  }

  ghost predicate OnlyDiffersAt(before: Streams, after: Streams, changed: StreamKey) {
    forall key :: key != changed ==> (key in before <==> key in after) && (key in before ==> before[key] == after[key])
  }

  lemma AcceptsElsewhere(before: Streams, after: Streams, changed: StreamKey, key: StreamKey, a: Addr)
    requires OnlyDiffersAt(before, after, changed) && GroupOf(key) != GroupOf(changed)
    ensures SomeoneAccepts(before, key, a) ==> SomeoneAccepts(after, key, a)
  {
    if SomeoneAccepts(before, key, a) {
      var other, id :| other in before && Sibling(other, key) && id in before[other] &&
        Delivers(other.source, before[other][id].group.excludedSources, a);
      assert other in after && after[other] == before[other];
    }
  }

  lemma SilentAtFirst(view: View, key: StreamKey)
    requires view.streams == map[] && Believed(view.heard, GroupOf(key)) == iset{}
    ensures Informed(view, key)
  {}

  /** A step concerns the group of its stream only. */
  lemma StepIsLocal(setup: Setup, before: View, e: Event, after: View, key: StreamKey)
    requires Step(setup, before, e, after) && GroupOf(key) != GroupOf(e.key)
    ensures Believed(after.heard, GroupOf(key)) == Believed(before.heard, GroupOf(key))
    ensures forall a :: SomeoneAccepts(after.streams, key, a) <==> SomeoneAccepts(before.streams, key, a)
  {
    hide Reports, SomeoneAccepts, Sendable, RecordSent, Meaning, AllPeopled, Knows;
    assert OnlyDiffersAt(before.streams, after.streams, e.key);
    hide OnlyDiffersAt, WithClient, WithoutClient;
    forall a ensures SomeoneAccepts(after.streams, key, a) <==> SomeoneAccepts(before.streams, key, a) {
      DiffersBothWays(before.streams, after.streams, e.key);
      AcceptsElsewhere(before.streams, after.streams, e.key, key, a);
      AcceptsElsewhere(after.streams, before.streams, e.key, key, a);
    }
  }

  lemma DiffersBothWays(before: Streams, after: Streams, changed: StreamKey)
    requires OnlyDiffersAt(before, after, changed)
    ensures OnlyDiffersAt(after, before, changed)
  {}

  /** With a version that lists sources, a truthful record means exactly what the clients accept, whatever
      the network had heard before. */
  lemma TruthfulRecord(version: nat, join: bool, report: ActiveGroup, streams: Streams, key: StreamKey,
                       heard: iset<Addr>)
    requires Truthful(join, report, streams, key) && ListsSources(version)
    ensures var record := RecordSent(version, join, report);
      record.Some? && Meaning(heard, record.value) == iset a | SomeoneAccepts(streams, key, a)
  {
    hide SomeoneAccepts;
    if join {
      assert forall a :: Asks(report, a) <==> SomeoneAccepts(streams, key, a);
    } else {
      forall a ensures !SomeoneAccepts(streams, key, a) {
        NobodyAccepts(streams, key, a);
      }
    }
  }

  lemma NobodyAccepts(streams: Streams, key: StreamKey, a: Addr)
    requires !Alive(streams, key)
    ensures !SomeoneAccepts(streams, key, a)
  {}

  /** A faithful report informs the network of its group, whatever it believed before. */
  lemma ReportInforms(setup: Setup, before: View, e: Event, after: View, key: StreamKey)
    requires Step(setup, before, e, after) && Faithful(before, e) && Sends(e) && GroupOf(key) == GroupOf(e.key)
    ensures Informed(after, key)
  {
    hide SomeoneAccepts, Sendable, RecordSent, Meaning, AllPeopled, Attempted, Knows, Alive, WithClient, WithoutClient,
         AsksFor;
    assert Truthful(IsJoin(e, after.streams), e.report, after.streams, e.key) by {
      JoinedIsAlive(before.streams, e, after.streams);
    }
    TruthfulRecord(e.profile.igmpVersion, IsJoin(e, after.streams), e.report, after.streams, e.key,
                   Believed(before.heard, GroupOf(e.key)));
    SameGroup(after.streams, key, e.key);
  }

  lemma JoinedIsAlive(before: Streams, e: Event, after: Streams)
    requires after == StreamsAfter(before, e)
    ensures e.Joined? ==> Alive(after, e.key)
  {
    if e.Joined? {
      assert e.key in after && Sibling(e.key, e.key);
    }
  }

  lemma SameGroup(streams: Streams, a: StreamKey, b: StreamKey)
    requires GroupOf(a) == GroupOf(b)
    ensures forall x :: SomeoneAccepts(streams, a, x) <==> SomeoneAccepts(streams, b, x)
  {
    assert forall k :: Sibling(k, a) <==> Sibling(k, b);
  }

  /** No report is owed when the clients of the group accept what they accepted before. */
  lemma NoReportOwed(setup: Setup, before: View, e: Event, after: View)
    requires Step(setup, before, e, after) && AllPeopled(before.streams) && e.profile.igmpFunction != 0
    requires !Sends(e) && !e.Forwarded?
    ensures after.heard == before.heard
    ensures forall a :: SomeoneAccepts(after.streams, e.key, a) <==> SomeoneAccepts(before.streams, e.key, a)
  {
    hide SomeoneAccepts, Exclusions, Peopled;
    if e.Joined? {
      assert Peopled(e.key, before.streams[e.key]) && Peopled(e.key, after.streams[e.key]);
      assert after.streams == before.streams[e.key := after.streams[e.key]];
      forall a ensures SomeoneAccepts(after.streams, e.key, a) <==> SomeoneAccepts(before.streams, e.key, a) {
        SameExclusionsAccept(before.streams, e.key, after.streams[e.key], a);
      }
    }
  }

  /** A step leaves the network informed of a group if it is faithful or concerns another group. */
  lemma StepInforms(setup: Setup, before: View, e: Event, after: View, key: StreamKey)
    requires Step(setup, before, e, after) && AllPeopled(before.streams) && Informed(before, key)
    requires GroupOf(key) == GroupOf(e.key) ==> Faithful(before, e)
    ensures Informed(after, key)
  {
    hide Step, SomeoneAccepts, Sends;
    if GroupOf(key) != GroupOf(e.key) {
      StepIsLocal(setup, before, e, after, key);
    } else if Sends(e) {
      ReportInforms(setup, before, e, after, key);
    } else {
      NoReportOwed(setup, before, e, after);
      SameGroup(before.streams, key, e.key);
      SameGroup(after.streams, key, e.key);
    }
  }

  /** A proxy's step that changes what the group accepts is reported, and leaves the network informed exactly
      when the report is admitted and sent. */
  lemma ChangeInforms(setup: Setup, before: View, e: Event, after: View, key: StreamKey, a: Addr)
    requires Step(setup, before, e, after) && AllPeopled(before.streams) && Informed(before, key)
    requires GroupOf(key) == GroupOf(e.key) && !e.Forwarded?
    requires e.profile.igmpFunction != 0 && ListsSources(e.profile.igmpVersion)
    requires SomeoneAccepts(before.streams, key, a) != SomeoneAccepts(after.streams, key, a)
    ensures Sends(e) && (Informed(after, key) <==> LimitAdmits(before, e) && e.sent)
  {
    hide Step, SomeoneAccepts, Sends;
    SameGroup(before.streams, key, e.key);
    SameGroup(after.streams, key, e.key);
    if !Sends(e) {
      NoReportOwed(setup, before, e, after);
    } else if LimitAdmits(before, e) && e.sent {
      ReportInforms(setup, before, e, after, key);
    } else {
      NothingHeard(setup, before, e, after);
      assert a in Believed(before.heard, GroupOf(key)) <==> SomeoneAccepts(before.streams, key, a);
    }
  }

  /** The same for the last step of a run, and the window of the limit after it. */
  lemma JoinInforms(setup: Setup, before: Run, after: Run, view: View, key: StreamKey, id: Identity, client: Client,
                    profile: Profile, now: Time, a: Addr)
    requires IsRun(setup, before) && IsRun(setup, after)
    requires JoinRecorded(before, after, view, key, id, client, profile, now, true)
    requires profile.igmpFunction != 0 && ListsSources(profile.igmpVersion) && Informed(Last(before), key)
    requires SomeoneAccepts(Last(before).streams, key, a) != SomeoneAccepts(view.streams, key, a)
    ensures var (rates, admitted) := Attempted(Last(before).rates, RateKeyOf(key, profile), profile.upstreamRate, now);
      (Informed(view, key) <==> admitted) && view.rates == rates
  {
    hide Step, IsRun, SomeoneAccepts, Informed, Attempted;
    var changed, report :|
      after == Extended(before, Joined(key, id, client, changed, profile, report, now, true), view);
    var e := Joined(key, id, client, changed, profile, report, now, true);
    LastStep(setup, before, e, view);
    ChangeInforms(setup, Last(before), e, view, key, a);
    DueIsAttempted(setup, Last(before), e, view);
  }

  lemma DueIsAttempted(setup: Setup, before: View, e: Event, after: View)
    requires Step(setup, before, e, after) && Sends(e)
    ensures after.rates == Attempted(before.rates, RateKeyOf(e.key, e.profile), e.profile.upstreamRate, e.now).0
  {
    hide Knows, AllPeopled, Reports, Sendable, RecordSent, StreamsAfter, Alive, Attempted, HeardAfter;
  }

  lemma NothingHeard(setup: Setup, before: View, e: Event, after: View)
    requires Step(setup, before, e, after) && !(LimitAdmits(before, e) && e.sent)
    ensures after.heard == before.heard
  {
    hide Knows, AllPeopled, Reports, Sendable, RecordSent, StreamsAfter, Alive;
  }

  lemma RunIsPeopled(setup: Setup, run: Run, i: nat)
    requires IsRun(setup, run) && i < |run.views|
    ensures AllPeopled(run.views[i].streams)
  {
    if i > 0 {
      assert Step(setup, run.views[i - 1], run.events[i - 1], run.views[i]);
    }
  }

  /** Once informed of a group, the network stays informed as long as every step of the group is faithful. */
  lemma {:induction false} RunInforms(setup: Setup, run: Run, key: StreamKey, start: nat, end: nat)
    requires IsRun(setup, run) && start <= end < |run.views| && Informed(run.views[start], key)
    requires forall i :: start <= i < end && GroupOf(run.events[i].key) == GroupOf(key) ==>
      Faithful(run.views[i], run.events[i])
    ensures Informed(run.views[end], key)
    decreases end
  {
    hide Step, Informed, Faithful;
    if start < end {
      RunInforms(setup, run, key, start, end - 1);
      RunIsPeopled(setup, run, end - 1);
      StepInforms(setup, run.views[end - 1], run.events[end - 1], run.views[end], key);
    }
  }

  // ---------- which configurations inform the network ----------

  /** A proxy without a limit, of a version that lists sources, that keeps unauthorized joins to itself. */
  predicate Plain(profile: Profile) {
    && profile.igmpFunction != 0 && ListsSources(profile.igmpVersion)
    && profile.upstreamRate == 0 && !profile.unauthorizedJoinBehaviour
  }

  /** Every configured profile that is in force for some stream is plain. */
  ghost predicate AllPlain(setup: Setup) {
    forall key, id :: InForce(setup.bindings, key, id) && id in setup.profiles ==> Plain(setup.profiles[id])
  }

  ghost predicate AllSent(run: Run) { forall i :: 0 <= i < |run.events| ==> run.events[i].sent }

  lemma PlainIsFaithful(setup: Setup, before: View, e: Event, after: View)
    requires Step(setup, before, e, after) && AllPlain(setup) && e.sent
    ensures Faithful(before, e)
  {
    assert InForce(setup.bindings, e.key, e.profile.entityID) && Plain(setup.profiles[e.profile.entityID]);
  }

  lemma AllPlainInforms(setup: Setup, run: Run, key: StreamKey)
    requires IsRun(setup, run) && AllSent(run) && AllPlain(setup) && Informed(run.views[0], key)
    ensures Informed(Last(run), key)
  {
    hide Step, Faithful, Informed, AllPlain;
    forall i | 0 <= i < |run.events| ensures Faithful(run.views[i], run.events[i]) {
      PlainIsFaithful(setup, run.views[i], run.events[i], run.views[i + 1]);
    }
    RunInforms(setup, run, key, 0, |run.events|);
  }

  // ---------- clients that change nothing ----------

  ghost predicate StreamAccepts(key: StreamKey, clients: Clients, a: Addr) {
    exists id :: id in clients && Delivers(key.source, clients[id].group.excludedSources, a)
  }

  lemma StreamAcceptsExactly(key: StreamKey, clients: Clients, a: Addr)
    requires Peopled(key, clients)
    ensures StreamAccepts(key, clients, a) <==>
            if key.source.IsUnspecified() then a !in Exclusions(key.source, clients) else a == key.source
  {
    if key.source.IsUnspecified() {
      ExclusionsMeaning(key.source, clients, a);
      if a !in Exclusions(key.source, clients) {
        var id :| id in clients && a !in clients[id].group.excludedSources;
        assert Delivers(key.source, clients[id].group.excludedSources, a);
      }
    } else {
      var id :| id in clients;
      assert Delivers(key.source, clients[id].group.excludedSources, a) <==> a == key.source;
    }
  }

  /** A stream whose common exclusions stay the same accepts the same sources. */
  lemma SameExclusionsAccept(streams: Streams, key: StreamKey, clients: Clients, a: Addr)
    requires key in streams && Peopled(key, streams[key]) && Peopled(key, clients)
    requires Exclusions(key.source, streams[key]) == Exclusions(key.source, clients)
    ensures SomeoneAccepts(streams, key, a) <==> SomeoneAccepts(streams[key := clients], key, a)
  {
    hide Exclusions, Delivers, Peopled;
    var after := streams[key := clients];
    StreamAcceptsExactly(key, streams[key], a);
    StreamAcceptsExactly(key, clients, a);
    AcceptsAfter(streams, after, key, a);
    AcceptsAfter(after, streams, key, a);
  }

  lemma AcceptsAfter(before: Streams, after: Streams, key: StreamKey, a: Addr)
    requires key in before && key in after && OnlyDiffersAt(before, after, key)
    requires StreamAccepts(key, before[key], a) == StreamAccepts(key, after[key], a)
    ensures SomeoneAccepts(before, key, a) ==> SomeoneAccepts(after, key, a)
  {
    hide Delivers;
    if SomeoneAccepts(before, key, a) {
      var other, id :| other in before && Sibling(other, key) && id in before[other] &&
        Delivers(other.source, before[other][id].group.excludedSources, a);
      if other == key {
        assert StreamAccepts(key, before[key], a);
        var i :| i in after[key] && Delivers(key.source, after[key][i].group.excludedSources, a);
        assert Sibling(key, key);
      } else {
        assert other in after && after[other] == before[other];
      }
    }
  }
}
