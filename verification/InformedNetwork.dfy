/** Exactly which configurations keep the network informed: every situation in which it is misled, as a
    run (sendReportLocked of internal/multicast/runtime.go, BuildUpstreamFrame of
    internal/multicast/report_build.go). The policy's decisions are those of the run. */
module InformedNetwork {
  import opened Clock
  import opened Sequences
  import opened MulticastTypes
  import opened Membership
  import opened StreamTable
  import opened ReportRate
  import opened NetworkView

  // ---------- single steps ----------

  /** What a step whose report is admitted and sent makes the network hear. */
  lemma HeardOf(setup: Setup, before: View, e: Event, after: View)
    requires Step(setup, before, e, after) && Sends(e) && LimitAdmits(before, e) && e.sent
    ensures Sendable(e.profile.igmpVersion, IsJoin(e, after.streams), e.report)
    ensures after.heard ==
            HeardAfter(before.heard, GroupOf(e.key),
                       RecordSent(e.profile.igmpVersion, IsJoin(e, after.streams), e.report))
  {
    hide Knows, AllPeopled, Reports, Sendable, RecordSent, StreamsAfter, Alive, Attempted, HeardAfter;
  }

  /** Every join that is heard asks for something. */
  lemma JoinAsks(version: nat, report: ActiveGroup, before: iset<Addr>)
    requires Sendable(version, true, report)
    ensures RecordSent(version, true, report).Some?
    ensures exists a :: a in Meaning(before, RecordSent(version, true, report).value)
  {
    var record := RecordSent(version, true, report).value;
    if record.kind.ChangeToIncludeMode? {
      assert IncludedSources(report)[0] in record.sources;
      assert IncludedSources(report)[0] in Meaning(before, record);
    } else {
      assert SomeAddress(SetOf(record.sources)) in Meaning(before, record);
    }
  }

  /** A forwarded join never leaves the network informed of a group without clients. */
  lemma ForwardedNeverInforms(setup: Setup, before: View, e: Event, after: View)
    requires Step(setup, before, e, after) && e.Forwarded? && LimitAdmits(before, e) && e.sent
    requires !Alive(after.streams, e.key)
    ensures !Informed(after, e.key)
  {
    hide Step, Sendable, RecordSent, Meaning, SomeoneAccepts;
    HeardOf(setup, before, e, after);
    JoinAsks(e.profile.igmpVersion, e.report, Believed(before.heard, GroupOf(e.key)));
    var a :| a in Believed(after.heard, GroupOf(e.key));
    NobodyAccepts(after.streams, e.key, a);
  }

  /** A join under a version without source lists leaves the network informed exactly when the clients
      accept every source. */
  lemma LegacyInformsExactlyWhen(setup: Setup, before: View, e: Event, after: View)
    requires Step(setup, before, e, after) && Sends(e) && IsJoin(e, after.streams) && LimitAdmits(before, e) && e.sent
    requires !ListsSources(e.profile.igmpVersion)
    ensures Informed(after, e.key) <==> forall a :: SomeoneAccepts(after.streams, e.key, a)
  {
    hide Step, Sendable, SomeoneAccepts, Sends;
    HeardOf(setup, before, e, after);
    assert forall a :: a in Believed(after.heard, GroupOf(e.key));
    if Informed(after, e.key) {
      forall a ensures SomeoneAccepts(after.streams, e.key, a) {
        assert a in Believed(after.heard, GroupOf(e.key));
      }
    }
  }

  /** A snooping profile's report of a leave never leaves the network informed while the stream has other
      clients. */
  lemma SnoopedLeaveNeverInforms(setup: Setup, before: View, e: Event, after: View)
    requires Step(setup, before, e, after) && e.Departed? && Sends(e) && LimitAdmits(before, e) && e.sent
    requires e.profile.igmpFunction == 0 && ListsSources(e.profile.igmpVersion) && e.key in after.streams
    ensures !Informed(after, e.key)
  {
    hide Knows, WithoutClient, Attempted, SomeoneAccepts, RecordSent, Meaning, Sendable, HeardAfter;
    HeardOf(setup, before, e, after);
    var clients := after.streams[e.key];
    assert Peopled(e.key, clients);
    var id :| id in clients;
    var excluded := clients[id].group.excludedSources;
    var a := if e.key.source.IsUnspecified() then SomeAddress(SetOf(excluded)) else e.key.source;
    assert Delivers(e.key.source, excluded, a);
    Accepted(after.streams, e.key, id, a);
    SnoopedRecord(e.profile.igmpVersion, e.report, Believed(before.heard, GroupOf(e.key)), a);
    NotHeard(before.heard, GroupOf(e.key), RecordSent(e.profile.igmpVersion, false, e.report), a);
  }

  lemma NotHeard(heard: Heard, group: GroupKey, record: Option<MembershipRecord>, a: Addr)
    requires record.Some? && a !in Meaning(Believed(heard, group), record.value)
    ensures a !in Believed(HeardAfter(heard, group, record), group)
  {}

  lemma Accepted(streams: Streams, key: StreamKey, id: Identity, a: Addr)
    requires Has(streams, key, id) && Delivers(key.source, streams[key][id].group.excludedSources, a)
    ensures SomeoneAccepts(streams, key, a)
  {
    assert Sibling(key, key);
  }

  /** The record of a snooped leave stops all sources, or the one of its stream. */
  lemma SnoopedRecord(version: nat, report: ActiveGroup, before: iset<Addr>, a: Addr)
    requires Sendable(version, false, report) && ListsSources(version)
    requires report.source.IsUnspecified() || a == report.source
    ensures RecordSent(version, false, report).Some?
    ensures a !in Meaning(before, RecordSent(version, false, report).value)
  {}

  // ---------- a group, its streams and its clients ----------

  function GroupFor(version: nat): Addr {
    if version <= 3 then V4(0xe800_0001) else V6(0xff3e_0000_0000_0000_0000_0000_0000_0001)
  }

  function HostFor(version: nat, n: nat): Addr { if version <= 3 then V4(n) else V6(n) }

  /** A bound interface, its subscriber, and a VLAN. */
  datatype Site = Site(subscriberID: nat, interfaceName: string, vlan: VLAN)

  function SiteOf(key: StreamKey): Site { Site(key.subscriberID, key.interfaceName, key.vlan) }

  function KeyFor(site: Site, version: nat, source: Addr): StreamKey {
    StreamKey(site.subscriberID, site.interfaceName, source, GroupFor(version), site.vlan)
  }

  function AnySource(site: Site, version: nat): StreamKey { KeyFor(site, version, Wildcard(GroupFor(version))) }

  function Request(site: Site, profile: Profile, source: Addr, host: nat): ActiveGroup {
    ActiveGroup(site.interfaceName, source, [], [], GroupFor(profile.igmpVersion), HostFor(profile.igmpVersion, host),
                site.vlan, 0, profile.entityID, 0, 0, 0, None)
  }

  function ClientFor(site: Site, profile: Profile, source: Addr, host: nat): Client {
    Client(Request(site, profile, source, host), [], 0)
  }

  function IdentityFor(profile: Profile, host: nat): Identity { Identity(HostFor(profile.igmpVersion, host), host) }

  ghost predicate Misled(setup: Setup, run: Run) {
    IsRun(setup, run) && run.views[0] == Nothing && AllSent(run) && !AllInformed(Last(run))
  }

  /** The profile is the configured one of its number, and in force at the site. */
  predicate Configured(setup: Setup, site: Site, profile: Profile) {
    && profile.entityID in setup.profiles && setup.profiles[profile.entityID] == profile
    && profile.igmpVersion in {1, 2, 3, 16, 17}
    && InForce(setup.bindings, KeyFor(site, profile.igmpVersion, NoAddr), profile.entityID)
  }

  /** A wildcard join without exclusions asks for every source, in every version. */
  lemma WildcardJoin(site: Site, profile: Profile, host: nat, before: iset<Addr>)
    requires profile.igmpVersion in {1, 2, 3, 16, 17} && 0 < host < 1000
    ensures var report := Request(site, profile, Wildcard(GroupFor(profile.igmpVersion)), host);
      && Sendable(profile.igmpVersion, true, report) && report.group.IsValid() && report.source.IsUnspecified()
      && RecordSent(profile.igmpVersion, true, report).Some?
      && forall a :: a in Meaning(before, RecordSent(profile.igmpVersion, true, report).value)
  {}

  lemma DisagreesOn(view: View, key: StreamKey, a: Addr)
    requires a in Believed(view.heard, GroupOf(key)) <==> !SomeoneAccepts(view.streams, key, a)
    ensures !AllInformed(view)
  {
    assert !Informed(view, key);
  }

  lemma FirstIsAdmitted(limit: nat, key: RateKey, now: Time)
    ensures Attempted(map[], key, limit, now).1
  {}

  /** A forwarded join speaks of a group that has no clients here. */
  lemma ForwardedMisleads(setup: Setup, site: Site, profile: Profile) returns (run: Run)
    requires Configured(setup, site, profile) && profile.unauthorizedJoinBehaviour
    ensures Misled(setup, run)
  {
    hide RecordSent, Meaning, Sendable, Attempted, GroupFor, HostFor;
    var key := AnySource(site, profile.igmpVersion);
    var report := Request(site, profile, key.source, 1);
    var e := Forwarded(key, profile, report, 0, true);
    WildcardJoin(site, profile, 1, iset{});
    FirstIsAdmitted(profile.upstreamRate, RateKeyOf(key, profile), 0);
    var (rates, heard) := Delivered(map[], map[], key, profile, true, report, 0, true);
    var after := View(map[], heard, rates);
    assert Step(setup, Nothing, e, after);
    run := Run([Nothing, after], [e]);
    assert V4(0) in Believed(heard, GroupOf(key)) && !SomeoneAccepts(map[], key, V4(0));
    DisagreesOn(after, key, V4(0));
  }

  /** The report of a client that accepts one source, under a version without source lists. */
  function OneSourceReport(site: Site, profile: Profile, source: Addr): ActiveGroup {
    var group := Request(site, profile, source, 1);
    if profile.igmpFunction == 0 then group else group.(includedSources := [source])
  }

  lemma LegacyJoin(site: Site, profile: Profile)
    requires profile.igmpVersion in {1, 2, 16}
    ensures var source := HostFor(profile.igmpVersion, 7);
      var key, client, report :=
        KeyFor(site, profile.igmpVersion, source), ClientFor(site, profile, source, 1), OneSourceReport(site, profile,
                                                                                                        source);
      var streams: Streams := map[key := map[IdentityFor(profile, 1) := client]];
      && Filed(key, client) && key.group.IsValid() && AllPeopled(streams) && Alive(streams, key)
      && Sendable(profile.igmpVersion, true, report)
      && (profile.igmpFunction != 0 ==> Truthful(true, report, streams, key))
      && Wildcard(key.group) in Meaning(iset{}, RecordSent(profile.igmpVersion, true, report).value)
      && !SomeoneAccepts(streams, key, Wildcard(key.group))
  {
    var source := HostFor(profile.igmpVersion, 7);
    OneClient(KeyFor(site, profile.igmpVersion, source), IdentityFor(profile, 1), ClientFor(site, profile, source, 1));
  }

  /** A version without source lists asks for every source although the one client accepts one only. */
  lemma LegacyMisleads(setup: Setup, site: Site, profile: Profile) returns (run: Run)
    requires Configured(setup, site, profile) && !ListsSources(profile.igmpVersion)
    ensures Misled(setup, run)
  {
    hide Attempted, Sendable, Truthful, AllPeopled, SomeoneAccepts, Meaning, Alive, Filed, GroupFor, HostFor;
    var source := HostFor(profile.igmpVersion, 7);
    var key, id := KeyFor(site, profile.igmpVersion, source), IdentityFor(profile, 1);
    var client, report := ClientFor(site, profile, source, 1), OneSourceReport(site, profile, source);
    var e := Joined(key, id, client, true, profile, report, 0, true);
    FirstIsAdmitted(profile.upstreamRate, RateKeyOf(key, profile), 0);
    var (rates, heard) := Delivered(map[], map[], key, profile, true, report, 0, true);
    var after := View(map[key := map[id := client]], heard, rates);
    LegacyJoin(site, profile);
    assert Step(setup, Nothing, e, after);
    NothingIsPeopled();
    run := Run([Nothing, after], [e]);
    DisagreesOn(after, key, Wildcard(key.group));
  }

  /** The only stream of the only client: it accepts what the client accepts. */
  lemma OneClient(key: StreamKey, id: Identity, client: Client)
    requires Filed(key, client) && key.group.IsValid()
    ensures var streams: Streams := map[key := map[id := client]];
      && AllPeopled(streams) && Alive(streams, key) && streams == WithClient(map[], key, id, client)
      && forall a :: SomeoneAccepts(streams, key, a) <==> Delivers(key.source, client.group.excludedSources, a)
  {
    var streams: Streams := map[key := map[id := client]];
    assert Sibling(key, key) && id in streams[key] && streams[key] == map[id := client];
    forall a | Delivers(key.source, client.group.excludedSources, a) ensures SomeoneAccepts(streams, key, a) {
      assert key in streams && id in streams[key] && Delivers(key.source, streams[key][id].group.excludedSources, a);
    }
  }

  lemma NoClient(key: StreamKey, id: Identity, client: Client)
    ensures var streams: Streams := map[key := map[id := client]];
      && WithoutClient(streams, key, id) == map[] && AllPeopled(map[]) && !Alive(map[], key)
      && forall a :: !SomeoneAccepts(map[], key, a)
  {
    var streams: Streams := map[key := map[id := client]];
    assert streams - {key} == map[];
    assert streams[key].Keys == {id};
  }

  /** IGMPv1 has no leave: however long after its join the only client leaves, the network still delivers
      everything. */
  lemma SilentLeaveMisleads(setup: Setup, site: Site, profile: Profile, wait: nat) returns (run: Run)
    requires Configured(setup, site, profile) && profile.igmpVersion == 1
    requires profile.igmpFunction != 0 && profile.upstreamRate == 0
    ensures Misled(setup, run) && |run.events| == 2 && Last(run).streams == map[]
    ensures run.events[1].Departed? && run.events[1].now == run.events[0].now + wait
    ensures var key := AnySource(site, 1); forall a :: a in Believed(Last(run).heard, GroupOf(key))
  {
    hide Meaning, Sendable, Attempted, AsksFor;
    var key, id := AnySource(site, 1), IdentityFor(profile, 1);
    var client := ClientFor(site, profile, key.source, 1);
    var join := Joined(key, id, client, true, profile, client.group, 0, true);
    var leave := Departed(key, id, true, profile, client.group, wait, true);
    WildcardJoin(site, profile, 1, iset{});
    FirstIsAdmitted(0, RateKeyOf(key, profile), 0);
    var (rates, heard) := Delivered(map[], map[], key, profile, true, client.group, 0, true);
    var streams: Streams := map[key := map[id := client]];
    var between, after := View(streams, heard, rates), View(map[], heard, map[]);
    OneClient(key, id, client);
    WildcardAsks(client.group, streams, key);
    NoClient(key, id, client);
    assert Step(setup, Nothing, join, between);
    UnlimitedRates(map[], RateKeyOf(key, profile), 0);
    UnlimitedRates(map[], RateKeyOf(key, profile), wait);
    LegacyLeaveIsSendable(site, profile, 1);
    assert Step(setup, between, leave, after);
    run := Run([Nothing, between, after], [join, leave]);
    assert V4(0) in Believed(heard, GroupOf(key));
    DisagreesOn(after, key, V4(0));
  }

  /** A step under IGMPv1 never makes the network deliver less. */
  lemma Version1Adds(setup: Setup, before: View, e: Event, after: View, group: GroupKey)
    requires Step(setup, before, e, after) && (GroupOf(e.key) == group ==> e.profile.igmpVersion == 1)
    ensures forall a :: a in Believed(before.heard, group) ==> a in Believed(after.heard, group)
  {
    hide Knows, AllPeopled, Reports, Sendable, StreamsAfter, IsJoin, Attempted;
  }

  lemma {:induction false} Version1NeverPrunes(setup: Setup, run: Run, group: GroupKey, start: nat, end: nat)
    requires IsRun(setup, run) && start <= end < |run.views|
    requires forall i :: start <= i < end && GroupOf(run.events[i].key) == group ==>
      run.events[i].profile.igmpVersion == 1
    ensures forall a :: a in Believed(run.views[start].heard, group) ==> a in Believed(run.views[end].heard, group)
    decreases end
  {
    hide Step, Believed;
    if start < end {
      Version1NeverPrunes(setup, run, group, start, end - 1);
      Version1Adds(setup, run.views[end - 1], run.events[end - 1], run.views[end], group);
    }
  }

  /** Under IGMPv1 the network, once it delivers every source of a group, is right about the group exactly
      while its clients accept every source: never again after they have left, whatever made them leave. */
  lemma Version1InformsExactlyWhen(setup: Setup, run: Run, key: StreamKey, start: nat, end: nat)
    requires IsRun(setup, run) && start <= end < |run.views|
    requires forall i :: start <= i < end && GroupOf(run.events[i].key) == GroupOf(key) ==>
      run.events[i].profile.igmpVersion == 1
    requires forall a :: a in Believed(run.views[start].heard, GroupOf(key))
    ensures Informed(run.views[end], key) <==> forall a :: SomeoneAccepts(run.views[end].streams, key, a)
    ensures !Alive(run.views[end].streams, key) ==> !Informed(run.views[end], key)
  {
    hide IsRun, SomeoneAccepts, Believed;
    Version1NeverPrunes(setup, run, GroupOf(key), start, end);
    var view := run.views[end];
    assert forall a :: a in Believed(view.heard, GroupOf(key));
    if Informed(view, key) {
      forall a ensures SomeoneAccepts(view.streams, key, a) {
        assert a in Believed(view.heard, GroupOf(key));
      }
    }
    if !Alive(view.streams, key) {
      NobodyAccepts(view.streams, key, V4(0));
    }
  }

  lemma LegacyLeaveIsSendable(site: Site, profile: Profile, host: nat)
    requires profile.igmpVersion == 1
    ensures Sendable(1, false, Request(site, profile, Wildcard(GroupFor(1)), host))
  {}

  lemma UnlimitedRates(rates: Rates, key: RateKey, now: Time)
    ensures Attempted(rates, key, 0, now) == (rates, true)
  {}

  /** The wildcard client's own request asks for what it accepts. */
  lemma WildcardAsks(report: ActiveGroup, streams: Streams, key: StreamKey)
    requires report.source == Wildcard(report.group) && report.excludedSources == []
    requires forall a :: SomeoneAccepts(streams, key, a)
    ensures AsksFor(report, streams, key)
  {
    hide SomeoneAccepts;
  }

  /** The view after a snooping profile's report. */
  ghost function Snooped(before: View, e: Event, after: Streams): View {
    var (rates, heard) := Delivered(before.rates, before.heard, e.key, e.profile, e.Joined?, e.report, e.now, e.sent);
    View(after, heard, rates)
  }

  lemma SnoopedJoin(setup: Setup, site: Site, profile: Profile, before: View, host: nat, now: Time, after: Streams)
    requires Configured(setup, site, profile) && profile.igmpFunction == 0 && 0 < host < 1000 && AllPeopled(after)
    requires var key := AnySource(site, profile.igmpVersion);
      && after ==
         WithClient(before.streams, key, IdentityFor(profile, host), ClientFor(site, profile, key.source, host))
      && Attempted(before.rates, RateKeyOf(key, profile), profile.upstreamRate, now).1
    ensures var key := AnySource(site, profile.igmpVersion);
      var client := ClientFor(site, profile, key.source, host);
      var e := Joined(key, IdentityFor(profile, host), client, true, profile, client.group, now, true);
      Step(setup, before, e, Snooped(before, e, after))
  {
    hide RecordSent, Meaning, Sendable, GroupFor, HostFor, Attempted, AllPeopled;
    WildcardJoin(site, profile, host, iset{});
  }

  lemma SnoopedLeave(setup: Setup, site: Site, profile: Profile, before: View, host: nat, now: Time, after: Streams)
    requires Configured(setup, site, profile) && profile.igmpFunction == 0 && ListsSources(profile.igmpVersion)
    requires 0 < host < 1000 && AllPeopled(after) && AnySource(site, profile.igmpVersion) in before.streams
    requires var key := AnySource(site, profile.igmpVersion);
      && after == WithoutClient(before.streams, key, IdentityFor(profile, host))
      && Attempted(before.rates, RateKeyOf(key, profile), profile.upstreamRate, now).1
    ensures var key := AnySource(site, profile.igmpVersion);
      var e :=
        Departed(key, IdentityFor(profile, host), true, profile, Request(site, profile, key.source, host), now, true);
      var left := Snooped(before, e, after);
      && Step(setup, before, e, left)
      && Believed(left.heard, GroupOf(key)) == iset{}
  {
    hide RecordSent, Meaning, Sendable, GroupFor, HostFor, Attempted, AllPeopled;
    WildcardLeave(site, profile, host, Believed(before.heard, GroupOf(AnySource(site, profile.igmpVersion))));
  }

  /** A snooping profile reports one client's leave although another client of the stream stays. */
  lemma SnoopingMisleads(setup: Setup, site: Site, profile: Profile) returns (run: Run)
    requires Configured(setup, site, profile) && profile.igmpFunction == 0 && ListsSources(profile.igmpVersion)
    ensures Misled(setup, run)
  {
    hide Step, GroupFor, HostFor, Attempted, HeardAfter, AllPeopled;
    var key := AnySource(site, profile.igmpVersion);
    var first, second := IdentityFor(profile, 1), IdentityFor(profile, 2);
    var c1, c2 := ClientFor(site, profile, key.source, 1), ClientFor(site, profile, key.source, 2);
    var e1 := Joined(key, first, c1, true, profile, c1.group, 0, true);
    var e2 := Joined(key, second, c2, true, profile, c2.group, SECOND, true);
    var e3 := Departed(key, first, true, profile, c1.group, 2 * SECOND, true);
    var s1: Streams := map[key := map[first := c1]];
    var s2: Streams := map[key := map[first := c1, second := c2]];
    var s3: Streams := map[key := map[second := c2]];
    WildcardJoin(site, profile, 1, iset{});
    OneClient(key, first, c1);
    OneClient(key, second, c2);
    TwoClients(key, first, c1, second, c2);
    SpacedAreAdmitted(profile, key);
    SnoopedJoin(setup, site, profile, Nothing, 1, 0, s1);
    var v1 := Snooped(Nothing, e1, s1);
    SnoopedJoin(setup, site, profile, v1, 2, SECOND, s2);
    var v2 := Snooped(v1, e2, s2);
    SnoopedLeave(setup, site, profile, v2, 1, 2 * SECOND, s3);
    var v3 := Snooped(v2, e3, s3);
    run := Run([Nothing, v1, v2, v3], [e1, e2, e3]);
    assert IsRun(setup, run) by { NothingIsPeopled(); }
    assert SomeoneAccepts(v3.streams, key, V4(0)) && V4(0) !in Believed(v3.heard, GroupOf(key));
    DisagreesOn(v3, key, V4(0));
  }

  lemma NothingIsPeopled()
    ensures AllPeopled(Nothing.streams)
  {}

  lemma WildcardLeave(site: Site, profile: Profile, host: nat, before: iset<Addr>)
    requires profile.igmpVersion in {2, 3, 16, 17} && 0 < host < 1000
    ensures var report := Request(site, profile, Wildcard(GroupFor(profile.igmpVersion)), host);
      && Sendable(profile.igmpVersion, false, report)
      && RecordSent(profile.igmpVersion, false, report).Some?
      && Meaning(before, RecordSent(profile.igmpVersion, false, report).value) == iset{}
  {}

  lemma TwoClients(key: StreamKey, first: Identity, c1: Client, second: Identity, c2: Client)
    requires Filed(key, c1) && Filed(key, c2) && key.group.IsValid() && first != second
    ensures var one: Streams := map[key := map[first := c1]];
      var both: Streams := map[key := map[first := c1, second := c2]];
      && AllPeopled(both) && both == WithClient(one, key, second, c2)
      && WithoutClient(both, key, first) == map[key := map[second := c2]]
  {
    var both: Streams := map[key := map[first := c1, second := c2]];
    assert second in both[key] && second !in {first};
    assert both[key] - {first} == map[second := c2];
  }

  /** Three reports in three seconds pass any limit. */
  lemma SpacedAreAdmitted(profile: Profile, key: StreamKey)
    ensures var rateKey := RateKeyOf(key, profile);
      var (r1, a1) := Attempted(map[], rateKey, profile.upstreamRate, 0);
      var (r2, a2) := Attempted(r1, rateKey, profile.upstreamRate, SECOND);
      a1 && a2 && Attempted(r2, rateKey, profile.upstreamRate, 2 * SECOND).1
  {}

  // ---------- the rate limit ----------

  /** The source that the client excludes in every other report. */
  function Unwanted(profile: Profile): Addr { HostFor(profile.igmpVersion, 7) }

  /** The client after its i-th report: it accepts all sources, then all but one, and so on. */
  function Wavering(site: Site, profile: Profile, i: nat): Client {
    var client := ClientFor(site, profile, Wildcard(GroupFor(profile.igmpVersion)), 1);
    client.(group := client.group.(excludedSources := if i % 2 == 1 then [] else [Unwanted(profile)]))
  }

  function WaveringStreams(site: Site, profile: Profile, i: nat): Streams {
    if i == 0 then map[]
    else map[AnySource(site, profile.igmpVersion) := map[IdentityFor(profile, 1) := Wavering(site, profile, i)]]
  }

  /** One client changes what it excludes over and over within a second; it never leaves. */
  function Waver(site: Site, profile: Profile, i: nat): Event {
    var client := Wavering(site, profile, i + 1);
    Joined(AnySource(site, profile.igmpVersion), IdentityFor(profile, 1), client, true, profile, client.group, 0, true)
  }

  ghost function Wavered(site: Site, profile: Profile, i: nat): View {
    if i == 0 then Nothing
    else
      var before, e := Wavered(site, profile, i - 1), Waver(site, profile, i - 1);
      var (rates, heard) := Delivered(before.rates, before.heard, e.key, profile, true, e.report, 0, true);
      View(WaveringStreams(site, profile, i), heard, rates)
  }

  lemma WaveringAccepts(site: Site, profile: Profile, i: nat)
    requires profile.igmpVersion in {1, 2, 3, 16, 17}
    ensures var key, streams := AnySource(site, profile.igmpVersion), WaveringStreams(site, profile, i);
      && AllPeopled(streams) && (i > 0 ==> Filed(key, Wavering(site, profile, i)) && key.group.IsValid())
      && (i > 0 ==> forall a :: SomeoneAccepts(streams, key, a) <==>
            a !in Wavering(site, profile, i).group.excludedSources)
      && (SomeoneAccepts(streams, key, Unwanted(profile)) <==> i % 2 == 1)
  {
    var key, client := AnySource(site, profile.igmpVersion), Wavering(site, profile, i);
    if i > 0 {
      OneClient(key, IdentityFor(profile, 1), client);
    }
  }

  lemma WaveringReport(site: Site, profile: Profile, i: nat)
    requires profile.igmpVersion in {3, 17} && i > 0
    ensures var report := Wavering(site, profile, i).group;
      && Sendable(profile.igmpVersion, true, report) && report.source.IsUnspecified()
      && report.source == Wildcard(report.group)
  {}

  lemma WaveredStreams(site: Site, profile: Profile, i: nat)
    ensures Wavered(site, profile, i).streams == WaveringStreams(site, profile, i)
    ensures WaveringStreams(site, profile, i + 1) ==
            WithClient(WaveringStreams(site, profile, i), AnySource(site, profile.igmpVersion), IdentityFor(profile, 1),
                       Wavering(site, profile, i + 1))
  {
    var key, id, next := AnySource(site, profile.igmpVersion), IdentityFor(profile, 1), Wavering(site, profile, i + 1);
    if i > 0 {
      var before := WaveringStreams(site, profile, i);
      assert before[key][id := next] == map[id := next];
      assert before[key := map[id := next]] == map[key := map[id := next]];
    }
  }

  lemma WaveringTruthful(site: Site, profile: Profile, i: nat)
    requires profile.igmpVersion in {3, 17} && i > 0
    ensures var key, client, streams :=
        AnySource(site, profile.igmpVersion), Wavering(site, profile, i), WaveringStreams(site, profile, i);
      Truthful(true, client.group, streams, key)
  {
    hide SomeoneAccepts, GroupFor, HostFor, Sendable;
    var key, client := AnySource(site, profile.igmpVersion), Wavering(site, profile, i);
    WaveringAccepts(site, profile, i);
    WaveringReport(site, profile, i);
    assert Alive(WaveringStreams(site, profile, i), key) by {
      assert Sibling(key, key);
    }
    assert forall a :: Asks(client.group, a) <==> a !in client.group.excludedSources;
  }

  lemma WaverTransmits(site: Site, profile: Profile, i: nat)
    requires profile.igmpVersion in {3, 17}
    ensures var e := Waver(site, profile, i);
      Transmits(Wavered(site, profile, i), Wavered(site, profile, i + 1), e.key, profile, true, e.report, 0, true, true)
  {
    hide RecordSent, Sendable, Attempted, HeardAfter, WaveringStreams, GroupFor, HostFor;
    WaveringReport(site, profile, i + 1);
  }

  lemma ConfiguredKnows(setup: Setup, site: Site, profile: Profile)
    requires Configured(setup, site, profile)
    ensures Knows(setup, AnySource(site, profile.igmpVersion), profile)
  {}

  lemma WaverStep(setup: Setup, site: Site, profile: Profile, i: nat)
    requires Configured(setup, site, profile) && profile.igmpFunction != 0 && ListsSources(profile.igmpVersion)
    ensures Step(setup, Wavered(site, profile, i), Waver(site, profile, i), Wavered(site, profile, i + 1))
  {
    hide Step, Transmits, Knows, SomeoneAccepts, AllPeopled, Filed, WithClient, WaveringStreams, GroupFor, HostFor,
         Truthful, Wavered, InForce;
    WaveredStreams(site, profile, i);
    WaveredStreams(site, profile, i + 1);
    WaveringAccepts(site, profile, i + 1);
    WaveringTruthful(site, profile, i + 1);
    WaverTransmits(site, profile, i);
    ConfiguredKnows(setup, site, profile);
    var client := Wavering(site, profile, i + 1);
    JoinedStep(setup, Wavered(site, profile, i), Wavered(site, profile, i + 1), AnySource(site, profile.igmpVersion),
               IdentityFor(profile, 1), client, true, profile, client.group, 0, true);
  }

  /** Up to the limit every report is heard. */
  lemma {:induction false} WaveredInformed(setup: Setup, site: Site, profile: Profile, i: nat)
    requires Configured(setup, site, profile) && profile.igmpFunction != 0 && ListsSources(profile.igmpVersion)
    requires i <= profile.upstreamRate
    ensures var view, key := Wavered(site, profile, i), AnySource(site, profile.igmpVersion);
      WindowOf(view.rates, RateKeyOf(key, profile)) == Window(0, i) && Informed(view, key)
  {
    hide Step, Informed, SomeoneAccepts, Configured, WaveringStreams, GroupFor, HostFor, RecordSent, HeardAfter;
    if i == 0 {
      NobodyInformed(AnySource(site, profile.igmpVersion));
    } else {
      WaveredInformed(setup, site, profile, i - 1);
      WaverChanges(setup, site, profile, i - 1);
    }
  }

  /** The next report informs the network exactly when the limit admits it. */
  lemma WaverChanges(setup: Setup, site: Site, profile: Profile, i: nat)
    requires Configured(setup, site, profile) && profile.igmpFunction != 0 && ListsSources(profile.igmpVersion)
    requires Informed(Wavered(site, profile, i), AnySource(site, profile.igmpVersion))
    ensures Informed(Wavered(site, profile, i + 1), AnySource(site, profile.igmpVersion)) <==>
            LimitAdmits(Wavered(site, profile, i), Waver(site, profile, i))
  {
    hide Step, Informed, SomeoneAccepts, WaveringStreams, GroupFor, HostFor, Delivered, LimitAdmits, AllPeopled;
    WaverStep(setup, site, profile, i);
    WaveringAccepts(site, profile, i);
    WaveringAccepts(site, profile, i + 1);
    WaveredStreams(site, profile, i);
    WaveredStreams(site, profile, i + 1);
    ChangeInforms(setup, Wavered(site, profile, i), Waver(site, profile, i), Wavered(site, profile, i + 1),
                  AnySource(site, profile.igmpVersion), Unwanted(profile));
  }

  /** A client that changes its mind once more than the limit allows in a second goes unnoticed. */
  lemma LimitMisleads(setup: Setup, site: Site, profile: Profile) returns (run: Run)
    requires Configured(setup, site, profile) && profile.igmpFunction != 0 && ListsSources(profile.igmpVersion)
    requires profile.upstreamRate != 0
    ensures Misled(setup, run) && |run.events| == profile.upstreamRate + 1
    ensures forall e :: e in run.events ==> e.Joined? && e.now == 0
  {
    hide Step, GroupFor, HostFor, AllInformed, Delivered, Informed, Configured;
    var n := profile.upstreamRate;
    run := Run(seq(n + 2, i requires 0 <= i => Wavered(site, profile, i)),
               seq(n + 1, i requires 0 <= i => Waver(site, profile, i)));
    forall i | 0 <= i < n + 1 ensures Step(setup, run.views[i], run.events[i], run.views[i + 1]) {
      WaverStep(setup, site, profile, i);
    }
    NothingIsPeopled();
    WaveredInformed(setup, site, profile, n);
    WaverChanges(setup, site, profile, n);
    NotAllInformed(Last(run), AnySource(site, profile.igmpVersion));
  }

  lemma NotAllInformed(view: View, key: StreamKey)
    requires !Informed(view, key)
    ensures !AllInformed(view)
  {}

  // ---------- a new configuration ----------

  /** A new configuration forgets every client without a report: the network stays informed of exactly the
      groups that had no clients. */
  lemma ReconfigurationMisleads(view: View, key: StreamKey)
    requires Informed(view, key) && AllPeopled(view.streams)
    ensures Informed(View(map[], view.heard, map[]), key) <==> !Alive(view.streams, key)
  {
    if Alive(view.streams, key) {
      var other :| other in view.streams && Sibling(other, key);
      assert Peopled(other, view.streams[other]);
      var id :| id in view.streams[other];
      var excluded := view.streams[other][id].group.excludedSources;
      var a := if other.source.IsUnspecified() then SomeAddress(SetOf(excluded)) else other.source;
      assert Delivers(other.source, excluded, a);
      assert SomeoneAccepts(view.streams, key, a) && !SomeoneAccepts(map[], key, a);
      assert a in Believed(view.heard, GroupOf(key));
      assert a !in iset x | SomeoneAccepts(map[], key, x);
    } else {
      assert forall a :: !SomeoneAccepts(view.streams, key, a);
      assert forall a :: !SomeoneAccepts(map[], key, a);
    }
  }

  ghost function SomeAddress(sources: set<Addr>): (a: Addr)
    ensures a !in sources
  {
    assert exists a: Addr :: a !in sources by {
      var fresh_ := FreshAddress(sources);
    }
    var a :| a !in sources;
    a
  }

  // ---------- all configurations ----------

  /** The network is informed after every run, whatever the policy decides, exactly when every profile in
      force is a proxy without a limit, of a version that lists sources, that keeps unauthorized joins to
      itself. */
  lemma InformsExactlyWhen(setup: Setup)
    requires forall id :: id in setup.profiles ==>
              setup.profiles[id].entityID == id && setup.profiles[id].igmpVersion in {1, 2, 3, 16, 17}
    ensures (forall run :: !Misled(setup, run)) <==> AllPlain(setup)
  {
    if AllPlain(setup) {
      forall run ensures !Misled(setup, run) {
        PlainIsNotMisled(setup, run);
      }
    } else {
      var key, id :| InForce(setup.bindings, key, id) && id in setup.profiles && !Plain(setup.profiles[id]);
      var run := Misleads(setup, SiteOf(key), setup.profiles[id]);
    }
  }

  lemma PlainIsNotMisled(setup: Setup, run: Run)
    requires AllPlain(setup)
    ensures !Misled(setup, run)
  {
    hide Step, AllPlain;
    if IsRun(setup, run) && run.views[0] == Nothing && AllSent(run) {
      forall key ensures Informed(Last(run), key) {
        NobodyInformed(key);
        AllPlainInforms(setup, run, key);
      }
    }
  }

  lemma NobodyInformed(key: StreamKey)
    ensures Informed(Nothing, key)
  {}

  lemma Misleads(setup: Setup, site: Site, profile: Profile) returns (run: Run)
    requires Configured(setup, site, profile) && !Plain(profile)
    ensures Misled(setup, run)
  {
    hide Misled, Configured;
    if profile.unauthorizedJoinBehaviour {
      run := ForwardedMisleads(setup, site, profile);
    } else if !ListsSources(profile.igmpVersion) {
      run := LegacyMisleads(setup, site, profile);
    } else if profile.igmpFunction == 0 {
      run := SnoopingMisleads(setup, site, profile);
    } else {
      run := LimitMisleads(setup, site, profile);
    }
  }
}
