/** The state of the multicast runtime as values: pending leaves and their schedule, streams and their
    clients, memberships, and the small steps between such states (internal/multicast/runtime.go). */
module RuntimeState {
  import opened Clock
  import opened Sequences
  import opened MulticastTypes
  import opened SourceLists
  import opened Membership
  import opened StreamTable
  import opened FilterBackend
  import opened LeaveProtocol
  import opened NetworkView
  import PolicyEngine
  import PreviewPacing
  import opened PolicyCompile

  datatype ClientGroupKey =
    ClientGroupKey(subscriberID: nat, interfaceName: string, client: Addr, mac: nat, vlan: VLAN, group: Addr)

  datatype PendingKey = PendingKey(stream: StreamKey, identity: Identity)

  datatype Pending = Pending(subscriber: Subscriber, interfaceName: string, profile: Profile, group: ActiveGroup,
                             tags: seq<VLANTag>, remaining: nat, next: Time)

  /** A general query that a proxy repeats on one interface. */
  datatype GeneralQuery = GeneralQuery(interfaceName: string, profile: Profile, tags: seq<VLANTag>, next: Time)

  type PendingLeaves = map<PendingKey, Pending>

  type Histories = map<PendingKey, seq<LeaveEvent>>

  const DECISECOND: nat := 100_000_000

  /** The longest time.Duration, in nanoseconds; longer intervals saturate. */
  const MAX_DURATION: nat := 0x7fff_ffff_ffff_ffff

  function Saturated(n: nat): nat { if n > MAX_DURATION then MAX_DURATION else n }

  function EffectiveRobustness(profile: Profile): (robustness: nat)
    ensures robustness > 0
  {
    if profile.robustness == 0 then 2 else profile.robustness
  }

  function EffectiveLastMemberInterval(profile: Profile): nat {
    Saturated((if profile.lastMemberQueryInterval == 0 then 10 else profile.lastMemberQueryInterval) * DECISECOND)
  }

  function QueryInterval(profile: Profile): nat {
    Saturated((if profile.queryInterval == 0 then 125 else profile.queryInterval) * SECOND)
  }

  /** A query that is due is sent and waits for the next interval. */
  function Repeated(query: GeneralQuery, now: Time): GeneralQuery {
    if query.next > now then query else query.(next := now + QueryInterval(query.profile))
  }

  /** A proxy asks at once. */
  function Started(queriers: seq<GeneralQuery>, now: Time): seq<GeneralQuery> {
    seq(|queriers|, i requires 0 <= i < |queriers| => queriers[i].(next := now))
  }

  /** How long a proxy remembers a silent client (section 8.4 of RFC 3376). */
  function MembershipInterval(profile: Profile): nat {
    var queryInterval := if profile.queryInterval == 0 then 125 else profile.queryInterval;
    var response := if profile.queryMaxResponseTime == 0 then 100 else profile.queryMaxResponseTime;
    Saturated(Saturated(EffectiveRobustness(profile) * queryInterval * SECOND) + Saturated(response * DECISECOND))
  }

  function ActiveGroupOf(request: Join, decision: Decision): ActiveGroup {
    ActiveGroup(request.interfaceName, request.source, [], [], request.group, request.client, request.uniVLAN,
                decision.aniVLAN, decision.profileID, decision.aclRowKey, decision.gemPortID,
                decision.imputedBandwidth, decision.previewUntil)
  }

  function StreamKeyOf(key: ClientGroupKey, source: Addr): StreamKey {
    StreamKey(key.subscriberID, key.interfaceName, source, key.group, key.vlan)
  }

  function IdentityOf(key: ClientGroupKey): Identity { Identity(key.client, key.mac) }

  function SourceRequest(key: ClientGroupKey, source: Addr): Join {
    Join(key.subscriberID, key.interfaceName, key.vlan, source, key.group, key.client)
  }

  predicate SameReplicationGroup(left: ActiveGroup, right: ActiveGroup) {
    && left.source == right.source && left.group == right.group && left.uniVLAN == right.uniVLAN
    && left.aniVLAN == right.aniVLAN && left.gemPortID == right.gemPortID
    && left.includedSources == right.includedSources && left.excludedSources == right.excludedSources
  }

  predicate SameMembershipGroup(left: ActiveGroup, right: ActiveGroup) {
    && left.source.IsUnspecified() == right.source.IsUnspecified()
    && left.includedSources == right.includedSources && left.excludedSources == right.excludedSources
  }

  function EmptyMembershipGroup(previous: ActiveGroup): ActiveGroup {
    previous.(source := Wildcard(previous.group), includedSources := [], excludedSources := [])
  }

  // ---------- the invariant ----------

  /** The interface of every stream belongs to the subscriber of the stream, and every client is filed under
      a profile in force. */
  ghost predicate Bound(streams: Streams, bindings: map<string, Subscriber>) {
    && (forall key :: key in streams ==>
          key.interfaceName in bindings && bindings[key.interfaceName].entityID == key.subscriberID)
    && (forall key, id :: Has(streams, key, id) ==> InForce(bindings, key, streams[key][id].group.profileID))
  }

  lemma BoundAt(streams: Streams, bindings: map<string, Subscriber>, key: StreamKey, id: Identity)
    requires Bound(streams, bindings) && Has(streams, key, id)
    ensures InForce(bindings, key, streams[key][id].group.profileID)
  {}

  /** Every bound subscriber is served by the policy engine, under its own policy. */
  ghost predicate Served(bindings: map<string, Subscriber>, subscribers: map<nat, PolicyMatch.CompiledSubscriber>) {
    forall name :: name in bindings ==>
      && bindings[name].entityID in subscribers
      && subscribers[bindings[name].entityID].policy == bindings[name]
  }

  /** The profile of an accepted or forwarded join is in force for its stream. */
  lemma RulingIsInForce(profiles: map<nat, Profile>, bindings: map<string, Subscriber>,
                        subscribers: map<nat, PolicyMatch.CompiledSubscriber>, key: ClientGroupKey, source: Addr,
                        decision: Decision)
    requires Served(bindings, subscribers)
    requires key.interfaceName in bindings && bindings[key.interfaceName].entityID == key.subscriberID
    requires PolicyEngine.RuledBy(profiles, subscribers, SourceRequest(key, source), decision)
    ensures decision.accepted || decision.forwardUpstream ==>
              InForce(bindings, StreamKeyOf(key, source), decision.profileID)
  {
    hide PolicyMatch.InForce;
  }

  /** The profile of an expired entry is in force for its stream. */
  lemma ExpiredInForce(profiles: map<nat, Profile>, bindings: map<string, Subscriber>,
                       subscribers: map<nat, PolicyMatch.CompiledSubscriber>,
                       state: map<nat, PolicyEngine.SubscriberState>, id: nat, group: ActiveGroup, now: Time)
    requires Served(bindings, subscribers) && Assigned(state, bindings)
    requires PolicyEngine.FromEntry(state, id, group, now)
    requires PolicyEngine.Rules(profiles, subscribers, id, group.uniVLAN, group.profileID)
    ensures group.profileID in profiles && InForce(bindings, ExpiredKey(bindings, group), group.profileID)
  {
    hide PolicyMatch.InForce, PolicyEngine.Due;
  }

  function HistoryOf(history: Histories, key: PendingKey): seq<LeaveEvent> {
    if key in history then history[key] else []
  }

  /** The remaining queries and the next deadline of a pending leave agree with its history. */
  predicate Waiting(p: Pending, history: seq<LeaveEvent>) {
    var phase := PhaseAfter(history);
    && phase.Some? && phase.value.Leaving?
    && phase.value.robustness == EffectiveRobustness(p.profile)
    && phase.value.interval == EffectiveLastMemberInterval(p.profile)
    && phase.value.sent > 0 && phase.value.sent + p.remaining == phase.value.robustness
    && p.next == phase.value.last + phase.value.interval
  }

  ghost predicate Scheduled(pending: PendingLeaves, history: Histories) {
    && (forall key :: key in pending ==>
          && Waiting(pending[key], HistoryOf(history, key))
          && pending[key].subscriber.entityID == key.stream.subscriberID
          && pending[key].interfaceName == key.stream.interfaceName)
    && (forall key :: key in history ==> PhaseAfter(history[key]).Some?)
  }

  ghost predicate Coherent(dynamic: map<StreamKey, Rule>, streams: Streams, lost: set<StreamKey>,
                           bindings: map<string, Subscriber>, pending: PendingLeaves, history: Histories) {
    Mirrors(dynamic, streams, lost) && Bound(streams, bindings) && Scheduled(pending, history)
  }

  // ---------- small steps of the leave schedule ----------

  lemma HistoryRuns(pending: PendingLeaves, history: Histories, key: PendingKey)
    requires Scheduled(pending, history)
    ensures PhaseAfter(HistoryOf(history, key)).Some?
  {}

  lemma ReportCancels(pending: PendingLeaves, history: Histories, key: PendingKey, now: Time)
    requires Scheduled(pending, history)
    ensures Scheduled(pending - {key}, history[key := HistoryOf(history, key) + [Reported(now)]])
  {
    hide PhaseAfter, Waiting;
    HistoryRuns(pending, history, key);
    PhaseSnoc(HistoryOf(history, key), Reported(now));
  }

  lemma ForgetPending(pending: PendingLeaves, history: Histories, key: PendingKey)
    requires Scheduled(pending, history)
    ensures Scheduled(pending - {key}, history)
  {
    hide PhaseAfter, Waiting;
  }

  lemma LeaveStarts(pending: PendingLeaves, history: Histories, key: PendingKey, p: Pending, now: Time)
    requires Scheduled(pending, history)
    requires p.subscriber.entityID == key.stream.subscriberID && p.interfaceName == key.stream.interfaceName
    requires p.remaining == EffectiveRobustness(p.profile) - 1
    requires p.next == now + EffectiveLastMemberInterval(p.profile)
    ensures var left := Left(now, EffectiveRobustness(p.profile), EffectiveLastMemberInterval(p.profile));
      Scheduled(pending[key := p], history[key := HistoryOf(history, key) + [left] + [Queried(now)]])
  {
    hide PhaseAfter;
    var h := HistoryOf(history, key);
    var left := Left(now, EffectiveRobustness(p.profile), EffectiveLastMemberInterval(p.profile));
    HistoryRuns(pending, history, key);
    PhaseSnoc(h, left);
    PhaseSnoc(h + [left], Queried(now));
    assert Waiting(p, h + [left] + [Queried(now)]);
    hide Waiting;
  }

  lemma QueryRepeats(pending: PendingLeaves, history: Histories, key: PendingKey, now: Time)
    requires Scheduled(pending, history) && key in pending && pending[key].remaining > 0 && pending[key].next <= now
    ensures var p := pending[key];
      var next := p.(remaining := p.remaining - 1, next := now + EffectiveLastMemberInterval(p.profile));
      Scheduled(pending[key := next], history[key := HistoryOf(history, key) + [Queried(now)]])
  {
    hide PhaseAfter;
    var p := pending[key];
    var next := p.(remaining := p.remaining - 1, next := now + EffectiveLastMemberInterval(p.profile));
    PhaseSnoc(HistoryOf(history, key), Queried(now));
    assert Waiting(next, HistoryOf(history, key) + [Queried(now)]);
    hide Waiting;
  }

  lemma RemovalDue(pending: PendingLeaves, history: Histories, key: PendingKey, now: Time)
    requires Scheduled(pending, history) && key in pending && pending[key].remaining == 0 && pending[key].next <= now
    ensures Scheduled(pending - {key}, history[key := HistoryOf(history, key) + [Removed(now)]])
  {
    hide PhaseAfter;
    PhaseSnoc(HistoryOf(history, key), Removed(now));
    assert Waiting(pending[key], HistoryOf(history, key));
    hide Waiting;
  }

  // ---------- reports ----------

  lemma OnlyClient(clients: Clients, id: Identity)
    requires id in clients
    ensures |clients| == 1 <==> clients.Keys == {id}
    ensures clients - {id} == map[] <==> clients.Keys == {id}
  {
    assert |clients| == |clients.Keys|;
    if |clients| == 1 {
      var rest := clients.Keys - {id};
      assert |rest| == 0;
      assert rest == {};
    }
    if clients - {id} == map[] {
      assert forall k :: k in clients ==> k == id || k in clients - {id};
    }
  }

  lemma StillPeopled(key: StreamKey, clients: Clients, id: Identity)
    requires Peopled(key, clients) && clients - {id} != map[]
    ensures Peopled(key, clients - {id})
  {}

  lemma NewlyPeopled(streams: Streams, key: StreamKey, id: Identity, client: Client)
    requires AllPeopled(streams) && key.group.IsValid() && Filed(key, client)
    ensures Peopled(key, WithClient(streams, key, id, client)[key])
  {
    assert id in WithClient(streams, key, id, client)[key];
    if key in streams {
      assert Peopled(key, streams[key]);
    }
  }

  lemma BoundAdd(streams: Streams, bindings: map<string, Subscriber>, key: StreamKey, id: Identity, client: Client)
    requires Bound(streams, bindings) && InForce(bindings, key, client.group.profileID)
    ensures Bound(WithClient(streams, key, id, client), bindings)
  {
    hide InForce;
    var after := WithClient(streams, key, id, client);
    assert InForce(bindings, key, client.group.profileID) ==>
        key.interfaceName in bindings && bindings[key.interfaceName].entityID == key.subscriberID by {
      ForcedIsBound(bindings, key, client.group.profileID);
    }
    forall k, i | Has(after, k, i) ensures InForce(bindings, k, after[k][i].group.profileID) {
      assert (k == key && i == id) || Has(streams, k, i);
    }
  }

  lemma ForcedIsBound(bindings: map<string, Subscriber>, key: StreamKey, profileID: nat)
    ensures InForce(bindings, key, profileID) ==>
              key.interfaceName in bindings && bindings[key.interfaceName].entityID == key.subscriberID
  {}

  /** Every wildcard or single-source stream of the group counts, so the aggregate of a live stream exists. */
  lemma OwnSibling(streams: Streams, key: StreamKey)
    requires key in streams
    ensures exists other :: other in streams && Sibling(other, key)
  {
    assert Sibling(key, key);
  }

  lemma SameExclusions(key: StreamKey, before: Clients, after: Clients, previous: ActiveGroup, current: ActiveGroup)
    requires StandsFor(previous, key, before) && StandsFor(current, key, after)
    requires previous.excludedSources == current.excludedSources
    ensures Exclusions(key.source, before) == Exclusions(key.source, after)
  {
    hide Exclusions, Ascending;
    assert forall a :: a in Exclusions(key.source, before) <==> a in previous.excludedSources;
  }

  lemma SameAsks(left: ActiveGroup, right: ActiveGroup)
    requires SameMembershipGroup(left, right)
    ensures forall a :: Asks(left, a) <==> Asks(right, a)
  {}

  function WithLearned(robustness: map<(string, nat), nat>, interfaceName: string, profile: Profile): Profile {
    if profile.robustness == 0 && (interfaceName, profile.entityID) in robustness
       && robustness[(interfaceName, profile.entityID)] != 0
    then profile.(robustness := robustness[(interfaceName, profile.entityID)])
    else profile
  }

  /** A client of a proxy that has not reported for the membership interval. */
  predicate Silent(profiles: map<nat, Profile>, robustness: map<(string, nat), nat>, interfaceName: string,
                   client: Client,
                   now: Time) {
    && client.group.profileID in profiles
    && profiles[client.group.profileID].igmpFunction == 2
    && var profile := WithLearned(robustness, interfaceName, profiles[client.group.profileID]);
    && client.lastSeen + MembershipInterval(profile) <= now
  }

  /** A silent client whose leave is not already under way. */
  predicate StaleIn(streams: Streams, pending: PendingLeaves, profiles: map<nat, Profile>,
                    robustness: map<(string, nat), nat>,
                    key: StreamKey, id: Identity, now: Time)
    requires Has(streams, key, id)
  {
    PendingKey(key, id) !in pending && Silent(profiles, robustness, key.interfaceName, streams[key][id], now)
  }

  /** The stale clients went, the others are what they were, and none of them is stale. */
  ghost predicate StaleGone(before: Streams, leaving: PendingLeaves, after: Streams, pending: PendingLeaves,
                            profiles: map<nat, Profile>, robustness: map<(string, nat), nat>, now: Time) {
    && (forall key, id :: Has(after, key, id) <==>
          Has(before, key, id) && !StaleIn(before, leaving, profiles, robustness, key, id, now))
    && (forall key, id :: Has(after, key, id) ==> RemainsAt(before, leaving, after, pending, key, id))
    && (forall key, id :: Has(after, key, id) ==> !StaleIn(after, pending, profiles, robustness, key, id, now))
    && pending.Keys <= leaving.Keys && (forall key :: key in pending ==> pending[key] == leaving[key])
  }

  /** The igmpVersion field of a configured profile is one of the five protocol versions. */
  predicate Versioned(profiles: map<nat, Profile>) {
    forall id :: id in profiles ==> profiles[id].igmpVersion in {1, 2, 3, 16, 17}
  }

  /** The profiles are well formed, and the pending leaves know theirs. */
  ghost predicate Grounded(setup: Setup, pending: PendingLeaves) {
    && WellNamed(setup.profiles) && Versioned(setup.profiles)
    && (forall key :: key in pending ==> Knows(setup, key.stream, pending[key].profile))
  }

  lemma GroundedNew(setup: Setup)
    requires WellNamed(setup.profiles) && Versioned(setup.profiles)
    ensures Grounded(setup, map[])
  {}

  lemma GroundedParts(setup: Setup, pending: PendingLeaves)
    requires Grounded(setup, pending)
    ensures forall key :: key in pending ==> Knows(setup, key.stream, pending[key].profile)
  {}

  lemma GroundedKnows(setup: Setup, pending: PendingLeaves, key: StreamKey, id: nat)
    requires Grounded(setup, pending) && id in setup.profiles && InForce(setup.bindings, key, id)
    ensures Knows(setup, key, setup.profiles[id])
  {
    hide InForce;
  }

  lemma GroundedFewer(setup: Setup, pending: PendingLeaves, fewer: PendingLeaves)
    requires Grounded(setup, pending)
    requires fewer.Keys <= pending.Keys && forall key :: key in fewer ==> fewer[key] == pending[key]
    ensures Grounded(setup, fewer)
  {
    hide Knows, Versioned, WellNamed;
  }

  lemma GroundedMore(setup: Setup, pending: PendingLeaves, key: PendingKey, leave: Pending)
    requires Grounded(setup, pending) && Knows(setup, key.stream, leave.profile)
    ensures Grounded(setup, pending[key := leave])
  {
    hide Knows, Versioned, WellNamed;
  }

  /** The engine files an entry under the subscriber of its interface. */
  ghost predicate Assigned(state: map<nat, PolicyEngine.SubscriberState>, bindings: map<string, Subscriber>) {
    forall id, key :: id in state && key in state[id].groups ==>
      key.interfaceName in bindings && bindings[key.interfaceName].entityID == id
  }

  lemma AssignedGrows(before: map<nat, PolicyEngine.SubscriberState>, after: map<nat, PolicyEngine.SubscriberState>,
                      bindings: map<string, Subscriber>, request: Join, now: Time)
    requires Assigned(before, bindings) && PolicyEngine.Grown(PolicyEngine.Swept(before, now), after, request)
    requires request.interfaceName in bindings && bindings[request.interfaceName].entityID == request.subscriberID
    ensures Assigned(after, bindings)
  {
    hide PolicyEngine.Due;
  }

  lemma AssignedShrinks(before: map<nat, PolicyEngine.SubscriberState>, after: map<nat, PolicyEngine.SubscriberState>,
                        bindings: map<string, Subscriber>)
    requires Assigned(before, bindings) && PolicyEngine.Shrunk(before, after)
    ensures Assigned(after, bindings)
  {}

  /** The engine's answer to a join, and what it does to the subscriber's groups. */
  ghost predicate PolicyAnswers(subscribers: map<nat, PolicyMatch.CompiledSubscriber>,
                                before: map<nat, PolicyEngine.SubscriberState>,
                                after: map<nat, PolicyEngine.SubscriberState>, request: Join, now: Time,
                                decision: Decision) {
    if request.subscriberID in subscribers && ValidJoin(request) then
      exists chosen, started ::
        PolicyEngine.JoinOutcome(subscribers[request.subscriberID].policy,
                                 PolicyEngine.StateOf(PolicyEngine.Swept(before, now), request.subscriberID).groups,
                                 request, now, chosen, started,
                                 PolicyEngine.StateOf(after, request.subscriberID).groups, decision)
    else !decision.accepted && after == PolicyEngine.Swept(before, now)
  }

  /** The group a client is filed with, on the terms of the engine's decision. */
  function Granted(request: Join, decision: Decision, excluded: seq<Addr>): ActiveGroup {
    ActiveGroupOf(request, decision).(excludedSources := if request.source.IsUnspecified() then excluded else [])
  }

  lemma ReadyParts(subscribers: map<nat, PolicyMatch.CompiledSubscriber>, profiles: map<nat, Profile>)
    requires Ready(subscribers, profiles)
    ensures forall id :: id in subscribers ==>
              PolicyMatch.Compiled(subscribers[id], profiles) &&
              Admission.UniquePackages(subscribers[id].policy.servicePackages)
  {}

  lemma NothingCoherent(bindings: map<string, Subscriber>)
    ensures Coherent(map[], map[], {}, bindings, map[], map[])
  {}

  function ExpiredKey(bindings: map<string, Subscriber>, group: ActiveGroup): StreamKey {
    StreamKey(if group.interfaceName in bindings then bindings[group.interfaceName].entityID else 0,
              group.interfaceName, group.source, group.group, group.uniVLAN)
  }

  predicate Addressed(clients: Clients, address: Addr) { exists id :: id in clients && id.address == address }

  /** Any client with the address; the zero identity when there is none. */
  predicate Picks(clients: Clients, address: Addr, id: Identity) {
    if Addressed(clients, address) then id in clients && id.address == address else id == Identity(NoAddr, 0)
  }

  method FindClient(clients: Clients, address: Addr) returns (id: Identity)
    ensures Picks(clients, address, id)
  {
    var rest := clients.Keys;
    while rest != {}
      invariant rest <= clients.Keys
      invariant forall other :: other in clients && other !in rest ==> other.address != address
      decreases |rest|
    {
      id :| id in rest;
      if id.address == address {
        return;
      }
      rest := rest - {id};
    }
    id := Identity(NoAddr, 0);
  }

  lemma DropClient(streams: Streams, key: StreamKey, id: Identity)
    requires key in streams && streams[key] != map[]
    ensures WithoutClient(streams, key, id) ==
            if |streams[key] - {id}| == 0 then streams - {key} else streams[key := streams[key] - {id}]
  {
    var clients := streams[key] - {id};
    if id in streams[key] {
      OnlyClient(streams[key], id);
      assert |clients| == 0 <==> clients == map[];
    } else {
      assert clients == streams[key];
    }
  }

  predicate Concerns(member: ClientGroupKey, key: StreamKey, group: ActiveGroup) {
    && member.subscriberID == key.subscriberID && member.interfaceName == group.interfaceName
    && member.client == group.client && member.vlan == group.uniVLAN && member.group == group.group
  }

  /** A membership without the expired source; None when nothing is left of it. */
  function Remaining(filter: Filter, source: Addr): Option<Filter> {
    if filter.mode == Exclude && source.IsUnspecified() then None
    else
      var sources := filter.sources - {source};
      if sources == {} then None else Some(filter.(sources := sources))
  }

  function ForgetExpired(memberships: map<ClientGroupKey, Filter>, key: StreamKey, group: ActiveGroup):
    map<ClientGroupKey, Filter>
  {
    map member | member in memberships &&
      (Concerns(member, key, group) ==> Remaining(memberships[member], group.source).Some?) ::
      if Concerns(member, key, group) then Remaining(memberships[member], group.source).value
      else memberships[member]
  }

  method ForgetMemberships(memberships: map<ClientGroupKey, Filter>, key: StreamKey, group: ActiveGroup)
    returns (result: map<ClientGroupKey, Filter>)
    ensures result == ForgetExpired(memberships, key, group)
  {
    hide Concerns, Remaining;
    result := memberships;
    var rest := memberships.Keys;
    while rest != {}
      invariant rest <= memberships.Keys
      invariant forall m :: m in memberships && (m in rest || !Concerns(m, key, group)) ==>
                  m in result && result[m] == memberships[m]
      invariant forall m :: m in memberships && m !in rest && Concerns(m, key, group) ==>
                  (m in result <==> Remaining(memberships[m], group.source).Some?)
      invariant forall m :: m in memberships && m !in rest && Concerns(m, key, group) && m in result ==>
                  Some(result[m]) == Remaining(memberships[m], group.source)
      invariant result.Keys <= memberships.Keys
      decreases |rest|
    {
      var member :| member in rest;
      rest := rest - {member};
      if Concerns(member, key, group) {
        var left := Remaining(memberships[member], group.source);
        if left.None? {
          result := result - {member};
        } else {
          result := result[member := left.value];
        }
      }
    }
  }

  /** All clients but those gone are as they were, and leave or stay as they did. */
  ghost predicate Remain(before: Streams, leaving: PendingLeaves, streams: Streams, pending: PendingLeaves,
                         gone: set<(StreamKey, Identity)>) {
    && (forall key, id :: Has(streams, key, id) <==> Has(before, key, id) && (key, id) !in gone)
    && (forall key, id :: Has(streams, key, id) ==>
          RemainsAt(before, leaving, streams, pending, key, id))
    && pending.Keys <= leaving.Keys && (forall key :: key in pending ==> pending[key] == leaving[key])
  }

  ghost predicate RemainsAt(before: Streams, leaving: PendingLeaves, streams: Streams, pending: PendingLeaves,
                            key: StreamKey,
                            id: Identity) {
    && Has(streams, key, id) && Has(before, key, id) && streams[key][id] == before[key][id]
    && (PendingKey(key, id) in pending <==> PendingKey(key, id) in leaving)
  }

  lemma RemainAll(streams: Streams, pending: PendingLeaves, stale: seq<StaleClient>)
    ensures Remain(streams, pending, streams, pending, Listed(stale, 0))
  {}

  ghost function Listed(stale: seq<StaleClient>, n: nat): set<(StreamKey, Identity)>
    requires n <= |stale|
  {
    set i | 0 <= i < n :: (stale[i].key, stale[i].id)
  }

  lemma ListedNext(stale: seq<StaleClient>, n: nat)
    requires n < |stale|
    ensures Listed(stale, n + 1) == Listed(stale, n) + {(stale[n].key, stale[n].id)}
  {}

  lemma NoneStale(before: Streams, leaving: PendingLeaves, after: Streams, pending: PendingLeaves,
                  gone: set<(StreamKey, Identity)>, profiles: map<nat, Profile>,
                  robustness: map<(string, nat), nat>, now: Time)
    requires Remain(before, leaving, after, pending, gone)
    requires forall key, id :: Has(before, key, id) ==>
      ((key, id) in gone <==> StaleIn(before, leaving, profiles, robustness, key, id, now))
    ensures StaleGone(before, leaving, after, pending, profiles, robustness, now)
  {
    hide Silent;
    forall key, id | Has(after, key, id) ensures !StaleIn(after, pending, profiles, robustness, key, id, now) {
      assert RemainsAt(before, leaving, after, pending, key, id);
      assert (key, id) !in gone;
    }
  }

  lemma RemainNext(before: Streams, leaving: PendingLeaves, streams: Streams, pending: PendingLeaves,
                   gone: set<(StreamKey, Identity)>, key: StreamKey, id: Identity, after: PendingLeaves)
    requires Remain(before, leaving, streams, pending, gone)
    requires after == if Has(streams, key, id) then pending - {PendingKey(key, id)} else pending
    ensures Remain(before, leaving, WithoutClient(streams, key, id), after, gone + {(key, id)})
  {
    HasWithout(streams, key, id);
    forall k, i | Has(WithoutClient(streams, key, id), k, i)
      ensures RemainsAt(before, leaving, WithoutClient(streams, key, id), after, k, i)
    {
      assert RemainsAt(before, leaving, streams, pending, k, i);
    }
  }

  lemma HasWithout(streams: Streams, key: StreamKey, id: Identity)
    ensures forall k, i :: Has(WithoutClient(streams, key, id), k, i) <==> Has(streams, k, i) && !(k == key && i == id)
  {}

  datatype StaleClient = StaleClient(key: StreamKey, id: Identity, active: Client, profile: Profile)

  lemma IntervalIsPositive(profile: Profile)
    ensures EffectiveLastMemberInterval(profile) > 0
  {}

  /** The given profiles of one interface hold the value just learned; everything else is as before. */
  ghost predicate Taught(before: map<(string, nat), nat>, after: map<(string, nat), nat>, interfaceName: string,
                         value: nat, ids: set<nat>) {
    && (forall key :: key in after <==> key in before || (key.0 == interfaceName && key.1 in ids))
    && (forall key :: key in after ==>
          after[key] == if key.0 == interfaceName && key.1 in ids then value else before[key])
  }

  datatype MessageKind = Query | Report | OtherMessage

  datatype Message = Message(kind: MessageKind, version: nat, downstream: bool, vlan: VLAN, client: Addr, mac: nat,
                             queryRobustness: nat, tags: seq<VLANTag>, records: seq<MembershipRecord>)

  /** The profiles in force for the message that have no robustness of their own, of the same protocol. */
  function LearningProfiles(subscriber: Subscriber, profiles: map<nat, Profile>, message: Message): set<nat> {
    var candidates :=
      if subscriber.servicePackages == [] then {subscriber.profile}
      else set p | p in subscriber.servicePackages && PolicyMatch.ServiceVLANMatches(p.vlanID, message.vlan)
             :: p.operationsProfile;
    set id | id in candidates && id in profiles && profiles[id].robustness == 0
             && (profiles[id].igmpVersion <= 3) == (message.version <= 3)
  }

  function LeftNow(profile: Profile, now: Time): LeaveEvent {
    Left(now, EffectiveRobustness(profile), EffectiveLastMemberInterval(profile))
  }

  /** A leave whose first query has just been sent. */
  function Asked(subscriber: Subscriber, interfaceName: string, profile: Profile, group: ActiveGroup,
                 tags: seq<VLANTag>,
                 now: Time): Pending {
    Pending(subscriber, interfaceName, profile, group, tags, EffectiveRobustness(profile) - 1,
            now + EffectiveLastMemberInterval(profile))
  }

  function MembershipOf(memberships: map<ClientGroupKey, Filter>, key: ClientGroupKey): Filter {
    if key in memberships then memberships[key] else NoMembership
  }

  /** The client is filed under the stream of this source, the wildcard source with the given exclusions. */
  ghost predicate HasEntry(streams: Streams, key: ClientGroupKey, source: Addr, excluded: seq<Addr>) {
    var streamKey, id := StreamKeyOf(key, source), IdentityOf(key);
    && streamKey in streams && id in streams[streamKey]
    && streams[streamKey][id].group.source == source
    && streams[streamKey][id].group.excludedSources == if source.IsUnspecified() then excluded else []
  }

  lemma EnteredEntries(before: Streams, after: Streams, key: ClientGroupKey, source: Addr, excluded: seq<Addr>,
                       now: Time)
    requires Entered(before, after, key, source, excluded, now)
    ensures HasEntry(after, key, source, excluded)
    ensures forall a :: HasEntry(before, key, a, excluded) ==> HasEntry(after, key, a, excluded)
  {}

  lemma ListedOnly(list: seq<Addr>, sources: set<Addr>)
    requires Lists(list, sources)
    ensures forall a :: a in list <==> a in sources
  {}

  lemma ClientIsFiled(dynamic: map<StreamKey, Rule>, streams: Streams, lost: set<StreamKey>, key: StreamKey,
                      id: Identity)
    requires Mirrors(dynamic, streams, lost) && key in streams && id in streams[key]
    ensures Filed(key, streams[key][id])
  {
    hide Reflects;
    assert Peopled(key, streams[key]);
  }

  /** The membership a record leaves: the filter it asks for, cut down in include mode to the sources that
      were accepted or already forwarded; none at all when nothing is forwarded. The client is filed under
      the stream of each of those sources. */
  ghost predicate Applied(before: map<ClientGroupKey, Filter>, after: map<ClientGroupKey, Filter>, streams: Streams,
                          key: ClientGroupKey, record: MembershipRecord, kept: set<Addr>, excluded: seq<Addr>) {
    var filter := MembershipOf(before, key);
    var wanted := Transition(filter, record);
    var forwarded := ForwardingSources(wanted, key.client);
    && Lists(excluded, wanted.sources)
    && ForwardingSources(filter, key.client) * forwarded <= kept <= forwarded
    && (forall a :: a in kept ==> HasEntry(streams, key, a, excluded))
    && after == if kept == {} then before - {key}
                else before[key := if wanted.mode == Include then wanted.(sources := kept) else wanted]
  }

  /** The client a report speaks for; the group is that of each record. */
  function ReporterOf(subscriber: Subscriber, interfaceName: string, message: Message): ClientGroupKey {
    ClientGroupKey(subscriber.entityID, interfaceName, message.client, message.mac, message.vlan, NoAddr)
  }

  /** One record's effect on the memberships: the client's filter for the record's group becomes the one
      the record asks for, cut down in include mode to the sources that are forwarded. */
  ghost predicate Narrowed(before: map<ClientGroupKey, Filter>, after: map<ClientGroupKey, Filter>, key: ClientGroupKey,
                           record: MembershipRecord) {
    exists kept :: NarrowedTo(before, after, key, record, kept)
  }

  ghost predicate NarrowedTo(before: map<ClientGroupKey, Filter>, after: map<ClientGroupKey, Filter>,
                             key: ClientGroupKey,
                             record: MembershipRecord, kept: set<Addr>) {
    var filter := MembershipOf(before, key);
    var wanted := Transition(filter, record);
    var forwarded := ForwardingSources(wanted, key.client);
    && ForwardingSources(filter, key.client) * forwarded <= kept <= forwarded
    && after == if kept == {} then before - {key}
                else before[key := if wanted.mode == Include then wanted.(sources := kept) else wanted]
  }

  lemma AppliedNarrows(before: map<ClientGroupKey, Filter>, after: map<ClientGroupKey, Filter>, streams: Streams,
                       key: ClientGroupKey, record: MembershipRecord, kept: set<Addr>, excluded: seq<Addr>)
    requires Applied(before, after, streams, key, record, kept, excluded)
    ensures Narrowed(before, after, key, record)
  {
    hide HasEntry, Lists;
    assert NarrowedTo(before, after, key, record, kept);
  }

  /** The memberships before the first record, and after each of them. */
  ghost predicate Followed(trace: seq<map<ClientGroupKey, Filter>>, before: map<ClientGroupKey, Filter>,
                           after: map<ClientGroupKey, Filter>, reporter: ClientGroupKey,
                           records: seq<MembershipRecord>) {
    && |trace| == |records| + 1 && trace[0] == before && trace[|records|] == after
    && forall i :: 0 <= i < |records| ==>
         Narrowed(trace[i], trace[i + 1], reporter.(group := records[i].group), records[i])
  }

  lemma FollowedNext(trace: seq<map<ClientGroupKey, Filter>>, before: map<ClientGroupKey, Filter>,
                     middle: map<ClientGroupKey, Filter>, reporter: ClientGroupKey, records: seq<MembershipRecord>,
                     record: MembershipRecord, after: map<ClientGroupKey, Filter>)
    requires Followed(trace, before, middle, reporter, records)
    requires Narrowed(middle, after, reporter.(group := record.group), record)
    ensures Followed(trace + [after], before, after, reporter, records + [record])
  {
    hide Narrowed;
    var more, all := trace + [after], records + [record];
    forall i | 0 <= i < |all| ensures Narrowed(more[i], more[i + 1], reporter.(group := all[i].group), all[i]) {
      if i < |records| {
        assert more[i] == trace[i] && more[i + 1] == trace[i + 1] && all[i] == records[i];
      }
    }
  }

  /** When nothing was refused and no unspecified address was listed in include mode, the client's entries
      deliver exactly what the record means on top of what the client asked for before. */
  lemma RecordIsDelivered(before: map<ClientGroupKey, Filter>, after: map<ClientGroupKey, Filter>, streams: Streams,
                          key: ClientGroupKey, record: MembershipRecord, kept: set<Addr>, excluded: seq<Addr>, a: Addr)
    requires Applied(before, after, streams, key, record, kept, excluded)
    requires var wanted := Transition(MembershipOf(before, key), record);
      && kept == ForwardingSources(wanted, key.client)
      && (wanted.mode == Exclude || (V4(0) !in wanted.sources && V6(0) !in wanted.sources))
    ensures a in Meaning(Wanted(MembershipOf(before, key)), record) <==>
            exists source :: source in kept && HasEntry(streams, key, source, excluded)
              && Delivers(source, streams[StreamKeyOf(key, source)][IdentityOf(key)].group.excludedSources, a)
    ensures Wanted(MembershipOf(after, key)) == Meaning(Wanted(MembershipOf(before, key)), record)
  {
    var wanted := Transition(MembershipOf(before, key), record);
    assert Wanted(wanted) == Meaning(Wanted(MembershipOf(before, key)), record) by {
      RecordsKeepMeaning(MembershipOf(before, key), [record]);
      assert [record][..0] == [];
    }
    ProgrammedExactlyWhen(wanted, key.client, excluded);
    assert Programmed(wanted, key.client, excluded, a) <==> a in Wanted(wanted);
    assert forall source :: source in kept ==> HasEntry(streams, key, source, excluded);
    if Programmed(wanted, key.client, excluded, a) {
      var source :| source in ForwardingSources(wanted, key.client) && Delivers(source, excluded, a);
      assert HasEntry(streams, key, source, excluded);
    }
  }

  function SourceRequestOf(key: StreamKey, group: ActiveGroup): Join {
    Join(key.subscriberID, key.interfaceName, group.uniVLAN, group.source, group.group, group.client)
  }

  /** The rollback of an add whose rule was refused. */
  function TakenBack(streams: Streams, key: StreamKey, id: Identity): Streams {
    if key in streams then streams[key := streams[key] - {id}] else streams
  }

  lemma NothingTaken(streams: Streams, key: StreamKey, id: Identity)
    requires !Has(streams, key, id)
    ensures TakenBack(streams, key, id) == streams
  {
    if key in streams {
      assert streams[key] - {id} == streams[key];
    }
  }

  /** A refused rule empties a stream, which stays in the table without clients, exactly when the client
      was the only one of the stream: it had left, its last-member queries were still under way, and its
      new join asked for a different rule. */
  lemma TakenBackEmpties(streams: Streams, key: StreamKey, id: Identity)
    requires AllPeopled(streams) && key in streams
    ensures TakenBack(streams, key, id)[key] == map[] <==> streams[key].Keys == {id}
    ensures streams[key].Keys == {id} ==> !AllPeopled(TakenBack(streams, key, id))
    ensures id !in streams[key] ==> TakenBack(streams, key, id) == streams
  {
    var left := streams[key] - {id};
    if left == map[] {
      assert Peopled(key, streams[key]);
      assert forall k :: k in streams[key] ==> k == id || k in left;
      var some :| some in streams[key];
    }
    if streams[key].Keys == {id} {
      assert left.Keys == {};
      assert !Peopled(key, TakenBack(streams, key, id)[key]);
    }
    if id !in streams[key] {
      NothingTaken(streams, key, id);
    }
  }

  /** The zero value of a client. */
  const ZeroClient: Client := Client(NoGroup, [], -62_135_596_800 * SECOND)

  /** The rollback of a refresh whose rule was refused. */
  function WrittenBack(streams: Streams, key: StreamKey, id: Identity): Streams {
    if Has(streams, key, id) || key !in streams then streams else streams[key := streams[key][id := ZeroClient]]
  }

  lemma NothingWritten(streams: Streams, key: StreamKey, id: Identity)
    requires Has(streams, key, id)
    ensures WrittenBack(streams, key, id) == streams
  {}

  /** A refused refresh of a client the stream does not hold leaves a client behind that is filed nowhere. */
  lemma WrittenBackMisfiles(streams: Streams, key: StreamKey, id: Identity)
    requires AllPeopled(streams) && key in streams
    ensures AllPeopled(WrittenBack(streams, key, id)) <==> id in streams[key]
  {
    var after := WrittenBack(streams, key, id);
    assert Peopled(key, streams[key]);
    if id !in streams[key] {
      assert id in after[key] && !Filed(key, after[key][id]);
      assert !Peopled(key, after[key]);
    }
  }

  /** A leave that failed: without its entry in the engine the client stays, but the rule of a last client
      has already been deleted. */
  ghost predicate RuleLost(streams: Streams, before: set<StreamKey>, after: set<StreamKey>,
                           dynamic: map<StreamKey, Rule>,
                           key: StreamKey)
    requires key in streams
  {
    if |streams[key]| == 1 then after == before + {key} && key !in dynamic else after == before
  }

  lemma FiledAt(key: StreamKey, client: Client)
    requires Filed(key, client)
    ensures client.group.source == key.source && client.group.group == key.group && client.group.uniVLAN == key.vlan
  {}

  lemma LearnedIsKnown(setup: Setup, key: StreamKey, robustness: map<(string, nat), nat>, interfaceName: string,
                       profile: Profile)
    requires Knows(setup, key, profile)
    ensures Knows(setup, key, WithLearned(robustness, interfaceName, profile))
  {
    hide InForce;
  }

  // ---------- waiting leaves ----------

  /** What a pending leave is about: its client, its schedule and its history. */
  datatype Leaves = Leaves(streams: Streams, pending: PendingLeaves, history: Histories)

  /** One more query has been sent. */
  function Again(p: Pending, now: Time): Pending
    requires p.remaining > 0
  {
    p.(remaining := p.remaining - 1, next := now + EffectiveLastMemberInterval(p.profile))
  }

  predicate SameClient(before: Streams, after: Streams, key: PendingKey) {
    && (Has(before, key.stream, key.identity) <==> Has(after, key.stream, key.identity))
    && (Has(before, key.stream, key.identity) ==>
          before[key.stream][key.identity] == after[key.stream][key.identity])
  }

  predicate Untouched(before: Leaves, after: Leaves, key: PendingKey) {
    && (key in before.pending <==> key in after.pending)
    && (key in before.pending ==> before.pending[key] == after.pending[key])
    && HistoryOf(before.history, key) == HistoryOf(after.history, key)
    && SameClient(before.streams, after.streams, key)
  }

  /** A leave that is due is dropped when its client is gone, queried again while queries remain, and
      otherwise removes its client; one that is not due waits. */
  predicate LeaveAdvanced(before: Leaves, after: Leaves, key: PendingKey, now: Time)
    requires key in before.pending
  {
    var p, past, present := before.pending[key], HistoryOf(before.history, key), HistoryOf(after.history, key);
    if p.next > now then Untouched(before, after, key)
    else if !Has(before.streams, key.stream, key.identity) then
      key !in after.pending && !Has(after.streams, key.stream, key.identity) && present == past
    else if p.remaining > 0 then
      && key in after.pending && after.pending[key] == Again(p, now)
      && SameClient(before.streams, after.streams, key) && present == past + [Queried(now)]
    else
      key !in after.pending && !Has(after.streams, key.stream, key.identity) && present == past + [Removed(now)]
  }

  ghost predicate OthersUntouched(before: Leaves, after: Leaves, key: PendingKey) {
    forall other :: other != key ==> Untouched(before, after, other)
  }

  /** All leaves but the remaining ones have advanced. */
  ghost predicate Advanced(before: Leaves, after: Leaves, rest: set<PendingKey>, now: Time) {
    && rest <= before.pending.Keys
    && (forall key :: key in before.pending && key !in rest ==> LeaveAdvanced(before, after, key, now))
    && (forall key :: key !in before.pending || key in rest ==> Untouched(before, after, key))
  }

  lemma NothingAdvanced(before: Leaves, now: Time)
    ensures Advanced(before, before, before.pending.Keys, now)
  {}

  lemma AdvanceNext(before: Leaves, middle: Leaves, after: Leaves, rest: set<PendingKey>, key: PendingKey, now: Time)
    requires Advanced(before, middle, rest, now) && key in rest
    requires key in middle.pending && LeaveAdvanced(middle, after, key, now) && OthersUntouched(middle, after, key)
    ensures Advanced(before, after, rest - {key}, now)
  {
    hide LeaveAdvanced, Untouched;
    UntouchedThenAdvanced(before, middle, after, key, now);
    forall other | other in before.pending && other !in rest ensures LeaveAdvanced(before, after, other, now) {
      AdvancedThenUntouched(before, middle, after, other, now);
    }
    forall other | other !in before.pending || other in rest - {key} ensures Untouched(before, after, other) {
      UntouchedTwice(before, middle, after, other);
    }
  }

  lemma UntouchedTwice(before: Leaves, middle: Leaves, after: Leaves, key: PendingKey)
    requires Untouched(before, middle, key) && Untouched(middle, after, key)
    ensures Untouched(before, after, key)
  {}

  lemma UntouchedThenAdvanced(before: Leaves, middle: Leaves, after: Leaves, key: PendingKey, now: Time)
    requires key in before.pending && key in middle.pending
    requires Untouched(before, middle, key) && LeaveAdvanced(middle, after, key, now)
    ensures LeaveAdvanced(before, after, key, now)
  {
    hide Again;
  }

  lemma AdvancedThenUntouched(before: Leaves, middle: Leaves, after: Leaves, key: PendingKey, now: Time)
    requires key in before.pending && LeaveAdvanced(before, middle, key, now) && Untouched(middle, after, key)
    ensures LeaveAdvanced(before, after, key, now)
  {
    hide Again;
  }

  /** A due leave whose client should now go but has no entry in the engine. */
  predicate Blocked(streams: Streams, pending: PendingLeaves, state: map<nat, PolicyEngine.SubscriberState>,
                    key: PendingKey,
                    now: Time) {
    && key in pending && pending[key].next <= now && pending[key].remaining == 0
    && Has(streams, key.stream, key.identity)
    && !PolicyEngine.HoldsEntry(state, SourceRequestOf(key.stream, streams[key.stream][key.identity].group))
  }

  lemma BlockedIsPending(streams: Streams, pending: PendingLeaves, state: map<nat, PolicyEngine.SubscriberState>,
                         now: Time)
    ensures forall key :: Blocked(streams, pending, state, key, now) ==> key in pending
  {}

  /** The expired entry is not that of one of the given clients. */
  ghost predicate OtherThan(stuck: iset<PendingKey>, bindings: map<string, Subscriber>, group: ActiveGroup) {
    forall key :: key in stuck ==> !(ExpiredKey(bindings, group) == key.stream && group.client == key.identity.address)
  }

  lemma LeaveWaits(now: Leaves, key: PendingKey, at: Time)
    requires key !in now.pending || now.pending[key].next > at
    ensures key in now.pending ==> LeaveAdvanced(now, now, key, at)
    ensures OthersUntouched(now, now, key)
  {}

  lemma LeaveDropped(before: Leaves, key: PendingKey, now: Time)
    requires key in before.pending && before.pending[key].next <= now && !Has(before.streams, key.stream, key.identity)
    ensures var after := before.(pending := before.pending - {key});
      LeaveAdvanced(before, after, key, now) && OthersUntouched(before, after, key)
  {}

  lemma LeaveQueried(before: Leaves, key: PendingKey, now: Time)
    requires key in before.pending && before.pending[key].next <= now && before.pending[key].remaining > 0
    requires Has(before.streams, key.stream, key.identity)
    ensures var after := Leaves(before.streams, before.pending[key := Again(before.pending[key], now)],
                                before.history[key := HistoryOf(before.history, key) + [Queried(now)]]);
      LeaveAdvanced(before, after, key, now) && OthersUntouched(before, after, key)
  {
    hide EffectiveLastMemberInterval;
  }

  lemma LeaveRemoved(before: Leaves, key: PendingKey, now: Time)
    requires key in before.pending && before.pending[key].next <= now && before.pending[key].remaining == 0
    requires Has(before.streams, key.stream, key.identity)
    ensures var after := Leaves(WithoutClient(before.streams, key.stream, key.identity), before.pending - {key},
                                before.history[key := HistoryOf(before.history, key) + [Removed(now)]]);
      LeaveAdvanced(before, after, key, now) && OthersUntouched(before, after, key)
  {
    HasWithout(before.streams, key.stream, key.identity);
    var after := WithoutClient(before.streams, key.stream, key.identity);
    forall other: PendingKey | other != key ensures SameClient(before.streams, after, other) {
      assert PendingKey(other.stream, other.identity) == other;
    }
  }

  lemma AdvancedIsNotDue(before: Leaves, after: Leaves, now: Time)
    requires Advanced(before, after, {}, now)
    ensures forall key :: key in after.pending ==> after.pending[key].next > now
  {
    forall key | key in before.pending ensures key in after.pending ==> after.pending[key].next > now {
      assert LeaveAdvanced(before, after, key, now);
      IntervalIsPositive(before.pending[key].profile);
    }
    assert forall key :: key !in before.pending ==> Untouched(before, after, key);
  }

  /** The client is filed under the valid address it joined with. */
  ghost predicate OwnAddress(streams: Streams, key: PendingKey) {
    && Has(streams, key.stream, key.identity) && Filed(key.stream, streams[key.stream][key.identity])
    && key.identity.address.IsValid() && streams[key.stream][key.identity].group.client == key.identity.address
  }

  lemma StaysBlocked(before: Leaves, after: Leaves, state: map<nat, PolicyEngine.SubscriberState>,
                     next: map<nat, PolicyEngine.SubscriberState>, key: PendingKey, now: Time)
    requires Blocked(before.streams, before.pending, state, key, now) && Untouched(before, after, key)
    requires PolicyEngine.Shrunk(state, next)
    ensures Blocked(after.streams, after.pending, next, key, now)
  {
    hide PolicyEngine.HoldsEntry, PolicyEngine.Shrunk;
    PolicyEngine.ShrunkHoldsNothing(state, next,
                                    SourceRequestOf(key.stream, after.streams[key.stream][key.identity].group));
  }

  /** An expired entry is not the missing entry of a blocked leave. */
  lemma ExpiredIsAnother(streams: Streams, pending: PendingLeaves, state: map<nat, PolicyEngine.SubscriberState>,
                         bindings: map<string, Subscriber>, key: PendingKey, now: Time, id: nat, group: ActiveGroup)
    requires Blocked(streams, pending, state, key, now) && OwnAddress(streams, key) && Assigned(state, bindings)
    requires PolicyEngine.FromEntry(state, id, group, now)
    ensures !(ExpiredKey(bindings, group) == key.stream && group.client == key.identity.address)
  {
    hide PolicyEngine.HoldsEntry;
    var request := SourceRequestOf(key.stream, streams[key.stream][key.identity].group);
    PolicyEngine.HoldsExactlyWhen(state, request);
    var entry :|
      && entry in state[id].groups && PolicyEngine.Names(group, entry)
      && PolicyEngine.Due(state[id].groups[entry], now);
    assert id == key.stream.subscriberID ==> !PolicyEngine.Leaves(entry, request);
  }

  /** The expired entry may take the client with it: one of its address, or the zero identity. */
  predicate MayTake(bindings: map<string, Subscriber>, group: ActiveGroup, key: PendingKey) {
    && ExpiredKey(bindings, group) == key.stream
    && (group.client == key.identity.address || key.identity == Identity(NoAddr, 0))
  }

  ghost predicate FromSome(state: map<nat, PolicyEngine.SubscriberState>, group: ActiveGroup, now: Time) {
    exists id :: PolicyEngine.FromEntry(state, id, group, now)
  }

  /** An entry that may take the client with it is due. */
  ghost predicate ExpiresWith(state: map<nat, PolicyEngine.SubscriberState>, bindings: map<string, Subscriber>,
                              key: PendingKey,
                              now: Time) {
    exists id: nat, group :: PolicyEngine.FromEntry(state, id, group, now) && MayTake(bindings, group, key)
  }

  /** A due entry of the engine takes no other client than its own. */
  lemma ExpiryTouches(first: Leaves, before: Leaves, after: Leaves, state: map<nat, PolicyEngine.SubscriberState>,
                      bindings: map<string, Subscriber>, group: ActiveGroup, owner: nat, id: Identity, now: Time)
    requires PolicyEngine.FromEntry(state, owner, group, now)
    requires forall key :: Untouched(first, before, key) || ExpiresWith(state, bindings, key, now)
    requires var stream := ExpiredKey(bindings, group);
      && (stream in before.streams ==> Picks(before.streams[stream], group.client, id))
      && after.streams == WithoutClient(before.streams, stream, id) && after.history == before.history
      && after.pending == if stream in before.streams then before.pending - {PendingKey(stream, id)} else before.pending
    ensures forall key :: Untouched(first, after, key) || ExpiresWith(state, bindings, key, now)
  {
    hide PolicyEngine.FromEntry, Untouched;
    var stream := ExpiredKey(bindings, group);
    forall key ensures Untouched(first, after, key) || ExpiresWith(state, bindings, key, now) {
      if Untouched(first, before, key) && key != PendingKey(stream, id) {
        TakesOne(before, after, stream, id, key);
        UntouchedTwice(first, before, after, key);
      } else if Untouched(first, before, key) && stream !in before.streams {
        assert after.streams == before.streams;
        TakesNone(before, after, key);
        UntouchedTwice(first, before, after, key);
      } else if Untouched(first, before, key) {
        assert MayTake(bindings, group, key);
      }
    }
  }

  lemma TakesOne(before: Leaves, after: Leaves, stream: StreamKey, id: Identity, key: PendingKey)
    requires key != PendingKey(stream, id) && after.history == before.history
    requires after.streams == WithoutClient(before.streams, stream, id)
    requires after.pending ==
             if stream in before.streams then before.pending - {PendingKey(stream, id)} else before.pending
    ensures Untouched(before, after, key)
  {
    HasWithout(before.streams, stream, id);
    assert PendingKey(key.stream, key.identity) == key;
  }

  lemma UntouchedIsThere(before: Leaves, after: Leaves, key: PendingKey)
    requires Untouched(before, after, key) && key in before.pending && Has(before.streams, key.stream, key.identity)
    ensures key in after.pending && Has(after.streams, key.stream, key.identity)
  {}

  lemma TakesNone(before: Leaves, after: Leaves, key: PendingKey)
    requires after == before
    ensures Untouched(before, after, key)
  {}

  lemma AllUntouched(leaves: Leaves)
    ensures forall key :: Untouched(leaves, leaves, key)
  {}

  /** Forgetting the silent clients leaves the waiting ones alone. */
  lemma AdvancedStays(before: Leaves, middle: Leaves, after: Leaves, profiles: map<nat, Profile>,
                      robustness: map<(string, nat), nat>, key: PendingKey, now: Time)
    requires key in before.pending && Has(before.streams, key.stream, key.identity)
    requires LeaveAdvanced(before, middle, key, now) && after.history == middle.history
    requires StaleGone(middle.streams, middle.pending, after.streams, after.pending, profiles, robustness, now)
    ensures LeaveAdvanced(before, after, key, now)
  {
    hide Silent, Again;
    var stream, id := key.stream, key.identity;
    assert PendingKey(stream, id) == key;
    if key in middle.pending {
      assert Has(after.streams, stream, id);
      assert RemainsAt(middle.streams, middle.pending, after.streams, after.pending, stream, id);
    }
  }

  /** The expiry of another client leaves a blocked leave blocked. */
  lemma BlockedSurvives(streams: Streams, pending: PendingLeaves, state: map<nat, PolicyEngine.SubscriberState>,
                        key: PendingKey, now: Time, other: StreamKey, id: Identity, client: Addr)
    requires Blocked(streams, pending, state, key, now) && OwnAddress(streams, key)
    requires other in streams ==> Picks(streams[other], client, id)
    requires !(other == key.stream && client == key.identity.address)
    ensures var left, rest := WithoutClient(streams, other, id),
                              if other in streams then pending - {PendingKey(other, id)} else pending;
      Blocked(left, rest, state, key, now) && OwnAddress(left, key)
  {
    hide PolicyEngine.HoldsEntry;
    HasWithout(streams, other, id);
  }

  // ---------- clients the engine no longer knows ----------

  /** The client is in its stream, and the engine holds no entry for its address. */
  ghost predicate WithoutEntry(streams: Streams, state: map<nat, PolicyEngine.SubscriberState>, key: PendingKey) {
    && OwnAddress(streams, key)
    && !PolicyEngine.HoldsEntry(state, SourceRequestOf(key.stream, streams[key.stream][key.identity].group))
  }

  lemma OwnIsPresent(streams: Streams, key: PendingKey)
    requires OwnAddress(streams, key)
    ensures Has(streams, key.stream, key.identity) && Filed(key.stream, streams[key.stream][key.identity])
  {}

  /** A second join for the stream and address just accepted is accepted. */
  lemma RejoinIsAccepted(subscribers: map<nat, PolicyMatch.CompiledSubscriber>,
                         first: map<nat, PolicyEngine.SubscriberState>,
                         second: map<nat, PolicyEngine.SubscriberState>, third: map<nat, PolicyEngine.SubscriberState>,
                         request: Join, now: Time, granted: Decision, decision: Decision)
    requires PolicyAnswers(subscribers, first, second, request, now, granted) && granted.accepted
    requires PolicyEngine.NoneDue(second, now) && PolicyAnswers(subscribers, second, third, request, now, decision)
    ensures decision.accepted
  {
    hide PolicyEngine.JoinOutcome, PolicyEngine.Due;
    var id := request.subscriberID;
    var subscriber := subscribers[id].policy;
    var c1, s1 :| PolicyEngine.JoinOutcome(subscriber, PolicyEngine.StateOf(PolicyEngine.Swept(first, now), id).groups,
                                           request, now, c1, s1, PolicyEngine.StateOf(second, id).groups, granted);
    PolicyEngine.AcceptedExactlyWhen(subscriber, PolicyEngine.StateOf(PolicyEngine.Swept(first, now), id).groups,
                                     request, now,
                                     c1, s1, PolicyEngine.StateOf(second, id).groups, granted);
    var groups := PolicyEngine.StateOf(PolicyEngine.Swept(second, now), id).groups;
    assert Admission.KeyOf(request) in groups;
    assert Admission.RequestedStream(request) in Admission.Streams(groups, None) by {
      assert Admission.StreamOf(Admission.KeyOf(request)) == Admission.RequestedStream(request);
    }
    var c2, s2 :| PolicyEngine.JoinOutcome(subscriber, groups, request, now, c2, s2,
                                           PolicyEngine.StateOf(third, id).groups, decision);
    PolicyEngine.AcceptedExactlyWhen(subscriber, groups, request, now, c2, s2, PolicyEngine.StateOf(third, id).groups,
                                     decision);
  }

  lemma TwoTwins(before: Streams, key: StreamKey, one: Identity, c1: Client, other: Identity, c2: Client)
    requires key !in before && one != other
    ensures var both := WithClient(WithClient(before, key, one, c1), key, other, c2);
      var left := WithoutClient(both, key, one);
      && Has(both, key, one) && both[key][one] == c1 && |both[key]| != 1
      && key in left && left[key] == map[other := c2] && left[key].Keys == {other}
  {
    var both := WithClient(WithClient(before, key, one, c1), key, other, c2);
    assert both[key] == map[one := c1, other := c2];
    assert other in both[key] && other !in {one};
    OnlyClient(both[key], one);
    assert both[key] - {one} == map[other := c2];
  }

  lemma QueriedOnce(before: Leaves, after: Leaves, key: PendingKey, now: Time)
    requires Advanced(before, after, {}, now) && key in before.pending && before.pending[key].next <= now
    requires before.pending[key].remaining > 0 && Has(before.streams, key.stream, key.identity)
    ensures key in after.pending && after.pending[key].remaining == before.pending[key].remaining - 1
    ensures SameClient(before.streams, after.streams, key)
  {
    assert LeaveAdvanced(before, after, key, now);
  }

  lemma KeepsWithoutEntry(before: Streams, after: Streams, state: map<nat, PolicyEngine.SubscriberState>,
                          next: map<nat, PolicyEngine.SubscriberState>, key: PendingKey)
    requires WithoutEntry(before, state, key) && SameClient(before, after, key) && PolicyEngine.Shrunk(state, next)
    ensures WithoutEntry(after, next, key)
  {
    hide PolicyEngine.HoldsEntry, PolicyEngine.Shrunk;
    PolicyEngine.ShrunkHoldsNothing(state, next, SourceRequestOf(key.stream, after[key.stream][key.identity].group));
  }

  /** The client's entries in the engine, if any, have all passed their deadline. */
  ghost predicate OverdueEntry(streams: Streams, state: map<nat, PolicyEngine.SubscriberState>, key: PendingKey,
                               now: Time)
    requires Has(streams, key.stream, key.identity)
  {
    var groups := PolicyEngine.StateOf(state, key.stream.subscriberID).groups;
    var leave := SourceRequestOf(key.stream, streams[key.stream][key.identity].group);
    forall entry :: entry in groups && PolicyEngine.Leaves(entry, leave) ==> PolicyEngine.Due(groups[entry], now)
  }

  /** A join for another stream sweeps an overdue entry away for good. */
  lemma SweptAway(streams: Streams, state: map<nat, PolicyEngine.SubscriberState>,
                  next: map<nat, PolicyEngine.SubscriberState>,
                  key: PendingKey, request: Join, now: Time)
    requires OwnAddress(streams, key) && OverdueEntry(streams, state, key, now)
    requires PolicyEngine.Grown(PolicyEngine.Swept(state, now), next, request)
    requires key.stream !=
             StreamKey(request.subscriberID, request.interfaceName, request.source, request.group, request.uniVLAN)
    ensures WithoutEntry(streams, next, key)
  {
    hide PolicyEngine.HoldsEntry;
    var leave := SourceRequestOf(key.stream, streams[key.stream][key.identity].group);
    PolicyEngine.HoldsExactlyWhen(next, leave);
    var groups := PolicyEngine.StateOf(next, key.stream.subscriberID).groups;
    forall entry | entry in groups ensures !PolicyEngine.Leaves(entry, leave) {
      assert PolicyEngine.Leaves(entry, leave) ==>
          entry != Admission.KeyOf(request) || request.subscriberID != key.stream.subscriberID;
    }
  }

  // ---------- an installed configuration ----------

  /** The attempt starts a preview although the engine remembers none; with the earlier starts it keeps the
      pacing exactly when they would have allowed it, as they do when none lies in its window. */
  ghost predicate Restarted(acl: ACLEntry, made: seq<PreviewPacing.PreviewAttempt>, attempts: PolicyEngine.History,
                            key: PolicyEngine.PreviewKey, at: Time) {
    var starts := PreviewPacing.Starts(acl, PreviewPacing.Times(made));
    var recent := PreviewPacing.InWindow(acl, starts, PreviewPacing.Window(acl, at));
    && PreviewPacing.Attempt(acl, PreviewPacing.Replay(PolicyEngine.AttemptsOf(attempts, key)), at).1 ==
       PreviewPacing.Started
    && (PreviewPacing.Paced(acl, PreviewPacing.InWindow(acl, starts + [at], PreviewPacing.Window(acl, at))) <==>
          PreviewPacing.MayStart(acl, starts, at))
    && (recent == [] ==> PreviewPacing.MayStart(acl, starts, at))
  }

  lemma RestartsAt(acl: ACLEntry, made: seq<PreviewPacing.PreviewAttempt>, attempts: PolicyEngine.History,
                   key: PolicyEngine.PreviewKey, at: Time)
    requires key !in attempts && acl.previewRepeatCount < 0x1_0000 && Clocked(PreviewPacing.Times(made))
    ensures Restarted(acl, made, attempts, key, at)
  {
    hide PreviewPacing.Attempt, PreviewPacing.Starts, PreviewPacing.InWindow, PreviewPacing.Window,
         PreviewPacing.MayStart, PreviewPacing.Paced;
    PreviewPacing.RestartKeepsPacing(acl, PreviewPacing.Times(made), at);
  }

  /** The profiles and the subscribers' policies are exactly the configured ones. */
  ghost predicate Implements(profiles: map<nat, Profile>, subscribers: map<nat, PolicyMatch.CompiledSubscriber>,
                             wanted: Config) {
    && profiles.Keys == Numbers(wanted.profiles)
    && (forall id :: id in profiles ==> profiles[id] in wanted.profiles && profiles[id].entityID == id)
    && Collects(wanted.subscribers, subscribers)
  }

  lemma CompiledVersions(wanted: Config, profiles: map<nat, Profile>)
    requires ValidConfig(wanted) && forall id :: id in profiles ==> profiles[id] in wanted.profiles
    ensures Versioned(profiles)
  {
    forall id | id in profiles ensures profiles[id].igmpVersion in {1, 2, 3, 16, 17} {
      assert ValidProfile(profiles[id]);
    }
  }

  lemma CompiledImplements(wanted: Config, profiles: map<nat, Profile>,
                           compiled: map<nat, PolicyMatch.CompiledSubscriber>,
                           previous: map<nat, PolicyMatch.CompiledSubscriber>)
    requires WellNamed(profiles) && profiles.Keys == Numbers(wanted.profiles)
    requires forall id :: id in profiles ==> profiles[id] in wanted.profiles
    requires Collects(wanted.subscribers, compiled)
    ensures Implements(profiles, PreserveExpiries(compiled, previous), wanted)
  {
    hide Numbers;
  }

  lemma WithClientKey(streams: Streams, key: StreamKey, id: Identity, client: Client)
    ensures var after := WithClient(streams, key, id, client);
      && key in after && id in after[key] && after[key][id] == client
      && after == streams[key := after[key]]
  {}

  lemma NobodyLeaves(streams: Streams, key: StreamKey, id: Identity)
    requires key !in streams || id !in streams[key]
    ensures WithoutClient(streams, key, id) == streams
  {}

  lemma ClientLeaves(streams: Streams, key: StreamKey, id: Identity)
    requires key in streams && id in streams[key]
    ensures WithoutClient(streams, key, id) ==
            if |streams[key]| == 1 then streams - {key} else streams[key := streams[key] - {id}]
  {
    OnlyClient(streams[key], id);
  }

  lemma PeopledAt(streams: Streams, key: StreamKey)
    requires AllPeopled(streams) && key in streams
    ensures Peopled(key, streams[key])
  {}

  lemma BoundDrop(streams: Streams, bindings: map<string, Subscriber>, key: StreamKey)
    requires Bound(streams, bindings)
    ensures Bound(streams - {key}, bindings)
  {
    hide InForce;
    assert forall k, i :: Has(streams - {key}, k, i) ==> Has(streams, k, i);
  }

  lemma BoundOver(streams: Streams, bindings: map<string, Subscriber>, key: StreamKey, id: Identity)
    requires Bound(streams, bindings) && key in streams
    ensures Bound(streams[key := streams[key] - {id}], bindings)
  {
    hide InForce;
    assert forall k, i :: Has(streams[key := streams[key] - {id}], k, i) ==> Has(streams, k, i);
  }

  /** After an accepted report the client is filed under the stream, with the time of the report and, for
      the wildcard source, the excluded sources; nothing else changed. */
  ghost predicate Entered(before: Streams, after: Streams, key: ClientGroupKey, source: Addr, excluded: seq<Addr>,
                          now: Time) {
    var streamKey, id := StreamKeyOf(key, source), IdentityOf(key);
    && streamKey in after && id in after[streamKey]
    && after == WithClient(before, streamKey, id, after[streamKey][id])
    && Filed(streamKey, after[streamKey][id])
    && after[streamKey][id].lastSeen == now
    && after[streamKey][id].group.excludedSources == if source.IsUnspecified() then excluded else []
  }

  lemma MirrorsPeople(dynamic: map<StreamKey, Rule>, streams: Streams, lost: set<StreamKey>)
    requires Mirrors(dynamic, streams, lost)
    ensures AllPeopled(streams) && dynamic.Keys == streams.Keys - lost
  {}

  lemma AcceptedIsFiled(request: Join, key: ClientGroupKey, source: Addr, client: Client)
    requires ValidJoin(request) && request == SourceRequest(key, source)
    requires client.group.interfaceName == key.interfaceName && client.group.source == source
    requires client.group.group == key.group && client.group.uniVLAN == key.vlan
    ensures StreamKeyOf(key, source).group.IsValid() && Filed(StreamKeyOf(key, source), client)
  {}
}
