/** The multicast policy engine: joins, leaves and expiry (internal/multicast/policy.go). Each method
    holds the engine's mutex, so it is one atomic step. */
module PolicyEngine {
  import opened Clock
  import opened Sequences
  import opened MulticastTypes
  import opened Admission
  import opened PolicyMatch
  import opened PreviewPacing

  const COUNTER: nat := 0x1_0000_0000

  datatype SubscriberState = SubscriberState(groups: Groups, joinMessages: nat, bandwidthExceeded: nat)

  datatype PreviewKey = PreviewKey(subscriber: nat, profile: nat, row: nat, source: Addr, group: Addr)

  const Idle: SubscriberState := SubscriberState(map[], 0, 0)

  function Refusal(reason: Reason): Decision {
    Decision(false, false, false, reason, 0, 0, 0, 0, 0, false, None)
  }

  function FromActive(active: Active): Decision {
    var g := active.group;
    Decision(true, true, true, active.reason, g.profileID, g.aclRowKey, g.gemPortID, g.aniVLAN,
             g.imputedBandwidth, false, g.previewUntil)
  }

  function NewActive(request: Join, now: Time, chosen: Match): Active {
    var acl := chosen.offer.acl;
    Active(ActiveGroup(request.interfaceName, request.source, [], [], request.group, request.client,
                       request.uniVLAN, acl.vlanID, chosen.offer.profile.entityID, acl.rowKey,
                       acl.gemPortID, acl.imputedBandwidth, chosen.previewUntil),
           now, chosen.reason, RowOf(chosen.offer.package))
  }

  // ---------- expiry ----------

  predicate Due(active: Active, now: Time) {
    active.group.previewUntil.Some? && active.group.previewUntil.value <= now
  }

  function Unexpired(groups: Groups, now: Time): Groups {
    map key | key in groups && !Due(groups[key], now) :: groups[key]
  }

  function Swept(state: map<nat, SubscriberState>, now: Time): map<nat, SubscriberState> {
    map id | id in state :: state[id].(groups := Unexpired(state[id].groups, now))
  }

  ghost predicate NoneDue(state: map<nat, SubscriberState>, now: Time) {
    forall id, key :: id in state && key in state[id].groups ==> !Due(state[id].groups[key], now)
  }

  /** `order` lists each expired entry once, and `expired` holds their groups in that order. */
  ghost predicate ListsExpired(expired: seq<ActiveGroup>, order: seq<ActiveKey>, groups: Groups, now: Time) {
    && |order| == |expired|
    && (forall i :: 0 <= i < |order| ==>
          order[i] in groups && Due(groups[order[i]], now) && expired[i] == groups[order[i]].group)
    && (forall i, j :: 0 <= i < j < |order| ==> order[i] != order[j])
    && (forall key :: key in groups && Due(groups[key], now) ==> key in order)
  }

  /** The inner loop of expireLocked, over one subscriber's groups. */
  method ExpireGroups(groups: Groups, now: Time)
    returns (kept: Groups, expired: seq<ActiveGroup>, ghost order: seq<ActiveKey>)
    ensures kept == Unexpired(groups, now)
    ensures ListsExpired(expired, order, groups, now)
  {
    kept, expired, order := groups, [], [];
    var rest := groups.Keys;
    while rest != {}
      invariant rest <= groups.Keys
      invariant forall key :: key in kept <==> key in groups && (key in rest || !Due(groups[key], now))
      invariant forall key :: key in kept ==> kept[key] == groups[key]
      invariant |order| == |expired|
      invariant forall i :: 0 <= i < |order| ==>
                  order[i] in groups && Due(groups[order[i]], now) && expired[i] == groups[order[i]].group
      invariant forall i :: 0 <= i < |order| ==> order[i] !in rest
      invariant forall i, j :: 0 <= i < j < |order| ==> order[i] != order[j]
      invariant forall key :: key in groups && key !in rest && Due(groups[key], now) ==> key in order
      decreases |rest|
    {
      var key :| key in rest;
      if Due(groups[key], now) {
        expired, order := expired + [groups[key].group], order + [key];
        kept := kept - {key};
      }
      rest := rest - {key};
    }
  }

  ghost predicate SweepListed(expired: map<nat, seq<ActiveGroup>>, ids: set<nat>,
                              state: map<nat, SubscriberState>, now: Time)
    requires ids <= state.Keys
  {
    && expired.Keys == ids
    && forall id :: id in ids ==> exists order :: ListsExpired(expired[id], order, state[id].groups, now)
  }

  lemma SweepNext(expired: map<nat, seq<ActiveGroup>>, ids: set<nat>, state: map<nat, SubscriberState>,
                  now: Time, id: nat, gone: seq<ActiveGroup>, order: seq<ActiveKey>)
    requires ids <= state.Keys && id in state && id !in ids
    requires SweepListed(expired, ids, state, now) && ListsExpired(gone, order, state[id].groups, now)
    ensures SweepListed(expired[id := gone], ids + {id}, state, now)
  {
    hide ListsExpired;
    var more := expired[id := gone];
    forall i | i in ids + {id} ensures exists o :: ListsExpired(more[i], o, state[i].groups, now) {
      if i == id {
        assert ListsExpired(more[i], order, state[i].groups, now);
      } else {
        var o :| ListsExpired(expired[i], o, state[i].groups, now);
        assert ListsExpired(more[i], o, state[i].groups, now);
      }
    }
  }

  ghost predicate SweptExcept(state: map<nat, SubscriberState>, ids: set<nat>,
                              before: map<nat, SubscriberState>, now: Time) {
    && state.Keys == before.Keys && ids <= before.Keys
    && forall id :: id in before ==>
         state[id] == if id in ids then before[id] else before[id].(groups := Unexpired(before[id].groups, now))
  }

  lemma SweepOne(state: map<nat, SubscriberState>, ids: set<nat>, before: map<nat, SubscriberState>, now: Time, id: nat)
    requires SweptExcept(state, ids, before, now) && id in ids
    ensures id in state && id in before && state[id] == before[id]
    ensures SweptExcept(state[id := state[id].(groups := Unexpired(before[id].groups, now))], ids - {id}, before, now)
    ensures before.Keys - (ids - {id}) == before.Keys - ids + {id}
  {
    hide Unexpired;
  }

  lemma SweepEnds(state: map<nat, SubscriberState>, before: map<nat, SubscriberState>, now: Time)
    requires SweptExcept(state, {}, before, now)
    ensures state == Swept(before, now) && before.Keys - {} == before.Keys
  {
    hide Unexpired;
  }

  /** The outer loop of expireLocked; the original appends all lists to one. */
  method SweepStates(before: map<nat, SubscriberState>, now: Time)
    returns (state: map<nat, SubscriberState>, expired: map<nat, seq<ActiveGroup>>)
    ensures state == Swept(before, now)
    ensures SweepListed(expired, before.Keys, before, now)
  {
    hide ListsExpired, Unexpired, SweepListed, Swept, SweptExcept;
    state, expired := before, map[];
    var ids := before.Keys;
    NothingSwept(before, now);
    while ids != {}
      invariant SweptExcept(state, ids, before, now)
      invariant SweepListed(expired, before.Keys - ids, before, now)
      decreases |ids|
    {
      var id :| id in ids;
      SweepOne(state, ids, before, now, id);
      var kept, gone, order := ExpireGroups(state[id].groups, now);
      state := state[id := state[id].(groups := kept)];
      SweepNext(expired, before.Keys - ids, before, now, id, gone, order);
      expired := expired[id := gone];
      ids := ids - {id};
    }
    SweepEnds(state, before, now);
  }

  lemma NothingSwept(state: map<nat, SubscriberState>, now: Time)
    ensures SweepListed(map[], state.Keys - state.Keys, state, now)
    ensures SweptExcept(state, state.Keys, state, now)
  {}

  // ---------- the outcome of a join ----------

  /** A client of a stream that is already active: the entry of some client of the stream is copied
      (its own one when it has one), and the answer is the one that entry was admitted with. */
  ghost predicate Rejoined(before: Groups, request: Join, now: Time, after: Groups, decision: Decision) {
    exists twin :: twin in before && StreamOf(twin) == RequestedStream(request)
      && (KeyOf(request) in before ==> twin == KeyOf(request))
      && after == before[KeyOf(request) := Refreshed(before[twin], request, now)]
      && decision == FromActive(before[twin])
  }

  function Refreshed(active: Active, request: Join, now: Time): Active {
    active.(joinedAt := now, group := active.group.(client := request.client))
  }

  function PreviewRefusal(reason: Reason, chosen: Match): Decision {
    Refusal(reason).(profileID := chosen.offer.profile.entityID, aclRowKey := chosen.offer.acl.rowKey)
  }

  /** A stream that is not active yet, and the row chosen for it: the group limits come first, then the
      bandwidth limits when they are enforced, then the pacing of previews. */
  ghost predicate NewStream(subscriber: Subscriber, before: Groups, request: Join, now: Time,
                            chosen: Match, started: Option<Verdict>, after: Groups, decision: Decision) {
    var additional := chosen.offer.acl.imputedBandwidth;
    var over := OverBandwidth(subscriber, before, chosen.offer.package, additional);
    var crowded := OverGroups(subscriber, before, chosen.offer.package);
    var starved := over && subscriber.bandwidthEnforcement;
    && (started.Some? <==> chosen.reason == Preview && !crowded && !starved)
    && if crowded then
         decision == Refusal(GroupLimit).(bandwidthExceeded := over) && after == before
       else if starved then
         decision == Refusal(BandwidthExceeded).(bandwidthExceeded := true) && after == before
       else if started == Some(TooEarly) then
         decision == PreviewRefusal(PreviewInterval, chosen).(bandwidthExceeded := over) && after == before
       else if started == Some(Exhausted) then
         decision == PreviewRefusal(PreviewExhausted, chosen).(bandwidthExceeded := over) && after == before
       else
         var active := NewActive(request, now, WithDeadline(chosen, now));
         && after == before[KeyOf(request) := active]
         && decision == FromActive(active).(bandwidthExceeded := over)
  }

  function WithDeadline(chosen: Match, now: Time): Match {
    if chosen.reason == Preview then
      chosen.(previewUntil := Some(now + chosen.offer.acl.previewLength * SECOND))
    else chosen
  }

  ghost predicate JoinOutcome(subscriber: Subscriber, before: Groups, request: Join, now: Time,
                              chosen: Option<Match>, started: Option<Verdict>, after: Groups, decision: Decision) {
    if RequestedStream(request) in Streams(before, None) then
      Rejoined(before, request, now, after, decision)
    else if chosen.None? then
      decision.(forwardUpstream := false, profileID := 0) == Refusal(Unauthorized) && after == before
    else NewStream(subscriber, before, request, now, chosen.value, started, after, decision)
  }

  /** Whatever a join answers, the subscriber stays within its limits. */
  lemma OutcomeKeepsAdmissible(subscriber: Subscriber, before: Groups, request: Join, now: Time,
                               chosen: Option<Match>, started: Option<Verdict>, after: Groups, decision: Decision)
    requires JoinOutcome(subscriber, before, request, now, chosen, started, after, decision)
    requires Admissible(subscriber, before) && UniquePackages(subscriber.servicePackages)
    requires chosen.Some? && chosen.value.offer.package.Some? ==>
               chosen.value.offer.package.value in subscriber.servicePackages
    ensures Admissible(subscriber, after)
  {
    hide Admissible, OverGroups, OverBandwidth, Streams;
    if RequestedStream(request) in Streams(before, None) {
      var twin :| twin in before && StreamOf(twin) == RequestedStream(request)
        && (KeyOf(request) in before ==> twin == KeyOf(request))
        && after == before[KeyOf(request) := Refreshed(before[twin], request, now)]
        && decision == FromActive(before[twin]);
      TwinStream(subscriber, before, twin);
      RejoinKeepsAdmissible(subscriber, before, KeyOf(request), twin, Refreshed(before[twin], request, now));
    } else if chosen.Some? && after != before {
      AdmissionKeepsAdmissible(subscriber, before, KeyOf(request),
                               NewActive(request, now, WithDeadline(chosen.value, now)),
                               chosen.value.offer.package);
    }
  }

  lemma TwinStream(subscriber: Subscriber, groups: Groups, twin: ActiveKey)
    requires Admissible(subscriber, groups) && twin in groups
    ensures StreamOfGroup(groups[twin].group) == StreamOf(twin)
  {}

  /** An entry is never admitted with a deadline that has passed. */
  lemma OutcomeKeepsDeadlines(subscriber: Subscriber, before: Groups, request: Join, now: Time,
                              chosen: Option<Match>, started: Option<Verdict>, after: Groups, decision: Decision)
    requires JoinOutcome(subscriber, before, request, now, chosen, started, after, decision)
    requires forall key :: key in before ==> !Due(before[key], now)
    requires chosen.Some? ==> (chosen.value.previewUntil.Some? ==> chosen.value.previewUntil.value > now)
    requires chosen.Some? && chosen.value.reason == Preview ==> chosen.value.offer.acl.previewLength > 0
    ensures forall key :: key in after ==> !Due(after[key], now)
  {
    hide OverGroups, OverBandwidth, Streams;
  }

  // ---------- the engine ----------

  /** Every subscriber is within its limits. */
  ghost predicate Safe(subscribers: map<nat, CompiledSubscriber>, state: map<nat, SubscriberState>) {
    forall id :: id in state ==> id in subscribers && Admissible(subscribers[id].policy, state[id].groups)
  }

  /** Every entry was admitted under a configured profile that is in force for its VLAN. */
  ghost predicate Filed(profiles: map<nat, Profile>, subscribers: map<nat, CompiledSubscriber>,
                        state: map<nat, SubscriberState>) {
    forall id, key :: id in state && key in state[id].groups ==>
      Rules(profiles, subscribers, id, key.vlan, state[id].groups[key].group.profileID)
  }

  /** The profile is a configured one, in force for the subscriber's packets of the VLAN. */
  predicate Rules(profiles: map<nat, Profile>, subscribers: map<nat, CompiledSubscriber>, id: nat, vlan: VLAN,
                  profileID: nat) {
    profileID in profiles && id in subscribers && profileID in InForce(subscribers[id].policy, vlan)
  }

  /** The row of a preview is the first one of its profile that covers the request. */
  predicate FromRow(request: Join, chosen: Match) {
    FirstMatch(chosen.offer.profile.dynamicACL, request.source, request.group) == Some(chosen.offer.acl)
  }

  /** Every attempt of a key consulted the first row of the profile that covers its source and group,
      whether or not the profile lists a row key twice. */
  ghost predicate Consulted(profiles: map<nat, Profile>, attempts: History) {
    forall key :: key in attempts ==> ConsultedOneRow(profiles, key, attempts[key])
  }

  ghost predicate ConsultedOneRow(profiles: map<nat, Profile>, key: PreviewKey, made: seq<PreviewAttempt>) {
    && made != [] && key.profile in profiles
    && var row := FirstMatch(profiles[key.profile].dynamicACL, key.source, key.group);
    && row.Some? && forall i :: 0 <= i < |made| ==> made[i].acl == row.value
  }

  lemma ConsultedOnceMore(profiles: map<nat, Profile>, attempts: History, request: Join, chosen: Match, now: Time)
    requires Consulted(profiles, attempts) && Known(profiles, chosen.offer.profile) && FromRow(request, chosen)
    ensures var key := KeyOfPreview(request, chosen);
      Consulted(profiles, attempts[key := AttemptsOf(attempts, key) + [PreviewAttempt(chosen.offer.acl, now)]])
  {
    hide FirstMatch;
  }

  lemma SweepKeepsFiled(profiles: map<nat, Profile>, subscribers: map<nat, CompiledSubscriber>,
                        state: map<nat, SubscriberState>, now: Time)
    requires Filed(profiles, subscribers, state)
    ensures Filed(profiles, subscribers, Swept(state, now))
  {
    hide Due, Rules;
  }

  lemma ExpiredAreFiled(profiles: map<nat, Profile>, subscribers: map<nat, CompiledSubscriber>,
                        state: map<nat, SubscriberState>,
                        expired: map<nat, seq<ActiveGroup>>, now: Time, id: nat)
    requires Filed(profiles, subscribers, state) && Safe(subscribers, state)
    requires SweepListed(expired, state.Keys, state, now) && id in expired
    ensures forall i :: 0 <= i < |expired[id]| ==>
              Rules(profiles, subscribers, id, expired[id][i].uniVLAN, expired[id][i].profileID)
  {
    hide Due, Rules, WithinGroupLimits, WithinBandwidth;
    assert id in state.Keys;
    var order :| ListsExpired(expired[id], order, state[id].groups, now);
    forall i | 0 <= i < |expired[id]|
      ensures Rules(profiles, subscribers, id, expired[id][i].uniVLAN, expired[id][i].profileID)
    {
      assert order[i] in state[id].groups && StreamOfGroup(expired[id][i]) == StreamOf(order[i]);
    }
  }

  lemma ShrunkKeepsFiled(profiles: map<nat, Profile>, subscribers: map<nat, CompiledSubscriber>,
                         before: map<nat, SubscriberState>,
                         after: map<nat, SubscriberState>)
    requires Filed(profiles, subscribers, before) && Shrunk(before, after)
    ensures Filed(profiles, subscribers, after)
  {
    hide Rules;
  }

  lemma OutcomeKeepsFiled(profiles: map<nat, Profile>, subscribers: map<nat, CompiledSubscriber>,
                          state: map<nat, SubscriberState>, subscriber: Subscriber, request: Join,
                          now: Time, chosen: Option<Match>, started: Option<Verdict>, after: SubscriberState,
                          decision: Decision)
    requires Filed(profiles, subscribers, state)
    requires JoinOutcome(subscriber, StateOf(state, request.subscriberID).groups, request, now, chosen, started,
                         after.groups,
                         decision)
    requires RequestedStream(request) !in Streams(StateOf(state, request.subscriberID).groups, None) && chosen.Some? ==>
               Rules(profiles, subscribers, request.subscriberID, request.uniVLAN,
                     chosen.value.offer.profile.entityID)
    ensures Filed(profiles, subscribers, state[request.subscriberID := after])
    ensures decision.accepted ==>
              Rules(profiles, subscribers, request.subscriberID, request.uniVLAN, decision.profileID)
  {
    hide OverGroups, OverBandwidth, Streams, Rules;
    var before := StateOf(state, request.subscriberID).groups;
    forall key | key in after.groups
      ensures Rules(profiles, subscribers, request.subscriberID, key.vlan, after.groups[key].group.profileID)
    {
      if RequestedStream(request) in Streams(before, None) {
        var twin :| twin in before && StreamOf(twin) == RequestedStream(request)
          && (KeyOf(request) in before ==> twin == KeyOf(request))
          && after.groups == before[KeyOf(request) := Refreshed(before[twin], request, now)]
          && decision == FromActive(before[twin]);
      }
    }
  }

  /** A refused join goes upstream only when a profile in force says so. */
  lemma ForwardsAsConfigured(subscriber: CompiledSubscriber, profiles: map<nat, Profile>, before: Groups, request: Join,
                             now: Time, chosen: Option<Match>, started: Option<Verdict>, after: Groups,
                             decision: Decision)
    requires Compiled(subscriber, profiles)
    requires JoinOutcome(subscriber.policy, before, request, now, chosen, started, after, decision)
    requires RequestedStream(request) !in Streams(before, None) ==>
               MatchFound(subscriber, profiles, request, now, chosen, decision)
    ensures !decision.accepted && decision.forwardUpstream ==>
              && decision.profileID in profiles && profiles[decision.profileID].unauthorizedJoinBehaviour
              && decision.profileID in InForce(subscriber.policy, request.uniVLAN)
  {
    hide OverGroups, OverBandwidth, Streams, Chosen, Offers, Candidates, Compiled, InForce;
    if RequestedStream(request) !in Streams(before, None) && chosen.None? && decision.forwardUpstream {
      AllCandidatesKnown(subscriber, profiles, request.uniVLAN);
      AllCandidatesInForce(subscriber, profiles, request.uniVLAN);
      var candidates := Candidates(subscriber, profiles, request.uniVLAN);
      var i :| 0 <= i < |candidates| && candidates[i].profile.unauthorizedJoinBehaviour &&
        candidates[i].profile.entityID == decision.profileID && NoneForwards(candidates[..i]);
      assert candidates[i] in candidates;
    }
  }

  /** An accepted or forwarded join is ruled by a profile in force, which asks for the forwarding. */
  predicate RuledBy(profiles: map<nat, Profile>, subscribers: map<nat, CompiledSubscriber>, request: Join,
                    decision: Decision) {
    && (decision.accepted || decision.forwardUpstream ==>
          Rules(profiles, subscribers, request.subscriberID, request.uniVLAN, decision.profileID))
    && (!decision.accepted && decision.forwardUpstream ==> profiles[decision.profileID].unauthorizedJoinBehaviour)
  }

  lemma DecisionIsRuled(profiles: map<nat, Profile>, subscribers: map<nat, CompiledSubscriber>, request: Join,
                        decision: Decision)
    requires request.subscriberID in subscribers
    requires decision.accepted ==>
               Rules(profiles, subscribers, request.subscriberID, request.uniVLAN, decision.profileID)
    requires !decision.accepted && decision.forwardUpstream ==>
               && decision.profileID in profiles && profiles[decision.profileID].unauthorizedJoinBehaviour
               && decision.profileID in InForce(subscribers[request.subscriberID].policy, request.uniVLAN)
    ensures RuledBy(profiles, subscribers, request, decision)
  {}

  lemma SweepKeepsSafe(subscribers: map<nat, CompiledSubscriber>, state: map<nat, SubscriberState>, now: Time)
    requires Safe(subscribers, state)
    ensures Safe(subscribers, Swept(state, now)) && NoneDue(Swept(state, now), now)
  {
    hide Admissible;
    forall id | id in state ensures Admissible(subscribers[id].policy, Unexpired(state[id].groups, now)) {
      RemovalKeepsAdmissible(subscribers[id].policy, Unexpired(state[id].groups, now), state[id].groups);
    }
  }

  type History = map<PreviewKey, seq<PreviewAttempt>>

  ghost function AttemptsOf(attempts: History, key: PreviewKey): seq<PreviewAttempt> {
    if key in attempts then attempts[key] else []
  }

  ghost predicate Orderly(attempts: seq<PreviewAttempt>, clock: Time) {
    && Clocked(Times(attempts))
    && forall i :: 0 <= i < |attempts| ==> attempts[i].now <= clock
  }

  /** The remembered pacing is the replay of all attempts, which the clock has seen in order. */
  ghost predicate Remembered(previews: map<PreviewKey, PreviewState>, attempts: History, clock: Time) {
    && previews.Keys == attempts.Keys
    && forall key :: key in previews ==> previews[key] == Replay(attempts[key]) && Orderly(attempts[key], clock)
  }

  lemma AttemptSnoc(before: seq<PreviewAttempt>, acl: ACLEntry, clock: Time)
    requires Orderly(before, clock)
    ensures var more := before + [PreviewAttempt(acl, clock)];
      Orderly(more, clock) && Replay(more) == Attempt(acl, Replay(before), clock).0
  {
    hide Attempt;
    var more := before + [PreviewAttempt(acl, clock)];
    assert more[..|before|] == before;
    assert Times(more) == Times(before) + [clock];
    forall i, j | 0 <= i < j < |more| ensures Times(more)[i] <= Times(more)[j] {
      if j < |before| {
        assert Times(before)[i] <= Times(before)[j];
      }
    }
  }

  lemma NothingAttempted(clock: Time)
    ensures Orderly([], clock)
  {}

  lemma ClockAdvances(previews: map<PreviewKey, PreviewState>, attempts: History, clock: Time, now: Time)
    requires Remembered(previews, attempts, clock) && clock <= now
    ensures Remembered(previews, attempts, now)
  {
    hide Replay, Clocked;
    forall key | key in previews ensures Orderly(attempts[key], now) {
      assert Orderly(attempts[key], clock);
    }
  }

  lemma RememberAttempt(previews: map<PreviewKey, PreviewState>, attempts: History, clock: Time,
                        key: PreviewKey, acl: ACLEntry)
    requires Remembered(previews, attempts, clock)
    ensures var (next, _) := Attempt(acl, if key in previews then previews[key] else Untouched, clock);
      && (if key in previews then previews[key] else Untouched) == Replay(AttemptsOf(attempts, key))
      && Remembered(previews[key := next],
                    attempts[key := AttemptsOf(attempts, key) + [PreviewAttempt(acl, clock)]], clock)
  {
    hide Attempt, Orderly;
    NothingAttempted(clock);
    AttemptSnoc(AttemptsOf(attempts, key), acl, clock);
  }

  function KeyOfPreview(request: Join, chosen: Match): PreviewKey {
    PreviewKey(request.subscriberID, chosen.offer.profile.entityID, chosen.offer.acl.rowKey,
               request.source, request.group)
  }

  /** A join either leaves the pacing alone, or makes one attempt under the key of its match. */
  ghost predicate AttemptMade(request: Join, now: Time, chosen: Option<Match>, started: Option<Verdict>,
                              before: History, after: History) {
    if started.None? then after == before
    else
      && chosen.Some?
      && var key, acl := KeyOfPreview(request, chosen.value), chosen.value.offer.acl;
      && after == before[key := AttemptsOf(before, key) + [PreviewAttempt(acl, now)]]
      && started == Some(Attempt(acl, Replay(AttemptsOf(before, key)), now).1)
  }

  ghost predicate MatchFound(subscriber: CompiledSubscriber, profiles: map<nat, Profile>, request: Join, now: Time,
                             chosen: Option<Match>, decision: Decision)
    requires Compiled(subscriber, profiles)
  {
    var candidates := Candidates(subscriber, profiles, request.uniVLAN);
    if chosen.None? then
      Offers(candidates, request) == [] && FirstForward(candidates, decision.forwardUpstream, decision.profileID)
    else
      Chooses(subscriber, request, now, Offers(candidates, request), chosen.value)
  }

  ghost predicate OnlyChanged(before: map<nat, SubscriberState>, after: map<nat, SubscriberState>, id: nat) {
    after == if id in after then before[id := after[id]] else before
  }

  /** No subscriber state yet is an empty one. */
  lemma StateOfSafe(subscribers: map<nat, CompiledSubscriber>, state: map<nat, SubscriberState>, id: nat, now: Time)
    requires Safe(subscribers, state) && NoneDue(state, now) && id in subscribers
    ensures Admissible(subscribers[id].policy, StateOf(state, id).groups)
    ensures forall key :: key in StateOf(state, id).groups ==> !Due(StateOf(state, id).groups[key], now)
  {
    if id !in state {
      NoGroupsAdmissible(subscribers[id].policy);
    }
  }

  lemma NoGroupsAdmissible(subscriber: Subscriber)
    ensures Admissible(subscriber, map[])
  {
    forall service: Option<nat> ensures Streams(map[], service) == {} && Loads(map[], service) == {} {}
  }

  lemma StoreSafe(subscribers: map<nat, CompiledSubscriber>, state: map<nat, SubscriberState>, id: nat,
                  after: SubscriberState, now: Time)
    requires Safe(subscribers, state) && NoneDue(state, now) && id in subscribers
    requires Admissible(subscribers[id].policy, after.groups)
    requires forall key :: key in after.groups ==> !Due(after.groups[key], now)
    ensures Safe(subscribers, state[id := after]) && NoneDue(state[id := after], now)
  {
    hide Admissible, Due;
  }

  lemma AdmissibleShape(subscriber: Subscriber, groups: Groups)
    requires Admissible(subscriber, groups)
    ensures Keyed(groups) && Uniform(groups)
  {}

  lemma TwinIsStream(groups: Groups, twin: ActiveKey)
    requires twin in groups
    ensures StreamOf(twin) in Streams(groups, None)
  {}

  lemma FoundIsAuthorised(subscriber: CompiledSubscriber, profiles: map<nat, Profile>, request: Join, now: Time,
                          chosen: Option<Match>, decision: Decision)
    requires Compiled(subscriber, profiles)
    requires MatchFound(subscriber, profiles, request, now, chosen, decision)
    ensures chosen.Some? ==>
              && (chosen.value.offer.package.Some? ==>
                    chosen.value.offer.package.value in subscriber.policy.servicePackages)
              && (chosen.value.previewUntil.Some? ==> chosen.value.previewUntil.value > now)
              && (chosen.value.reason == Preview ==> chosen.value.offer.acl.previewLength > 0)
              && Known(profiles, chosen.value.offer.profile)
              && chosen.value.offer.profile.entityID in InForce(subscriber.policy, request.uniVLAN)
              && (chosen.value.reason == Preview ==> FromRow(request, chosen.value))
  {
    hide Chosen, Compiled, Offers, Candidates, InForce;
    if chosen.Some? {
      var rank :| Chosen(subscriber, request, now,
                         Offers(Candidates(subscriber, profiles, request.uniVLAN), request), chosen.value, rank);
      MatchIsAuthorised(subscriber, profiles, request, now, chosen.value, rank);
    }
  }

  lemma MatchedIsAuthorised(subscriber: CompiledSubscriber, profiles: map<nat, Profile>, request: Join, now: Time,
                            chosen: Match)
    requires Compiled(subscriber, profiles)
    requires Chooses(subscriber, request, now, Offers(Candidates(subscriber, profiles, request.uniVLAN), request),
                     chosen)
    ensures Known(profiles, chosen.offer.profile) && (chosen.reason == Preview ==> FromRow(request, chosen))
  {
    hide Chosen, Compiled, Offers, Candidates, FirstMatch;
    var rank :| Chosen(subscriber, request, now,
                       Offers(Candidates(subscriber, profiles, request.uniVLAN), request), chosen, rank);
    MatchIsAuthorised(subscriber, profiles, request, now, chosen, rank);
  }

  class Engine {
    const profiles: map<nat, Profile>
    const subscribers: map<nat, CompiledSubscriber>
    var state: map<nat, SubscriberState>
    var previews: map<PreviewKey, PreviewState>
    /** Every preview attempt of this engine, per key, oldest first. */
    ghost var attempts: History
    ghost var clock: Time

    ghost predicate Configured() {
      forall id :: id in subscribers ==>
        Compiled(subscribers[id], profiles) && UniquePackages(subscribers[id].policy.servicePackages)
    }

    /** Previews are paced by the first row that covers source and group, so all attempts of a key consult
        one row; see PreviewsArePaced. */
    ghost predicate Valid()
      reads this
    {
      Configured() && Safe(subscribers, state) && Filed(profiles, subscribers, state)
      && Remembered(previews, attempts, clock)
      && Consulted(profiles, attempts)
    }

    constructor (profiles: map<nat, Profile>, subscribers: map<nat, CompiledSubscriber>, now: Time)
      requires forall id :: id in subscribers ==>
                 Compiled(subscribers[id], profiles) && UniquePackages(subscribers[id].policy.servicePackages)
      ensures Valid() && state == map[] && previews == map[] && attempts == map[] && clock == now
      ensures this.profiles == profiles && this.subscribers == subscribers
    {
      this.profiles, this.subscribers := profiles, subscribers;
      state, previews, attempts, clock := map[], map[], map[], now;
    }

    method ExpireLocked(now: Time) returns (expired: map<nat, seq<ActiveGroup>>)
      requires Valid() && clock <= now
      modifies `state, `clock
      ensures Valid() && clock == now && state == Swept(old(state), now) && NoneDue(state, now)
      ensures SweepListed(expired, old(state).Keys, old(state), now)
    {
      hide Safe, Filed, Consulted, Remembered, NoneDue, Swept, SweepListed;
      SweepKeepsSafe(subscribers, state, now);
      SweepKeepsFiled(profiles, subscribers, state, now);
      ClockAdvances(previews, attempts, clock, now);
      clock := now;
      state, expired := SweepStates(state, now);
    }

    /** startPreviewLocked: one paced attempt for the key of this match. */
    method StartPreviewLocked(request: Join, chosen: Match, now: Time) returns (verdict: Verdict)
      requires Valid() && clock == now && Known(profiles, chosen.offer.profile) && FromRow(request, chosen)
      modifies `previews, `attempts
      ensures Valid()
      ensures var key := KeyOfPreview(request, chosen);
        && attempts == old(attempts)[key := AttemptsOf(old(attempts), key) + [PreviewAttempt(chosen.offer.acl, now)]]
        && verdict == Attempt(chosen.offer.acl, Replay(AttemptsOf(old(attempts), key)), now).1
    {
      hide Attempt, FromRow, Safe, Filed, Consulted, Remembered, Replay;
      var key := KeyOfPreview(request, chosen);
      RememberAttempt(previews, attempts, clock, key, chosen.offer.acl);
      ConsultedOnceMore(profiles, attempts, request, chosen, now);
      var remembered := if key in previews then previews[key] else Untouched;
      var next := Attempt(chosen.offer.acl, remembered, now);
      previews, verdict := previews[key := next.0], next.1;
      attempts := attempts[key := AttemptsOf(attempts, key) + [PreviewAttempt(chosen.offer.acl, now)]];
    }

    /** The limits of Join, for a stream that is not active yet. */
    method Exceeds(subscriber: Subscriber, groups: Groups, offer: Offer)
      returns (groupExceeded: bool, bandwidthExceeded: bool)
      requires Admissible(subscriber, groups)
      ensures groupExceeded == OverGroups(subscriber, groups, offer.package)
      ensures bandwidthExceeded == OverBandwidth(subscriber, groups, offer.package, offer.acl.imputedBandwidth)
    {
      hide Total, Streams, Loads;
      var count := ActiveStreamCount(groups, None);
      groupExceeded := subscriber.maxSimultaneousGroups != 0 && count >= subscriber.maxSimultaneousGroups;
      var bandwidth := ActiveBandwidth(groups, None);
      bandwidthExceeded := ExceedsBandwidth(bandwidth, offer.acl.imputedBandwidth, subscriber.maxMulticastBandwidth);
      if offer.package.Some? {
        var package := offer.package.value;
        count := ActiveStreamCount(groups, Some(package.rowKey));
        if package.maxSimultaneousGroups != 0 && count >= package.maxSimultaneousGroups {
          groupExceeded := true;
        }
        bandwidth := ActiveBandwidth(groups, Some(package.rowKey));
        if ExceedsBandwidth(bandwidth, offer.acl.imputedBandwidth, package.maxMulticastBandwidth) {
          bandwidthExceeded := true;
        }
      }
    }

    /** The body of Join for a known subscriber and a valid request: the subscriber's next state. */
    method Answer(request: Join, now: Time, before: SubscriberState)
      returns (after: SubscriberState, decision: Decision,
               ghost chosen: Option<Match>, ghost started: Option<Verdict>)
      requires Valid() && clock == now && request.subscriberID in subscribers
      requires Admissible(subscribers[request.subscriberID].policy, before.groups)
      modifies `previews, `attempts
      ensures Valid()
      ensures JoinOutcome(subscribers[request.subscriberID].policy, before.groups, request, now,
                          chosen, started, after.groups, decision)
      ensures Counted(before, after, decision)
      ensures RequestedStream(request) in Streams(before.groups, None) ==> chosen.None? && started.None?
      ensures RequestedStream(request) !in Streams(before.groups, None) ==>
                MatchFound(subscribers[request.subscriberID], profiles, request, now, chosen, decision)
      ensures AttemptMade(request, now, chosen, started, old(attempts), attempts)
    {
      hide Admissible, Streams, OverGroups, OverBandwidth, Attempt, Replay, Chosen, Offers, Candidates,
           FirstForward, Safe, Filed, Consulted, Remembered, Compiled, UniquePackages, Wrap;
      chosen, started := None, None;
      var subscriber, groups, key := subscribers[request.subscriberID], before.groups, KeyOf(request);
      AdmissibleShape(subscriber.policy, groups);
      var twin := if key in groups then Some(key) else None;
      if key !in groups {
        twin := ActiveStream(groups, RequestedStream(request));
      }
      if twin.Some? {
        TwinIsStream(groups, twin.value);
        decision := FromActive(groups[twin.value]);
        after := before.(groups := groups[key := Refreshed(groups[twin.value], request, now)],
                         joinMessages := Wrap(before.joinMessages + 1));
        return;
      }
      var found, forward, forwardProfile := MatchLocked(subscriber, profiles, request, now);
      chosen, after := found, before;
      if found.None? {
        decision := Refusal(Unauthorized).(forwardUpstream := forward, profileID := forwardProfile);
        return;
      }
      var m := found.value;
      MatchedIsAuthorised(subscriber, profiles, request, now, m);
      var groupExceeded, bandwidthExceeded := Exceeds(subscriber.policy, groups, m.offer);
      if bandwidthExceeded {
        after := after.(bandwidthExceeded := Wrap(before.bandwidthExceeded + 1));
      }
      if groupExceeded {
        decision := Refusal(GroupLimit).(bandwidthExceeded := bandwidthExceeded);
        return;
      }
      if bandwidthExceeded && subscriber.policy.bandwidthEnforcement {
        decision := Refusal(BandwidthExceeded).(bandwidthExceeded := true);
        return;
      }
      if m.reason == Preview {
        var verdict := StartPreviewLocked(request, m, now);
        started := Some(verdict);
        if verdict != Started {
          decision := PreviewRefusal(if verdict == TooEarly then PreviewInterval else PreviewExhausted, m);
          decision := decision.(bandwidthExceeded := bandwidthExceeded);
          return;
        }
        m := WithDeadline(m, now);
      }
      var active := NewActive(request, now, m);
      after := after.(groups := groups[key := active], joinMessages := Wrap(before.joinMessages + 1));
      decision := FromActive(active).(bandwidthExceeded := bandwidthExceeded);
    }

    method JoinLocked(request: Join, now: Time)
      returns (decision: Decision, ghost chosen: Option<Match>, ghost started: Option<Verdict>)
      requires Valid() && clock == now && NoneDue(state, now)
      requires request.subscriberID in subscribers
      modifies `state, `previews, `attempts
      ensures Valid() && NoneDue(state, now)
      ensures request.subscriberID in state && OnlyChanged(old(state), state, request.subscriberID)
      ensures var subscriber, before := subscribers[request.subscriberID], StateOf(old(state), request.subscriberID);
        && JoinOutcome(subscriber.policy, before.groups, request, now,
                       chosen, started, state[request.subscriberID].groups, decision)
        && Counted(before, state[request.subscriberID], decision)
        && (RequestedStream(request) !in Streams(before.groups, None) ==>
              MatchFound(subscriber, profiles, request, now, chosen, decision))
      ensures AttemptMade(request, now, chosen, started, old(attempts), attempts)
      ensures RuledBy(profiles, subscribers, request, decision)
    {
      hide RuledBy, Admissible, Streams, Safe, Filed, Consulted, Remembered, Compiled, UniquePackages,
           NoneDue,
           JoinOutcome, AttemptMade,
           MatchFound, Counted, StateOf;
      var id := request.subscriberID;
      var before := StateOf(state, id);
      StateOfSafe(subscribers, state, id, now);
      var after;
      after, decision, chosen, started := Answer(request, now, before);
      if RequestedStream(request) !in Streams(before.groups, None) {
        FoundIsAuthorised(subscribers[id], profiles, request, now, chosen, decision);
      }
      ForwardsAsConfigured(subscribers[id], profiles, before.groups, request, now, chosen, started, after.groups,
                           decision);
      OutcomeKeepsFiled(profiles, subscribers, state, subscribers[id].policy, request, now, chosen, started, after,
                        decision);
      DecisionIsRuled(profiles, subscribers, request, decision);
      OutcomeKeepsAdmissible(subscribers[id].policy, before.groups, request, now, chosen, started, after.groups,
                             decision);
      OutcomeKeepsDeadlines(subscribers[id].policy, before.groups, request, now, chosen, started, after.groups,
                            decision);
      StoreSafe(subscribers, state, id, after, now);
      state := state[id := after];
    }

    method Join(request: Join, now: Time)
      returns (decision: Decision, ghost chosen: Option<Match>, ghost started: Option<Verdict>)
      requires Valid() && clock <= now
      modifies this
      ensures Valid() && clock == now && NoneDue(state, now)
      ensures OnlyChanged(Swept(old(state), now), state, request.subscriberID)
      ensures request.subscriberID !in subscribers ==>
                decision == Refusal(UnknownSubscriber) && state == Swept(old(state), now)
      ensures request.subscriberID in subscribers && !ValidJoin(request) ==>
                decision == Refusal(Unauthorized) && state == Swept(old(state), now)
      ensures request.subscriberID in subscribers && ValidJoin(request) ==>
                var subscriber := subscribers[request.subscriberID];
                var before := StateOf(Swept(old(state), now), request.subscriberID);
                && request.subscriberID in state
                && JoinOutcome(subscriber.policy, before.groups, request, now,
                               chosen, started, state[request.subscriberID].groups, decision)
                && Counted(before, state[request.subscriberID], decision)
                && (RequestedStream(request) !in Streams(before.groups, None) ==>
                      MatchFound(subscriber, profiles, request, now, chosen, decision))
      ensures AttemptMade(request, now, chosen, started, old(attempts), attempts)
      ensures RuledBy(profiles, subscribers, request, decision)
    {
      hide Safe, Filed, Consulted, Remembered, Compiled, UniquePackages, NoneDue, JoinOutcome, MatchFound, Swept,
           Streams;
      chosen, started := None, None;
      var _ := ExpireLocked(now);
      if request.subscriberID !in subscribers {
        decision := Refusal(UnknownSubscriber);
      } else if !ValidJoin(request) {
        decision := Refusal(Unauthorized);
      } else {
        decision, chosen, started := JoinLocked(request, now);
      }
    }

    /** With a client address exactly that entry goes; without one, every entry of the stream. */
    method Leave(request: Join) returns (removed: bool)
      requires Valid()
      modifies `state
      ensures Valid()
      ensures var id, before := request.subscriberID, StateOf(old(state), request.subscriberID);
        && OnlyChanged(old(state), state, id) && state.Keys == old(state).Keys
        && StateOf(state, id) == before.(groups := Departed(before.groups, request))
        && (removed <==> Departed(before.groups, request) != before.groups)
      ensures Shrunk(old(state), state)
    {
      hide Safe, Filed, Consulted, Remembered, Compiled, UniquePackages, Admissible;
      var id := request.subscriberID;
      if id !in state {
        return false;
      }
      var groups, key := state[id].groups, KeyOf(request);
      DepartureKeepsSafe(subscribers, state, id, request);
      if request.client.IsValid() {
        removed := key in groups;
        groups := groups - {key};
      } else {
        groups, removed := RemoveStream(groups, request);
      }
      assert groups == Departed(state[id].groups, request);
      ghost var before := state;
      state := state[id := state[id].(groups := groups)];
      ShrunkKeepsFiled(profiles, subscribers, before, state);
    }

    /** Any two starts of a preview in one reset window are a preview and its repeat time apart, and the
        window holds no more starts than the repeat count. The row is the first one of the profile that
        covers source and group. The repeat count has 16 bits. */
    lemma PreviewsArePaced(key: PreviewKey, window: Time) returns (acl: ACLEntry)
      requires Valid() && key in attempts
      ensures key.profile in profiles
      ensures FirstMatch(profiles[key.profile].dynamicACL, key.source, key.group) == Some(acl)
      ensures acl.previewRepeatCount < 0x1_0000 ==> PacedBy(key, acl, window)
    {
      acl := FirstMatch(profiles[key.profile].dynamicACL, key.source, key.group).value;
      if acl.previewRepeatCount < 0x1_0000 {
        OneRowPaces(key, acl, window);
      }
    }

    lemma AttemptsAreClocked(key: PreviewKey)
      requires Valid() && key in attempts
      ensures Clocked(Times(attempts[key]))
    {
      hide Safe, Filed, Consulted, Configured;
    }

    ghost predicate PacedBy(key: PreviewKey, acl: ACLEntry, window: Time)
      requires key in attempts && key in previews
      reads this
    {
      var starts := InWindow(acl, Starts(acl, Times(attempts[key])), window);
      && (forall i, j :: 0 <= i < j < |starts| ==>
            starts[j] >= starts[i] + (acl.previewLength + acl.previewRepeatTime) * SECOND)
      && (acl.previewRepeatCount != 0 ==> |starts| <= acl.previewRepeatCount)
      && previews[key] == StateAfter(acl, Times(attempts[key]))
    }

    lemma OneRowPaces(key: PreviewKey, acl: ACLEntry, window: Time)
      requires Valid() && key in attempts && acl.previewRepeatCount < 0x1_0000
      requires forall i :: 0 <= i < |attempts[key]| ==> attempts[key][i].acl == acl
      ensures var starts := InWindow(acl, Starts(acl, Times(attempts[key])), window);
        && (forall i, j :: 0 <= i < j < |starts| ==>
              starts[j] >= starts[i] + (acl.previewLength + acl.previewRepeatTime) * SECOND)
        && (acl.previewRepeatCount != 0 ==> |starts| <= acl.previewRepeatCount)
      ensures previews[key] == StateAfter(acl, Times(attempts[key]))
    {
      hide Safe, Filed, Consulted, Compiled, UniquePackages, StateAfter, Starts, InWindow, Replay;
      var times := Times(attempts[key]);
      ReplayOfOneRow(acl, attempts[key]);
      StartsArePaced(acl, times, window);
      var starts := InWindow(acl, Starts(acl, times), window);
      forall i, j | 0 <= i < j < |starts|
        ensures starts[j] >= starts[i] + (acl.previewLength + acl.previewRepeatTime) * SECOND
      {
        PacedSpread(acl, starts, i, j);
      }
    }
  }

  /** Entries only go. */
  ghost predicate Shrunk(before: map<nat, SubscriberState>, after: map<nat, SubscriberState>) {
    forall id, key :: id in after && key in after[id].groups ==>
      id in before && key in before[id].groups && after[id].groups[key] == before[id].groups[key]
  }

  /** No entry besides the requested one is new. */
  ghost predicate Grown(before: map<nat, SubscriberState>, after: map<nat, SubscriberState>, request: Join) {
    forall id, key :: id in after && key in after[id].groups ==>
      || (id in before && key in before[id].groups)
      || (id == request.subscriberID && key == KeyOf(request))
  }

  lemma OutcomeGrows(subscriber: Subscriber, before: map<nat, SubscriberState>, after: map<nat, SubscriberState>,
                     request: Join,
                     now: Time, chosen: Option<Match>, started: Option<Verdict>, decision: Decision)
    requires OnlyChanged(before, after, request.subscriberID)
    requires JoinOutcome(subscriber, StateOf(before, request.subscriberID).groups, request, now, chosen, started,
                         StateOf(after, request.subscriberID).groups, decision)
    ensures Grown(before, after, request)
  {
    hide JoinOutcome;
    AcceptedExactlyWhen(subscriber, StateOf(before, request.subscriberID).groups, request, now, chosen, started,
                        StateOf(after, request.subscriberID).groups, decision);
  }

  lemma ShrunkKeepsGrown(before: map<nat, SubscriberState>, middle: map<nat, SubscriberState>,
                         after: map<nat, SubscriberState>, request: Join)
    requires Grown(before, middle, request) && Shrunk(middle, after)
    ensures Grown(before, after, request)
  {}

  lemma UnchangedGrows(state: map<nat, SubscriberState>, request: Join)
    ensures Grown(state, state, request)
  {}

  lemma ShrunkTwice(first: map<nat, SubscriberState>, second: map<nat, SubscriberState>,
                    third: map<nat, SubscriberState>)
    requires Shrunk(first, second) && Shrunk(second, third)
    ensures Shrunk(first, third)
  {}

  lemma ShrunkAtAll(state: map<nat, SubscriberState>)
    ensures Shrunk(state, state)
  {}

  lemma ShrunkKeepsNoneDue(before: map<nat, SubscriberState>, after: map<nat, SubscriberState>, now: Time)
    requires Shrunk(before, after) && NoneDue(before, now)
    ensures NoneDue(after, now)
  {
    hide Due;
  }

  predicate Leaves(key: ActiveKey, request: Join) {
    if request.client.IsValid() then key == KeyOf(request) else StreamOf(key) == RequestedStream(request)
  }

  function Departed(groups: Groups, request: Join): Groups {
    map key | key in groups && !Leaves(key, request) :: groups[key]
  }

  /** There is an entry that a leave would remove. */
  predicate HoldsEntry(state: map<nat, SubscriberState>, request: Join) {
    Departed(StateOf(state, request.subscriberID).groups, request) != StateOf(state, request.subscriberID).groups
  }

  lemma HoldsExactlyWhen(state: map<nat, SubscriberState>, request: Join)
    ensures HoldsEntry(state, request) <==>
            exists key :: key in StateOf(state, request.subscriberID).groups && Leaves(key, request)
  {
    hide Leaves;
    var groups := StateOf(state, request.subscriberID).groups;
    if forall key :: key in groups ==> !Leaves(key, request) {
      assert Departed(groups, request) == groups;
    }
  }

  /** What a leave does to the engine's entries. */
  ghost predicate LeftBy(before: map<nat, SubscriberState>, after: map<nat, SubscriberState>, request: Join) {
    && OnlyChanged(before, after, request.subscriberID) && after.Keys == before.Keys
    && StateOf(after, request.subscriberID) ==
       StateOf(before, request.subscriberID).(groups := Departed(StateOf(before, request.subscriberID).groups, request))
  }

  lemma LeftHoldsNothing(before: map<nat, SubscriberState>, after: map<nat, SubscriberState>, request: Join)
    requires LeftBy(before, after, request)
    ensures !HoldsEntry(after, request)
    ensures !HoldsEntry(before, request) ==> after == before
  {
    hide Leaves;
  }

  lemma ShrunkHoldsNothing(before: map<nat, SubscriberState>, after: map<nat, SubscriberState>, request: Join)
    requires Shrunk(before, after) && !HoldsEntry(before, request)
    ensures !HoldsEntry(after, request)
  {
    hide HoldsEntry, Leaves;
    HoldsExactlyWhen(before, request);
    HoldsExactlyWhen(after, request);
  }

  lemma SweptIsShrunk(state: map<nat, SubscriberState>, now: Time)
    ensures Shrunk(state, Swept(state, now))
  {
    hide Due;
  }

  /** The group of an entry names the entry. */
  predicate Names(group: ActiveGroup, key: ActiveKey) {
    StreamOfGroup(group) == StreamOf(key) && group.client == key.client
  }

  /** The group of an entry of the subscriber that is due. */
  ghost predicate FromEntry(state: map<nat, SubscriberState>, id: nat, group: ActiveGroup, now: Time) {
    id in state && exists key :: key in state[id].groups && Names(group, key) && Due(state[id].groups[key], now)
  }

  lemma ExpiredIsEntry(subscribers: map<nat, CompiledSubscriber>, state: map<nat, SubscriberState>,
                       expired: map<nat, seq<ActiveGroup>>, now: Time, id: nat)
    requires Safe(subscribers, state) && SweepListed(expired, state.Keys, state, now) && id in expired
    ensures forall i :: 0 <= i < |expired[id]| ==> FromEntry(state, id, expired[id][i], now)
  {
    hide Due, Uniform, WithinGroupLimits, WithinBandwidth;
    assert id in state.Keys;
    var order :| ListsExpired(expired[id], order, state[id].groups, now);
    forall i | 0 <= i < |expired[id]| ensures FromEntry(state, id, expired[id][i], now) {
      assert order[i] in state[id].groups && Names(expired[id][i], order[i]);
    }
  }

  lemma DepartureKeepsSafe(subscribers: map<nat, CompiledSubscriber>, state: map<nat, SubscriberState>, id: nat,
                           request: Join)
    requires Safe(subscribers, state) && id in state
    ensures Safe(subscribers, state[id := state[id].(groups := Departed(state[id].groups, request))])
  {
    hide Admissible;
    RemovalKeepsAdmissible(subscribers[id].policy, Departed(state[id].groups, request), state[id].groups);
  }

  method RemoveStream(groups: Groups, request: Join) returns (kept: Groups, removed: bool)
    requires !request.client.IsValid()
    ensures kept == Departed(groups, request)
    ensures removed <==> kept != groups
  {
    kept, removed := groups, false;
    var rest := groups.Keys;
    while rest != {}
      invariant rest <= groups.Keys
      invariant forall key :: key in kept <==> key in groups && (key in rest || !Leaves(key, request))
      invariant forall key :: key in kept ==> kept[key] == groups[key]
      invariant removed <==> exists key :: key in groups && key !in kept
      decreases |rest|
    {
      var key :| key in rest;
      if StreamOf(key) == RequestedStream(request) {
        kept, removed := kept - {key}, true;
      }
      rest := rest - {key};
    }
  }

  /** When a join is accepted. */
  lemma AcceptedExactlyWhen(subscriber: Subscriber, before: Groups, request: Join, now: Time,
                            chosen: Option<Match>, started: Option<Verdict>, after: Groups, decision: Decision)
    requires JoinOutcome(subscriber, before, request, now, chosen, started, after, decision)
    ensures decision.accepted <==>
              || RequestedStream(request) in Streams(before, None)
              || (&& chosen.Some?
                  && !OverGroups(subscriber, before, chosen.value.offer.package)
                  && (subscriber.bandwidthEnforcement ==>
                        !OverBandwidth(subscriber, before, chosen.value.offer.package,
                                       chosen.value.offer.acl.imputedBandwidth))
                  && (chosen.value.reason == Preview ==> started == Some(Started)))
    ensures !decision.accepted ==> after == before
    ensures decision.accepted ==> after.Keys == before.Keys + {KeyOf(request)}
  {
    hide OverGroups, OverBandwidth, Streams;
    assert started.Some? ==> started.value == Started || started.value == TooEarly || started.value == Exhausted;
  }

  /** An accepted join answers with the profile its entry is filed under. */
  lemma AcceptedIsEntered(subscriber: Subscriber, before: Groups, request: Join, now: Time,
                          chosen: Option<Match>, started: Option<Verdict>, after: Groups, decision: Decision)
    requires JoinOutcome(subscriber, before, request, now, chosen, started, after, decision) && decision.accepted
    ensures KeyOf(request) in after && after[KeyOf(request)].group.profileID == decision.profileID
  {
    hide OverGroups, OverBandwidth, Streams;
  }

  function Wrap(n: nat): nat { n % COUNTER }

  function StateOf(state: map<nat, SubscriberState>, id: nat): SubscriberState {
    if id in state then state[id] else Idle
  }

  /** The two counters of a subscriber, which wrap at 32 bits. */
  predicate Counted(before: SubscriberState, after: SubscriberState, decision: Decision) {
    && after.joinMessages == (if decision.accepted then Wrap(before.joinMessages + 1) else before.joinMessages)
    && after.bandwidthExceeded ==
       (if decision.bandwidthExceeded then Wrap(before.bandwidthExceeded + 1) else before.bandwidthExceeded)
  }
}
