/** The situations in which the network is misled, on the operations of the runtime itself: what addLocked,
    refreshLocked and removeLocked of internal/multicast/runtime.go leave behind once the policy has accepted
    the joins and the backend has sent the reports. */
module MisleadingRuns {
  import opened Clock
  import opened Sequences
  import opened MulticastTypes
  import opened StreamTable
  import opened ReportRate
  import opened NetworkView
  import opened RuntimeState
  import opened MulticastRuntime
  import Admission

  /** The client of a record, on an interface bound to its subscriber. */
  predicate BoundTo(key: ClientGroupKey, bindings: map<string, Subscriber>) {
    key.interfaceName in bindings && bindings[key.interfaceName].entityID == key.subscriberID
  }

  /** The last step of a run, in which a client joined, was ruled by a profile in force. */
  lemma JoinedInForce(setup: Setup, before: Run, after: Run, view: View, key: StreamKey, id: Identity, client: Client,
                      profile: Profile, now: Time)
    requires IsRun(setup, before) && IsRun(setup, after)
    requires JoinRecorded(before, after, view, key, id, client, profile, now, true)
    ensures Knows(setup, key, profile)
  {
    hide Step, IsRun, Knows;
    var changed, report :|
      after == Extended(before, Joined(key, id, client, changed, profile, report, now, true), view);
    var e := Joined(key, id, client, changed, profile, report, now, true);
    LastStep(setup, before, e, view);
    StepKnows(setup, Last(before), e, view);
  }

  lemma StepKnows(setup: Setup, before: View, e: Event, after: View)
    requires Step(setup, before, e, after)
    ensures Knows(setup, e.key, e.profile)
  {
    hide Knows, AllPeopled, Reports, Transmits, StreamsAfter;
  }

  // ---------- one client of a group ----------

  /** The client is the only one of its group, with these exclusions. */
  ghost predicate Alone(streams: Streams, key: StreamKey, id: Identity, excluded: seq<Addr>) {
    && key in streams && streams[key].Keys == {id} && streams[key][id].group.excludedSources == excluded
    && forall other :: other in streams && Sibling(other, key) ==> other == key
  }

  lemma AloneAfter(streams: Streams, key: StreamKey, id: Identity, client: Client, excluded: seq<Addr>)
    requires !Alive(streams, key) || Alone(streams, key, id, excluded)
    ensures Alone(WithClient(streams, key, id, client), key, id, client.group.excludedSources)
  {
    var after := WithClient(streams, key, id, client);
    if key in streams {
      assert Sibling(key, key);
    }
    forall other | other in after && Sibling(other, key) ensures other == key {
      assert other == key || other in streams;
    }
  }

  lemma AloneAccepts(streams: Streams, key: StreamKey, id: Identity, excluded: seq<Addr>, a: Addr)
    requires Alone(streams, key, id, excluded) && key.source.IsUnspecified()
    ensures SomeoneAccepts(streams, key, a) <==> a !in excluded
  {
    if a !in excluded {
      assert Sibling(key, key) && id in streams[key];
    }
  }

  // ---------- the terms of an active stream ----------

  /** The engine's entry for the request was admitted under the profile. */
  ghost predicate TermsAre(state: map<nat, PolicyEngine.SubscriberState>, request: Join, profileID: nat) {
    var groups := PolicyEngine.StateOf(state, request.subscriberID).groups;
    Admission.KeyOf(request) in groups && groups[Admission.KeyOf(request)].group.profileID == profileID
  }

  lemma GrantedTerms(subscribers: map<nat, PolicyMatch.CompiledSubscriber>,
                     before: map<nat, PolicyEngine.SubscriberState>, after: map<nat, PolicyEngine.SubscriberState>,
                     request: Join, now: Time, decision: Decision)
    requires PolicyAnswers(subscribers, before, after, request, now, decision) && decision.accepted
    ensures TermsAre(after, request, decision.profileID) && request.subscriberID in subscribers && ValidJoin(request)
  {
    hide PolicyEngine.JoinOutcome, PolicyEngine.Swept;
    var subscriber := subscribers[request.subscriberID].policy;
    var groups := PolicyEngine.StateOf(PolicyEngine.Swept(before, now), request.subscriberID).groups;
    var chosen, started :| PolicyEngine.JoinOutcome(subscriber, groups, request, now, chosen, started,
                                                    PolicyEngine.StateOf(after, request.subscriberID).groups, decision);
    PolicyEngine.AcceptedIsEntered(subscriber, groups, request, now, chosen, started,
                                   PolicyEngine.StateOf(after, request.subscriberID).groups, decision);
  }

  /** A client that joins its own stream again keeps its profile. */
  lemma KeptTerms(subscribers: map<nat, PolicyMatch.CompiledSubscriber>, before: map<nat, PolicyEngine.SubscriberState>,
                  after: map<nat, PolicyEngine.SubscriberState>, request: Join, now: Time, decision: Decision,
                  profileID: nat)
    requires PolicyAnswers(subscribers, before, after, request, now, decision)
    requires PolicyEngine.NoneDue(before, now) && TermsAre(before, request, profileID)
    requires request.subscriberID in subscribers && ValidJoin(request)
    ensures decision.profileID == profileID && TermsAre(after, request, profileID)
  {
    hide Admission.OverGroups, Admission.OverBandwidth, PolicyEngine.Due;
    var groups := PolicyEngine.StateOf(PolicyEngine.Swept(before, now), request.subscriberID).groups;
    assert Admission.KeyOf(request) in groups;
    assert Admission.RequestedStream(request) in Admission.Streams(groups, None) by {
      assert Admission.StreamOf(Admission.KeyOf(request)) == Admission.RequestedStream(request);
    }
  }

  // ---------- the rate limit ----------

  /** A proxy with a limit, of a version that lists sources. */
  predicate Limited(profile: Profile) {
    profile.igmpFunction != 0 && ListsSources(profile.igmpVersion) && profile.upstreamRate != 0
  }

  /** Every profile in force for the stream is a limited proxy. */
  ghost predicate AllLimited(setup: Setup, key: StreamKey) {
    forall id :: InForce(setup.bindings, key, id) && id in setup.profiles ==> Limited(setup.profiles[id])
  }

  lemma KnownIsLimited(setup: Setup, key: StreamKey, profile: Profile)
    requires Knows(setup, key, profile) && AllLimited(setup, key)
    ensures Limited(profile)
  {
    hide InForce;
    assert InForce(setup.bindings, key, profile.entityID);
  }

  /** The reports the limit still admits in this second. */
  function RoomLeft(rates: Rates, key: RateKey, limit: nat, now: Time): nat {
    var window := WindowOf(rates, key);
    if window.second != now / SECOND then limit
    else if window.count >= limit then 0
    else limit - window.count
  }

  lemma RoomShrinks(rates: Rates, key: RateKey, limit: nat, now: Time)
    requires limit > 0
    ensures var (next, admitted) := Attempted(rates, key, limit, now);
      && (admitted <==> RoomLeft(rates, key, limit, now) > 0)
      && (admitted ==> RoomLeft(next, key, limit, now) == RoomLeft(rates, key, limit, now) - 1)
  {}

  /** The client is the only one of its group, filed under the profile at this moment. */
  ghost predicate Settled(r: Runtime, key: ClientGroupKey, excluded: seq<Addr>, profileID: nat, now: Time)
    reads r, r.engine, r.backend
  {
    && r.Valid() && r.engine.clock == now && PolicyEngine.NoneDue(r.engine.state, now) && BoundTo(key, r.bindings)
    && Alone(r.streams, StreamKeyOf(key, Wildcard(key.group)), IdentityOf(key), excluded)
    && profileID in r.profiles && Limited(r.profiles[profileID])
    && TermsAre(r.engine.state, SourceRequest(key, Wildcard(key.group)), profileID)
    && key.subscriberID in r.engine.subscribers && ValidJoin(SourceRequest(key, Wildcard(key.group)))
  }

  /** The next report of the client is admitted. */
  ghost predicate HasRoom(rates: Rates, key: StreamKey, profile: Profile, now: Time) {
    Attempted(rates, RateKeyOf(key, profile), profile.upstreamRate, now).1
  }

  ghost predicate Reported(before: Rates, after: View, key: StreamKey, profile: Profile, now: Time) {
    && after.rates == Attempted(before, RateKeyOf(key, profile), profile.upstreamRate, now).0
    && (Informed(after, key) <==> HasRoom(before, key, profile, now))
  }

  /** The client's first join: the network is informed of it exactly when the limit admits the report. */
  method FirstJoin(r: Runtime, key: ClientGroupKey, tags: seq<VLANTag>, now: Time)
    returns (done: bool, profileID: nat)
    requires r.Valid() && r.engine.clock <= now && BoundTo(key, r.bindings)
    requires var wanted := StreamKeyOf(key, Wildcard(key.group));
      !Alive(r.streams, wanted) && Informed(r.CurrentView(), wanted) && AllLimited(r.Installed(), wanted)
    modifies r`streams, r`pending, r`history, r`rates, r`heard, r`run, r`lost, r.engine, r.backend`dynamic
    ensures done ==> Settled(r, key, [], profileID, now)
    ensures done ==> Reported(old(r.rates), r.CurrentView(), StreamKeyOf(key, Wildcard(key.group)),
                              r.profiles[profileID], now)
    ensures done && old(AllSent(r.run)) ==> AllSent(r.run)
  {
    hide PolicyEngine.Engine.Valid, Coherent, Grounded, Assigned, Served, IsRun, Alone, Alive, Informed, InForce, Knows,
         PolicyAnswers, TermsAre, WithClient, SomeoneAccepts, Attempted, JoinRecorded, AllSent, Filed, Limited,
         PolicyEngine.NoneDue, PolicyEngine.Grown, PolicyEngine.Swept, PolicyEngine.HoldsEntry, TakenBack, AllLimited,
         ValidJoin;
    var source := Wildcard(key.group);
    var wanted, id := StreamKeyOf(key, source), IdentityOf(key);
    ghost var request, state, streams, before := SourceRequest(key, source), r.engine.state, r.streams, r.run;
    ghost var decision, refused;
    var accepted, ok;
    accepted, ok, decision, refused := r.AddLocked(key, source, [], tags, now);
    done, profileID := ok && accepted, 0;
    if !done {
      return;
    }
    GrantedTerms(r.engine.subscribers, state, r.engine.state, request, now, decision);
    ghost var client := Client(Granted(request, decision, []), tags, now);
    AloneAfter(streams, wanted, id, client, []);
    WithClientKey(streams, wanted, id, client);
    profileID := r.streams[wanted][id].group.profileID;
    ghost var profile := r.profiles[profileID];
    JoinedInForce(r.Installed(), before, r.run, r.CurrentView(), wanted, id, client, profile, now);
    KnownIsLimited(r.Installed(), wanted, profile);
    NobodyAccepts(streams, wanted, source);
    AloneAccepts(r.streams, wanted, id, [], source);
    LimitedShape(profile);
    JoinInforms(r.Installed(), before, r.run, r.CurrentView(), wanted, id, client, profile, now, source);
  }

  lemma LimitedShape(profile: Profile)
    requires Limited(profile)
    ensures profile.igmpFunction != 0 && ListsSources(profile.igmpVersion) && profile.upstreamRate != 0
  {}

  /** The client changes what it excludes: the network is informed of it exactly when the limit admits the
      report. */
  method ChangeMind(r: Runtime, key: ClientGroupKey, ghost from: seq<Addr>, to: seq<Addr>, ghost a: Addr,
                    profileID: nat, tags: seq<VLANTag>, now: Time)
    returns (done: bool)
    requires Settled(r, key, from, profileID, now) && (a in from) != (a in to)
    requires Informed(r.CurrentView(), StreamKeyOf(key, Wildcard(key.group)))
    modifies r`streams, r`pending, r`history, r`rates, r`heard, r`run, r`lost, r.engine, r.backend`dynamic
    ensures done ==> Settled(r, key, to, profileID, now)
    ensures done ==> Reported(old(r.rates), r.CurrentView(), StreamKeyOf(key, Wildcard(key.group)),
                              r.profiles[profileID], now)
    ensures done && old(AllSent(r.run)) ==> AllSent(r.run)
  {
    hide PolicyEngine.Engine.Valid, Coherent, Grounded, Assigned, Served, IsRun, Alone, Informed, InForce, Knows,
         PolicyAnswers, TermsAre, WithClient, SomeoneAccepts, Attempted, JoinRecorded, AllSent, Filed, Limited,
         PolicyEngine.NoneDue, PolicyEngine.Grown, PolicyEngine.Swept, PolicyEngine.HoldsEntry, WrittenBack, ValidJoin;
    var source := Wildcard(key.group);
    var wanted, id := StreamKeyOf(key, source), IdentityOf(key);
    ghost var request, state, streams, before := SourceRequest(key, source), r.engine.state, r.streams, r.run;
    ghost var decision, refused;
    done, decision, refused := r.RefreshLocked(key, source, to, tags, now);
    if !done {
      return;
    }
    KeptTerms(r.engine.subscribers, state, r.engine.state, request, now, decision, profileID);
    ghost var client := Client(Granted(request, decision, to), tags, now);
    AloneAfter(streams, wanted, id, client, from);
    AloneAccepts(streams, wanted, id, from, a);
    AloneAccepts(r.streams, wanted, id, to, a);
    LimitedShape(r.profiles[profileID]);
    JoinInforms(r.Installed(), before, r.run, r.CurrentView(), wanted, id, client, r.profiles[profileID], now, a);
  }

  /** One client of a group that had none joins, and then changes what it excludes until the limit of the
      second is used up; the change after that is not reported. It takes a single join that the policy
      accepts; nobody leaves. */
  method LimitMisleads(r: Runtime, key: ClientGroupKey, unwanted: Addr, tags: seq<VLANTag>, now: Time)
    returns (done: bool)
    requires r.Valid() && r.engine.clock <= now && BoundTo(key, r.bindings)
    requires var wanted := StreamKeyOf(key, Wildcard(key.group));
      !Alive(r.streams, wanted) && Informed(r.CurrentView(), wanted) && AllLimited(r.Installed(), wanted)
    modifies r`streams, r`pending, r`history, r`rates, r`heard, r`run, r`lost, r.engine, r.backend`dynamic
    ensures done ==> r.Valid() && !Informed(r.CurrentView(), StreamKeyOf(key, Wildcard(key.group)))
    ensures done ==> r.engine.clock == now
    ensures done && old(AllSent(r.run)) ==> AllSent(r.run)
  {
    hide PolicyEngine.Engine.Valid, Informed, Alive, AllLimited, Attempted, AllSent, Alone, TermsAre, ValidJoin,
         Limited,
         PolicyEngine.NoneDue, Runtime.Valid, RoomLeft;
    var wanted := StreamKeyOf(key, Wildcard(key.group));
    var rates, profileID := r.rates, 0;
    done, profileID := FirstJoin(r, key, tags, now);
    if !done {
      return;
    }
    var profile := r.profiles[profileID];
    LimitedShape(profile);
    var rateKey := RateKeyOf(wanted, profile);
    RoomShrinks(rates, rateKey, profile.upstreamRate, now);
    if RoomLeft(rates, rateKey, profile.upstreamRate, now) == 0 {
      return;
    }
    var exclusions := [];
    while RoomLeft(r.rates, rateKey, profile.upstreamRate, now) > 0
      invariant done && Settled(r, key, exclusions, profileID, now) && Informed(r.CurrentView(), wanted)
      invariant r.profiles == old(r.profiles) && (exclusions == [] || exclusions == [unwanted])
      invariant old(AllSent(r.run)) ==> AllSent(r.run)
      decreases RoomLeft(r.rates, rateKey, profile.upstreamRate, now)
    {
      RoomShrinks(r.rates, rateKey, profile.upstreamRate, now);
      var next := if exclusions == [] then [unwanted] else [];
      done := ChangeMind(r, key, exclusions, next, unwanted, profileID, tags, now);
      if !done {
        return;
      }
      exclusions := next;
    }
    RoomShrinks(r.rates, rateKey, profile.upstreamRate, now);
    done := ChangeMind(r, key, exclusions, if exclusions == [] then [unwanted] else [], unwanted, profileID, tags, now);
  }

  // ---------- forwarded joins ----------

  /** The policy refuses a join for a group without clients and asks for it to be forwarded: once the report
      is admitted and sent, the network delivers a group that has no client. */
  method ForwardedMisleads(r: Runtime, key: ClientGroupKey, source: Addr, excluded: seq<Addr>, tags: seq<VLANTag>,
                           now: Time)
    returns (accepted: bool, ok: bool, ghost decision: Decision)
    requires r.Valid() && r.engine.clock <= now && BoundTo(key, r.bindings)
    requires !Alive(r.streams, StreamKeyOf(key, source))
    modifies r`streams, r`pending, r`history, r`rates, r`heard, r`run, r`lost, r.engine, r.backend`dynamic
    ensures ok && !accepted && decision.forwardUpstream ==>
              && r.Valid() && r.streams == old(r.streams) && decision.profileID in r.profiles
              && (HasRoom(old(r.rates), StreamKeyOf(key, source), r.profiles[decision.profileID], now) ==>
                    !Informed(r.CurrentView(), StreamKeyOf(key, source)))
  {
    hide PolicyEngine.Engine.Valid, Coherent, Grounded, Assigned, Served, IsRun, Alive, Informed, PolicyAnswers,
         WithClient, Attempted, ForwardRecorded, JoinRecorded, Step, AllSent, Filed,
         PolicyEngine.NoneDue, PolicyEngine.Grown, PolicyEngine.Swept, PolicyEngine.HoldsEntry, TakenBack, Entered;
    ghost var before, view := r.run, r.CurrentView();
    ghost var refused;
    accepted, ok, decision, refused := r.AddLocked(key, source, excluded, tags, now);
    if ok && !accepted && decision.forwardUpstream {
      ForwardedIsHeard(r, before, view, StreamKeyOf(key, source), decision, now);
    }
  }

  lemma ForwardedIsHeard(r: Runtime, before: Run, view: View, key: StreamKey, decision: Decision, now: Time)
    requires Traced(r.Installed(), before, view) && IsRun(r.Installed(), r.run)
    requires !Alive(r.streams, key) && decision.profileID in r.profiles
    requires ForwardRecorded(before, r.run, r.CurrentView(), key, r.profiles[decision.profileID], now, true)
    ensures HasRoom(view.rates, key, r.profiles[decision.profileID], now) ==> !Informed(r.CurrentView(), key)
  {
    hide IsRun, Alive, Informed, Step, Attempted;
    var profile := r.profiles[decision.profileID];
    var report :| r.run == Extended(before, Forwarded(key, profile, report, now, true), r.CurrentView());
    var e := Forwarded(key, profile, report, now, true);
    LastStep(r.Installed(), before, e, r.CurrentView());
    if HasRoom(view.rates, key, profile, now) {
      InformedNetwork.ForwardedNeverInforms(r.Installed(), view, e, r.CurrentView());
    }
  }

  // ---------- versions without source lists ----------

  /** A join for one source of a group that had no clients, under a version without source lists: once the
      report is admitted and sent, the network delivers every source. */
  method LegacyMisleads(r: Runtime, key: ClientGroupKey, source: Addr, tags: seq<VLANTag>, now: Time)
    returns (done: bool, profileID: nat)
    requires r.Valid() && r.engine.clock <= now && BoundTo(key, r.bindings)
    requires !Alive(r.streams, StreamKeyOf(key, source)) && !source.IsUnspecified()
    modifies r`streams, r`pending, r`history, r`rates, r`heard, r`run, r`lost, r.engine, r.backend`dynamic
    ensures done ==> r.Valid() && profileID in r.profiles
    ensures done && !ListsSources(r.profiles[profileID].igmpVersion)
            && HasRoom(old(r.rates), StreamKeyOf(key, source), r.profiles[profileID], now) ==>
              !Informed(r.CurrentView(), StreamKeyOf(key, source))
  {
    hide PolicyEngine.Engine.Valid, Coherent, Grounded, Assigned, Served, IsRun, Alive, Informed, PolicyAnswers,
         WithClient, Attempted, ForwardRecorded, JoinRecorded, Step, AllSent, Filed, SomeoneAccepts, Alone,
         PolicyEngine.NoneDue, PolicyEngine.Grown, PolicyEngine.Swept, PolicyEngine.HoldsEntry, TakenBack, Entered;
    var wanted, id := StreamKeyOf(key, source), IdentityOf(key);
    ghost var before, view, streams := r.run, r.CurrentView(), r.streams;
    ghost var decision, refused;
    var accepted, ok;
    accepted, ok, decision, refused := r.AddLocked(key, source, [], tags, now);
    done, profileID := ok && accepted, 0;
    if !done {
      return;
    }
    ghost var client := Client(Granted(SourceRequest(key, source), decision, []), tags, now);
    WithClientKey(streams, wanted, id, client);
    profileID := r.streams[wanted][id].group.profileID;
    NoStream(streams, wanted);
    AloneAfter(streams, wanted, id, client, []);
    OnlyItsSource(r.streams, wanted, id, Wildcard(source));
    LegacyIsHeard(r, before, view, wanted, id, client, r.profiles[profileID], now, Wildcard(source));
  }

  lemma NoStream(streams: Streams, key: StreamKey)
    requires !Alive(streams, key)
    ensures key !in streams
  {
    assert Sibling(key, key);
  }

  /** Under IGMPv1 the network, once it delivers every source of a group, is right about it exactly while its
      clients accept every source, and wrong for good once they have left, however they left. */
  lemma SilentLeaveMisleads(r: Runtime, key: StreamKey, start: nat)
    requires r.Valid() && start < |r.run.views|
    requires forall i :: start <= i < |r.run.events| && GroupOf(r.run.events[i].key) == GroupOf(key) ==>
      r.run.events[i].profile.igmpVersion == 1
    requires forall a :: a in Believed(r.run.views[start].heard, GroupOf(key))
    ensures Informed(r.CurrentView(), key) <==> forall a :: SomeoneAccepts(r.streams, key, a)
    ensures !Alive(r.streams, key) ==> !Informed(r.CurrentView(), key)
  {
    hide PolicyEngine.Engine.Valid, Coherent, Grounded, Assigned, Served, Step, SomeoneAccepts, Informed, Alive;
    InformedNetwork.Version1InformsExactlyWhen(r.Installed(), r.run, key, start, |r.run.events|);
  }

  lemma OnlyItsSource(streams: Streams, key: StreamKey, id: Identity, a: Addr)
    requires Alone(streams, key, id, []) && !key.source.IsUnspecified() && a.IsUnspecified()
    ensures !SomeoneAccepts(streams, key, a)
  {}

  lemma LegacyIsHeard(r: Runtime, before: Run, view: View, key: StreamKey, id: Identity, client: Client,
                      profile: Profile, now: Time, a: Addr)
    requires Traced(r.Installed(), before, view) && IsRun(r.Installed(), r.run)
    requires JoinRecorded(before, r.run, r.CurrentView(), key, id, client, profile, now, true)
    requires key !in view.streams && !SomeoneAccepts(r.streams, key, a)
    ensures !ListsSources(profile.igmpVersion) && HasRoom(view.rates, key, profile, now) ==>
              !Informed(r.CurrentView(), key)
  {
    hide IsRun, Informed, Step, Attempted, SomeoneAccepts, ListsSources;
    var changed, report :|
      r.run == Extended(before, Joined(key, id, client, changed, profile, report, now, true), r.CurrentView());
    var e := Joined(key, id, client, changed, profile, report, now, true);
    LastStep(r.Installed(), before, e, r.CurrentView());
    NewIsChanged(r.Installed(), view, e, r.CurrentView());
    if !ListsSources(profile.igmpVersion) && HasRoom(view.rates, key, profile, now) {
      InformedNetwork.LegacyInformsExactlyWhen(r.Installed(), view, e, r.CurrentView());
    }
  }

  /** The first client of a stream is always reported. */
  lemma NewIsChanged(setup: Setup, before: View, e: Event, after: View)
    requires Step(setup, before, e, after) && e.Joined? && e.key !in before.streams
    ensures Sends(e)
  {
    hide Knows, AllPeopled, Transmits, StreamsAfter;
  }

  // ---------- snooping profiles ----------

  /** Two clients join one stream of a snooping profile, and the first leaves: once that report is admitted
      and sent, the network stops delivering what the second accepts. */
  method SnoopingMisleads(r: Runtime, key: ClientGroupKey, other: ClientGroupKey, source: Addr, excluded: seq<Addr>,
                          tags: seq<VLANTag>, now: Time)
    returns (done: bool, profileID: nat, ghost rates: Rates)
    requires r.Valid() && r.engine.clock <= now && BoundTo(key, r.bindings)
    requires other == key.(client := other.client, mac := other.mac) && other != key
    modifies r`streams, r`pending, r`history, r`rates, r`heard, r`run, r`lost, r.engine, r.backend`dynamic
    ensures done ==> r.Valid() && profileID in r.profiles && Has(r.streams, StreamKeyOf(key, source), IdentityOf(other))
    ensures done && r.profiles[profileID].igmpFunction == 0 && ListsSources(r.profiles[profileID].igmpVersion)
            && HasRoom(rates, StreamKeyOf(key, source), r.profiles[profileID], now) ==>
              !Informed(r.CurrentView(), StreamKeyOf(key, source))
  {
    hide PolicyEngine.Engine.Valid, Coherent, Grounded, Assigned, Served, IsRun, Informed, PolicyAnswers,
         Attempted, ForwardRecorded, JoinRecorded, DepartRecorded, Step, AllSent, Filed, Entered,
         PolicyEngine.NoneDue, PolicyEngine.Grown, PolicyEngine.Swept, PolicyEngine.HoldsEntry, TakenBack, ListsSources;
    var wanted, id := StreamKeyOf(key, source), IdentityOf(key);
    done, profileID, rates := false, 0, r.rates;
    ghost var decision, refused;
    var accepted, ok;
    accepted, ok, decision, refused := r.AddLocked(key, source, excluded, tags, now);
    if !ok || !accepted {
      return;
    }
    accepted, ok, decision, refused := r.AddLocked(other, source, excluded, tags, now);
    if !ok || !accepted {
      return;
    }
    OnlyClient(r.streams[wanted], id);
    profileID := r.streams[wanted][id].group.profileID;
    rates := r.rates;
    ghost var before, view := r.run, r.CurrentView();
    HasWithout(r.streams, wanted, id);
    done, refused := r.RemoveLocked(key, source, tags, now);
    if done {
      DepartureIsHeard(r, before, view, wanted, id, r.profiles[profileID], now);
    }
  }

  lemma DepartureIsHeard(r: Runtime, before: Run, view: View, key: StreamKey, id: Identity, profile: Profile, now: Time)
    requires Traced(r.Installed(), before, view) && IsRun(r.Installed(), r.run)
    requires DepartRecorded(before, r.run, r.CurrentView(), key, id, profile, true, now, true)
    requires key in r.streams
    ensures profile.igmpFunction == 0 && ListsSources(profile.igmpVersion) && HasRoom(view.rates, key, profile, now) ==>
              !Informed(r.CurrentView(), key)
  {
    hide IsRun, Informed, Step, Attempted, ListsSources;
    var reported, report :|
      && (profile.igmpFunction == 0 ==> reported)
      && r.run == Extended(before, Departed(key, id, reported, profile, report, now, true), r.CurrentView());
    var e := Departed(key, id, reported, profile, report, now, true);
    LastStep(r.Installed(), before, e, r.CurrentView());
    if profile.igmpFunction == 0 && ListsSources(profile.igmpVersion) && HasRoom(view.rates, key, profile, now) {
      InformedNetwork.SnoopedLeaveNeverInforms(r.Installed(), view, e, r.CurrentView());
    }
  }
}
