/** The multicast runtime: reports, leaves and timers over the policy engine and the filter backend
    (internal/multicast/runtime.go). Each public method holds the runtime's mutex and reads the clock
    once. A method that fails because the backend refused a rule, a query or a report says so in `refused`;
    it then promises no more about the state it leaves behind than its contract states. */
module MulticastRuntime {
  import opened Clock
  import opened Sequences
  import opened MulticastTypes
  import opened SourceLists
  import opened Membership
  import opened StreamTable
  import opened FilterBackend
  import opened LeaveProtocol
  import opened NetworkView
  import opened ReportRate
  import opened RuntimeState
  import InformedNetwork
  import opened PolicyCompile

  class Runtime {
    const backend: Backend
    var config: Option<Config>
    var engine: PolicyEngine.Engine
    var profiles: map<nat, Profile>
    var bindings: map<string, Subscriber>
    var memberships: map<ClientGroupKey, Filter>
    var streams: Streams
    var pending: PendingLeaves
    var robustness: map<(string, nat), nat>
    var rates: Rates
    var queries: seq<GeneralQuery>
    /** What the network has heard, and the run since the configuration that led to it. */
    ghost var heard: Heard
    ghost var run: Run
    /** Streams whose rule was deleted by a leave that then failed. */
    ghost var lost: set<StreamKey>
    /** For each client of each stream, every accepted report, delayed leave, query and delayed removal. */
    ghost var history: Histories

    /** The rule table mirrors the streams, the pending leaves follow their schedule, the engine files its
        entries by interface, and what the network has heard is the outcome of a run. */
    ghost predicate Valid()
      reads this, backend, engine
    {
      && engine.Valid() && Coherent(backend.dynamic, streams, lost, bindings, pending, history)
      && Traced(Installed(), run, CurrentView()) && Grounded(Installed(), pending)
      && engine.profiles == profiles && Served(bindings, engine.subscribers) && Assigned(engine.state, bindings)
    }

    ghost function Installed(): Setup
      reads this
    {
      Setup(profiles, bindings)
    }

    ghost function CurrentView(): View
      reads this
    {
      View(streams, heard, rates)
    }

    /** The runtime before its first configuration. */
    constructor (backend: Backend, now: Time)
      requires backend.dynamic == map[]
      ensures Valid() && fresh(engine) && this.backend == backend && streams == map[] && engine.clock == now
      ensures heard == map[] && lost == {} && run == Run([Nothing], [])
    {
      this.backend := backend;
      config := None;
      engine := new PolicyEngine.Engine(map[], map[], now);
      profiles, bindings, memberships, streams, pending, robustness := map[], map[], map[], map[], map[], map[];
      history, rates, heard, queries := map[], map[], map[], [];
      run, lost := Run([Nothing], []), {};
      RunStarts(Setup(map[], map[]), map[]);
    }

    /** The engine's answer; only valid requests are accepted. */
    method PolicyJoin(request: Join, now: Time) returns (decision: Decision)
      requires engine.Valid() && engine.clock <= now
      modifies engine
      ensures engine.Valid() && engine.clock == now && PolicyEngine.NoneDue(engine.state, now)
      ensures PolicyAnswers(engine.subscribers, old(engine.state), engine.state, request, now, decision)
      ensures PolicyEngine.Grown(PolicyEngine.Swept(old(engine.state), now), engine.state, request)
      ensures decision.accepted ==> ValidJoin(request)
      ensures PolicyEngine.RuledBy(engine.profiles, engine.subscribers, request, decision)
    {
      hide PolicyEngine.Engine.Valid, PolicyEngine.RuledBy, PolicyEngine.JoinOutcome,
           PolicyEngine.AttemptMade,
           PolicyEngine.MatchFound, PolicyEngine.Swept, PolicyEngine.Grown, PolicyEngine.OnlyChanged,
           PolicyEngine.NoneDue, PolicyEngine.Safe, PolicyEngine.Remembered, ValidJoin;
      ghost var chosen, started;
      ghost var before := engine.state;
      decision, chosen, started := engine.Join(request, now);
      if request.subscriberID in engine.subscribers && ValidJoin(request) {
        assert PolicyEngine.StateOf(engine.state, request.subscriberID) == engine.state[request.subscriberID];
        assert PolicyEngine.JoinOutcome(engine.subscribers[request.subscriberID].policy,
                                        PolicyEngine.StateOf(PolicyEngine.Swept(before, now), request.subscriberID)
                                        .groups, request, now, chosen, started,
                                        PolicyEngine.StateOf(engine.state, request.subscriberID).groups, decision);
        PolicyEngine.OutcomeGrows(engine.subscribers[request.subscriberID].policy, PolicyEngine.Swept(before, now),
                                  engine.state, request, now, chosen, started, decision);
      } else {
        PolicyEngine.UnchangedGrows(engine.state, request);
      }
    }

    method PolicyLeave(request: Join) returns (removed: bool)
      requires engine.Valid()
      modifies engine
      ensures engine.Valid() && engine.clock == old(engine.clock)
      ensures PolicyEngine.Shrunk(old(engine.state), engine.state)
      ensures removed <==> PolicyEngine.HoldsEntry(old(engine.state), request)
      ensures !removed ==> engine.state == old(engine.state)
      ensures !PolicyEngine.HoldsEntry(engine.state, request)
    {
      hide PolicyEngine.Engine.Valid, PolicyEngine.Shrunk, PolicyEngine.Departed, PolicyEngine.Safe,
           PolicyEngine.Remembered, PolicyEngine.StateOf,
           PolicyEngine.OnlyChanged;
      ghost var before := engine.state;
      removed := engine.Leave(request);
      PolicyEngine.LeftHoldsNothing(before, engine.state, request);
    }

    /** Hands a report to the backend, within the profile's limit per second. The backend builds the frame
        and sends it, and may fail at either. */
    method Transmit(join: bool, profile: Profile, group: ActiveGroup, key: StreamKey, now: Time)
      returns (admitted: bool, ok: bool)
      modifies `rates
      ensures (rates, admitted) == Attempted(old(rates), RateKeyOf(key, profile), profile.upstreamRate, now)
      ensures if admitted then ok ==> Sendable(profile.igmpVersion, join, group) else ok
    {
      if profile.upstreamRate != 0 {
        var rateKey := RateKeyOf(key, profile);
        var window := WindowOf(rates, rateKey);
        if window.second != now / SECOND {
          window := Window(now / SECOND, 0);
        }
        if window.count >= profile.upstreamRate {
          rates := rates[rateKey := window];
          return false, true;
        }
        rates := rates[rateKey := window.(count := window.count + 1)];
      }
      admitted, ok := true, *;
      ok := ok && Sendable(profile.igmpVersion, join, group);
    }

    /** One report, which the network hears if it is admitted and sent. */
    method SendReportLocked(join: bool, profile: Profile, group: ActiveGroup, key: StreamKey, now: Time)
      returns (ok: bool)
      modifies `rates, `heard
      ensures Transmits(old(CurrentView()), CurrentView(), key, profile, join, group, now, true, ok)
      ensures !Attempted(old(rates), RateKeyOf(key, profile), profile.upstreamRate, now).1 ==> ok
    {
      hide PolicyEngine.Engine.Valid, Attempted, Sendable, RecordSent;
      var admitted;
      admitted, ok := Transmit(join, profile, group, key, now);
      if admitted && ok {
        heard := HeardAfter(heard, GroupOf(key), RecordSent(profile.igmpVersion, join, group));
      }
    }

    /** Adds a step to the run. */
    ghost method Follow(before: View, e: Event)
      requires Traced(Installed(), run, before) && Step(Installed(), before, e, CurrentView())
      modifies `run
      ensures Traced(Installed(), run, CurrentView()) && run == Extended(old(run), e, CurrentView())
      ensures e.sent && old(AllSent(run)) ==> AllSent(run)
    {
      hide PolicyEngine.Engine.Valid, Step, IsRun;
      RunExtends(Installed(), run, e, CurrentView());
      run := Extended(run, e, CurrentView());
    }

    /** Forwards a report whose join was not authorized: it speaks of that client alone. */
    method ForwardReport(profile: Profile, group: ActiveGroup, key: StreamKey, now: Time) returns (ok: bool)
      requires Traced(Installed(), run, CurrentView()) && AllPeopled(streams)
      requires Knows(Installed(), key, profile) && profile.unauthorizedJoinBehaviour
      requires group.source == key.source && group.group == key.group
      modifies `rates, `heard, `run
      ensures ok && old(AllSent(run)) ==> AllSent(run)
      ensures Traced(Installed(), run, CurrentView())
      ensures ForwardRecorded(old(run), run, CurrentView(), key, profile, now, ok)
    {
      hide AllSent, PolicyEngine.Engine.Valid, IsRun, AllPeopled, Transmits, Knows;
      ghost var before := CurrentView();
      ok := SendReportLocked(true, profile, group, key, now);
      Follow(before, Forwarded(key, profile, group, now, ok));
    }

    method SendQuery(profile: Profile, group: Addr, source: Addr) returns (ok: bool) {
      ok := *;
    }

    /** Programs the stream's new clients when that changes what is replicated. The caller stores them. */
    method Reprogram(key: StreamKey, profile: Profile, clients: Clients)
      returns (current: ActiveGroup, changed: bool, ok: bool)
      requires Mirrors(backend.dynamic, streams, lost) && key in streams && Peopled(key, clients)
      modifies `lost, backend`dynamic
      ensures StandsFor(current, key, clients)
      ensures if ok then Mirrors(backend.dynamic, streams[key := clients], lost) && lost <= old(lost)
              else backend.dynamic == old(backend.dynamic) && lost == old(lost)
      ensures !changed ==> ok && Exclusions(key.source, streams[key]) == Exclusions(key.source, clients)
      ensures !changed ==> backend.dynamic == old(backend.dynamic) && lost == old(lost)
    {
      hide PolicyEngine.Engine.Valid, Reflects, Exclusions, SourceLists.Lists;
      assert Peopled(key, streams[key]);
      hide PolicyEngine.Engine.Valid, Peopled, StandsFor;
      var previous := EffectiveReplicationGroup(key, streams[key]);
      current := EffectiveReplicationGroup(key, clients);
      changed, ok := !SameReplicationGroup(previous, current), true;
      StandsForKey(current, key, clients);
      if changed {
        ghost var before := backend.dynamic;
        ok := backend.SetReplication(true, key.subscriberID, key.interfaceName, profile.entityID, current);
        MirrorProgrammed(before, streams, lost, key, clients, RuleFor(key.interfaceName, profile.entityID, current));
        lost := if ok then lost - {key} else lost;
      } else {
        MirrorUnchanged(backend.dynamic, streams, lost, key, clients, previous, current);
        SameExclusions(key, streams[key], clients, previous, current);
      }
    }

    /** Programs the first client of a new stream. */
    method Enable(key: StreamKey, profile: Profile, clients: Clients) returns (ok: bool)
      requires Mirrors(backend.dynamic, streams, lost) && Peopled(key, clients)
      modifies `lost, backend`dynamic
      ensures if ok then Mirrors(backend.dynamic, streams[key := clients], lost) && lost <= old(lost)
              else backend.dynamic == old(backend.dynamic) && lost == old(lost)
    {
      hide PolicyEngine.Engine.Valid, Mirrors, Reflects, Peopled, StandsFor;
      var replicated := EffectiveReplicationGroup(key, clients);
      StandsForKey(replicated, key, clients);
      ghost var before := backend.dynamic;
      ok := backend.SetReplication(true, key.subscriberID, key.interfaceName, profile.entityID, replicated);
      MirrorProgrammed(before, streams, lost, key, clients, RuleFor(key.interfaceName, profile.entityID, replicated));
      lost := if ok then lost - {key} else lost;
    }

    /** Programs the clients of a stream, old or new. */
    method Program(key: StreamKey, profile: Profile, clients: Clients) returns (changed: bool, ok: bool)
      requires Mirrors(backend.dynamic, streams, lost) && Peopled(key, clients)
      modifies `lost, backend`dynamic
      ensures if ok then Mirrors(backend.dynamic, streams[key := clients], lost) && lost <= old(lost)
              else backend.dynamic == old(backend.dynamic) && lost == old(lost)
      ensures !changed ==> key in streams && Exclusions(key.source, streams[key]) == Exclusions(key.source, clients)
    {
      hide PolicyEngine.Engine.Valid, Mirrors, Peopled, StandsFor, Exclusions;
      changed := true;
      if key !in streams {
        ok := Enable(key, profile, clients);
      } else {
        var current;
        current, changed, ok := Reprogram(key, profile, clients);
      }
    }

    /** Reports a join: a snooping profile reports the client, a proxy the aggregate of the group if what is
        replicated has changed. */
    method ReportJoin(key: StreamKey, profile: Profile, client: Client, changed: bool, now: Time, ghost before: Streams)
      returns (ok: bool, ghost report: ActiveGroup)
      requires AllPeopled(streams) && key in streams
      requires !changed ==> key in before && Exclusions(key.source, before[key]) == Exclusions(key.source, streams[key])
      modifies `rates, `heard
      ensures ReportsJoin(before, streams, key, client, changed, profile, report)
      ensures Transmits(View(before, old(heard), old(rates)), CurrentView(), key, profile, true, report, now,
                        profile.igmpFunction == 0 || changed, ok)
    {
      hide PolicyEngine.Engine.Valid, AllPeopled, SomeoneAccepts, Asks, Exclusions, Attempted, Sendable, RecordSent,
           HeardAfter;
      ok := true;
      var reportGroup := client.group;
      if profile.igmpFunction != 0 {
        OwnSibling(streams, key);
        var aggregate, found := EffectiveUpstreamGroup(streams, key);
        reportGroup := aggregate;
      }
      report := reportGroup;
      if profile.igmpFunction == 0 || changed {
        ok := SendReportLocked(true, profile, reportGroup, key, now);
      }
    }

    /** An accepted report cancels the leave under way, if any. */
    method CancelLeave(key: PendingKey, now: Time)
      requires Valid()
      modifies `pending, `history
      ensures Valid()
      ensures pending == old(pending) - {key}
      ensures history == old(history)[key := HistoryOf(old(history), key) + [Reported(now)]]
    {
      hide PolicyEngine.Engine.Valid, Mirrors, Bound, Scheduled, IsRun, Grounded, Assigned;
      ReportCancels(pending, history, key, now);
      GroundedFewer(Installed(), pending, pending - {key});
      pending := pending - {key};
      history := history[key := HistoryOf(history, key) + [Reported(now)]];
    }

    /** The common end of addLocked and refreshLocked: an accepted client cancels its pending leave, is
        programmed and stored, and is reported. When the backend refuses the rule nothing is stored. */
    method StoreClient(key: ClientGroupKey, source: Addr, profile: Profile, client: Client, now: Time)
      returns (programmed: bool, ok: bool)
      requires Valid() && StreamKeyOf(key, source).group.IsValid() && Filed(StreamKeyOf(key, source), client)
      requires Knows(Installed(), StreamKeyOf(key, source), profile)
      requires InForce(bindings, StreamKeyOf(key, source), client.group.profileID)
      modifies `streams, `pending, `history, `rates, `heard, `run, `lost, backend`dynamic
      ensures ok && old(AllSent(run)) ==> AllSent(run)
      ensures programmed ==>
                JoinRecorded(old(run), run, CurrentView(), StreamKeyOf(key, source), IdentityOf(key), client,
                                          profile, now, ok)
      ensures Valid() && lost <= old(lost) && (ok ==> programmed)
      ensures var entry := PendingKey(StreamKeyOf(key, source), IdentityOf(key));
        pending == old(pending) - {entry}
        && history == old(history)[entry := HistoryOf(old(history), entry) + [Reported(now)]]
      ensures if programmed then streams == WithClient(old(streams), StreamKeyOf(key, source), IdentityOf(key), client)
              else
                && streams == old(streams) && backend.dynamic == old(backend.dynamic) && lost == old(lost)
                && CurrentView() == old(CurrentView()) && run == old(run)
    {
      hide AllSent, PolicyEngine.Engine.Valid, Mirrors, Bound, Scheduled, Peopled, Filed, AllPeopled, WithClient,
           Exclusions, IsRun, Knows, Grounded,
           Assigned, ReportsJoin, Transmits, Step, InForce, JoinRecorded, Served;
      var streamKey, identity := StreamKeyOf(key, source), IdentityOf(key);
      CancelLeave(PendingKey(streamKey, identity), now);
      MirrorsPeople(backend.dynamic, streams, lost);
      NewlyPeopled(streams, streamKey, identity, client);
      WithClientKey(streams, streamKey, identity, client);
      var clients := WithClient(streams, streamKey, identity, client)[streamKey];
      var changed;
      changed, programmed := Program(streamKey, profile, clients);
      ok := programmed;
      if !programmed {
        return;
      }
      ok := FileClient(streamKey, identity, profile, client, changed, clients, now);
    }

    /** Stores a programmed client and reports it. */
    method FileClient(key: StreamKey, id: Identity, profile: Profile, client: Client, changed: bool, clients: Clients,
                      now: Time)
      returns (ok: bool)
      requires Mirrors(backend.dynamic, streams[key := clients], lost) && Bound(streams, bindings)
      requires Traced(Installed(), run, CurrentView()) && Knows(Installed(), key, profile) && Filed(key, client)
      requires key.group.IsValid() && InForce(bindings, key, client.group.profileID)
      requires streams[key := clients] == WithClient(streams, key, id, client)
      requires !changed ==> key in streams && Exclusions(key.source, streams[key]) == Exclusions(key.source, clients)
      modifies `streams, `rates, `heard, `run
      ensures ok && old(AllSent(run)) ==> AllSent(run)
      ensures JoinRecorded(old(run), run, CurrentView(), key, id, client, profile, now, ok)
      ensures Mirrors(backend.dynamic, streams, lost) && Bound(streams, bindings)
      ensures Traced(Installed(), run, CurrentView()) && streams == WithClient(old(streams), key, id, client)
    {
      hide AllSent, PolicyEngine.Engine.Valid, Mirrors, Bound, AllPeopled, WithClient, Exclusions, IsRun, Knows, Filed,
           ReportsJoin, Transmits, Step, InForce;
      ghost var before := CurrentView();
      BoundAdd(streams, bindings, key, id, client);
      streams := streams[key := clients];
      MirrorsPeople(backend.dynamic, streams, lost);
      ghost var report;
      ok, report := ReportJoin(key, profile, client, changed, now, before.streams);
      JoinedStep(Installed(), before, CurrentView(), key, id, client, changed, profile, report, now, ok);
      Follow(before, Joined(key, id, client, changed, profile, report, now, ok));
    }

    /** An accepted decision files the client. When the backend refuses its rule, the client is taken out of
        the stream again, also one that was in it before, and the engine forgets its entry. */
    method AddLocked(key: ClientGroupKey, source: Addr, excluded: seq<Addr>, tags: seq<VLANTag>, now: Time)
      returns (accepted: bool, ok: bool, ghost decision: Decision, ghost refused: bool)
      requires Valid() && engine.clock <= now
      requires key.interfaceName in bindings && bindings[key.interfaceName].entityID == key.subscriberID
      modifies `streams, `pending, `history, `rates, `heard, `run, `lost, engine, backend`dynamic
      ensures ok && old(AllSent(run)) ==> AllSent(run)
      ensures ok ==> Valid() && lost <= old(lost)
      ensures engine.clock == now && PolicyEngine.NoneDue(engine.state, now)
      ensures PolicyEngine.Grown(PolicyEngine.Swept(old(engine.state), now), engine.state, SourceRequest(key, source))
      ensures ok ==>
                PolicyAnswers(engine.subscribers, old(engine.state), engine.state, SourceRequest(key, source), now,
                              decision)
      ensures ok ==> accepted == decision.accepted
      ensures ok && !accepted ==>
                streams == old(streams) && pending == old(pending) && backend.dynamic == old(backend.dynamic)
      ensures ok && accepted ==>
                streams == WithClient(old(streams), StreamKeyOf(key, source), IdentityOf(key),
                                      Client(Granted(SourceRequest(key, source), decision, excluded), tags, now))
      ensures ok && accepted ==>
                Entered(old(streams), streams, key, source, excluded, now) && decision.profileID in profiles
      ensures ok && accepted ==>
                JoinRecorded(old(run), run, CurrentView(), StreamKeyOf(key, source), IdentityOf(key),
                             Client(Granted(SourceRequest(key, source), decision, excluded), tags, now),
                             profiles[decision.profileID], now, true)
      ensures ok && !accepted && decision.forwardUpstream ==>
                decision.profileID in profiles && profiles[decision.profileID].unauthorizedJoinBehaviour
                && ForwardRecorded(old(run), run, CurrentView(), StreamKeyOf(key, source),
                                   profiles[decision.profileID], now, true)
      ensures refused ==>
                && !ok && !accepted && decision.accepted
                && streams == TakenBack(old(streams), StreamKeyOf(key, source), IdentityOf(key))
                && pending == old(pending) - {PendingKey(StreamKeyOf(key, source), IdentityOf(key))}
                && backend.dynamic == old(backend.dynamic)
                && !PolicyEngine.HoldsEntry(engine.state, SourceRequest(key, source))
      ensures refused && !Has(old(streams), StreamKeyOf(key, source), IdentityOf(key)) ==>
                Valid() && streams == old(streams)
    {
      hide AllSent, PolicyEngine.Engine.Valid, Coherent, IsRun, Filed, ValidJoin, WithClient, PolicyAnswers, Grounded,
           Knows, Assigned, TakenBack, Served, InForce, JoinRecorded, ForwardRecorded, PolicyEngine.RuledBy,
           PolicyEngine.Grown, PolicyEngine.Swept, PolicyEngine.NoneDue, PolicyEngine.Shrunk, PolicyEngine.HoldsEntry;
      var request := SourceRequest(key, source);
      var answer := PolicyJoin(request, now);
      RulingIsInForce(profiles, bindings, engine.subscribers, key, source, answer);
      AssignedGrows(old(engine.state), engine.state, bindings, request, now);
      decision, refused := answer, false;
      var group := Granted(request, answer, excluded);
      accepted, ok := false, true;
      var profileExists := answer.profileID in profiles;
      if !answer.accepted {
        RulerForwards(request, answer);
        if answer.forwardUpstream && profileExists {
          GroundedKnows(Installed(), pending, StreamKeyOf(key, source), answer.profileID);
          PeopledNow();
          ok := ForwardReport(profiles[answer.profileID], group, StreamKeyOf(key, source), now);
        }
        return;
      }
      if !profileExists {
        ok := false;
        LeaveEngine(request, now, old(engine.state));
        return;
      }
      var client := Client(group, tags, now);
      GroundedKnows(Installed(), pending, StreamKeyOf(key, source), answer.profileID);
      AcceptedIsFiled(request, key, source, client);
      WithClientKey(streams, StreamKeyOf(key, source), IdentityOf(key), client);
      var programmed;
      programmed, ok := StoreClient(key, source, profiles[answer.profileID], client, now);
      accepted := programmed;
      if !programmed {
        refused := true;
        if !Has(streams, StreamKeyOf(key, source), IdentityOf(key)) {
          NothingTaken(streams, StreamKeyOf(key, source), IdentityOf(key));
        }
        TakeBack(StreamKeyOf(key, source), IdentityOf(key));
        LeaveEngine(request, now, old(engine.state));
      }
    }

    lemma RulerForwards(request: Join, decision: Decision)
      requires PolicyEngine.RuledBy(engine.profiles, engine.subscribers, request, decision)
      ensures !decision.accepted && decision.forwardUpstream ==>
                decision.profileID in engine.profiles
                && engine.profiles[decision.profileID].unauthorizedJoinBehaviour
    {}

    lemma PeopledNow()
      requires Valid()
      ensures AllPeopled(streams)
    {
      hide PolicyEngine.Engine.Valid, IsRun, AllPeopled, Bound, Scheduled, Reflects;
    }

    /** The engine forgets what it has just granted. */
    method LeaveEngine(request: Join, now: Time, ghost before: map<nat, PolicyEngine.SubscriberState>)
      requires engine.Valid() && engine.clock == now && PolicyEngine.NoneDue(engine.state, now)
      requires PolicyEngine.Grown(PolicyEngine.Swept(before, now), engine.state, request)
      requires Assigned(engine.state, bindings)
      modifies engine
      ensures engine.Valid() && engine.clock == now && PolicyEngine.NoneDue(engine.state, now)
      ensures PolicyEngine.Grown(PolicyEngine.Swept(before, now), engine.state, request)
      ensures Assigned(engine.state, bindings)
      ensures !PolicyEngine.HoldsEntry(engine.state, request)
    {
      hide PolicyEngine.Engine.Valid, PolicyEngine.HoldsEntry, PolicyEngine.NoneDue, PolicyEngine.Grown,
           PolicyEngine.Shrunk, PolicyEngine.Swept, Assigned;
      ghost var middle := engine.state;
      var _ := PolicyLeave(request);
      PolicyEngine.ShrunkKeepsNoneDue(middle, engine.state, now);
      PolicyEngine.ShrunkKeepsGrown(PolicyEngine.Swept(before, now), middle, engine.state, request);
      AssignedShrinks(middle, engine.state, bindings);
    }

    /** The rollback of addLocked: the client goes, whether or not it was there before. */
    method TakeBack(key: StreamKey, id: Identity)
      modifies `streams
      ensures streams == TakenBack(old(streams), key, id)
    {
      if key in streams {
        streams := streams[key := streams[key] - {id}];
      }
    }

    /** When the backend refuses the rule, the previous client is written back, a zero client if there was
        none; the engine keeps its entry. */
    method RefreshLocked(key: ClientGroupKey, source: Addr, excluded: seq<Addr>, tags: seq<VLANTag>, now: Time)
      returns (ok: bool, ghost decision: Decision, ghost refused: bool)
      requires Valid() && engine.clock <= now
      requires key.interfaceName in bindings && bindings[key.interfaceName].entityID == key.subscriberID
      modifies `streams, `pending, `history, `rates, `heard, `run, `lost, engine, backend`dynamic
      ensures ok && old(AllSent(run)) ==> AllSent(run)
      ensures ok ==> Valid() && engine.clock == now && lost <= old(lost)
      ensures PolicyEngine.NoneDue(engine.state, now)
      ensures ok ==>
                PolicyAnswers(engine.subscribers, old(engine.state), engine.state, SourceRequest(key, source), now,
                              decision)
      ensures ok ==> decision.accepted
      ensures ok ==>
                streams == WithClient(old(streams), StreamKeyOf(key, source), IdentityOf(key),
                                      Client(Granted(SourceRequest(key, source), decision, excluded), tags, now))
      ensures ok ==> Entered(old(streams), streams, key, source, excluded, now) && decision.profileID in profiles
      ensures ok ==>
                JoinRecorded(old(run), run, CurrentView(), StreamKeyOf(key, source), IdentityOf(key),
                             Client(Granted(SourceRequest(key, source), decision, excluded), tags, now),
                             profiles[decision.profileID], now, true)
      ensures refused ==>
                && !ok && decision.accepted && StreamKeyOf(key, source) in old(streams)
                && streams == WrittenBack(old(streams), StreamKeyOf(key, source), IdentityOf(key))
                && backend.dynamic == old(backend.dynamic)
      ensures refused && Has(old(streams), StreamKeyOf(key, source), IdentityOf(key)) ==>
                Valid() && streams == old(streams)
    {
      hide AllSent, PolicyEngine.Engine.Valid, Coherent, IsRun, Filed, ValidJoin, WithClient, PolicyAnswers, Grounded,
           Knows, Assigned, WrittenBack, Served, InForce, JoinRecorded, PolicyEngine.RuledBy,
           PolicyEngine.Grown, PolicyEngine.Swept, PolicyEngine.NoneDue;
      var request := SourceRequest(key, source);
      var answer := PolicyJoin(request, now);
      RulingIsInForce(profiles, bindings, engine.subscribers, key, source, answer);
      AssignedGrows(old(engine.state), engine.state, bindings, request, now);
      decision, refused := answer, false;
      if !answer.accepted || answer.profileID !in profiles || StreamKeyOf(key, source) !in streams {
        ok := false;
        return;
      }
      var group := Granted(request, answer, excluded);
      var client := Client(group, tags, now);
      GroundedKnows(Installed(), pending, StreamKeyOf(key, source), answer.profileID);
      AcceptedIsFiled(request, key, source, client);
      WithClientKey(streams, StreamKeyOf(key, source), IdentityOf(key), client);
      var programmed;
      programmed, ok := StoreClient(key, source, profiles[answer.profileID], client, now);
      if !programmed {
        refused := true;
        if Has(streams, StreamKeyOf(key, source), IdentityOf(key)) {
          NothingWritten(streams, StreamKeyOf(key, source), IdentityOf(key));
        }
        WriteBackClient(StreamKeyOf(key, source), IdentityOf(key));
      }
    }

    method WriteBackClient(key: StreamKey, id: Identity)
      requires key in streams
      modifies `streams
      ensures streams == WrittenBack(old(streams), key, id)
    {
      var previousClient := if id in streams[key] then streams[key][id] else ZeroClient;
      streams := streams[key := streams[key][id := previousClient]];
      assert id in old(streams)[key] ==> old(streams)[key][id := previousClient] == old(streams)[key];
      assert id in old(streams)[key] ==> streams == old(streams);
    }

    /** Takes a client out of its stream, and the stream out of the table with its last client. It fails,
        unless the backend refuses, exactly when the engine holds no entry for the client's address; the
        last client's rule is deleted by then. */
    method DetachClient(key: StreamKey, identity: Identity, profile: Profile, group: ActiveGroup)
      returns (ok: bool, ghost refused: bool)
      requires engine.Valid() && Mirrors(backend.dynamic, streams, lost) && Bound(streams, bindings)
      requires Has(streams, key, identity)
      requires group.source == key.source && group.group == key.group && group.uniVLAN == key.vlan
      modifies `streams, `lost, engine, backend`dynamic
      ensures engine.Valid() && engine.clock == old(engine.clock)
      ensures PolicyEngine.Shrunk(old(engine.state), engine.state)
      ensures refused ==> !ok
      ensures !refused ==> (ok <==> PolicyEngine.HoldsEntry(old(engine.state), SourceRequestOf(key, group)))
      ensures ok ==> !PolicyEngine.HoldsEntry(engine.state, SourceRequestOf(key, group)) && lost <= old(lost)
      ensures !refused ==> Mirrors(backend.dynamic, streams, lost) && Bound(streams, bindings)
      ensures ok ==> streams == WithoutClient(old(streams), key, identity)
      ensures !ok && !refused ==>
                && streams == old(streams) && engine.state == old(engine.state)
                && RuleLost(old(streams), old(lost), lost, backend.dynamic, key)
    {
      hide PolicyEngine.Engine.Valid, Mirrors, Bound, Peopled, Filed, AllPeopled, WithoutClient, StandsFor,
           PolicyEngine.HoldsEntry, PolicyEngine.Shrunk;
      refused := false;
      OnlyClient(streams[key], identity);
      ClientLeaves(streams, key, identity);
      PolicyEngine.ShrunkAtAll(engine.state);
      var last := |streams[key]| == 1;
      if last {
        ok := Disable(key, profile, group);
        if !ok {
          refused := true;
          return;
        }
      }
      ok := PolicyLeave(SourceRequestOf(key, group));
      if !ok {
        lost := if last then lost + {key} else lost;
        return;
      }
      if last {
        BoundDrop(streams, bindings, key);
        streams, lost := streams - {key}, lost - {key};
      } else {
        MirrorsPeople(backend.dynamic, streams, lost);
        PeopledAt(streams, key);
        StillPeopled(key, streams[key], identity);
        BoundOver(streams, bindings, key, identity);
        var current, changed;
        current, changed, ok := Reprogram(key, profile, streams[key] - {identity});
        streams := streams[key := streams[key] - {identity}];
        refused := !ok;
      }
    }

    /** Deletes the rule of a stream whose last client goes. */
    method Disable(key: StreamKey, profile: Profile, group: ActiveGroup) returns (ok: bool)
      requires Mirrors(backend.dynamic, streams, lost) && key in streams
      requires group.source == key.source && group.group == key.group && group.uniVLAN == key.vlan
      modifies backend`dynamic
      ensures backend.dynamic == if ok then old(backend.dynamic) - {key} else old(backend.dynamic)
      ensures ok ==> Mirrors(backend.dynamic, streams - {key}, lost - {key})
      ensures ok ==> Mirrors(backend.dynamic, streams, lost + {key})
    {
      hide PolicyEngine.Engine.Valid, Mirrors;
      MirrorDropped(backend.dynamic, streams, lost, key);
      MirrorLost(backend.dynamic, streams, lost, key);
      ok := backend.SetReplication(false, key.subscriberID, key.interfaceName, profile.entityID, group);
    }

    /** The client's leave is final: rule, engine entry, client and pending leave go, and the report is sent.
        Unless the backend refuses, it fails exactly when the engine holds no entry for the client's
        address; then client and pending leave stay, but the rule of a last client is already gone. */
    method FinalizeClientLocked(key: StreamKey, identity: Identity, profile: Profile, active: Client, sendReport: bool,
                                now: Time)
      returns (ok: bool, ghost refused: bool)
      requires Valid() && Filed(key, active) && Knows(Installed(), key, profile)
      requires profile.igmpFunction != 0 ==> sendReport
      modifies `streams, `pending, `rates, `heard, `run, `lost, engine, backend`dynamic
      ensures ok && old(AllSent(run)) ==> AllSent(run)
      ensures refused ==> !ok
      ensures !refused ==> Valid() && engine.clock == old(engine.clock)
      ensures !refused ==>
                (ok <==> !Has(old(streams), key, identity) ||
                         PolicyEngine.HoldsEntry(old(engine.state), SourceRequestOf(key, active.group)))
      ensures PolicyEngine.Shrunk(old(engine.state), engine.state)
      ensures ok ==> streams == WithoutClient(old(streams), key, identity) && lost <= old(lost)
      ensures ok ==>
                pending ==
                if Has(old(streams), key, identity) then old(pending) - {PendingKey(key, identity)} else old(pending)
      ensures ok && Has(old(streams), key, identity) ==>
                !PolicyEngine.HoldsEntry(engine.state, SourceRequestOf(key, active.group))
      ensures ok && Has(old(streams), key, identity) ==>
                DepartRecorded(old(run), run, CurrentView(), key, identity, profile, sendReport, now, true)
      ensures !ok && !refused ==>
                && streams == old(streams) && pending == old(pending) && engine.state == old(engine.state)
                && CurrentView() == old(CurrentView()) && run == old(run)
                && RuleLost(old(streams), old(lost), lost, backend.dynamic, key)
      ensures !Has(old(streams), key, identity) ==>
                && ok && CurrentView() == old(CurrentView()) && run == old(run) && engine.state == old(engine.state)
    {
      hide AllSent, PolicyEngine.Engine.Valid, Mirrors, Bound, Scheduled, Peopled, AllPeopled, WithoutClient,
           SomeoneAccepts, Asks, Grounded, Knows, IsRun, Assigned,
           ReportsLeave, Transmits, Step, PolicyEngine.HoldsEntry, PolicyEngine.Shrunk, Filed, DepartRecorded, InForce,
           Served;
      refused := false;
      PolicyEngine.ShrunkAtAll(engine.state);
      if key !in streams || identity !in streams[key] {
        NobodyLeaves(streams, key, identity);
        return true, false;
      }
      assert Filed(key, active) ==> active.group.source == key.source && active.group.group == key.group
                                    && active.group.uniVLAN == key.vlan by { FiledAt(key, active); }
      MirrorsPeople(backend.dynamic, streams, lost);
      OwnSibling(streams, key);
      var previousUpstream, hadPreviousUpstream := EffectiveUpstreamGroup(streams, key);
      ghost var before := CurrentView();
      ok, refused := DetachClient(key, identity, profile, active.group);
      AssignedShrinks(old(engine.state), engine.state, bindings);
      if !ok {
        return;
      }
      DropPending(PendingKey(key, identity));
      ok := DepartClient(key, identity, profile, active.group, sendReport, previousUpstream, now, before);
      refused := !ok;
    }

    /** Reports the departure of a client that is no longer in its stream. */
    method DepartClient(key: StreamKey, id: Identity, profile: Profile, group: ActiveGroup, sendReport: bool,
                        previous: ActiveGroup, now: Time, ghost before: View)
      returns (ok: bool)
      requires Mirrors(backend.dynamic, streams, lost) && Knows(Installed(), key, profile)
      requires profile.igmpFunction != 0 ==> sendReport
      requires group.source == key.source && group.group == key.group && previous.group == key.group
      requires key in before.streams && streams == WithoutClient(before.streams, key, id)
      requires Traced(Installed(), run, before) && heard == before.heard && rates == before.rates
      requires forall a :: Asks(previous, a) <==> SomeoneAccepts(before.streams, key, a)
      modifies `rates, `heard, `run
      ensures DepartRecorded(old(run), run, CurrentView(), key, id, profile, sendReport, now, ok)
      ensures ok && old(AllSent(run)) ==> AllSent(run)
      ensures Traced(Installed(), run, CurrentView())
    {
      hide AllSent, PolicyEngine.Engine.Valid, Mirrors, AllPeopled, WithoutClient, SomeoneAccepts, Asks, Knows, IsRun,
           ReportsLeave, Transmits, Step;
      MirrorsPeople(backend.dynamic, streams, lost);
      ghost var reported, report;
      ok, reported, report := ReportLeave(key, profile, group, sendReport, previous, now, before.streams);
      DepartedStep(Installed(), before, CurrentView(), key, id, reported, profile, report, now, ok);
      Follow(before, Departed(key, id, reported, profile, report, now, ok));
    }

    method DropPending(key: PendingKey)
      requires Scheduled(pending, history) && Grounded(Installed(), pending)
      modifies `pending
      ensures Scheduled(pending, history) && Grounded(Installed(), pending)
      ensures pending == old(pending) - {key}
    {
      hide PolicyEngine.Engine.Valid, Scheduled, Grounded;
      ForgetPending(pending, history, key);
      GroundedFewer(Installed(), pending, pending - {key});
      pending := pending - {key};
    }

    /** Reports a leave: a proxy reports what is left of the group, if that changed. */
    method ReportLeave(key: StreamKey, profile: Profile, group: ActiveGroup, sendReport: bool, previous: ActiveGroup,
                       now: Time,
                       ghost before: Streams)
      returns (ok: bool, ghost reported: bool, ghost report: ActiveGroup)
      requires AllPeopled(streams) && (profile.igmpFunction != 0 ==> sendReport)
      requires group.source == key.source && group.group == key.group && previous.group == key.group
      requires forall a :: Asks(previous, a) <==> SomeoneAccepts(before, key, a)
      modifies `rates, `heard
      ensures ReportsLeave(before, streams, key, reported, profile, report)
      ensures profile.igmpFunction == 0 ==> reported == sendReport
      ensures Transmits(View(before, old(heard), old(rates)), CurrentView(), key, profile,
                        profile.igmpFunction != 0 && Alive(streams, key), report, now, reported, ok)
    {
      hide PolicyEngine.Engine.Valid, AllPeopled, SomeoneAccepts, Asks, Attempted, Sendable, RecordSent, HeardAfter;
      ok, reported, report := true, false, group;
      if profile.igmpFunction == 0 {
        if sendReport {
          reported := true;
          ok := SendReportLocked(false, profile, group, key, now);
        }
        return;
      }
      var current, found := EffectiveUpstreamGroup(streams, key);
      if found && SameMembershipGroup(previous, current) {
        SameAsks(previous, current);
        return;
      }
      if !found {
        current := EmptyMembershipGroup(previous);
      }
      reported, report := true, current;
      ok := SendReportLocked(found, profile, current, key, now);
    }

    /** A profile that leaves the robustness to the querier takes the value it has learned. */
    function EffectiveProfile(interfaceName: string, profile: Profile): Profile
      reads this
    {
      WithLearned(robustness, interfaceName, profile)
    }

    /** A client leaves: at once when others stay or the profile says so; otherwise after queries. Unless the
        backend refuses, a leave at once fails exactly when the engine holds no entry for the client's
        address, and a leave after queries does not fail. */
    method RemoveLocked(key: ClientGroupKey, source: Addr, tags: seq<VLANTag>, now: Time)
      returns (ok: bool, ghost refused: bool)
      requires Valid() && engine.clock <= now
      requires key.interfaceName in bindings && bindings[key.interfaceName].entityID == key.subscriberID
      modifies `streams, `pending, `history, `rates, `heard, `run, `lost, engine, backend`dynamic
      ensures ok && old(AllSent(run)) ==> AllSent(run)
      ensures refused ==> !ok
      ensures !refused ==> Valid() && engine.clock == old(engine.clock)
      ensures PolicyEngine.Shrunk(old(engine.state), engine.state)
      ensures ok ==> lost <= old(lost)
      ensures ok ==> var leaving := PendingKey(StreamKeyOf(key, source), IdentityOf(key));
                if !Has(old(streams), leaving.stream, leaving.identity) then
                  streams == old(streams) && pending == old(pending) && history == old(history)
                else
                  var group := old(streams)[leaving.stream][leaving.identity].group;
                  && group.profileID in profiles
                  && var profile := profiles[group.profileID];
                  if |old(streams)[leaving.stream]| != 1 || profile.immediateLeave then
                    && streams == WithoutClient(old(streams), leaving.stream, leaving.identity)
                    && pending == old(pending) - {leaving} && history == old(history)
                    && !PolicyEngine.HoldsEntry(engine.state, SourceRequestOf(leaving.stream, group))
                    && DepartRecorded(old(run), run, CurrentView(), leaving.stream, leaving.identity, profile, true,
                                      now,
                                      true)
                  else
                    var waiting := EffectiveProfile(key.interfaceName, profile);
                    && streams == old(streams) && engine.state == old(engine.state)
                    && pending ==
                       old(pending)[leaving := Asked(bindings[key.interfaceName], key.interfaceName, waiting, group,
                                                                tags, now)]
                    && history == old(history)[leaving := HistoryOf(old(history), leaving) + [LeftNow(waiting, now)] +
                                                          [Queried(now)]]
      ensures !refused ==> var leaving := PendingKey(StreamKeyOf(key, source), IdentityOf(key));
                ok <==> (Has(old(streams), leaving.stream, leaving.identity) ==>
                           var group := old(streams)[leaving.stream][leaving.identity].group;
                           && group.profileID in profiles
                           && (|old(streams)[leaving.stream]| != 1 || profiles[group.profileID].immediateLeave ==>
                                 PolicyEngine.HoldsEntry(old(engine.state), SourceRequestOf(leaving.stream, group))))
      ensures !ok && !refused ==>
                && streams == old(streams) && pending == old(pending) && history == old(history)
                && engine.state == old(engine.state)
                && (streams[StreamKeyOf(key, source)][IdentityOf(key)].group.profileID in profiles ==>
                      RuleLost(streams, old(lost), lost, backend.dynamic, StreamKeyOf(key, source)))
    {
      hide AllSent, PolicyEngine.Engine.Valid, IsRun, Mirrors, Bound, Scheduled, WithoutClient, Waiting, Grounded,
           Assigned, PolicyEngine.HoldsEntry,
           PolicyEngine.Shrunk, Knows, InForce, Served, DepartRecorded;
      refused := false;
      PolicyEngine.ShrunkAtAll(engine.state);
      var streamKey, identity := StreamKeyOf(key, source), IdentityOf(key);
      if streamKey !in streams || identity !in streams[streamKey] {
        return true, false;
      }
      var active := streams[streamKey][identity];
      ClientIsFiled(backend.dynamic, streams, lost, streamKey, identity);
      var group := active.group;
      if group.profileID !in profiles {
        return false, false;
      }
      var profile := profiles[group.profileID];
      BoundAt(streams, bindings, streamKey, identity);
      GroundedKnows(Installed(), pending, streamKey, group.profileID);
      var last := |streams[streamKey]| == 1;
      if !last || profile.immediateLeave {
        ok, refused := FinalizeClientLocked(streamKey, identity, profile, active, true, now);
        return;
      }
      ok := StartLeave(key, streamKey, identity, profile, group, tags, now);
      refused := !ok;
    }

    /** The first query of a delayed leave; a snooping profile reports the leave right away. */
    method StartLeave(key: ClientGroupKey, streamKey: StreamKey, identity: Identity, profile: Profile,
                      group: ActiveGroup,
                      tags: seq<VLANTag>, now: Time)
      returns (ok: bool)
      requires Valid() && Knows(Installed(), streamKey, profile)
      requires key.interfaceName in bindings && Has(streams, streamKey, identity)
      requires streamKey.subscriberID == bindings[key.interfaceName].entityID
      requires streamKey.interfaceName == key.interfaceName
      requires group.source == streamKey.source && group.group == streamKey.group
      modifies `pending, `history, `rates, `heard, `run
      ensures ok && old(AllSent(run)) ==> AllSent(run)
      ensures ok ==> Valid()
      ensures ok ==>
                var leaving, waiting := PendingKey(streamKey, identity), EffectiveProfile(key.interfaceName, profile);
                && pending ==
                   old(pending)[leaving := Asked(bindings[key.interfaceName], key.interfaceName, waiting, group,
                                                            tags, now)]
                && history ==
                   old(history)[leaving := HistoryOf(old(history), leaving) + [LeftNow(waiting, now)] + [Queried(now)]]
    {
      hide AllSent, PolicyEngine.Engine.Valid, Coherent, IsRun, Grounded, Knows, Transmits, AllPeopled, Assigned;
      PeopledNow();
      ghost var before := CurrentView();
      var effectiveProfile := EffectiveProfile(key.interfaceName, profile);
      ok := SendQuery(effectiveProfile, group.group, if group.source.IsUnspecified() then NoAddr else group.source);
      if !ok {
        return;
      }
      if profile.igmpFunction == 0 {
        ok := SendReportLocked(false, profile, group, streamKey, now);
        Follow(before, Announced(streamKey, identity, profile, group, now, ok));
        if !ok {
          return;
        }
      }
      LearnedIsKnown(Installed(), streamKey, robustness, key.interfaceName, profile);
      var leave := Asked(bindings[key.interfaceName], key.interfaceName, effectiveProfile, group, tags, now);
      RecordLeave(PendingKey(streamKey, identity), leave, now);
    }

    method RecordLeave(key: PendingKey, leave: Pending, now: Time)
      requires Valid() && Knows(Installed(), key.stream, leave.profile)
      requires leave == Asked(leave.subscriber, leave.interfaceName, leave.profile, leave.group, leave.tags, now)
      requires leave.subscriber.entityID == key.stream.subscriberID && leave.interfaceName == key.stream.interfaceName
      modifies `pending, `history
      ensures Valid() && pending == old(pending)[key := leave]
      ensures history ==
              old(history)[key := HistoryOf(old(history), key) + [LeftNow(leave.profile, now)] + [Queried(now)]]
    {
      hide PolicyEngine.Engine.Valid, IsRun, Mirrors, Bound, Scheduled, Waiting, Grounded, Knows, Assigned;
      LeaveStarts(pending, history, key, leave, now);
      GroundedMore(Installed(), pending, key, leave);
      pending := pending[key := leave];
      history := history[key := HistoryOf(history, key) + [LeftNow(leave.profile, now)] + [Queried(now)]];
    }

    method RemoveSources(key: ClientGroupKey, list: seq<Addr>, tags: seq<VLANTag>, now: Time) returns (ok: bool)
      requires Valid() && engine.clock <= now
      requires key.interfaceName in bindings && bindings[key.interfaceName].entityID == key.subscriberID
      modifies `streams, `pending, `history, `rates, `heard, `run, `lost, engine, backend`dynamic
      ensures ok && old(AllSent(run)) ==> AllSent(run)
      ensures ok ==> Valid() && engine.clock <= now && lost <= old(lost)
    {
      hide AllSent, PolicyEngine.Engine.Valid, Coherent, IsRun, Grounded, Assigned, WithoutClient;
      ok := true;
      for i := 0 to |list|
        invariant Valid() && engine.clock <= now && lost <= old(lost)
        invariant old(AllSent(run)) ==> AllSent(run)
      {
        ghost var refused;
        ok, refused := RemoveLocked(key, list[i], tags, now);
        if !ok {
          return;
        }
      }
    }

    method AddSources(key: ClientGroupKey, list: seq<Addr>, excluded: seq<Addr>, tags: seq<VLANTag>, now: Time)
      returns (added: set<Addr>, ok: bool)
      requires Valid() && engine.clock <= now
      requires key.interfaceName in bindings && bindings[key.interfaceName].entityID == key.subscriberID
      modifies `streams, `pending, `history, `rates, `heard, `run, `lost, engine, backend`dynamic
      ensures ok && old(AllSent(run)) ==> AllSent(run)
      ensures ok ==> Valid() && engine.clock <= now && lost <= old(lost)
      ensures ok ==> forall a :: a in added ==> a in list && HasEntry(streams, key, a, excluded)
    {
      hide AllSent, PolicyEngine.Engine.Valid, Coherent, IsRun, Grounded, Assigned, HasEntry, Entered, PolicyAnswers;
      added, ok := {}, true;
      for i := 0 to |list|
        invariant Valid() && engine.clock <= now && lost <= old(lost)
        invariant old(AllSent(run)) ==> AllSent(run)
        invariant forall a :: a in added ==> a in list && HasEntry(streams, key, a, excluded)
      {
        ghost var before := streams;
        var accepted;
        ghost var decision, refused;
        accepted, ok, decision, refused := AddLocked(key, list[i], excluded, tags, now);
        if !ok {
          return;
        }
        if accepted {
          EnteredEntries(before, streams, key, list[i], excluded, now);
          added := added + {list[i]};
        }
      }
    }

    method RefreshSources(key: ClientGroupKey, list: seq<Addr>, excluded: seq<Addr>, tags: seq<VLANTag>, now: Time)
      returns (ok: bool)
      requires Valid() && engine.clock <= now
      requires key.interfaceName in bindings && bindings[key.interfaceName].entityID == key.subscriberID
      modifies `streams, `pending, `history, `rates, `heard, `run, `lost, engine, backend`dynamic
      ensures ok && old(AllSent(run)) ==> AllSent(run)
      ensures ok ==> Valid() && engine.clock <= now && lost <= old(lost)
      ensures ok ==> forall a :: a in list ==> HasEntry(streams, key, a, excluded)
      ensures ok ==> forall a :: HasEntry(old(streams), key, a, excluded) ==> HasEntry(streams, key, a, excluded)
    {
      hide AllSent, PolicyEngine.Engine.Valid, Coherent, IsRun, Grounded, Assigned, HasEntry, Entered, PolicyAnswers;
      ok := true;
      for i := 0 to |list|
        invariant Valid() && engine.clock <= now && lost <= old(lost)
        invariant old(AllSent(run)) ==> AllSent(run)
        invariant forall k :: 0 <= k < i ==> HasEntry(streams, key, list[k], excluded)
        invariant forall a :: HasEntry(old(streams), key, a, excluded) ==> HasEntry(streams, key, a, excluded)
      {
        ghost var before := streams;
        ghost var decision, refused;
        ok, decision, refused := RefreshLocked(key, list[i], excluded, tags, now);
        if !ok {
          return;
        }
        EnteredEntries(before, streams, key, list[i], excluded, now);
      }
    }

    /** The three loops over the sources a client no longer forwards, forwards anew, and still forwards. */
    method ChangeSources(key: ClientGroupKey, before: set<Addr>, wanted: set<Addr>, exclusions: seq<Addr>,
                         tags: seq<VLANTag>,
                         now: Time)
      returns (after: set<Addr>, ok: bool)
      requires Valid() && engine.clock <= now
      requires key.interfaceName in bindings && bindings[key.interfaceName].entityID == key.subscriberID
      modifies `streams, `pending, `history, `rates, `heard, `run, `lost, engine, backend`dynamic
      ensures ok && old(AllSent(run)) ==> AllSent(run)
      ensures ok ==> Valid() && engine.clock <= now && lost <= old(lost)
      ensures ok ==>
                before * wanted <= after <= wanted && forall a :: a in after ==> HasEntry(streams, key, a, exclusions)
    {
      hide AllSent, PolicyEngine.Engine.Valid, Coherent, IsRun, Grounded, Assigned, HasEntry, SourceLists.Lists;
      after := {};
      var list := SortedSources(before - wanted);
      ok := RemoveSources(key, list, tags, now);
      if !ok {
        return;
      }
      var added;
      list := SortedSources(wanted - before);
      ListedOnly(list, wanted - before);
      added, ok := AddSources(key, list, exclusions, tags, now);
      if !ok {
        return;
      }
      list := SortedSources(before * wanted);
      ListedOnly(list, before * wanted);
      ok := RefreshSources(key, list, exclusions, tags, now);
      after := before * wanted + added;
    }

    /** One record of a report: sources no longer wanted leave, new ones join, the others are refreshed. */
    method ApplyRecordLocked(key: ClientGroupKey, record: MembershipRecord, tags: seq<VLANTag>, now: Time)
      returns (ok: bool, ghost kept: set<Addr>, ghost excluded: seq<Addr>)
      requires Valid() && engine.clock <= now && key.group == record.group
      requires key.interfaceName in bindings && bindings[key.interfaceName].entityID == key.subscriberID
      modifies `memberships, `streams, `pending, `history, `rates, `heard, `run, `lost, engine, backend`dynamic
      ensures ok && old(AllSent(run)) ==> AllSent(run)
      ensures ok ==> Valid() && engine.clock <= now && lost <= old(lost)
      ensures ok ==> Applied(old(memberships), memberships, streams, key, record, kept, excluded)
    {
      hide AllSent, PolicyEngine.Engine.Valid, Coherent, IsRun, Grounded, Assigned, HasEntry, SourceLists.Lists;
      kept, excluded := {}, [];
      var before := MembershipOf(memberships, key);
      var wanted := TransitionMembership(before, record);
      var beforeForwarding := ForwardingSources(before, key.client);
      var wantedForwarding := ForwardingSources(wanted, key.client);
      var exclusions := SortedSources(wanted.sources);
      excluded := exclusions;
      var afterForwarding;
      afterForwarding, ok := ChangeSources(key, beforeForwarding, wantedForwarding, exclusions, tags, now);
      kept := afterForwarding;
      if !ok {
        return;
      }
      if afterForwarding == {} {
        memberships := memberships - {key};
      } else {
        memberships :=
          memberships[key := if wanted.mode == Include then wanted.(sources := afterForwarding) else wanted];
      }
    }

    /** Applies every record of a report; anything else is consumed without effect on the streams. */
    method Handle(interfaceName: string, message: Message, now: Time)
      returns (ok: bool, ghost trace: seq<map<ClientGroupKey, Filter>>)
      requires Valid() && engine.clock <= now
      modifies `memberships, `streams, `pending, `history, `robustness, `rates, `heard, `run, `lost, engine,
               backend`dynamic
      ensures ok && old(AllSent(run)) ==> AllSent(run)
      ensures ok ==> Valid() && engine.clock <= now && lost <= old(lost)
      ensures interfaceName !in bindings ==> !ok
      ensures ok && !message.downstream && message.kind == Report ==>
                Followed(trace, old(memberships), memberships,
                         ReporterOf(bindings[interfaceName], interfaceName, message),
                         message.records)
      ensures message.downstream || message.kind != Report ==>
                && streams == old(streams) && pending == old(pending) && memberships == old(memberships)
                && backend.dynamic == old(backend.dynamic)
    {
      hide AllSent, PolicyEngine.Engine.Valid, Coherent, IsRun, Grounded, Assigned, Applied, Narrowed;
      ok, trace := interfaceName in bindings, [memberships];
      if !ok {
        return;
      }
      if message.downstream {
        if message.kind == Query {
          LearnQueryLocked(interfaceName, message);
        }
        return;
      }
      if message.kind != Report {
        return;
      }
      var reporter := ReporterOf(bindings[interfaceName], interfaceName, message);
      for i := 0 to |message.records|
        invariant Valid() && engine.clock <= now && lost <= old(lost)
        invariant old(AllSent(run)) ==> AllSent(run)
        invariant Followed(trace, old(memberships), memberships, reporter, message.records[..i])
      {
        ghost var kept, excluded;
        var record := message.records[i];
        var key := reporter.(group := record.group);
        ghost var before := memberships;
        ok, kept, excluded := ApplyRecordLocked(key, record, message.tags, now);
        if !ok {
          return;
        }
        AppliedNarrows(before, memberships, streams, key, record, kept, excluded);
        FollowedNext(trace, old(memberships), before, reporter, message.records[..i], record, memberships);
        assert message.records[..i + 1] == message.records[..i] + [record];
        trace := trace + [memberships];
      }
      assert message.records[..|message.records|] == message.records;
    }

    /** A query from the network teaches the robustness of the profiles that leave it open. */
    method LearnQueryLocked(interfaceName: string, message: Message)
      requires interfaceName in bindings
      modifies `robustness
      ensures message.queryRobustness == 0 ==> robustness == old(robustness)
      ensures message.queryRobustness != 0 ==>
                Taught(old(robustness), robustness, interfaceName, message.queryRobustness,
                       LearningProfiles(bindings[interfaceName], profiles, message))
    {
      hide PolicyEngine.Engine.Valid, LearningProfiles;
      if message.queryRobustness == 0 {
        return;
      }
      var rest := LearningProfiles(bindings[interfaceName], profiles, message);
      ghost var learning, before, done := rest, robustness, {};
      while rest != {}
        invariant done + rest == learning
        invariant Taught(before, robustness, interfaceName, message.queryRobustness, done)
        decreases |rest|
      {
        var id :| id in rest;
        robustness := robustness[(interfaceName, id) := message.queryRobustness];
        done, rest := done + {id}, rest - {id};
      }
      assert done == learning;
    }

    // ---------- timers ----------

    method RunGeneralQueriesLocked(now: Time) returns (ok: bool)
      modifies `queries
      ensures |queries| == |old(queries)|
      ensures ok ==>
                forall i :: 0 <= i < |queries| ==> queries[i] == Repeated(old(queries)[i], now) && queries[i].next > now
    {
      ok := true;
      for i := 0 to |queries|
        invariant |queries| == |old(queries)| && ok
        invariant forall k :: 0 <= k < i ==> queries[k] == Repeated(old(queries)[k], now) && queries[k].next > now
        invariant forall k :: i <= k < |queries| ==> queries[k] == old(queries)[k]
      {
        var query := queries[i];
        if query.next <= now {
          ok := SendQuery(EffectiveProfile(query.interfaceName, query.profile), NoAddr, NoAddr);
          if !ok {
            return;
          }
          queries := queries[i := query.(next := now + QueryInterval(query.profile))];
        }
      }
    }

    ghost function CurrentLeaves(): Leaves
      reads this
    {
      Leaves(streams, pending, history)
    }

    /** A due leave whose client should now go but has no entry in the engine. */
    predicate IsBlocked(key: PendingKey, now: Time)
      reads this, engine
    {
      Blocked(streams, pending, engine.state, key, now)
    }

    /** One query or the removal of one pending leave whose time has come. Unless the backend refuses, it
        fails exactly when the leave is blocked, and then it stays blocked. */
    method RunPendingLeave(key: PendingKey, now: Time) returns (ok: bool, ghost refused: bool)
      requires Valid() && engine.clock <= now
      modifies `streams, `pending, `history, `rates, `heard, `run, `lost, engine, backend`dynamic
      ensures ok && old(AllSent(run)) ==> AllSent(run)
      ensures refused ==> !ok
      ensures !refused ==> Valid() && engine.clock == old(engine.clock) && (ok <==> !old(IsBlocked(key, now)))
      ensures old(IsBlocked(key, now)) ==> !ok
      ensures PolicyEngine.Shrunk(old(engine.state), engine.state) && (ok ==> lost <= old(lost))
      ensures ok && key in old(pending) ==> LeaveAdvanced(old(CurrentLeaves()), CurrentLeaves(), key, now)
      ensures ok ==> OthersUntouched(old(CurrentLeaves()), CurrentLeaves(), key)
      ensures !ok && !refused ==> CurrentLeaves() == old(CurrentLeaves()) && engine.state == old(engine.state)
      ensures !ok && !refused ==> RuleLost(streams, old(lost), lost, backend.dynamic, key.stream)
    {
      hide AllSent, PolicyEngine.Engine.Valid, IsRun, Mirrors, Bound, Scheduled, WithoutClient, PhaseAfter, Waiting,
           Grounded, Knows,
           Assigned, PolicyEngine.HoldsEntry, PolicyEngine.Shrunk, LeaveAdvanced, OthersUntouched;
      GroundedParts(Installed(), pending);
      PolicyEngine.ShrunkAtAll(engine.state);
      ghost var before := CurrentLeaves();
      ok, refused := true, false;
      if key !in pending || pending[key].next > now {
        LeaveWaits(before, key, now);
        return;
      }
      var p := pending[key];
      if key.stream !in streams || key.identity !in streams[key.stream] {
        LeaveDropped(before, key, now);
        DropPending(key);
        return;
      }
      var active := streams[key.stream][key.identity];
      if p.remaining != 0 {
        ok := SendQuery(p.profile, p.group.group, if p.group.source.IsUnspecified() then NoAddr else p.group.source);
        refused := !ok;
        if ok {
          QueryAgain(key, now);
          LeaveQueried(before, key, now);
        }
        return;
      }
      RemovalDue(pending, history, key, now);
      ClientIsFiled(backend.dynamic, streams, lost, key.stream, key.identity);
      LeaveRemoved(before, key, now);
      ok, refused :=
        FinalizeClientLocked(key.stream, key.identity, p.profile, active, p.profile.igmpFunction != 0, now);
      if ok {
        history := history[key := HistoryOf(history, key) + [Removed(now)]];
      }
    }

    method QueryAgain(key: PendingKey, now: Time)
      requires Valid() && key in pending && pending[key].remaining > 0 && pending[key].next <= now
      modifies `pending, `history
      ensures Valid() && pending == old(pending)[key := Again(old(pending)[key], now)]
      ensures history == old(history)[key := HistoryOf(old(history), key) + [Queried(now)]]
    {
      hide PolicyEngine.Engine.Valid, IsRun, Mirrors, Bound, Scheduled, Grounded, Knows, Assigned;
      QueryRepeats(pending, history, key, now);
      GroundedParts(Installed(), pending);
      var again := Again(pending[key], now);
      GroundedMore(Installed(), pending, key, again);
      pending := pending[key := again];
      history := history[key := HistoryOf(history, key) + [Queried(now)]];
    }

    /** Every pending leave advances as its schedule says. A blocked leave makes this fail, and is blocked
        still afterwards; nothing else does, unless the backend refuses. The original sorts the keys by
        interface, group and client address, which leaves ties to the map. */
    method RunPendingLeavesLocked(now: Time) returns (ok: bool, ghost refused: bool)
      requires Valid() && engine.clock <= now
      modifies `streams, `pending, `history, `rates, `heard, `run, `lost, engine, backend`dynamic
      ensures ok && old(AllSent(run)) ==> AllSent(run)
      ensures refused ==> !ok
      ensures !refused ==> Valid() && engine.clock == old(engine.clock)
      ensures PolicyEngine.Shrunk(old(engine.state), engine.state) && (ok ==> lost <= old(lost))
      ensures ok ==> Advanced(old(CurrentLeaves()), CurrentLeaves(), {}, now)
      ensures ok ==> forall key :: key in pending ==> pending[key].next > now
      ensures forall key :: old(IsBlocked(key, now)) ==>
                !ok && (!refused ==> IsBlocked(key, now) && SameClient(old(streams), streams, key))
      ensures !ok && !refused ==> exists key :: IsBlocked(key, now)
    {
      hide AllSent, PolicyEngine.Engine.Valid, Coherent, IsRun, Grounded, WithoutClient, Assigned, Advanced, Blocked,
           PolicyEngine.Shrunk, LeaveAdvanced, OthersUntouched, Untouched, SameClient;
      ok, refused := true, false;
      ghost var before, first := CurrentLeaves(), engine.state;
      NothingAdvanced(before, now);
      BlockedIsPending(streams, pending, engine.state, now);
      PolicyEngine.ShrunkAtAll(engine.state);
      var rest := pending.Keys;
      while rest != {}
        invariant Valid() && engine.clock == old(engine.clock) && ok && !refused && lost <= old(lost)
        invariant old(AllSent(run)) ==> AllSent(run)
        invariant PolicyEngine.Shrunk(first, engine.state)
        invariant rest <= before.pending.Keys && Advanced(before, CurrentLeaves(), rest, now)
        invariant forall key :: Blocked(before.streams, before.pending, first, key, now) ==> key in rest
        decreases |rest|
      {
        var key :| key in rest;
        ghost var middle, state := CurrentLeaves(), engine.state;
        AdvanceStays(before, middle, rest, first, state, now);
        ok, refused := RunPendingLeave(key, now);
        PolicyEngine.ShrunkTwice(first, state, engine.state);
        if !ok {
          return;
        }
        AdvanceNext(before, middle, CurrentLeaves(), rest, key, now);
        rest := rest - {key};
      }
      AdvancedIsNotDue(before, CurrentLeaves(), now);
    }

    /** The blocked leaves that have not been reached yet are blocked still. */
    lemma AdvanceStays(before: Leaves, middle: Leaves, rest: set<PendingKey>,
                       first: map<nat, PolicyEngine.SubscriberState>,
                       state: map<nat, PolicyEngine.SubscriberState>, now: Time)
      requires Advanced(before, middle, rest, now) && PolicyEngine.Shrunk(first, state)
      ensures forall key :: key in rest ==> key in middle.pending && SameClient(before.streams, middle.streams, key)
      ensures forall key :: key in rest && Blocked(before.streams, before.pending, first, key, now) ==>
                Blocked(middle.streams, middle.pending, state, key, now)
    {
      hide Blocked, PolicyEngine.Shrunk, LeaveAdvanced;
      forall key | key in rest ensures Untouched(before, middle, key) {}
      forall key | key in rest && Blocked(before.streams, before.pending, first, key, now)
        ensures Blocked(middle.streams, middle.pending, state, key, now)
      {
        StaysBlocked(before, middle, first, state, key, now);
      }
    }

    /** A proxy forgets a client that has been silent for the membership interval, unless it is leaving. */
    predicate Stale(key: StreamKey, id: Identity, now: Time)
      requires key in streams && id in streams[key]
      reads this
    {
      StaleIn(streams, pending, profiles, robustness, key, id, now)
    }

    ghost predicate ListsStale(stale: seq<StaleClient>, now: Time, keys: set<StreamKey>)
      reads this
    {
      && (forall i :: 0 <= i < |stale| ==> IsStale(stale[i], now))
      && (forall key, id :: key in keys && key in streams && id in streams[key] && Stale(key, id, now) ==>
            exists i :: 0 <= i < |stale| && stale[i].key == key && stale[i].id == id)
    }

    ghost predicate IsStale(client: StaleClient, now: Time)
      reads this
    {
      && client.key in streams && client.id in streams[client.key]
      && client.active == streams[client.key][client.id] && Filed(client.key, client.active)
      && client.active.group.profileID in profiles
      && client.profile == EffectiveProfile(client.key.interfaceName, profiles[client.active.group.profileID])
      && Stale(client.key, client.id, now)
    }

    method StaleInStream(key: StreamKey, now: Time) returns (stale: seq<StaleClient>)
      requires key in streams && Peopled(key, streams[key])
      ensures ListsStale(stale, now, {key})
    {
      hide EffectiveProfile, Filed;
      stale := [];
      var rest := streams[key].Keys;
      while rest != {}
        invariant rest <= streams[key].Keys
        invariant forall i :: 0 <= i < |stale| ==> IsStale(stale[i], now)
        invariant forall id :: id in streams[key] && id !in rest && Stale(key, id, now) ==>
                    exists i :: 0 <= i < |stale| && stale[i].key == key && stale[i].id == id
        decreases |rest|
      {
        var id :| id in rest;
        rest := rest - {id};
        ghost var before := stale;
        if Stale(key, id, now) {
          var active := streams[key][id];
          var profile := EffectiveProfile(key.interfaceName, profiles[active.group.profileID]);
          stale := stale + [StaleClient(key, id, active, profile)];
          assert stale[|before|].key == key && stale[|before|].id == id;
        }
        assert forall i :: 0 <= i < |before| ==> stale[i] == before[i];
      }
    }

    method StaleClients(now: Time) returns (stale: seq<StaleClient>)
      requires AllPeopled(streams)
      ensures ListsStale(stale, now, streams.Keys)
    {
      hide Stale, Peopled, Filed, IsStale;
      stale := [];
      var rest := streams.Keys;
      ghost var seen: set<StreamKey> := {};
      while rest != {}
        invariant seen + rest == streams.Keys
        invariant ListsStale(stale, now, seen)
        decreases |rest|
      {
        var key :| key in rest;
        var more := StaleInStream(key, now);
        JoinStale(stale, more, now, seen, key);
        stale := stale + more;
        seen, rest := seen + {key}, rest - {key};
      }
      assert seen == streams.Keys;
    }

    lemma StaleAreListed(stale: seq<StaleClient>, now: Time)
      requires ListsStale(stale, now, streams.Keys)
      ensures forall key, id :: Has(streams, key, id) ==>
                ((key, id) in Listed(stale, |stale|) <==> StaleIn(streams, pending, profiles, robustness, key, id, now))
      ensures forall i :: 0 <= i < |stale| ==> Filed(stale[i].key, stale[i].active)
      ensures Grounded(Installed(), pending) && Bound(streams, bindings) ==>
                forall i :: 0 <= i < |stale| ==> Knows(Installed(), stale[i].key, stale[i].profile)
    {
      hide StaleIn, Filed, Versioned, InForce;
      assert forall i :: 0 <= i < |stale| ==> IsStale(stale[i], now);
      forall key, id | Has(streams, key, id)
        ensures (key, id) in Listed(stale, |stale|) <==> StaleIn(streams, pending, profiles, robustness, key, id, now)
      {
        if (key, id) in Listed(stale, |stale|) {
          var i :| 0 <= i < |stale| && (stale[i].key, stale[i].id) == (key, id);
          assert IsStale(stale[i], now);
        }
        if Stale(key, id, now) {
          assert key in streams.Keys;
        }
      }
    }

    lemma JoinStale(stale: seq<StaleClient>, more: seq<StaleClient>, now: Time, seen: set<StreamKey>, key: StreamKey)
      requires ListsStale(stale, now, seen) && ListsStale(more, now, {key})
      ensures ListsStale(stale + more, now, seen + {key})
    {
      hide Stale, IsStale;
      var all := stale + more;
      forall k, id | k in seen + {key} && k in streams && id in streams[k] && Stale(k, id, now)
        ensures exists i :: 0 <= i < |all| && all[i].key == k && all[i].id == id
      {
        if k in seen {
          var i :| 0 <= i < |stale| && stale[i].key == k && stale[i].id == id;
          assert all[i] == stale[i];
        } else {
          var i :| 0 <= i < |more| && more[i].key == k && more[i].id == id;
          assert all[|stale| + i] == more[i];
        }
      }
    }

    /** Exactly the stale clients go, and none is left. */
    method ExpireProxyMembershipsLocked(now: Time) returns (ok: bool, ghost refused: bool)
      requires Valid() && engine.clock <= now
      modifies `streams, `pending, `rates, `heard, `run, `lost, engine, backend`dynamic
      ensures ok && old(AllSent(run)) ==> AllSent(run)
      ensures refused ==> !ok
      ensures !refused ==> Valid() && engine.clock == old(engine.clock)
      ensures PolicyEngine.Shrunk(old(engine.state), engine.state) && (ok ==> lost <= old(lost))
      ensures ok ==> StaleGone(old(streams), old(pending), streams, pending, profiles, robustness, now)
    {
      hide AllSent, PolicyEngine.Engine.Valid, IsRun, Mirrors, Bound, Scheduled, WithoutClient, Silent, Filed, Remain,
           StaleGone,
           ListsStale, StaleIn, Listed, Grounded, Knows, Assigned, PolicyEngine.Shrunk, PolicyEngine.HoldsEntry;
      MirrorsPeople(backend.dynamic, streams, lost);
      var stale := StaleClients(now);
      ok, refused := true, false;
      ghost var before, leaving, first := streams, pending, engine.state;
      RemainAll(before, leaving, stale);
      StaleAreListed(stale, now);
      PolicyEngine.ShrunkAtAll(engine.state);
      for i := 0 to |stale|
        invariant Valid() && engine.clock == old(engine.clock) && lost <= old(lost) && ok && !refused
        invariant old(AllSent(run)) ==> AllSent(run)
        invariant PolicyEngine.Shrunk(first, engine.state)
        invariant Remain(before, leaving, streams, pending, Listed(stale, i))
      {
        assert Filed(stale[i].key, stale[i].active);
        ghost var streams_, pending_, state := streams, pending, engine.state;
        ok, refused := FinalizeClientLocked(stale[i].key, stale[i].id, stale[i].profile, stale[i].active, true, now);
        PolicyEngine.ShrunkTwice(first, state, engine.state);
        if !ok {
          return;
        }
        RemainNext(before, leaving, streams_, pending_, Listed(stale, i), stale[i].key, stale[i].id, pending);
        ListedNext(stale, i);
      }
      NoneStale(before, leaving, streams, pending, Listed(stale, |stale|), profiles, robustness, now);
    }

    // ---------- what the network has heard ----------

    /** Once informed of a group the network delivers exactly what the group's clients accept, as long as
        every later step of the group was faithful: a proxy's, of a version that lists sources, not a
        forwarded join, with its report admitted and sent. */
    lemma NetworkIsInformed(key: StreamKey, start: nat)
      requires Valid() && start < |run.views| && Informed(run.views[start], key)
      requires forall i :: start <= i < |run.events| && GroupOf(run.events[i].key) == GroupOf(key) ==>
        Faithful(run.views[i], run.events[i])
      ensures Believed(heard, GroupOf(key)) == iset a | SomeoneAccepts(streams, key, a)
    {
      hide PolicyEngine.Engine.Valid, Coherent, Grounded, Assigned, Step, Faithful, SomeoneAccepts;
      RunInforms(Installed(), run, key, start, |run.events|);
    }

    /** When every profile is plain and the backend has sent every report, the network delivers exactly what
        the clients accept of every group it was informed of at the configuration, and of every group
        reported since. */
    lemma PlainProxiesInform(key: StreamKey)
      requires Valid() && AllPlain(Installed()) && AllSent(run)
      requires || Believed(run.views[0].heard, GroupOf(key)) == iset{}
               || exists i ::
                    0 <= i < |run.events| && Sends(run.events[i]) && GroupOf(run.events[i].key) == GroupOf(key)
      ensures Believed(heard, GroupOf(key)) == iset a | SomeoneAccepts(streams, key, a)
    {
      hide PolicyEngine.Engine.Valid, Coherent, Grounded, Assigned, Step, Faithful, SomeoneAccepts, Sends, AllPlain;
      forall i | 0 <= i < |run.events| ensures Faithful(run.views[i], run.events[i]) {
        PlainIsFaithful(Installed(), run.views[i], run.events[i], run.views[i + 1]);
      }
      if i :| 0 <= i < |run.events| && Sends(run.events[i]) && GroupOf(run.events[i].key) == GroupOf(key) {
        ReportInforms(Installed(), run.views[i], run.events[i], run.views[i + 1], key);
        NetworkIsInformed(key, i + 1);
      } else {
        SilentAtFirst(run.views[0], key);
        NetworkIsInformed(key, 0);
      }
    }

    /** A client removed by the delayed leave went through all of its last-member queries. */
    lemma DelayedLeave(key: PendingKey, n: nat) returns (start: nat)
      requires Valid() && key in history && n < |history[key]| && history[key][n].Removed?
      ensures start < n && history[key][start].Left? && n - start - 1 == history[key][start].robustness > 0
      ensures forall i :: start < i < n ==> history[key][i].Queried?
      ensures forall i :: start + 1 < i <= n ==>
                history[key][i].at >= history[key][i - 1].at + history[key][start].interval
      ensures history[key][n].at >=
                history[key][start].at + history[key][start].robustness * history[key][start].interval
    {
      hide PolicyEngine.Engine.Valid, PhaseAfter, Waiting, Mirrors, IsRun, Grounded, Assigned;
      start := RemovedOnlyAfterQueries(history[key], n);
    }

    /** Takes a client the engine has expired out of its stream; the engine has forgotten it already. */
    method DetachExpired(key: StreamKey, identity: Identity, profile: Profile, group: ActiveGroup) returns (ok: bool)
      requires Mirrors(backend.dynamic, streams, lost) && Bound(streams, bindings) && key in streams
      requires group.source == key.source && group.group == key.group && group.uniVLAN == key.vlan
      modifies `streams, `lost, backend`dynamic
      ensures ok ==> Mirrors(backend.dynamic, streams, lost) && Bound(streams, bindings) && lost <= old(lost)
      ensures ok ==> streams == WithoutClient(old(streams), key, identity)
    {
      hide PolicyEngine.Engine.Valid, Mirrors, Bound, Peopled, Filed, AllPeopled, WithoutClient, StandsFor;
      MirrorsPeople(backend.dynamic, streams, lost);
      PeopledAt(streams, key);
      DropClient(streams, key, identity);
      var clients := streams[key] - {identity};
      if |clients| == 0 {
        ok := Disable(key, profile, group);
        BoundDrop(streams, bindings, key);
        streams, lost := streams - {key}, lost - {key};
      } else {
        StillPeopled(key, streams[key], identity);
        BoundOver(streams, bindings, key, identity);
        var current, changed;
        current, changed, ok := Reprogram(key, profile, clients);
        streams := streams[key := clients];
      }
    }

    /** One entry the engine has expired: any client of its stream with that address goes. It fails only
        when the backend refuses. */
    method ExpireGroup(group: ActiveGroup, now: Time) returns (ok: bool, ghost identity: Identity)
      requires Valid() && engine.clock <= now && group.profileID in profiles
      requires InForce(bindings, ExpiredKey(bindings, group), group.profileID)
      modifies `memberships, `streams, `pending, `rates, `heard, `run, `lost, backend`dynamic
      ensures ok && old(AllSent(run)) ==> AllSent(run)
      ensures ok ==> Valid() && lost <= old(lost)
      ensures ok ==> streams == WithoutClient(old(streams), ExpiredKey(bindings, group), identity)
      ensures ok ==> pending == if ExpiredKey(bindings, group) in old(streams)
                                then old(pending) - {PendingKey(ExpiredKey(bindings, group), identity)}
                                else old(pending)
      ensures ok && ExpiredKey(bindings, group) in old(streams) ==>
                && Picks(old(streams)[ExpiredKey(bindings, group)], group.client, identity)
                && memberships == ForgetExpired(old(memberships), ExpiredKey(bindings, group), group)
      ensures ok && ExpiredKey(bindings, group) !in old(streams) ==> memberships == old(memberships)
    {
      hide AllSent, PolicyEngine.Engine.Valid, Coherent, WithoutClient, ForgetExpired, Grounded, Assigned, IsRun, Picks,
           InForce, Served;
      var key := ExpiredKey(bindings, group);
      ok, identity := true, Identity(NoAddr, 0);
      if key !in streams {
        NobodyLeaves(streams, key, identity);
        return;
      }
      ok, identity := ExpireClient(key, group, now);
    }

    /** The expired entry's client leaves its stream. */
    method ExpireClient(key: StreamKey, group: ActiveGroup, now: Time) returns (ok: bool, ghost identity: Identity)
      requires Valid() && group.profileID in profiles && key == ExpiredKey(bindings, group) && key in streams
      requires InForce(bindings, key, group.profileID)
      modifies `memberships, `streams, `pending, `rates, `heard, `run, `lost, backend`dynamic
      ensures ok && old(AllSent(run)) ==> AllSent(run)
      ensures ok ==> Valid() && lost <= old(lost)
      ensures ok ==> streams == WithoutClient(old(streams), key, identity)
      ensures ok ==> pending == old(pending) - {PendingKey(key, identity)}
      ensures ok ==>
                Picks(old(streams)[key], group.client, identity)
                && memberships == ForgetExpired(old(memberships), key, group)
    {
      hide AllSent, PolicyEngine.Engine.Valid, Mirrors, Bound, Scheduled, WithoutClient, AllPeopled, Peopled,
           ForgetExpired,
           Grounded, Knows, Assigned, IsRun, SomeoneAccepts, Asks, Picks, InForce, Served;
      MirrorsPeople(backend.dynamic, streams, lost);
      OwnSibling(streams, key);
      var previousUpstream, hadPreviousUpstream := EffectiveUpstreamGroup(streams, key);
      ghost var before := CurrentView();
      GroundedKnows(Installed(), pending, key, group.profileID);
      var profile := profiles[group.profileID];
      var found;
      found, ok := DetachAddressed(key, profile, group);
      identity := found;
      if !ok {
        return;
      }
      memberships := ForgetMemberships(memberships, key, group);
      ok := DepartClient(key, found, profile, group, true, previousUpstream, now, before);
    }

    /** Takes some client with the entry's address out of its stream, with its pending leave. */
    method DetachAddressed(key: StreamKey, profile: Profile, group: ActiveGroup) returns (found: Identity, ok: bool)
      requires Coherent(backend.dynamic, streams, lost, bindings, pending, history) && Grounded(Installed(), pending)
      requires key in streams && group.source == key.source && group.group == key.group && group.uniVLAN == key.vlan
      modifies `streams, `lost, `pending, backend`dynamic
      ensures ok ==>
                Coherent(backend.dynamic, streams, lost, bindings, pending, history) && Grounded(Installed(), pending)
      ensures ok ==> streams == WithoutClient(old(streams), key, found) && lost <= old(lost)
      ensures pending == old(pending) - {PendingKey(key, found)} && Picks(old(streams)[key], group.client, found)
    {
      hide PolicyEngine.Engine.Valid, Mirrors, Bound, Scheduled, WithoutClient, Grounded, Picks;
      found := FindClient(streams[key], group.client);
      DropPending(PendingKey(key, found));
      ok := DetachExpired(key, found, profile, group);
    }

    /** Expired previews, general queries, pending leaves and silent clients, in this order. A blocked leave
        makes this fail, now and, unless the backend refuses something, whenever it is called again: the
        leave is blocked still. */
    method Expire(now: Time) returns (ok: bool, ghost refused: bool)
      requires Valid() && engine.clock <= now
      modifies `memberships, `streams, `pending, `history, `queries, `rates, `heard, `run, `lost, engine,
               backend`dynamic
      ensures ok && old(AllSent(run)) ==> AllSent(run)
      ensures refused ==> !ok
      ensures !refused ==> Valid() && engine.clock == now
      ensures ok ==> PolicyEngine.NoneDue(engine.state, now) && lost <= old(lost)
      ensures ok ==> forall key :: key in pending ==> pending[key].next > now
      ensures ok ==> forall key, id :: Has(streams, key, id) ==> !Stale(key, id, now)
      ensures |queries| == |old(queries)|
      ensures ok ==>
                forall i :: 0 <= i < |queries| ==> queries[i] == Repeated(old(queries)[i], now) && queries[i].next > now
      ensures ok ==> forall key :: key in old(pending) && Has(old(streams), key.stream, key.identity) ==>
                LeaveAdvanced(old(CurrentLeaves()), CurrentLeaves(), key, now)
                || old(ExpiresWith(engine.state, bindings, key, now))
      ensures forall key :: old(IsBlocked(key, now) && OwnAddress(streams, key)) ==>
                !ok && (!refused ==> IsBlocked(key, now) && OwnAddress(streams, key))
    {
      hide AllSent, PolicyEngine.Engine.Valid, Coherent, IsRun, Grounded, WithoutClient, PolicyEngine.NoneDue,
           PolicyEngine.Shrunk,
           PolicyEngine.Swept, Silent, Repeated, Assigned, Blocked, OwnAddress, OtherThan, Untouched, ExpiresWith,
           LeaveAdvanced, Picks, PolicyEngine.FromEntry, InForce, Served;
      ok, refused := true, false;
      ghost var first, state := CurrentLeaves(), engine.state;
      AllUntouched(first);
      ghost var stuck := iset key | IsBlocked(key, now) && OwnAddress(streams, key);
      var groups := PolicyExpire(now, stuck);
      for i := 0 to |groups|
        invariant Valid() && engine.clock == now && ok && PolicyEngine.NoneDue(engine.state, now)
        invariant old(AllSent(run)) ==> AllSent(run)
        invariant queries == old(queries) && lost <= old(lost) && bindings == old(bindings)
        invariant AllStuck(stuck, now) && forall k :: 0 <= k < |groups| ==> OtherThan(stuck, bindings, groups[k])
        invariant forall k :: 0 <= k < |groups| ==>
                    InForce(bindings, ExpiredKey(bindings, groups[k]), groups[k].profileID)
        invariant forall key :: Untouched(first, CurrentLeaves(), key) || ExpiresWith(state, bindings, key, now)
      {
        ghost var identity;
        ghost var before := CurrentLeaves();
        ok, identity := ExpireGroup(groups[i], now);
        if !ok {
          refused := true;
          return;
        }
        StuckSurvive(stuck, before.streams, before.pending, groups[i], identity, now);
        ghost var owner :| PolicyEngine.FromEntry(state, owner, groups[i], now);
        ExpiryTouches(first, before, CurrentLeaves(), state, bindings, groups[i], owner, identity, now);
      }
      ok := RunGeneralQueriesLocked(now);
      if !ok {
        refused := true;
        return;
      }
      ghost var middle := CurrentLeaves();
      ok, refused := AdvanceTimers(now, stuck);
      if ok {
        forall key |
          key in first.pending && Has(first.streams, key.stream, key.identity) && Untouched(first, middle, key)
          ensures LeaveAdvanced(first, CurrentLeaves(), key, now)
        {
          UntouchedIsThere(first, middle, key);
          UntouchedThenAdvanced(first, middle, CurrentLeaves(), key, now);
        }
      }
    }

    /** The leaves that are blocked. */
    ghost predicate AllStuck(stuck: iset<PendingKey>, now: Time)
      reads this, engine
    {
      forall key :: key in stuck ==> IsBlocked(key, now) && OwnAddress(streams, key)
    }

    lemma StuckSurvive(stuck: iset<PendingKey>, before: Streams, waiting: PendingLeaves, group: ActiveGroup,
                       id: Identity, now: Time)
      requires forall key :: key in stuck ==>
                Blocked(before, waiting, engine.state, key, now) && OwnAddress(before, key)
      requires OtherThan(stuck, bindings, group)
      requires var other := ExpiredKey(bindings, group);
        && (other in before ==> Picks(before[other], group.client, id))
        && streams == WithoutClient(before, other, id)
        && pending == if other in before then waiting - {PendingKey(other, id)} else waiting
      ensures AllStuck(stuck, now)
    {
      hide Blocked, OwnAddress, WithoutClient, Picks;
      forall key | key in stuck ensures IsBlocked(key, now) && OwnAddress(streams, key) {
        BlockedSurvives(before, waiting, engine.state, key, now, ExpiredKey(bindings, group), id, group.client);
      }
    }

    /** The last two stages of expiry. */
    method AdvanceTimers(now: Time, ghost stuck: iset<PendingKey>) returns (ok: bool, ghost refused: bool)
      requires Valid() && engine.clock == now && PolicyEngine.NoneDue(engine.state, now) && AllStuck(stuck, now)
      modifies `streams, `pending, `history, `rates, `heard, `run, `lost, engine, backend`dynamic
      ensures ok && old(AllSent(run)) ==> AllSent(run)
      ensures refused ==> !ok
      ensures !refused ==> Valid() && engine.clock == now
      ensures ok ==> PolicyEngine.NoneDue(engine.state, now) && lost <= old(lost)
      ensures ok ==> forall key :: key in pending ==> pending[key].next > now
      ensures ok ==> forall key, id :: Has(streams, key, id) ==> !Stale(key, id, now)
      ensures ok ==> forall key :: key in old(pending) && Has(old(streams), key.stream, key.identity) ==>
                LeaveAdvanced(old(CurrentLeaves()), CurrentLeaves(), key, now)
      ensures stuck != iset{} ==> !ok && (!refused ==> AllStuck(stuck, now))
    {
      hide AllSent, PolicyEngine.Engine.Valid, Coherent, IsRun, Grounded, WithoutClient, PolicyEngine.NoneDue,
           PolicyEngine.Shrunk,
           Silent, Assigned, Blocked, OwnAddress, SameClient, LeaveAdvanced;
      ghost var state, before := engine.state, CurrentLeaves();
      ok, refused := RunPendingLeavesLocked(now);
      if !ok {
        SameAddresses(before.streams, stuck);
        return;
      }
      ghost var middle := CurrentLeaves();
      PolicyEngine.ShrunkKeepsNoneDue(state, engine.state, now);
      ghost var between := engine.state;
      ok, refused := ExpireProxyMembershipsLocked(now);
      PolicyEngine.ShrunkKeepsNoneDue(between, engine.state, now);
      if ok {
        forall key | key in before.pending && Has(before.streams, key.stream, key.identity)
          ensures LeaveAdvanced(before, CurrentLeaves(), key, now)
        {
          AdvancedStays(before, middle, CurrentLeaves(), profiles, robustness, key, now);
        }
      }
    }

    lemma SameAddresses(before: Streams, stuck: iset<PendingKey>)
      ensures forall key :: key in stuck && OwnAddress(before, key) && SameClient(before, streams, key) ==>
                OwnAddress(streams, key)
    {}

    /** The engine's expired entries, of all subscribers in any order. */
    method PolicyExpire(now: Time, ghost stuck: iset<PendingKey>) returns (groups: seq<ActiveGroup>)
      requires engine.Valid() && engine.clock <= now && Assigned(engine.state, bindings) && AllStuck(stuck, now)
      requires Served(bindings, engine.subscribers)
      modifies engine
      ensures engine.Valid() && engine.clock == now && PolicyEngine.NoneDue(engine.state, now)
      ensures engine.state == PolicyEngine.Swept(old(engine.state), now)
      ensures Assigned(engine.state, bindings) && AllStuck(stuck, now)
      ensures forall i :: 0 <= i < |groups| ==>
                groups[i].profileID in engine.profiles && OtherThan(stuck, bindings, groups[i])
      ensures forall i :: 0 <= i < |groups| ==>
                InForce(bindings, ExpiredKey(bindings, groups[i]), groups[i].profileID)
      ensures forall i :: 0 <= i < |groups| ==> FromSome(old(engine.state), groups[i], now)
    {
      hide PolicyEngine.SweepListed, PolicyEngine.Swept, PolicyEngine.NoneDue, PolicyEngine.Safe,
           PolicyEngine.Remembered, PolicyEngine.Shrunk, PolicyEngine.FromEntry, PolicyEngine.Rules, Assigned, Blocked,
           OwnAddress, OtherThan, InForce, Served;
      ghost var before := engine.state;
      var expired := engine.ExpireLocked(now);
      PolicyEngine.SweptIsShrunk(before, now);
      AssignedShrinks(before, engine.state, bindings);
      groups := [];
      var rest := expired.Keys;
      while rest != {}
        invariant engine.Valid() && engine.clock == now && PolicyEngine.NoneDue(engine.state, now)
        invariant engine.state == PolicyEngine.Swept(before, now)
        invariant rest <= expired.Keys
        invariant forall i :: 0 <= i < |groups| ==>
                    groups[i].profileID in engine.profiles && OtherThan(stuck, bindings, groups[i])
        invariant forall i :: 0 <= i < |groups| ==>
                    InForce(bindings, ExpiredKey(bindings, groups[i]), groups[i].profileID)
        invariant forall i :: 0 <= i < |groups| ==> FromSome(before, groups[i], now)
        decreases |rest|
      {
        var id :| id in rest;
        PolicyEngine.ExpiredAreFiled(engine.profiles, engine.subscribers, before, expired, now, id);
        PolicyEngine.ExpiredIsEntry(engine.subscribers, before, expired, now, id);
        ExpiredAreOthers(before, stuck, expired[id], id, now);
        ExpiredAreInForce(before, expired[id], id, now);
        assert forall i :: 0 <= i < |expired[id]| ==> FromSome(before, expired[id][i], now);
        groups := groups + expired[id];
        rest := rest - {id};
      }
      StuckStay(stuck, before, now);
    }

    lemma ExpiredAreOthers(state: map<nat, PolicyEngine.SubscriberState>, stuck: iset<PendingKey>,
                           groups: seq<ActiveGroup>, id: nat,
                           now: Time)
      requires forall key :: key in stuck ==> Blocked(streams, pending, state, key, now) && OwnAddress(streams, key)
      requires Assigned(state, bindings) && forall i :: 0 <= i < |groups| ==>
                PolicyEngine.FromEntry(state, id, groups[i], now)
      ensures forall i :: 0 <= i < |groups| ==> OtherThan(stuck, bindings, groups[i])
    {
      hide Blocked, OwnAddress, Assigned, PolicyEngine.FromEntry;
      forall i, key | 0 <= i < |groups| && key in stuck
        ensures !(ExpiredKey(bindings, groups[i]) == key.stream && groups[i].client == key.identity.address)
      {
        ExpiredIsAnother(streams, pending, state, bindings, key, now, id, groups[i]);
      }
    }

    lemma ExpiredAreInForce(state: map<nat, PolicyEngine.SubscriberState>, groups: seq<ActiveGroup>, id: nat, now: Time)
      requires Served(bindings, engine.subscribers) && Assigned(state, bindings)
      requires forall i :: 0 <= i < |groups| ==>
                PolicyEngine.FromEntry(state, id, groups[i], now)
                && PolicyEngine.Rules(engine.profiles, engine.subscribers, id, groups[i].uniVLAN, groups[i].profileID)
      ensures forall i :: 0 <= i < |groups| ==>
                && groups[i].profileID in engine.profiles
                && InForce(bindings, ExpiredKey(bindings, groups[i]), groups[i].profileID)
    {
      hide PolicyEngine.FromEntry, PolicyEngine.Rules, Served, Assigned, InForce;
      forall i | 0 <= i < |groups|
        ensures groups[i].profileID in engine.profiles
                && InForce(bindings, ExpiredKey(bindings, groups[i]), groups[i].profileID)
      {
        ExpiredInForce(engine.profiles, bindings, engine.subscribers, state, id, groups[i], now);
      }
    }

    lemma StuckStay(stuck: iset<PendingKey>, before: map<nat, PolicyEngine.SubscriberState>, now: Time)
      requires forall key :: key in stuck ==> Blocked(streams, pending, before, key, now) && OwnAddress(streams, key)
      requires PolicyEngine.Shrunk(before, engine.state)
      ensures AllStuck(stuck, now)
    {
      hide Blocked, OwnAddress, PolicyEngine.Shrunk;
      forall key | key in stuck ensures IsBlocked(key, now) {
        StaysBlocked(CurrentLeaves(), CurrentLeaves(), before, engine.state, key, now);
      }
    }

    // ---------- clients the engine no longer knows ----------

    /** Two clients with one address are two clients of a stream but one entry of the engine. The first
        takes the entry with it when it leaves, so the second stays behind without one. */
    method TwinLosesEntry(key: ClientGroupKey, mac: nat, source: Addr, excluded: seq<Addr>, tags: seq<VLANTag>,
                          now: Time)
      returns (accepted: bool, ok: bool)
      requires Valid() && engine.clock <= now && mac != key.mac && key.client.IsValid()
      requires key.interfaceName in bindings && bindings[key.interfaceName].entityID == key.subscriberID
      requires StreamKeyOf(key, source) !in streams
      modifies `streams, `pending, `history, `rates, `heard, `run, `lost, engine, backend`dynamic
      ensures ok && accepted ==>
                var left := PendingKey(StreamKeyOf(key, source), IdentityOf(key.(mac := mac)));
                && Valid() && engine.clock == now && WithoutEntry(streams, engine.state, left)
                && streams[left.stream].Keys == {left.identity}
                && streams[left.stream][left.identity].group.profileID in profiles
    {
      hide PolicyEngine.Engine.Valid, Coherent, IsRun, Grounded, Assigned, WithClient, WithoutClient, PolicyAnswers,
           PolicyEngine.HoldsEntry, PolicyEngine.Grown, PolicyEngine.Swept, PolicyEngine.NoneDue, PolicyEngine.Shrunk;
      var twin := key.(mac := mac);
      ghost var before, first := streams, engine.state;
      ghost var granted, decision, refused;
      accepted, ok, granted, refused := AddLocked(key, source, excluded, tags, now);
      if !ok || !accepted {
        return;
      }
      ghost var second := engine.state;
      var again;
      again, ok, decision, refused := AddLocked(twin, source, excluded, tags, now);
      if !ok {
        return;
      }
      RejoinIsAccepted(engine.subscribers, first, second, engine.state, SourceRequest(key, source), now, granted,
                       decision);
      ghost var c1 := Client(Granted(SourceRequest(key, source), granted, excluded), tags, now);
      ghost var c2 := Client(Granted(SourceRequest(key, source), decision, excluded), tags, now);
      TwoTwins(before, StreamKeyOf(key, source), IdentityOf(key), c1, IdentityOf(twin), c2);
      assert SourceRequestOf(StreamKeyOf(key, source), c1.group) == SourceRequestOf(StreamKeyOf(key, source), c2.group);
      assert c2.group.client == key.client && Filed(StreamKeyOf(key, source), c2);
      ok, refused := RemoveLocked(key, source, tags, now);
    }

    /** A last client without an entry cannot leave. With immediate leave its rule is deleted and the leave
        fails; otherwise its queries run out and its leave is blocked, unless another leave is blocked before
        that. */
    method OrphanCannotLeave(key: ClientGroupKey, source: Addr, tags: seq<VLANTag>, now: Time)
      returns (failed: bool, reached: bool, at: Time, ghost refused: bool)
      requires Valid() && engine.clock <= now
      requires key.interfaceName in bindings && bindings[key.interfaceName].entityID == key.subscriberID
      requires var left := PendingKey(StreamKeyOf(key, source), IdentityOf(key));
        && WithoutEntry(streams, engine.state, left) && streams[left.stream].Keys == {left.identity}
        && streams[left.stream][left.identity].group.profileID in profiles
      modifies `streams, `pending, `history, `rates, `heard, `run, `lost, engine, backend`dynamic
      ensures !refused ==> Valid() && engine.clock <= at && now <= at
      ensures !refused ==>
                var profileID := old(streams)[StreamKeyOf(key, source)][IdentityOf(key)].group.profileID;
                failed <==> profiles[profileID].immediateLeave
      ensures !refused && (failed || reached) ==>
                WithoutEntry(streams, engine.state, PendingKey(StreamKeyOf(key, source), IdentityOf(key)))
      ensures !refused && failed ==> StreamKeyOf(key, source) !in backend.dynamic
      ensures !refused && !failed && reached ==> IsBlocked(PendingKey(StreamKeyOf(key, source), IdentityOf(key)), at)
      ensures !refused && !failed ==> exists stuck :: IsBlocked(stuck, at)
    {
      hide PolicyEngine.Engine.Valid, Coherent, IsRun, Grounded, Assigned, WithoutClient, PolicyEngine.HoldsEntry,
           PolicyEngine.Shrunk, Advanced, OwnAddress;
      var left := PendingKey(StreamKeyOf(key, source), IdentityOf(key));
      OwnIsPresent(streams, left);
      OnlyClient(streams[left.stream], left.identity);
      failed, reached, at := false, false, now;
      var ok;
      ok, refused := RemoveLocked(key, source, tags, now);
      if !ok {
        failed := true;
        return;
      }
      while pending[left].remaining != 0
        invariant Valid() && engine.clock <= at && left in pending && WithoutEntry(streams, engine.state, left)
        invariant now <= at
        decreases pending[left].remaining
      {
        at := if at < pending[left].next then pending[left].next else at;
        ghost var before, state := CurrentLeaves(), engine.state;
        OwnIsPresent(streams, left);
        ok, refused := RunPendingLeavesLocked(at);
        if !ok {
          return;
        }
        QueriedOnce(before, CurrentLeaves(), left, at);
        KeepsWithoutEntry(before.streams, streams, state, engine.state, left);
      }
      at := if at < pending[left].next then pending[left].next else at;
      OwnIsPresent(streams, left);
      reached := true;
      assert IsBlocked(left, at);
    }

    /** Two clients with one address join one stream, and the first leaves: the second cannot. */
    method SecondClientCannotLeave(key: ClientGroupKey, mac: nat, source: Addr, excluded: seq<Addr>, tags: seq<VLANTag>,
                                   now: Time)
      returns (joined: bool, failed: bool, at: Time, ghost refused: bool)
      requires Valid() && engine.clock <= now && mac != key.mac && key.client.IsValid()
      requires key.interfaceName in bindings && bindings[key.interfaceName].entityID == key.subscriberID
      requires StreamKeyOf(key, source) !in streams
      modifies `streams, `pending, `history, `rates, `heard, `run, `lost, engine, backend`dynamic
      ensures joined && !refused ==>
                && Valid() && engine.clock <= at && now <= at
                && if failed then StreamKeyOf(key, source) !in backend.dynamic
                   else exists stuck :: IsBlocked(stuck, at)
    {
      hide PolicyEngine.Engine.Valid, Coherent, IsRun, Grounded, Assigned, PolicyEngine.HoldsEntry, OwnAddress;
      failed, at, refused := false, now, false;
      var accepted, ok := TwinLosesEntry(key, mac, source, excluded, tags, now);
      joined := ok && accepted;
      if joined {
        var reached;
        failed, reached, at, refused := OrphanCannotLeave(key.(mac := mac), source, tags, now);
      }
    }

    /** A preview whose deadline has passed loses its entry when anyone joins first: the join sweeps the
        engine and forgets what it has swept, so that the client stays in its stream. */
    method ExpiryGoesUnnoticed(left: PendingKey, key: ClientGroupKey, source: Addr, excluded: seq<Addr>,
                               tags: seq<VLANTag>,
                               now: Time)
      returns (ok: bool)
      requires Valid() && engine.clock <= now && OwnAddress(streams, left)
      requires OverdueEntry(streams, engine.state, left, now)
      requires key.interfaceName in bindings && bindings[key.interfaceName].entityID == key.subscriberID
      requires StreamKeyOf(key, source) != left.stream
      modifies `streams, `pending, `history, `rates, `heard, `run, `lost, engine, backend`dynamic
      ensures ok ==> Valid() && engine.clock == now && WithoutEntry(streams, engine.state, left)
      ensures ok ==> streams[left.stream] == old(streams)[left.stream]
    {
      hide PolicyEngine.Engine.Valid, Coherent, IsRun, Grounded, Assigned, PolicyAnswers, Filed,
           PolicyEngine.HoldsEntry,
           PolicyEngine.Grown, PolicyEngine.Swept, PolicyEngine.NoneDue, OverdueEntry, Entered;
      ghost var before, state := streams, engine.state;
      ghost var decision, refused;
      var accepted;
      accepted, ok, decision, refused := AddLocked(key, source, excluded, tags, now);
      if ok {
        SweptAway(before, state, engine.state, left, SourceRequest(key, source), now);
        assert streams[left.stream] == before[left.stream];
      }
    }

    // ---------- configuration ----------

    /** Compiles a configuration and builds its engine, without touching the live one. */
    method Prepare(wanted: Config, now: Time)
      returns (ok: bool, newProfiles: map<nat, Profile>, newBindings: map<string, Subscriber>,
               newEngine: PolicyEngine.Engine)
      requires engine.Valid()
      ensures ok ==>
                fresh(newEngine) && newEngine.Valid() && newEngine.clock == now && newEngine.profiles == newProfiles
      ensures ok ==> newEngine.state == map[] && newEngine.previews == map[] && newEngine.attempts == map[]
      ensures ok ==> WellNamed(newProfiles) && Versioned(newProfiles)
      ensures ok ==> ValidConfig(wanted) && Binds(newBindings, wanted.subscribers)
      ensures ok ==> Implements(newProfiles, newEngine.subscribers, wanted)
      ensures ok ==> Served(newBindings, newEngine.subscribers)
    {
      hide Ready, WellNamed, PolicyMatch.Compiled, Admission.UniquePackages, PreserveExpiries,
           PolicyEngine.Safe, PolicyEngine.Remembered, ValidConfig, Versioned, Implements, Numbers, Served, Binds;
      var compiled;
      newEngine, newBindings := engine, map[];
      ok, newProfiles, compiled := Compile(wanted, now);
      if !ok {
        return;
      }
      ok, newBindings := Bind(wanted.subscribers);
      if !ok {
        return;
      }
      PreserveKeepsReady(compiled, newProfiles, engine.subscribers, engine.profiles);
      CompiledVersions(wanted, newProfiles);
      CompiledImplements(wanted, newProfiles, compiled, engine.subscribers);
      var next := PreserveExpiries(compiled, engine.subscribers);
      ReadyParts(next, newProfiles);
      BoundAreServed(newBindings, next, newProfiles, wanted);
      newEngine := new PolicyEngine.Engine(newProfiles, next, now);
    }

    /** Replaces the policy, or leaves everything as it was. The backend is asked last, so that a policy
        that cannot be installed does not discard the live state. The control and static tables are the
        backend's own reading of the configuration, and the queriers are its proxies. Clients are forgotten
        without a report: what the network has heard stays. */
    method Configure(wanted: Config, control: Tables, static_: Tables, queriers: seq<GeneralQuery>, now: Time)
      returns (ok: bool)
      requires Valid() && engine.clock <= now
      modifies this, backend
      ensures Valid()
      ensures ok && Some(wanted) != old(config) ==>
                && config == Some(wanted) && Binds(bindings, wanted.subscribers)
                && Forgotten() && backend.dynamic == map[]
                && queries == Started(queriers, now)
                && fresh(engine) && engine.clock == now && engine.state == map[] && engine.profiles == profiles
                && engine.previews == map[] && engine.attempts == map[]
                && ValidConfig(wanted) && Implements(profiles, engine.subscribers, wanted)
                && backend.control == control && backend.static_ == static_
      ensures heard == old(heard)
      ensures ok && Some(wanted) != old(config) ==>
                forall key :: old(Informed(CurrentView(), key)) ==>
                  (Informed(CurrentView(), key) <==> !old(Alive(streams, key)))
      ensures !ok || Some(wanted) == old(config) ==>
                && config == old(config) && engine == old(engine) && profiles == old(profiles)
                && engine.previews == old(engine.previews) && engine.attempts == old(engine.attempts)
                && bindings == old(bindings) && memberships == old(memberships) && streams == old(streams)
                && pending == old(pending) && robustness == old(robustness) && queries == old(queries)
                && rates == old(rates) && run == old(run) && lost == old(lost) && history == old(history)
                && backend.dynamic == old(backend.dynamic)
                && backend.control == old(backend.control) && backend.static_ == old(backend.static_)
    {
      hide PolicyEngine.Engine.Valid, Coherent, IsRun, Binds, Started, Grounded, WellNamed, Versioned, Assigned,
           Implements, ValidConfig, Served, Informed, Alive;
      PeopledNow();
      ghost var before := CurrentView();
      if Some(wanted) == config {
        return true;
      }
      var newProfiles, newBindings, newEngine;
      ok, newProfiles, newBindings, newEngine := Prepare(wanted, now);
      if !ok {
        return;
      }
      ok := backend.Configure(control, static_);
      if !ok {
        return;
      }
      Install(wanted, newProfiles, newBindings, newEngine, queriers, now);
      forall key | Informed(before, key) ensures Informed(CurrentView(), key) <==> !Alive(before.streams, key) {
        InformedNetwork.ReconfigurationMisleads(before, key);
      }
    }

    /** An accepted configuration forgets the previews that have been started. The next preview starts at
        once, which keeps the pacing exactly when the earlier starts of its window would have allowed it. */
    method PreviewsRestart(wanted: Config, control: Tables, static_: Tables, queriers: seq<GeneralQuery>, now: Time,
                           ghost key: PolicyEngine.PreviewKey)
      returns (ok: bool, ghost acl: ACLEntry)
      requires Valid() && engine.clock <= now && key in engine.attempts
      modifies this, backend
      ensures Valid() && old(key.profile in profiles)
      ensures old(PolicyMatch.FirstMatch(profiles[key.profile].dynamicACL, key.source, key.group)) == Some(acl)
      ensures ok && Some(wanted) != old(config) && acl.previewRepeatCount < 0x1_0000 ==>
                forall at :: at >= now ==> Restarted(acl, old(engine.attempts[key]), engine.attempts, key, at)
      ensures !ok || Some(wanted) == old(config) ==>
                engine == old(engine) && engine.attempts == old(engine.attempts)
    {
      hide PolicyEngine.Engine.Valid, Coherent, IsRun, Binds, Started, Grounded, Assigned, Implements, ValidConfig,
           Served, Informed, Alive, Restarted;
      acl := engine.PreviewsArePaced(key, 0);
      engine.AttemptsAreClocked(key);
      ghost var made := engine.attempts[key];
      ok := Configure(wanted, control, static_, queriers, now);
      if ok && engine.attempts == map[] && acl.previewRepeatCount < 0x1_0000 {
        forall at | at >= now ensures Restarted(acl, made, engine.attempts, key, at) {
          RestartsAt(acl, made, engine.attempts, key, at);
        }
      }
    }

    lemma BoundAreServed(newBindings: map<string, Subscriber>, subscribers: map<nat, PolicyMatch.CompiledSubscriber>,
                         newProfiles: map<nat, Profile>, wanted: Config)
      requires Binds(newBindings, wanted.subscribers) && Implements(newProfiles, subscribers, wanted)
      ensures Served(newBindings, subscribers)
    {}

    ghost predicate Forgotten()
      reads this
    {
      && memberships == map[] && streams == map[] && pending == map[] && robustness == map[] && rates == map[]
      && history == map[] && lost == {} && run == Run([View(map[], heard, map[])], [])
    }

    method Forget()
      modifies `memberships, `streams, `pending, `robustness, `rates, `history, `run, `lost
      ensures Forgotten()
    {
      memberships, streams, pending, robustness, rates := map[], map[], map[], map[], map[];
      history, run, lost := map[], Run([View(map[], heard, map[])], []), {};
    }

    /** Every client, timer and counter of the previous configuration is forgotten. */
    method Install(wanted: Config, newProfiles: map<nat, Profile>, newBindings: map<string, Subscriber>,
                   newEngine: PolicyEngine.Engine, queriers: seq<GeneralQuery>, now: Time)
      requires newEngine.Valid() && newEngine.profiles == newProfiles && newEngine.state == map[]
      requires backend.dynamic == map[]
      requires WellNamed(newProfiles) && Versioned(newProfiles) && Served(newBindings, newEngine.subscribers)
      modifies this
      ensures Valid() && Forgotten() && heard == old(heard) && profiles == newProfiles
      ensures config == Some(wanted) && bindings == newBindings && engine == newEngine
      ensures queries == Started(queriers, now)
    {
      hide PolicyEngine.Engine.Valid, Coherent, IsRun, Started, Grounded, WellNamed, Versioned, Served;
      Forget();
      config, engine, profiles, bindings := Some(wanted), newEngine, newProfiles, newBindings;
      queries := Started(queriers, now);
      NothingCoherent(bindings);
      RunStarts(Installed(), heard);
      GroundedNew(Installed());
    }

    static ghost predicate Binds(result: map<string, Subscriber>, list: seq<Subscriber>) {
      && (forall name :: name in result ==> result[name] in list && name in result[name].interfaces)
      && (forall s, name :: s in list && name in s.interfaces ==> name in result && result[name] == s)
    }

    /** Every interface belongs to one subscriber. */
    method Bind(list: seq<Subscriber>) returns (ok: bool, result: map<string, Subscriber>)
      ensures ok ==> Binds(result, list)
    {
      result := map[];
      for i := 0 to |list|
        invariant forall name :: name in result ==> result[name] in list && name in result[name].interfaces
        invariant forall k, name :: 0 <= k < i && name in list[k].interfaces ==>
                  name in result && result[name] == list[k]
      {
        if |list[i].interfaces| == 0 {
          return false, map[];
        }
        ok, result := BindInterfaces(list[i], result, list);
        if !ok {
          return false, map[];
        }
      }
      ok := true;
    }

    method BindInterfaces(subscriber: Subscriber, before: map<string, Subscriber>, ghost list: seq<Subscriber>)
      returns (ok: bool, result: map<string, Subscriber>)
      requires subscriber in list
      requires forall name :: name in before ==> before[name] in list && name in before[name].interfaces
      ensures ok ==> forall name :: name in before ==> name in result && result[name] == before[name]
      ensures ok ==> forall name :: name in subscriber.interfaces ==> name in result && result[name] == subscriber
      ensures ok ==> forall name :: name in result ==> result[name] in list && name in result[name].interfaces
    {
      result := before;
      var names := subscriber.interfaces;
      for i := 0 to |names|
        invariant forall name :: name in before ==> name in result && result[name] == before[name]
        invariant forall k :: 0 <= k < i ==> names[k] in result && result[names[k]] == subscriber
        invariant forall name :: name in result ==> result[name] in list && name in result[name].interfaces
      {
        if names[i] == "" || names[i] in result {
          return false, map[];
        }
        result := result[names[i] := subscriber];
      }
      ok := true;
    }
  }
}
