/** The table of downstream filter rules (internal/multicast/linux_backend.go). Installing a table with
    the operating system's filter commands is one step that succeeds or fails. */
module FilterBackend {
  import opened Sequences
  import opened MulticastTypes
  import opened StreamTable

  datatype Rule = Rule(interfaceName: string, aniVLAN: nat, gemPortID: nat, uniVLAN: VLAN, source: Addr,
                       excluded: seq<Addr>, start: Addr, stop: Addr, profileID: nat)

  type Tables = map<string, seq<Rule>>

  class Backend {
    var control: Tables
    var static_: Tables
    var dynamic: map<StreamKey, Rule>

    constructor ()
      ensures control == map[] && static_ == map[] && dynamic == map[]
    {
      control, static_, dynamic := map[], map[], map[];
    }

    /** rebuildLocked: reinstalls every rule of one interface; the commands may fail. */
    method Rebuild(interfaceName: string) returns (ok: bool) {
      ok := *;
    }

    /** Adds, replaces or deletes the rule of one stream; a failed rebuild takes the change back. */
    method SetReplication(enable: bool, subscriberID: nat, interfaceName: string, profileID: nat, group: ActiveGroup)
      returns (ok: bool)
      modifies `dynamic
      ensures var key := StreamKey(subscriberID, interfaceName, group.source, group.group, group.uniVLAN);
        dynamic ==
        if !ok then old(dynamic)
        else if enable then old(dynamic)[key := RuleFor(interfaceName, profileID, group)]
        else old(dynamic) - {key}
    {
      var key := StreamKey(subscriberID, interfaceName, group.source, group.group, group.uniVLAN);
      var existed := key in dynamic;
      var previous := if existed then Some(dynamic[key]) else None;
      ghost var before := dynamic;
      if enable {
        dynamic := dynamic[key := RuleFor(interfaceName, profileID, group)];
      } else {
        dynamic := dynamic - {key};
      }
      ok := Rebuild(interfaceName);
      if !ok {
        if existed {
          dynamic := dynamic[key := previous.value];
        } else {
          dynamic := dynamic - {key};
        }
        assert dynamic == before;
        var _ := Rebuild(interfaceName);
      }
    }

    /** Replaces the control and static tables and drops every dynamic rule, or leaves all three alone. */
    method Configure(candidateControl: Tables, candidate: Tables) returns (ok: bool)
      modifies this
      ensures ok ==> control == candidateControl && static_ == candidate && dynamic == map[]
      ensures !ok ==> control == old(control) && static_ == old(static_) && dynamic == old(dynamic)
    {
      var interfaces := control.Keys + static_.Keys + candidate.Keys + candidateControl.Keys;
      var previousControl, previousStatic, previousDynamic := control, static_, dynamic;
      control, static_, dynamic := candidateControl, candidate, map[];
      ok := RebuildEach(interfaces);
      if !ok {
        control, static_, dynamic := previousControl, previousStatic, previousDynamic;
        RebuildAll(interfaces);
      }
    }

    /** Stops at the first interface that cannot be rebuilt. */
    method RebuildEach(interfaces: set<string>) returns (ok: bool) {
      ok := true;
      var rest := interfaces;
      while rest != {} && ok
        decreases |rest|
      {
        var interfaceName :| interfaceName in rest;
        rest := rest - {interfaceName};
        ok := Rebuild(interfaceName);
      }
    }

    /** Rollback reinstalls what it can. */
    method RebuildAll(interfaces: set<string>) {
      var rest := interfaces;
      while rest != {}
        decreases |rest|
      {
        var interfaceName :| interfaceName in rest;
        rest := rest - {interfaceName};
        var _ := Rebuild(interfaceName);
      }
    }
  }

  function RuleFor(interfaceName: string, profileID: nat, group: ActiveGroup): Rule {
    Rule(interfaceName, group.aniVLAN, group.gemPortID, group.uniVLAN, group.source, group.excludedSources,
         group.group, group.group, profileID)
  }

  // ---------- the table mirrors the streams ----------

  /** One rule per stream, none besides, each carrying the exclusions common to all clients. Only the lost
      streams have clients but no rule. */
  ghost predicate Mirrors(dynamic: map<StreamKey, Rule>, streams: Streams, lost: set<StreamKey>) {
    && lost <= streams.Keys && dynamic.Keys == streams.Keys - lost
    && AllPeopled(streams)
    && forall key :: key in dynamic ==> Reflects(dynamic[key], key, streams[key])
  }

  ghost predicate Reflects(rule: Rule, key: StreamKey, clients: Clients) {
    && rule.interfaceName == key.interfaceName && rule.uniVLAN == key.vlan && rule.source == key.source
    && rule.start == rule.stop == key.group
    && SourceLists.Lists(rule.excluded, Exclusions(key.source, clients))
  }

  lemma StandsForKey(result: ActiveGroup, key: StreamKey, clients: Clients)
    requires Peopled(key, clients) && StandsFor(result, key, clients)
    ensures StreamKey(key.subscriberID, key.interfaceName, result.source, result.group, result.uniVLAN) == key
    ensures forall profileID :: Reflects(RuleFor(key.interfaceName, profileID, result), key, clients)
  {
    hide Exclusions;
    var id :| id in clients && result == clients[id].group.(excludedSources := result.excludedSources);
    assert Filed(key, clients[id]);
  }

  lemma MirrorProgrammed(dynamic: map<StreamKey, Rule>, streams: Streams, lost: set<StreamKey>, key: StreamKey,
                         clients: Clients, rule: Rule)
    requires Mirrors(dynamic, streams, lost) && Peopled(key, clients) && Reflects(rule, key, clients)
    ensures Mirrors(dynamic[key := rule], streams[key := clients], lost - {key})
  {
    hide Peopled, Reflects;
  }

  /** Equal exclusion lists before and after mean the old rule still reflects the stream. */
  lemma MirrorUnchanged(dynamic: map<StreamKey, Rule>, streams: Streams, lost: set<StreamKey>, key: StreamKey,
                        clients: Clients, previous: ActiveGroup, current: ActiveGroup)
    requires Mirrors(dynamic, streams, lost) && key in streams && Peopled(key, clients)
    requires StandsFor(previous, key, streams[key]) && StandsFor(current, key, clients)
    requires previous.excludedSources == current.excludedSources
    ensures Mirrors(dynamic, streams[key := clients], lost)
  {
    hide Peopled;
    assert key in dynamic ==> Reflects(dynamic[key], key, clients) by {
      hide Exclusions;
      assert key in dynamic ==> Reflects(dynamic[key], key, streams[key]);
      assert forall a :: a in Exclusions(key.source, clients) <==> a in Exclusions(key.source, streams[key]) by {
        assert forall a :: a in current.excludedSources <==> a in Exclusions(key.source, clients);
      }
    }
    hide Reflects;
  }

  lemma MirrorDropped(dynamic: map<StreamKey, Rule>, streams: Streams, lost: set<StreamKey>, key: StreamKey)
    requires Mirrors(dynamic, streams, lost)
    ensures Mirrors(dynamic - {key}, streams - {key}, lost - {key})
  {
    hide Peopled, Reflects;
  }

  /** A stream that keeps its clients when its rule is deleted is lost. */
  lemma MirrorLost(dynamic: map<StreamKey, Rule>, streams: Streams, lost: set<StreamKey>, key: StreamKey)
    requires Mirrors(dynamic, streams, lost) && key in streams
    ensures Mirrors(dynamic - {key}, streams, lost + {key})
  {
    hide Peopled, Reflects;
  }
}
