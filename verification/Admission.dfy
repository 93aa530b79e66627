/** The streams a subscriber receives and the limits on them (activeBandwidth, activeStreamCount,
    exceedsBandwidth and their use in Engine.Join of internal/multicast/policy.go). */
module Admission {
  import opened Clock
  import opened Sequences
  import opened MulticastTypes

  datatype ActiveKey = ActiveKey(interfaceName: string, source: Addr, group: Addr, vlan: VLAN, client: Addr)

  datatype StreamKey = StreamKey(interfaceName: string, source: Addr, group: Addr, vlan: VLAN)

  datatype Active = Active(group: ActiveGroup, joinedAt: Time, reason: Reason, package: Option<nat>)

  type Groups = map<ActiveKey, Active>

  function KeyOf(request: Join): ActiveKey {
    ActiveKey(request.interfaceName, request.source, request.group, request.uniVLAN, request.client)
  }

  function RequestedStream(request: Join): StreamKey {
    StreamKey(request.interfaceName, request.source, request.group, request.uniVLAN)
  }

  function StreamOf(key: ActiveKey): StreamKey {
    StreamKey(key.interfaceName, key.source, key.group, key.vlan)
  }

  function StreamOfGroup(g: ActiveGroup): StreamKey {
    StreamKey(g.interfaceName, g.source, g.group, g.uniVLAN)
  }

  predicate InService(active: Active, service: Option<nat>) {
    service.None? || active.package == service
  }

  // ---------- distinct streams and their bandwidth ----------

  datatype Load = Load(stream: StreamKey, bandwidth: nat)

  function LoadOf(active: Active): Load {
    Load(StreamOfGroup(active.group), active.group.imputedBandwidth)
  }

  ghost function Streams(groups: Groups, service: Option<nat>): set<StreamKey> {
    set key | key in groups && InService(groups[key], service) :: StreamOf(key)
  }

  ghost function Loads(groups: Groups, service: Option<nat>): set<Load> {
    set key | key in groups && InService(groups[key], service) :: LoadOf(groups[key])
  }

  ghost function Total(loads: set<Load>): nat {
    if loads == {} then 0 else var load :| load in loads; load.bandwidth + Total(loads - {load})
  }

  lemma {:induction false} TotalWithout(loads: set<Load>, load: Load)
    requires load in loads
    ensures Total(loads) == load.bandwidth + Total(loads - {load})
    decreases loads
  {
    var pick :| pick in loads && Total(loads) == pick.bandwidth + Total(loads - {pick});
    if pick != load {
      TotalWithout(loads - {pick}, load);
      TotalWithout(loads - {load}, pick);
      assert loads - {pick} - {load} == loads - {load} - {pick};
    }
  }

  lemma TotalWith(loads: set<Load>, load: Load)
    ensures Total(loads + {load}) == Total(loads) + if load in loads then 0 else load.bandwidth
  {
    if load in loads {
      assert loads + {load} == loads;
    } else {
      TotalWithout(loads + {load}, load);
      assert loads + {load} - {load} == loads;
    }
  }

  lemma {:induction false} TotalMonotone(few: set<Load>, many: set<Load>)
    requires few <= many
    ensures Total(few) <= Total(many)
  {
    if few != {} {
      var load :| load in few;
      TotalMonotone(few - {load}, many - {load});
      TotalWithout(few, load);
      TotalWithout(many, load);
    }
  }

  // ---------- what every reachable set of groups satisfies ----------

  /** Each entry is filed under its own fields. */
  ghost predicate Keyed(groups: Groups) {
    forall key :: key in groups ==>
      StreamOfGroup(groups[key].group) == StreamOf(key) && groups[key].group.client == key.client
  }

  /** All clients of one stream carry the same bandwidth and service package. */
  ghost predicate Uniform(groups: Groups) {
    forall a, b :: a in groups && b in groups && StreamOf(a) == StreamOf(b) ==>
      && groups[a].package == groups[b].package
      && groups[a].group.imputedBandwidth == groups[b].group.imputedBandwidth
  }

  predicate AtMost(amount: nat, limit: nat) { limit == 0 || amount <= limit }

  ghost predicate WithinGroupLimits(subscriber: Subscriber, groups: Groups) {
    && AtMost(|Streams(groups, None)|, subscriber.maxSimultaneousGroups)
    && forall package :: package in subscriber.servicePackages ==>
         AtMost(|Streams(groups, Some(package.rowKey))|, package.maxSimultaneousGroups)
  }

  ghost predicate WithinBandwidth(subscriber: Subscriber, groups: Groups) {
    && AtMost(Total(Loads(groups, None)), subscriber.maxMulticastBandwidth)
    && forall package :: package in subscriber.servicePackages ==>
         AtMost(Total(Loads(groups, Some(package.rowKey))), package.maxMulticastBandwidth)
  }

  ghost predicate Admissible(subscriber: Subscriber, groups: Groups) {
    && Keyed(groups) && Uniform(groups)
    && WithinGroupLimits(subscriber, groups)
    && (subscriber.bandwidthEnforcement ==> WithinBandwidth(subscriber, groups))
  }

  lemma SmallerSet<T>(few: set<T>, many: set<T>)
    requires few <= many
    ensures |few| <= |many|
  {
    if few != {} {
      var x :| x in few;
      SmallerSet(few - {x}, many - {x});
    }
  }

  ghost predicate Submap(few: Groups, many: Groups) {
    forall key :: key in few ==> key in many && few[key] == many[key]
  }

  lemma FewerStreams(few: Groups, many: Groups, service: Option<nat>)
    requires Submap(few, many)
    ensures |Streams(few, service)| <= |Streams(many, service)|
    ensures Total(Loads(few, service)) <= Total(Loads(many, service))
  {
    hide Total, InService, LoadOf, StreamOf;
    SmallerSet(Streams(few, service), Streams(many, service));
    TotalMonotone(Loads(few, service), Loads(many, service));
  }

  /** Dropping entries, by leave or by expiry, keeps every limit. */
  lemma RemovalKeepsAdmissible(subscriber: Subscriber, few: Groups, many: Groups)
    requires Submap(few, many) && Admissible(subscriber, many)
    ensures Admissible(subscriber, few)
  {
    hide Total, Streams, Loads;
    FewerStreams(few, many, None);
    forall package | package in subscriber.servicePackages
      ensures |Streams(few, Some(package.rowKey))| <= |Streams(many, Some(package.rowKey))|
      ensures Total(Loads(few, Some(package.rowKey))) <= Total(Loads(many, Some(package.rowKey)))
    {
      FewerStreams(few, many, Some(package.rowKey));
    }
  }

  /** A second client of a stream, or a refresh, changes neither the streams nor their bandwidth. */
  lemma SameStreams(groups: Groups, key: ActiveKey, twin: ActiveKey, active: Active, service: Option<nat>)
    requires Keyed(groups) && Uniform(groups) && twin in groups && StreamOf(twin) == StreamOf(key)
    requires StreamOfGroup(active.group) == StreamOf(key)
    requires active.group.imputedBandwidth == groups[twin].group.imputedBandwidth
    requires active.package == groups[twin].package
    ensures Streams(groups[key := active], service) == Streams(groups, service)
    ensures Loads(groups[key := active], service) == Loads(groups, service)
  {
    var more := groups[key := active];
    assert LoadOf(active) == LoadOf(groups[twin]) && InService(active, service) == InService(groups[twin], service);
    assert key in groups ==> LoadOf(groups[key]) == LoadOf(groups[twin]);
    forall stream | stream in Streams(groups, service) ensures stream in Streams(more, service) {
      var k :| k in groups && InService(groups[k], service) && StreamOf(k) == stream;
      assert k in more && InService(more[k], service);
    }
    forall load | load in Loads(groups, service) ensures load in Loads(more, service) {
      var k :| k in groups && InService(groups[k], service) && LoadOf(groups[k]) == load;
      assert k in more && InService(more[k], service) && LoadOf(more[k]) == load;
    }
    forall stream | stream in Streams(more, service) ensures stream in Streams(groups, service) {
      var k :| k in more && InService(more[k], service) && StreamOf(k) == stream;
      var k' := if k == key then twin else k;
      assert k' in groups && InService(groups[k'], service) && StreamOf(k') == stream;
    }
    forall load | load in Loads(more, service) ensures load in Loads(groups, service) {
      var k :| k in more && InService(more[k], service) && LoadOf(more[k]) == load;
      var k' := if k == key then twin else k;
      assert k' in groups && InService(groups[k'], service) && LoadOf(groups[k']) == load;
    }
  }

  lemma RejoinKeepsAdmissible(subscriber: Subscriber, groups: Groups, key: ActiveKey, twin: ActiveKey,
                              active: Active)
    requires Admissible(subscriber, groups) && twin in groups && StreamOf(twin) == StreamOf(key)
    requires StreamOfGroup(active.group) == StreamOf(key) && active.group.client == key.client
    requires active.group.imputedBandwidth == groups[twin].group.imputedBandwidth
    requires active.package == groups[twin].package
    ensures Admissible(subscriber, groups[key := active])
  {
    hide Total, Streams, Loads;
    SameStreams(groups, key, twin, active, None);
    forall package | package in subscriber.servicePackages
      ensures Streams(groups[key := active], Some(package.rowKey)) == Streams(groups, Some(package.rowKey))
      ensures Loads(groups[key := active], Some(package.rowKey)) == Loads(groups, Some(package.rowKey))
    {
      SameStreams(groups, key, twin, active, Some(package.rowKey));
    }
  }

  lemma InsertStream(groups: Groups, key: ActiveKey, active: Active, service: Option<nat>)
    requires key !in groups
    ensures Streams(groups[key := active], service) ==
            Streams(groups, service) + if InService(active, service) then {StreamOf(key)} else {}
    ensures Loads(groups[key := active], service) ==
            Loads(groups, service) + if InService(active, service) then {LoadOf(active)} else {}
  {
    hide InService, StreamOf, LoadOf;
    var more := groups[key := active];
    assert forall k :: k in groups ==> k in more && more[k] == groups[k];
    assert forall k :: k in more ==> k == key || k in groups;
    assert key in more && more[key] == active;
  }

  /** The load of a stream is among the loads exactly when its stream is among the streams. */
  lemma LoadsFollowStreams(groups: Groups, stream: StreamKey, service: Option<nat>)
    requires Keyed(groups)
    ensures stream !in Streams(groups, service) ==>
              forall load :: load in Loads(groups, service) ==> load.stream != stream
  {
    if stream !in Streams(groups, service) {
      forall load | load in Loads(groups, service) ensures load.stream != stream {
        var k :| k in groups && InService(groups[k], service) && LoadOf(groups[k]) == load;
        assert StreamOf(k) in Streams(groups, service);
      }
    }
  }

  lemma NewToService(groups: Groups, key: ActiveKey, active: Active, service: Option<nat>)
    requires Keyed(groups) && StreamOf(key) !in Streams(groups, None)
    requires StreamOfGroup(active.group) == StreamOf(key)
    ensures key !in groups
    ensures StreamOf(key) !in Streams(groups, service) && LoadOf(active) !in Loads(groups, service)
    ensures LoadOf(active).bandwidth == active.group.imputedBandwidth
  {
    assert key in groups ==> StreamOf(key) in Streams(groups, None);
    assert Streams(groups, service) <= Streams(groups, None);
    LoadsFollowStreams(groups, StreamOf(key), service);
  }

  /** A new stream adds itself, and its bandwidth, to its own package and to the whole. */
  lemma OneMoreStream(groups: Groups, key: ActiveKey, active: Active, service: Option<nat>)
    requires Keyed(groups) && StreamOf(key) !in Streams(groups, None)
    requires StreamOfGroup(active.group) == StreamOf(key)
    ensures |Streams(groups[key := active], service)| ==
            |Streams(groups, service)| + if InService(active, service) then 1 else 0
    ensures Total(Loads(groups[key := active], service)) ==
            Total(Loads(groups, service)) + if InService(active, service) then active.group.imputedBandwidth else 0
  {
    hide Total, Streams, Loads, Keyed, LoadOf, StreamOf, StreamOfGroup, InService;
    NewToService(groups, key, active, service);
    InsertStream(groups, key, active, service);
    TotalWith(Loads(groups, service), LoadOf(active));
  }

  predicate ExceedsBandwidth(current: nat, additional: nat, limit: nat) {
    (limit != 0 && additional > limit) || (limit != 0 && current > limit - additional)
  }

  /** The two tests of Join for a stream that is not yet active. */
  ghost predicate OverGroups(subscriber: Subscriber, groups: Groups, package: Option<ServicePackage>) {
    || (subscriber.maxSimultaneousGroups != 0 &&
        |Streams(groups, None)| >= subscriber.maxSimultaneousGroups)
    || (package.Some? && package.value.maxSimultaneousGroups != 0 &&
        |Streams(groups, Some(package.value.rowKey))| >= package.value.maxSimultaneousGroups)
  }

  ghost predicate OverBandwidth(subscriber: Subscriber, groups: Groups, package: Option<ServicePackage>,
                                    additional: nat) {
    || !AtMost(Total(Loads(groups, None)) + additional, subscriber.maxMulticastBandwidth)
    || (package.Some? &&
        !AtMost(Total(Loads(groups, Some(package.value.rowKey))) + additional,
                package.value.maxMulticastBandwidth))
  }

  predicate UniquePackages(packages: seq<ServicePackage>) {
    forall i, j :: 0 <= i < j < |packages| ==> packages[i].rowKey != packages[j].rowKey
  }

  function RowOf(package: Option<ServicePackage>): Option<nat> {
    if package.None? then None else Some(package.value.rowKey)
  }

  lemma AdmissionKeepsAdmissible(subscriber: Subscriber, groups: Groups, key: ActiveKey, active: Active,
                                 package: Option<ServicePackage>)
    requires Admissible(subscriber, groups) && UniquePackages(subscriber.servicePackages)
    requires StreamOf(key) !in Streams(groups, None)
    requires StreamOfGroup(active.group) == StreamOf(key) && active.group.client == key.client
    requires package.Some? ==> package.value in subscriber.servicePackages
    requires active.package == RowOf(package)
    requires !OverGroups(subscriber, groups, package)
    requires subscriber.bandwidthEnforcement ==>
               !OverBandwidth(subscriber, groups, package, active.group.imputedBandwidth)
    ensures Admissible(subscriber, groups[key := active])
  {
    hide Total, Loads;
    var more := groups[key := active];
    assert forall k :: k in groups ==> StreamOf(k) in Streams(groups, None);
    hide Streams;
    assert Keyed(more) && Uniform(more);
    OneMoreStream(groups, key, active, None);
    forall p | p in subscriber.servicePackages
      ensures AtMost(|Streams(more, Some(p.rowKey))|, p.maxSimultaneousGroups)
      ensures subscriber.bandwidthEnforcement ==>
                AtMost(Total(Loads(more, Some(p.rowKey))), p.maxMulticastBandwidth)
    {
      OneMoreStream(groups, key, active, Some(p.rowKey));
      if active.package == Some(p.rowKey) {
        assert package.Some? && package.value == p;
      }
    }
  }

  // ---------- the counting loops ----------

  /** One more entry adds its bandwidth exactly when its stream is new. */
  lemma VisitEntry(visited: Groups, key: ActiveKey, active: Active, service: Option<nat>, all: Groups)
    requires Submap(visited, all) && Keyed(all) && Uniform(all)
    requires key in all && all[key] == active && key !in visited && InService(active, service)
    ensures var more := visited[key := active];
      && Streams(more, service) == Streams(visited, service) + {StreamOf(key)}
      && Total(Loads(more, service)) == Total(Loads(visited, service)) +
           if StreamOf(key) in Streams(visited, service) then 0 else active.group.imputedBandwidth
  {
    hide Total;
    InsertStream(visited, key, active, service);
    TotalWith(Loads(visited, service), LoadOf(active));
    if StreamOf(key) in Streams(visited, service) {
      var k :| k in visited && InService(visited[k], service) && StreamOf(k) == StreamOf(key);
      assert LoadOf(visited[k]) == LoadOf(active);
    } else {
      LoadsFollowStreams(visited, StreamOf(key), service);
    }
  }

  // A walk over the entries of a map, in any order.

  ghost predicate Walked(visited: Groups, rest: set<ActiveKey>, groups: Groups) {
    && rest <= groups.Keys
    && visited.Keys == groups.Keys - rest
    && Submap(visited, groups)
  }

  lemma WalkStarts(groups: Groups, service: Option<nat>)
    ensures Walked(map[], groups.Keys, groups)
    ensures Streams(map[], service) == {} && Total(Loads(map[], service)) == 0
  {
    assert Loads(map[], service) == {};
  }

  lemma WalkStep(visited: Groups, rest: set<ActiveKey>, groups: Groups, key: ActiveKey)
    requires Walked(visited, rest, groups) && key in rest
    ensures key in groups && key !in visited && Submap(visited, groups)
    ensures Walked(visited[key := groups[key]], rest - {key}, groups)
  {}

  lemma WalkEnds(visited: Groups, groups: Groups)
    requires Walked(visited, {}, groups)
    ensures visited == groups
  {}

  /** Go visits the entries of a map in any order; so does this loop. */
  method ActiveStreamCount(groups: Groups, service: Option<nat>) returns (count: nat)
    requires Keyed(groups)
    ensures count == |Streams(groups, service)|
  {
    hide Streams, Loads, Total, Walked, Submap, InService;
    var seen: set<StreamKey>, rest := {}, groups.Keys;
    ghost var visited: Groups := map[];
    WalkStarts(groups, service);
    while rest != {}
      invariant Walked(visited, rest, groups)
      invariant seen == Streams(visited, service)
      decreases |rest|
    {
      var key :| key in rest;
      WalkStep(visited, rest, groups, key);
      InsertStream(visited, key, groups[key], service);
      if InService(groups[key], service) {
        seen := seen + {StreamOfGroup(groups[key].group)};
      }
      visited, rest := visited[key := groups[key]], rest - {key};
    }
    WalkEnds(visited, groups);
    count := |seen|;
  }

  method ActiveBandwidth(groups: Groups, service: Option<nat>) returns (total: nat)
    requires Keyed(groups) && Uniform(groups)
    ensures total == Total(Loads(groups, service))
  {
    hide Streams, Loads, Total, Walked, Submap, InService;
    var seen: set<StreamKey>, rest := {}, groups.Keys;
    total := 0;
    ghost var visited: Groups := map[];
    WalkStarts(groups, service);
    while rest != {}
      invariant Walked(visited, rest, groups)
      invariant seen == Streams(visited, service)
      invariant total == Total(Loads(visited, service))
      decreases |rest|
    {
      var key :| key in rest;
      WalkStep(visited, rest, groups, key);
      InsertStream(visited, key, groups[key], service);
      if InService(groups[key], service) {
        VisitEntry(visited, key, groups[key], service, groups);
        var stream := StreamOfGroup(groups[key].group);
        if stream !in seen {
          seen, total := seen + {stream}, total + groups[key].group.imputedBandwidth;
        }
      }
      visited, rest := visited[key := groups[key]], rest - {key};
    }
    WalkEnds(visited, groups);
  }

  /** Any entry of the wanted stream; all of them share its bandwidth and package. */
  method ActiveStream(groups: Groups, wanted: StreamKey) returns (twin: Option<ActiveKey>)
    requires Keyed(groups)
    ensures twin.Some? ==> twin.value in groups && StreamOf(twin.value) == wanted
    ensures twin.None? ==> wanted !in Streams(groups, None)
  {
    var rest := groups.Keys;
    while rest != {}
      invariant rest <= groups.Keys
      invariant forall key :: key in groups && key !in rest ==> StreamOf(key) != wanted
      decreases |rest|
    {
      var key :| key in rest;
      if StreamOfGroup(groups[key].group) == wanted {
        return Some(key);
      }
      rest := rest - {key};
    }
    twin := None;
  }
}
