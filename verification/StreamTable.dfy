/** The clients of each multicast stream, and the one filter that stands for all of them
    (effectiveReplicationGroup and effectiveUpstreamGroup of internal/multicast/runtime.go). */
module StreamTable {
  import opened Clock
  import opened Sequences
  import opened MulticastTypes
  import opened SourceLists
  import opened Membership

  datatype Identity = Identity(address: Addr, mac: nat)

  datatype Client = Client(group: ActiveGroup, tags: seq<VLANTag>, lastSeen: Time)

  datatype StreamKey = StreamKey(subscriberID: nat, interfaceName: string, source: Addr, group: Addr, vlan: VLAN)

  type Clients = map<Identity, Client>

  type Streams = map<StreamKey, Clients>

  ghost predicate Filed(key: StreamKey, client: Client) {
    && client.group.interfaceName == key.interfaceName && client.group.source == key.source
    && client.group.group == key.group && client.group.uniVLAN == key.vlan
  }

  /** A stream has clients, all of them filed under its key. */
  ghost predicate Peopled(key: StreamKey, clients: Clients) {
    && key.group.IsValid()
    && clients != map[]
    && forall id :: id in clients ==> Filed(key, clients[id])
  }

  // ---------- one stream ----------

  /** The sources that every client of the stream excludes; only the wildcard source excludes any. */
  ghost function Exclusions(source: Addr, clients: Clients): set<Addr> {
    if !source.IsUnspecified() then {}
    else set id, a | id in clients && a in clients[id].group.excludedSources && ExcludedByAll(a, clients) :: a
  }

  ghost predicate ExcludedByAll(a: Addr, clients: Clients) {
    forall id :: id in clients ==> a in clients[id].group.excludedSources
  }

  lemma ExclusionsMeaning(source: Addr, clients: Clients, a: Addr)
    requires clients != map[] && source.IsUnspecified()
    ensures a in Exclusions(source, clients) <==> ExcludedByAll(a, clients)
  {
    var id :| id in clients;
    assert ExcludedByAll(a, clients) ==> a in clients[id].group.excludedSources;
  }

  /** The group of some client, carrying the exclusions common to all. */
  ghost predicate StandsFor(result: ActiveGroup, key: StreamKey, clients: Clients) {
    && (exists id :: id in clients && result == clients[id].group.(excludedSources := result.excludedSources))
    && Lists(result.excludedSources, Exclusions(key.source, clients))
  }

  ghost predicate ExcludedBy(a: Addr, seen: set<Identity>, clients: Clients)
    requires seen <= clients.Keys
  {
    forall id :: id in seen ==> a in clients[id].group.excludedSources
  }

  /** The intersection over the clients seen so far; None before the first wildcard client. */
  ghost predicate Intersected(excluded: Option<set<Addr>>, key: StreamKey, seen: set<Identity>, clients: Clients) {
    && seen <= clients.Keys
    && (key.source.IsUnspecified() ==> (excluded.None? <==> seen == {}))
    && (!key.source.IsUnspecified() ==> excluded.None?)
    && (excluded.Some? ==> forall a :: a in excluded.value <==> ExcludedBy(a, seen, clients))
  }

  lemma IntersectNext(excluded: Option<set<Addr>>, key: StreamKey, seen: set<Identity>, clients: Clients,
                      id: Identity, candidate: set<Addr>)
    requires Intersected(excluded, key, seen, clients) && id in clients && key.source.IsUnspecified()
    requires forall a :: a in candidate <==> a in clients[id].group.excludedSources
    ensures Intersected(Some(if excluded.None? then candidate else excluded.value * candidate),
                        key, seen + {id}, clients)
  {
    var next := if excluded.None? then candidate else excluded.value * candidate;
    forall a ensures a in next <==> ExcludedBy(a, seen + {id}, clients) {
      assert excluded.Some? ==> (a in excluded.value <==> ExcludedBy(a, seen, clients));
    }
  }

  lemma IntersectedAll(excluded: Option<set<Addr>>, key: StreamKey, clients: Clients)
    requires clients != map[] && Intersected(excluded, key, clients.Keys, clients)
    ensures (if excluded.None? then {} else excluded.value) == Exclusions(key.source, clients)
  {
    if key.source.IsUnspecified() {
      var id :| id in clients;
      forall a ensures a in Exclusions(key.source, clients) <==> ExcludedBy(a, clients.Keys, clients) {
        ExclusionsMeaning(key.source, clients, a);
      }
    }
  }

  /** One turn of the loop. */
  method IntersectClient(excluded: Option<set<Addr>>, key: StreamKey, clients: Clients, id: Identity,
                         ghost seen: set<Identity>)
    returns (next: Option<set<Addr>>)
    requires Peopled(key, clients) && id in clients && Intersected(excluded, key, seen, clients)
    ensures Intersected(next, key, seen + {id}, clients)
  {
    hide Intersected;
    assert Filed(key, clients[id]);
    if !clients[id].group.source.IsUnspecified() {
      SkipClient(excluded, key, seen, clients, id);
      return excluded;
    }
    var candidate := SourceSet(clients[id].group.excludedSources);
    IntersectNext(excluded, key, seen, clients, id, candidate);
    next := Some(if excluded.None? then candidate else excluded.value * candidate);
  }

  method EffectiveReplicationGroup(key: StreamKey, clients: Clients) returns (result: ActiveGroup)
    requires Peopled(key, clients)
    ensures StandsFor(result, key, clients)
  {
    hide Intersected, Exclusions, Lists, Filed;
    var first: Option<Identity> := None;
    var excluded: Option<set<Addr>> := None;
    var rest := clients.Keys;
    ghost var seen: set<Identity> := {};
    NobodySeen(key, clients);
    while rest != {}
      invariant seen + rest == clients.Keys
      invariant first.None? ==> rest == clients.Keys
      invariant first.Some? ==> first.value in clients
      invariant Intersected(excluded, key, seen, clients)
      decreases |rest|
    {
      var id :| id in rest;
      if first.None? {
        first := Some(id);
      }
      excluded := IntersectClient(excluded, key, clients, id, seen);
      seen, rest := seen + {id}, rest - {id};
    }
    assert seen == clients.Keys;
    IntersectedAll(excluded, key, clients);
    var list := SortedSources(if excluded.None? then {} else excluded.value);
    result := clients[first.value].group.(excludedSources := list);
  }

  lemma NobodySeen(key: StreamKey, clients: Clients)
    ensures Intersected(None, key, {}, clients)
  {}

  lemma SkipClient(excluded: Option<set<Addr>>, key: StreamKey, seen: set<Identity>, clients: Clients, id: Identity)
    requires Intersected(excluded, key, seen, clients) && id in clients && !key.source.IsUnspecified()
    ensures Intersected(excluded, key, seen + {id}, clients)
  {}

  // ---------- all streams of one subscriber, interface, group and VLAN ----------

  predicate Sibling(key: StreamKey, wanted: StreamKey) {
    && key.subscriberID == wanted.subscriberID && key.interfaceName == wanted.interfaceName
    && key.group == wanted.group && key.vlan == wanted.vlan
  }

  ghost predicate AllPeopled(streams: Streams) {
    forall key :: key in streams ==> Peopled(key, streams[key])
  }

  /** Some client of some stream of the group takes traffic from `a`. */
  ghost predicate SomeoneAccepts(streams: Streams, wanted: StreamKey, a: Addr) {
    exists key, id :: key in streams && Sibling(key, wanted) && id in streams[key] &&
      Delivers(key.source, streams[key][id].group.excludedSources, a)
  }

  /** What the aggregate asks the network for: an include list, or everything but an exclude list. */
  predicate Asks(report: ActiveGroup, a: Addr) {
    if report.source.IsUnspecified() then a !in report.excludedSources else a in report.includedSources
  }

  const NoGroup: ActiveGroup :=
    ActiveGroup("", NoAddr, [], [], NoAddr, NoAddr, VLAN(false, 0), 0, 0, 0, 0, 0, None)

  datatype Gathered = Gathered(result: ActiveGroup, included: set<Addr>, excluded: set<Addr>, hasExclude: bool)

  /** What effectiveUpstreamGroup has gathered from the sibling streams seen so far. */
  ghost predicate GatheredFrom(g: Gathered, wanted: StreamKey, seen: set<StreamKey>, streams: Streams) {
    && seen <= streams.Keys
    && (g.result.group.IsValid() <==> exists key :: key in seen && Sibling(key, wanted))
    && (g.result.group.IsValid() ==> g.result.group == wanted.group)
    && (forall a :: a in g.included <==> IncludedBy(a, wanted, seen))
    && (g.hasExclude <==> exists key :: key in seen && Sibling(key, wanted) && key.source.IsUnspecified())
    && (g.hasExclude ==> forall a :: a in g.excluded <==> ExcludedByStreams(a, wanted, seen, streams))
  }

  ghost predicate IncludedBy(a: Addr, wanted: StreamKey, seen: set<StreamKey>) {
    exists key :: key in seen && Sibling(key, wanted) && key.source == a && !a.IsUnspecified()
  }

  ghost predicate ExcludedByStreams(a: Addr, wanted: StreamKey, seen: set<StreamKey>, streams: Streams)
    requires seen <= streams.Keys
  {
    forall key :: key in seen && Sibling(key, wanted) && key.source.IsUnspecified() ==>
      a in Exclusions(key.source, streams[key])
  }

  lemma NothingGathered(wanted: StreamKey, streams: Streams)
    ensures GatheredFrom(Gathered(NoGroup, {}, {}, false), wanted, {}, streams)
  {}

  lemma GatherStranger(g: Gathered, wanted: StreamKey, seen: set<StreamKey>, streams: Streams, key: StreamKey)
    requires GatheredFrom(g, wanted, seen, streams) && key in streams && !Sibling(key, wanted)
    ensures GatheredFrom(g, wanted, seen + {key}, streams)
  {
    hide Exclusions;
    forall a ensures IncludedBy(a, wanted, seen + {key}) <==> IncludedBy(a, wanted, seen) {
      assert IncludedBy(a, wanted, seen + {key}) ==>
        exists k :: k in seen && Sibling(k, wanted) && k.source == a && !a.IsUnspecified();
    }
    forall a
      ensures ExcludedByStreams(a, wanted, seen + {key}, streams) <==> ExcludedByStreams(a, wanted, seen, streams)
    {}
    assert forall k :: k in seen + {key} && Sibling(k, wanted) ==> k in seen;
  }

  function Gather(g: Gathered, key: StreamKey, current: ActiveGroup): Gathered {
    var result := if g.result.group.IsValid() then g.result else current;
    if !key.source.IsUnspecified() then
      g.(result := result, included := g.included + {key.source})
    else if !g.hasExclude then
      g.(result := result, excluded := SetOf(current.excludedSources), hasExclude := true)
    else
      g.(result := result, excluded := g.excluded * SetOf(current.excludedSources))
  }

  lemma GatherSibling(g: Gathered, wanted: StreamKey, seen: set<StreamKey>, streams: Streams, key: StreamKey,
                      current: ActiveGroup)
    requires GatheredFrom(g, wanted, seen, streams) && key in streams && Sibling(key, wanted)
    requires Peopled(key, streams[key]) && StandsFor(current, key, streams[key])
    ensures GatheredFrom(Gather(g, key, current), wanted, seen + {key}, streams)
  {
    hide Exclusions;
    var next, more := Gather(g, key, current), seen + {key};
    assert key in more;
    assert current.group == wanted.group by {
      var id :| id in streams[key] && current == streams[key][id].group.(excludedSources := current.excludedSources);
      assert Filed(key, streams[key][id]);
    }
    forall a ensures a in next.included <==> IncludedBy(a, wanted, more) {
      if IncludedBy(a, wanted, seen) {
        var k :| k in seen && Sibling(k, wanted) && k.source == a && !a.IsUnspecified();
        assert k in more;
      }
      assert a in g.included <==> IncludedBy(a, wanted, seen);
    }
    forall a ensures ExcludedByStreams(a, wanted, more, streams) <==>
      ExcludedByStreams(a, wanted, seen, streams) &&
      (key.source.IsUnspecified() ==> a in Exclusions(key.source, streams[key])) {}
    assert key.source.IsUnspecified() ==>
      forall a :: a in SetOf(current.excludedSources) <==> a in Exclusions(key.source, streams[key]);
    if !g.hasExclude {
      assert forall k :: k in seen && Sibling(k, wanted) ==> !k.source.IsUnspecified();
    }
  }

  lemma SiblingAccepts(streams: Streams, wanted: StreamKey, key: StreamKey, a: Addr)
    requires AllPeopled(streams) && key in streams && Sibling(key, wanted)
    requires if key.source.IsUnspecified() then a !in Exclusions(key.source, streams[key]) else a == key.source
    ensures SomeoneAccepts(streams, wanted, a)
  {
    assert Peopled(key, streams[key]);
    if key.source.IsUnspecified() {
      ExclusionsMeaning(key.source, streams[key], a);
      var id :| id in streams[key] && a !in streams[key][id].group.excludedSources;
      assert Delivers(key.source, streams[key][id].group.excludedSources, a);
    } else {
      var id :| id in streams[key];
      assert Delivers(key.source, streams[key][id].group.excludedSources, a);
    }
  }

  /** Once every stream has been seen, the gathered sets are the union of what all clients accept. */
  lemma GatheredMeaning(g: Gathered, wanted: StreamKey, streams: Streams, a: Addr)
    requires AllPeopled(streams) && GatheredFrom(g, wanted, streams.Keys, streams)
    ensures SomeoneAccepts(streams, wanted, a) <==>
            a in g.included || (g.hasExclude && a !in g.excluded)
  {
    hide Exclusions, Peopled;
    assert a in g.included <==> IncludedBy(a, wanted, streams.Keys);
    if a in g.included {
      var key :| key in streams.Keys && Sibling(key, wanted) && key.source == a && !a.IsUnspecified();
      SiblingAccepts(streams, wanted, key, a);
    }
    if g.hasExclude && a !in g.excluded {
      var key :| key in streams.Keys && Sibling(key, wanted) && key.source.IsUnspecified()
        && a !in Exclusions(key.source, streams[key]);
      SiblingAccepts(streams, wanted, key, a);
    }
    if SomeoneAccepts(streams, wanted, a) {
      var key, id :| key in streams && Sibling(key, wanted) && id in streams[key] &&
        Delivers(key.source, streams[key][id].group.excludedSources, a);
      if key.source.IsUnspecified() {
        ExclusionsMeaning(key.source, streams[key], a);
        assert a !in Exclusions(key.source, streams[key]);
      } else {
        assert IncludedBy(a, wanted, streams.Keys);
      }
    }
  }

  /** The aggregate exists when a client of the group does, and asks for exactly the sources that some
      client accepts, whatever order Go visits the streams in. */
  method EffectiveUpstreamGroup(streams: Streams, wanted: StreamKey) returns (result: ActiveGroup, found: bool)
    requires AllPeopled(streams)
    ensures found <==> exists key :: key in streams && Sibling(key, wanted)
    ensures found ==> result.group == wanted.group
    ensures found ==> forall a :: Asks(result, a) <==> SomeoneAccepts(streams, wanted, a)
    ensures found ==> (result.source.IsUnspecified() <==> result.source == Wildcard(result.group))
    ensures found ==> (!result.source.IsUnspecified() ==> result.includedSources != [])
    ensures !found ==> result == NoGroup
  {
    hide GatheredFrom, Exclusions, SomeoneAccepts, Peopled, StandsFor, Lists;
    var g := Gathered(NoGroup, {}, {}, false);
    var rest := streams.Keys;
    ghost var seen: set<StreamKey> := {};
    NothingGathered(wanted, streams);
    while rest != {}
      invariant seen + rest == streams.Keys
      invariant GatheredFrom(g, wanted, seen, streams)
      decreases |rest|
    {
      var key :| key in rest;
      if Sibling(key, wanted) {
        var current := EffectiveReplicationGroup(key, streams[key]);
        GatherSibling(g, wanted, seen, streams, key, current);
        g := Gather(g, key, current);
      } else {
        GatherStranger(g, wanted, seen, streams, key);
      }
      seen, rest := seen + {key}, rest - {key};
    }
    assert seen == streams.Keys;
    result, found := Conclude(g, wanted, streams);
  }

  method Conclude(g: Gathered, wanted: StreamKey, streams: Streams) returns (result: ActiveGroup, found: bool)
    requires AllPeopled(streams) && GatheredFrom(g, wanted, streams.Keys, streams)
    ensures found <==> exists key :: key in streams && Sibling(key, wanted)
    ensures found ==> result.group == wanted.group
    ensures found ==> forall a :: Asks(result, a) <==> SomeoneAccepts(streams, wanted, a)
    ensures found ==> (result.source.IsUnspecified() <==> result.source == Wildcard(result.group))
    ensures found ==> (!result.source.IsUnspecified() ==> result.includedSources != [])
    ensures !found ==> result == NoGroup
  {
    hide SomeoneAccepts, Exclusions, ExcludedByStreams, Peopled;
    if !g.result.group.IsValid() {
      return NoGroup, false;
    }
    found := true;
    forall a ensures SomeoneAccepts(streams, wanted, a) <==> a in g.included || (g.hasExclude && a !in g.excluded) {
      GatheredMeaning(g, wanted, streams, a);
    }
    if g.hasExclude {
      var list := SortedSources(g.excluded - g.included);
      result := g.result.(source := Wildcard(g.result.group), includedSources := [], excludedSources := list);
    } else {
      var list := SortedSources(g.included);
      var key :| key in streams && Sibling(key, wanted);
      assert IncludedBy(key.source, wanted, streams.Keys);
      assert key.source in list;
      assert list[0] in g.included && IncludedBy(list[0], wanted, streams.Keys);
      result := g.result.(source := list[0], includedSources := list, excludedSources := []);
    }
  }
}
