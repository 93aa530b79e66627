/** The MIB upload and the transfer of table attributes (buildUpload, prepareTableGet and the GetNext case
    of internal/engine/engine.go). */
module MibUpload {
  import opened Arithmetic
  import opened Sequences
  import opened NextFit

  const BASELINE_ATTRIBUTE_LIMIT: nat := 26
  const EXTENDED_COMMAND_LIMIT: nat := 1966
  /** Length, class, instance and mask of one entry of an extended command. */
  const EXTENDED_ENTRY_OVERHEAD: nat := 8

  datatype AttributeDefinition =
    AttributeDefinition(name: string, size: nat, readable: bool, table: bool, counter: bool, controlBlock: bool)

  /** The attributes of a class after the identifier, in index order. */
  datatype Definition = Definition(performanceMonitoring: bool, attributes: seq<AttributeDefinition>)

  datatype Instance = Instance(classID: nat, entityID: nat, present: set<string>)

  datatype Entity = Entity(classID: nat, entityID: nat, attributes: seq<AttributeDefinition>)

  predicate ExcludedFromMibUpload(classID: nat) {
    classID in {83, 149, 154, 287, 288, 289, 308}
  }

  function AttributeLimit(extended: bool): nat {
    if extended then EXTENDED_COMMAND_LIMIT - EXTENDED_ENTRY_OVERHEAD else BASELINE_ATTRIBUTE_LIMIT
  }

  predicate Uploaded(definition: Definition, instance: Instance, limit: nat, a: AttributeDefinition) {
    && a.name in instance.present && a.readable && !a.table && !a.counter
    && (definition.performanceMonitoring ==> a.controlBlock)
    && a.size <= limit
  }

  /** The attributes an upload reports of an instance, in index order. */
  function Eligible(definition: Definition, instance: Instance, limit: nat, n: nat): seq<AttributeDefinition>
    requires n <= |definition.attributes|
  {
    if n == 0 then []
    else
      Eligible(definition, instance, limit, n - 1) +
        if Uploaded(definition, instance, limit, definition.attributes[n - 1]) then [definition.attributes[n - 1]]
        else []
  }

  function AllEligible(definition: Definition, instance: Instance, limit: nat): seq<AttributeDefinition> {
    Eligible(definition, instance, limit, |definition.attributes|)
  }

  function Sizes(attributes: seq<AttributeDefinition>): seq<nat> {
    seq(|attributes|, i requires 0 <= i < |attributes| => attributes[i].size)
  }

  /** The serialized length of an entry, with its length field. */
  function Cost(entity: Entity): nat { EXTENDED_ENTRY_OVERHEAD + Sum(Sizes(entity.attributes)) }

  function Costs(entities: seq<Entity>): seq<nat> {
    seq(|entities|, i requires 0 <= i < |entities| => Cost(entities[i]))
  }

  function Included(snapshot: seq<Instance>): seq<Instance> {
    if snapshot == [] then []
    else
      var n := |snapshot| - 1;
      Included(snapshot[..n]) + if ExcludedFromMibUpload(snapshot[n].classID) then [] else [snapshot[n]]
  }

  /** The groups of entries that report one instance: every eligible attribute once and in order, every
      entry within its limit, and no packing of them with fewer entries. An instance without eligible
      attributes still has one, empty, entry. */
  ghost predicate Reports(entities: seq<Entity>, instance: Instance, definition: Definition, limit: nat) {
    exists cuts :: ReportsAs(entities, instance, definition, limit, cuts)
  }

  ghost predicate ReportsAs(entities: seq<Entity>, instance: Instance, definition: Definition, limit: nat,
                            cuts: seq<nat>) {
    var items := AllEligible(definition, instance, limit);
    && entities != []
    && (forall i :: 0 <= i < |entities| ==>
          entities[i].classID == instance.classID && entities[i].entityID == instance.entityID)
    && Packing(cuts, Sizes(items), limit) && Greedy(cuts, Sizes(items), limit)
    && if items == [] then |entities| == 1 && entities[0].attributes == []
       else Grouped(AttributesOf(entities), items, cuts)
  }

  function AttributesOf(entities: seq<Entity>): seq<seq<AttributeDefinition>> {
    seq(|entities|, i requires 0 <= i < |entities| => entities[i].attributes)
  }

  method CollectEligible(definition: Definition, instance: Instance, limit: nat)
    returns (items: seq<AttributeDefinition>, sizes: seq<nat>)
    ensures items == AllEligible(definition, instance, limit) && sizes == Sizes(items)
    ensures forall i :: 0 <= i < |sizes| ==> sizes[i] <= limit
  {
    items, sizes := [], [];
    for i := 0 to |definition.attributes|
      invariant items == Eligible(definition, instance, limit, i) && sizes == Sizes(items)
      invariant forall i :: 0 <= i < |sizes| ==> sizes[i] <= limit
    {
      var a := definition.attributes[i];
      if Uploaded(definition, instance, limit, a) {
        assert Sizes(items + [a]) == Sizes(items) + [a.size];
        items, sizes := items + [a], sizes + [a.size];
      }
    }
  }

  method ReportInstance(instance: Instance, definition: Definition, limit: nat) returns (entities: seq<Entity>)
    ensures Reports(entities, instance, definition, limit)
    ensures forall i :: 0 <= i < |entities| ==> Sum(Sizes(entities[i].attributes)) <= limit
  {
    hide Sum, Packing, Greedy, AllEligible;
    var items, sizes := CollectEligible(definition, instance, limit);
    var groups := Pack(items, sizes, limit);
    ghost var cuts :| PackedAt(groups, items, sizes, limit, cuts);
    GroupCount(groups, items, cuts, sizes, limit);
    if |groups| == 0 {
      groups := [[]];
    }
    entities := seq(|groups|, i requires 0 <= i < |groups| => Entity(instance.classID, instance.entityID, groups[i]));
    assert AttributesOf(entities) == groups;
    assert ReportsAs(entities, instance, definition, limit, cuts);
    forall i | 0 <= i < |entities| ensures Sum(Sizes(entities[i].attributes)) <= limit {
      GroupWithinLimit(groups, items, cuts, sizes, limit, i);
    }
  }

  lemma GroupCount(groups: seq<seq<AttributeDefinition>>, items: seq<AttributeDefinition>, cuts: seq<nat>,
                   sizes: seq<nat>, limit: nat)
    requires Grouped(groups, items, cuts) && Packing(cuts, sizes, limit) && Greedy(cuts, sizes, limit)
    requires |sizes| == |items|
    ensures groups == [] <==> items == []
  {
    if groups != [] {
      assert cuts[0] < cuts[1];
      assert Fits(cuts, sizes, limit, 0);
    }
  }

  lemma GroupWithinLimit(groups: seq<seq<AttributeDefinition>>, items: seq<AttributeDefinition>, cuts: seq<nat>,
                         sizes: seq<nat>, limit: nat, i: nat)
    requires sizes == Sizes(items) && i < |groups|
    requires groups == [[]] || (Grouped(groups, items, cuts) && Packing(cuts, sizes, limit))
    ensures Sum(Sizes(groups[i])) <= limit
  {
    if groups == [[]] {
      assert Sizes(groups[i]) == [];
    } else {
      assert IsGroup(groups, items, cuts, i) && Fits(cuts, sizes, limit, i);
      assert Sizes(groups[i]) == sizes[cuts[i]..cuts[i + 1]];
    }
  }

  // ---------- the whole upload ----------

  ghost predicate Described(snapshot: seq<Instance>, definitions: map<nat, Definition>) {
    forall i :: 0 <= i < |snapshot| && !ExcludedFromMibUpload(snapshot[i].classID) ==>
      snapshot[i].classID in definitions
  }

  /** The entries of all included instances, instance by instance. */
  ghost predicate AllReported(groups: seq<seq<Entity>>, instances: seq<Instance>, definitions: map<nat, Definition>,
                              limit: nat) {
    && |groups| == |instances|
    && forall i :: 0 <= i < |groups| ==> ReportedAt(groups, instances, definitions, limit, i)
  }

  ghost predicate ReportedAt(groups: seq<seq<Entity>>, instances: seq<Instance>, definitions: map<nat, Definition>,
                             limit: nat, i: nat)
    requires i < |groups| == |instances|
  {
    instances[i].classID in definitions && Reports(groups[i], instances[i], definitions[instances[i].classID], limit)
  }

  ghost predicate AllWithin(entities: seq<Entity>, limit: nat) {
    forall i :: 0 <= i < |entities| ==> Sum(Sizes(entities[i].attributes)) <= limit
  }

  method ReportSnapshot(snapshot: seq<Instance>, definitions: map<nat, Definition>, limit: nat)
    returns (ok: bool, entities: seq<Entity>, ghost groups: seq<seq<Entity>>)
    ensures ok <==> Described(snapshot, definitions)
    ensures ok ==> AllReported(groups, Included(snapshot), definitions, limit) && Concat(groups) == entities
    ensures ok ==> AllWithin(entities, limit)
  {
    hide Reports, Sum, Included, ExcludedFromMibUpload, AllReported;
    NothingReported(definitions, limit);
    entities, groups := [], [];
    for i := 0 to |snapshot|
      invariant Described(snapshot[..i], definitions)
      invariant AllReported(groups, Included(snapshot[..i]), definitions, limit) && Concat(groups) == entities
      invariant AllWithin(entities, limit)
    {
      var instance := snapshot[i];
      assert snapshot[..i + 1][..i] == snapshot[..i] && snapshot[..i + 1][i] == instance;
      IncludedNext(snapshot[..i], instance);
      assert snapshot[..i + 1] == snapshot[..i] + [instance];
      if !ExcludedFromMibUpload(instance.classID) {
        if instance.classID !in definitions {
          return false, [], [];
        }
        var more := ReportInstance(instance, definitions[instance.classID], limit);
        OneMoreReported(groups, Included(snapshot[..i]), definitions, limit, more, instance);
        entities, groups := entities + more, groups + [more];
      }
      assert forall k :: 0 <= k < i ==> snapshot[..i + 1][k] == snapshot[..i][k];
    }
    assert snapshot[..|snapshot|] == snapshot;
    ok := true;
  }

  lemma NothingReported(definitions: map<nat, Definition>, limit: nat)
    ensures Included([]) == [] && AllReported([], [], definitions, limit)
  {}

  lemma IncludedNext(snapshot: seq<Instance>, instance: Instance)
    ensures Included(snapshot + [instance]) ==
            if ExcludedFromMibUpload(instance.classID) then Included(snapshot) else Included(snapshot) + [instance]
  {
    assert (snapshot + [instance])[..|snapshot|] == snapshot;
  }

  lemma OneMoreReported(groups: seq<seq<Entity>>, instances: seq<Instance>, definitions: map<nat, Definition>,
                        limit: nat,
                        more: seq<Entity>, instance: Instance)
    requires AllReported(groups, instances, definitions, limit)
    requires instance.classID in definitions && Reports(more, instance, definitions[instance.classID], limit)
    ensures AllReported(groups + [more], instances + [instance], definitions, limit)
    ensures Concat(groups + [more]) == Concat(groups) + more
  {
    hide Reports;
    var all, list := groups + [more], instances + [instance];
    assert all[..|groups|] == groups;
    forall i | 0 <= i < |all| ensures ReportedAt(all, list, definitions, limit, i) {
      if i < |groups| {
        assert ReportedAt(groups, instances, definitions, limit, i);
      }
    }
  }

  /** The commands of an upload: their entries are those of the included instances in order; a baseline
      command holds one entry, an extended one as many as fit, in as few commands as possible. */
  ghost predicate Commands(commands: seq<seq<Entity>>, entities: seq<Entity>, extended: bool, cuts: seq<nat>) {
    && Concat(commands) == entities
    && (forall i :: 0 <= i < |commands| ==> commands[i] != [])
    && if extended then
         && Grouped(commands, entities, cuts)
         && Packing(cuts, Costs(entities), EXTENDED_COMMAND_LIMIT)
         && Greedy(cuts, Costs(entities), EXTENDED_COMMAND_LIMIT)
       else forall i :: 0 <= i < |commands| ==> |commands[i]| == 1
  }

  method BuildUpload(snapshot: seq<Instance>, definitions: map<nat, Definition>, extended: bool)
    returns (commands: Option<seq<seq<Entity>>>, ghost groups: seq<seq<Entity>>, ghost cuts: seq<nat>)
    ensures commands.Some? <==> Described(snapshot, definitions)
    ensures commands.Some? ==> AllReported(groups, Included(snapshot), definitions, AttributeLimit(extended))
    ensures commands.Some? ==> Commands(commands.value, Concat(groups), extended, cuts)
  {
    hide Reports, Sum, AllReported, Packing, Greedy, Included;
    cuts := [0];
    var ok, entities;
    ok, entities, groups := ReportSnapshot(snapshot, definitions, AttributeLimit(extended));
    if !ok {
      return None, [], [0];
    }
    if extended {
      var sizes := seq(|entities|, i requires 0 <= i < |entities| => Cost(entities[i]));
      assert sizes == Costs(entities);
      var packed := Pack(entities, sizes, EXTENDED_COMMAND_LIMIT);
      ghost var places :| PackedAt(packed, entities, sizes, EXTENDED_COMMAND_LIMIT, places);
      cuts := places;
      NoEmptyCommand(packed, entities, cuts, sizes, EXTENDED_COMMAND_LIMIT);
      commands := Some(packed);
    } else {
      var single := Singletons(entities);
      commands := Some(single);
    }
  }

  lemma NoEmptyCommand(commands: seq<seq<Entity>>, entities: seq<Entity>, cuts: seq<nat>, sizes: seq<nat>, limit: nat)
    requires Grouped(commands, entities, cuts) && Greedy(cuts, sizes, limit)
    ensures forall i :: 0 <= i < |commands| ==> commands[i] != []
  {
    forall i | 0 <= i < |commands| ensures commands[i] != [] {
      assert IsGroup(commands, entities, cuts, i) && cuts[i] < cuts[i + 1];
    }
  }

  method Singletons(entities: seq<Entity>) returns (commands: seq<seq<Entity>>)
    ensures Concat(commands) == entities && forall i :: 0 <= i < |commands| ==> |commands[i]| == 1
  {
    commands := [];
    for i := 0 to |entities|
      invariant Concat(commands) == entities[..i] && forall i :: 0 <= i < |commands| ==> |commands[i]| == 1
    {
      assert (commands + [[entities[i]]])[..|commands|] == commands;
      commands := commands + [[entities[i]]];
    }
    assert entities[..|entities|] == entities;
  }

  /** No way of putting the entries into extended commands in the same order needs fewer commands, and no
      way of putting the attributes of an instance into entries needs fewer entries. */
  lemma UploadIsMinimal(commands: seq<seq<Entity>>, entities: seq<Entity>, cuts: seq<nat>, other: seq<nat>)
    requires Commands(commands, entities, true, cuts) && Packing(other, Costs(entities), EXTENDED_COMMAND_LIMIT)
    ensures |commands| <= |other| - 1
  {
    GreedyIsOptimal(cuts, other, Costs(entities), EXTENDED_COMMAND_LIMIT);
  }

  lemma ReportIsMinimal(entities: seq<Entity>, instance: Instance, definition: Definition, limit: nat, other: seq<nat>)
    requires Reports(entities, instance, definition, limit)
    requires var sizes := Sizes(AllEligible(definition, instance, limit)); sizes != [] && Packing(other, sizes, limit)
    ensures |entities| <= |other| - 1
  {
    var cuts :| ReportsAs(entities, instance, definition, limit, cuts);
    GreedyIsOptimal(cuts, other, Sizes(AllEligible(definition, instance, limit)), limit);
  }

  // ---------- tables, in chunks ----------

  function GetNextLimit(extended: bool): (limit: nat)
    ensures limit > 0
  {
    if extended then 1963 else 29
  }

  /** One GetNext response: the part of the captured table at the requested sequence number. */
  method GetNext(tables: map<nat, seq<nat>>, key: nat, sequence: nat, extended: bool) returns (part: Option<seq<nat>>)
    ensures part == if key in tables then Chunk(tables[key], sequence, GetNextLimit(extended)) else None
  {
    var limit := GetNextLimit(extended);
    var offset := sequence * limit;
    if key !in tables || offset >= |tables[key]| {
      return None;
    }
    var end := offset + limit;
    if end > |tables[key]| {
      end := |tables[key]|;
    }
    part := Some(tables[key][offset..end]);
  }

  function Chunk(data: seq<nat>, n: nat, limit: nat): Option<seq<nat>> {
    var offset := n * limit;
    if offset >= |data| then None
    else Some(data[offset..if offset + limit > |data| then |data| else offset + limit])
  }

  function ChunkCount(data: seq<nat>, limit: nat): nat
    requires limit > 0
  {
    (|data| + limit - 1) / limit
  }

  /** The first n chunks, one after the other. */
  function FirstChunks(data: seq<nat>, n: nat, limit: nat): seq<nat> {
    if n == 0 then []
    else
      FirstChunks(data, n - 1, limit) +
      if Chunk(data, n - 1, limit).Some? then Chunk(data, n - 1, limit).value else []
  }

  lemma {:induction false} FirstChunksArePrefix(data: seq<nat>, n: nat, limit: nat)
    requires limit > 0
    ensures FirstChunks(data, n, limit) == data[..if n * limit > |data| then |data| else n * limit]
  {
    if n > 0 {
      FirstChunksArePrefix(data, n - 1, limit);
      Next(n - 1, limit);
    }
  }

  lemma Next(n: nat, limit: nat)
    ensures (n + 1) * limit == n * limit + limit
  {}

  lemma RoundedUp(length: nat, limit: nat)
    requires limit > 0
    ensures length <= (length + limit - 1) / limit * limit < length + limit
  {}

  lemma CountCovers(length: nat, count: nat, limit: nat, n: nat)
    requires length <= count * limit < length + limit
    ensures n * limit < length <==> n < count
  {
    if n < count {
      MulMonotone(n, count - 1, limit);
      Next(count - 1, limit);
    } else {
      MulMonotone(count, n, limit);
    }
  }

  lemma ChunkAt(data: seq<nat>, n: nat, limit: nat, count: nat)
    requires |data| <= count * limit < |data| + limit
    ensures Chunk(data, n, limit).Some? <==> n < count
    ensures Chunk(data, n, limit).Some? ==> 0 < |Chunk(data, n, limit).value| <= limit
  {
    CountCovers(|data|, count, limit, n);
  }

  lemma AllChunks(data: seq<nat>, limit: nat, count: nat)
    requires limit > 0 && |data| <= count * limit
    ensures FirstChunks(data, count, limit) == data
  {
    FirstChunksArePrefix(data, count, limit);
  }

  /** The chunks numbered below the length divided by the limit, rounded up, are exactly the ones that
      exist, and together they are the captured table. */
  lemma ChunksAreTheTable(data: seq<nat>, limit: nat)
    requires limit > 0
    ensures FirstChunks(data, ChunkCount(data, limit), limit) == data
    ensures forall n: nat :: Chunk(data, n, limit).Some? <==> n < ChunkCount(data, limit)
    ensures forall n: nat :: Chunk(data, n, limit).Some? ==> 0 < |Chunk(data, n, limit).value| <= limit
  {
    var count := ChunkCount(data, limit);
    RoundedUp(|data|, limit);
    AllChunks(data, limit, count);
    hide Chunk, ChunkCount, FirstChunks;
    forall n: nat
      ensures Chunk(data, n, limit).Some? <==> n < count
      ensures Chunk(data, n, limit).Some? ==> 0 < |Chunk(data, n, limit).value| <= limit
    {
      ChunkAt(data, n, limit, count);
    }
  }
}
