/** The managed-entity store (internal/mib/store.go). Attribute maps are objects on the heap, as Go maps
    are references, so that copying, sharing and in-place writes are visible. The definitions of the
    managed entities are an abstract library. */
module MibStore {
  import opened Sequences
  import T = TableUpdates
  import M = MulticastTables
  import R = TableRules

  datatype Value =
    | Scalar(bits: nat, value: nat)
    | Octets(bytes: seq<nat>)
    | TableRows(table: T.Table)

  type Attributes = map<string, Value>

  datatype Key = Key(classID: nat, entityID: nat)

  datatype Origin = FromONU | FromOLT

  datatype Error =
    | UnknownEntity | UnknownInstance | InstanceExists | NotSupported | AttributeFailure
    | ParameterError | ProcessingError

  datatype Operation =
    | OpCreate | OpSet | OpSetTable | OpDelete | OpReset | OpCommand | OpAutonomous

  const ONU_DATA_CLASS: nat := 2
  const ONU_DATA := Key(ONU_DATA_CLASS, 0)
  const MIB_DATA_SYNC: string := "MibDataSync"
  const MANAGED_ENTITY_ID: string := "ManagedEntityId"
  const ONU3 := Key(441, 0)

  /** The attributes a MIB reset keeps. */
  const KEPT_BY_RESET: set<string> :=
    {"LatestRestartReason", "NumberOfValidStatusSnapshots", "NextStatusSnapshotIndex",
     "StatusSnapshotRecordTable", "MostRecentStatusSnapshot"}

  class AttributeMap {
    var values: Attributes

    constructor (values: Attributes)
      ensures this.values == values
    {
      this.values := values;
    }
  }

  datatype Instance = Instance(attributes: AttributeMap, origin: Origin)

  type Instances = map<Key, Instance>

  /** The value of an instance: what a deep copy of it holds. */
  datatype Entry = Entry(values: Attributes, origin: Origin)

  type Document = map<Key, Entry>

  ghost function Objects(instances: Instances): set<AttributeMap> {
    set key | key in instances :: instances[key].attributes
  }

  ghost function View(instances: Instances): Document
    reads Objects(instances)
  {
    map key | key in instances :: Entry(instances[key].attributes.values, instances[key].origin)
  }

  /** The instances have the given value, and no two of them share an attribute map. */
  ghost predicate Holds(instances: Instances, doc: Document)
    reads Objects(instances)
  {
    Distinct(instances) && View(instances) == doc
  }

  /** No two instances share an attribute map. */
  ghost predicate Distinct(instances: Instances) {
    forall a, b :: a in instances && b in instances && a != b ==> instances[a].attributes != instances[b].attributes
  }

  // ---------- data sync ----------

  function Increment(sync: nat): nat { if sync == 255 then 1 else sync + 1 }

  /** The counter after n accepted commands. */
  function SyncAfter(base: nat, n: nat): nat { if n == 0 then base else Increment(SyncAfter(base, n - 1)) }

  /** From zero the counter runs 1 to 255 and then starts again at 1, never returning to 0. */
  lemma {:induction false} SyncClosedForm(n: nat)
    ensures SyncAfter(0, n) == if n == 0 then 0 else (n - 1) % 255 + 1
  {
    if n != 0 {
      SyncClosedForm(n - 1);
    }
  }

  function Synced(doc: Document, sync: nat): Document {
    if ONU_DATA in doc
    then doc[ONU_DATA := doc[ONU_DATA].(values := doc[ONU_DATA].values[MIB_DATA_SYNC := Scalar(8, sync)])]
    else doc
  }

  ghost predicate Agrees(doc: Document, sync: nat) {
    ONU_DATA in doc ==> MIB_DATA_SYNC in doc[ONU_DATA].values && doc[ONU_DATA].values[MIB_DATA_SYNC] == Scalar(8, sync)
  }

  lemma SyncedAgrees(doc: Document, sync: nat)
    ensures Agrees(Synced(doc, sync), sync)
  {}

  // ---------- copies ----------

  method CloneInstance(instance: Instance) returns (copy: Instance)
    ensures fresh(copy.attributes) && copy.origin == instance.origin
    ensures copy.attributes.values == instance.attributes.values
  {
    var attributes := new AttributeMap(instance.attributes.values);
    copy := Instance(attributes, instance.origin);
  }

  method CloneInstances(instances: Instances) returns (copy: Instances)
    ensures fresh(Objects(copy)) && Holds(copy, View(instances))
  {
    copy := map[];
    var rest := instances.Keys;
    while rest != {}
      invariant rest <= instances.Keys && copy.Keys == instances.Keys - rest
      invariant Distinct(copy) && forall key :: key in copy ==> fresh(copy[key].attributes)
      invariant forall key :: key in copy ==>
                  && copy[key].attributes.values == instances[key].attributes.values
                  && copy[key].origin == instances[key].origin
      decreases |rest|
    {
      var key :| key in rest;
      rest := rest - {key};
      var next := CloneInstance(instances[key]);
      copy := copy[key := next];
    }
  }

  /** The deep copy handed to the platform. */
  method Snapshot(instances: Instances) returns (doc: Document)
    ensures doc == View(instances)
  {
    doc := map[];
    var rest := instances.Keys;
    while rest != {}
      invariant rest <= instances.Keys && doc.Keys == instances.Keys - rest
      invariant forall key :: key in doc ==> doc[key] == Entry(instances[key].attributes.values, instances[key].origin)
      decreases |rest|
    {
      var key :| key in rest;
      rest := rest - {key};
      doc := doc[key := Entry(instances[key].attributes.values, instances[key].origin)];
    }
  }

  /** Writes the counter into the attribute map of the ONU data instance, in place. */
  method SetDataSync(instances: Instances, sync: nat, ghost doc: Document)
    requires Holds(instances, doc)
    modifies Objects(instances)
    ensures Holds(instances, Synced(doc, sync))
  {
    if ONU_DATA in instances {
      var attributes := instances[ONU_DATA].attributes;
      attributes.values := attributes.values[MIB_DATA_SYNC := Scalar(8, sync)];
    }
  }

  // ---------- the platform ----------

  datatype Applied = Applied(operation: Operation, snapshot: Document, sync: nat)

  /** A document offered to the platform, and whether it took it. */
  datatype Offering = Offering(change: Applied, taken: bool)

  /** The platform transaction prepared for one command. */
  class CommandTransaction {
    ghost var committed: nat
    ghost var aborted: nat

    constructor ()
      ensures committed == 0 && aborted == 0
    {
      committed, aborted := 0, 0;
    }

    method Commit() returns (ok: bool)
      modifies this
      ensures aborted == old(aborted) && committed == old(committed) + if ok then 1 else 0
    {
      ok := *;
      if ok {
        committed := committed + 1;
      }
    }

    method Abort() returns (ok: bool)
      modifies this
      ensures committed == old(committed) && aborted == old(aborted) + 1
    {
      ok := *;
      aborted := aborted + 1;
    }
  }

  // ---------- the store ----------

  /** What the generated definitions decide: which classes the ONU supports, whether a request is allowed,
      the attributes of a created instance, the normal form of an instance, and the row size of a writable
      table attribute. The capacity of the VLAN tables is configured. */
  datatype Library = Library(
    supports: nat -> bool,
    permit: (Operation, Key, Attributes) -> Option<Error>,
    complete: (Key, Attributes) -> Option<Attributes>,
    normalize: (Key, Attributes) -> Option<Attributes>,
    rowSize: (nat, string) -> Option<nat>,
    capacity: nat)

  predicate IsTable(key: Key, name: string) { R.KindOf(key.classID, name).Some? }

  /** The definitions and the table rules agree on the row sizes, and normalization leaves a table alone. */
  ghost predicate KeepsTables(library: Library) {
    && (forall key: Key, name: string :: IsTable(key, name) && library.rowSize(key.classID, name).Some? ==>
          library.rowSize(key.classID, name).value == R.Size(R.KindOf(key.classID, name).value))
    && (forall key: Key, name: string, values: Attributes ::
          IsTable(key, name) && library.normalize(key, values).Some? && name in library.normalize(key, values).value ==>
            name in values && library.normalize(key, values).value[name] == values[name])
  }

  /** The value is a table stored by its rules, or the tagging rules of a new instance. */
  ghost predicate StoredTable(kind: R.Kind, capacity: nat, value: Value) {
    && value.TableRows?
    && ((kind.TaggingRules? && value.table == R.DefaultTable()) || exists m :: R.Stores(kind, capacity, value.table, m))
  }

  ghost predicate StoredTables(library: Library, key: Key, values: Attributes) {
    forall name :: name in values && IsTable(key, name) ==>
      StoredTable(R.KindOf(key.classID, name).value, library.capacity, values[name])
  }

  /** Every table of the MIB is stored by its rules. */
  ghost predicate TablesStored(library: Library, doc: Document) {
    forall key :: key in doc ==> StoredTables(library, key, doc[key].values)
  }

  /** A created instance starts with stored tables. */
  ghost predicate CreatesTables(library: Library) {
    forall key, attributes :: library.complete(key, attributes).Some? ==>
      StoredTables(library, key, library.complete(key, attributes).value)
  }

  /** The attributes hold no table: the rules of tables only govern SetTable. */
  predicate NoTables(key: Key, attributes: Attributes) { forall name :: name in attributes ==> !IsTable(key, name) }

  /** tableRows: the table an attribute holds; a missing attribute is an empty table. */
  function ExistingTable(values: Attributes, name: string, size: nat): Option<T.Table> {
    if name !in values then Some(T.EmptyTable)
    else if values[name].TableRows? && T.Aligned(values[name].table, size) then Some(values[name].table)
    else None
  }

  predicate WriteNoTables(updates: map<Key, Attributes>) {
    forall key :: key in updates ==> NoTables(key, updates[key])
  }

  lemma PutKeepsTables(library: Library, doc: Document, key: Key, values: Attributes, origin: Origin)
    requires TablesStored(library, doc) && StoredTables(library, key, values)
    ensures TablesStored(library, Put(doc, key, values, origin))
  {}

  lemma SyncKeepsTables(library: Library, doc: Document, sync: nat)
    requires TablesStored(library, doc)
    ensures TablesStored(library, Synced(doc, sync))
  {
    hide StoredTable;
    assert !IsTable(ONU_DATA, MIB_DATA_SYNC);
  }

  lemma NormalKeepsTables(library: Library, key: Key, values: Attributes)
    requires KeepsTables(library) && StoredTables(library, key, values) && library.normalize(key, values).Some?
    ensures StoredTables(library, key, library.normalize(key, values).value)
  {
    hide StoredTable;
  }

  /** Writing attributes that are no tables. */
  lemma WriteKeepsTables(library: Library, doc: Document, key: Key, attributes: Attributes)
    requires KeepsTables(library) && TablesStored(library, doc) && key in doc && NoTables(key, attributes)
    requires library.normalize(key, doc[key].values + attributes).Some?
    ensures StoredTables(library, key, library.normalize(key, doc[key].values + attributes).value)
  {
    hide StoredTable, KeepsTables;
    NormalKeepsTables(library, key, doc[key].values + attributes);
  }

  /** Writing one table. */
  lemma TableKeepsTables(library: Library, doc: Document, key: Key, name: string, value: Value)
    requires KeepsTables(library) && TablesStored(library, doc) && key in doc && IsTable(key, name)
    requires StoredTable(R.KindOf(key.classID, name).value, library.capacity, value)
    requires library.normalize(key, doc[key].values[name := value]).Some?
    ensures StoredTables(library, key, library.normalize(key, doc[key].values[name := value]).value)
  {
    hide StoredTable, KeepsTables;
    NormalKeepsTables(library, key, doc[key].values[name := value]);
  }

  /** An update of a stored table leaves a stored table. */
  lemma UpdateKeepsStored(kind: R.Kind, capacity: nat, values: Attributes, name: string, updates: T.Table,
                          updated: T.Table)
    requires name in values ==> StoredTable(kind, capacity, values[name])
    requires ExistingTable(values, name, R.Size(kind)).Some? && T.Aligned(updates, R.Size(kind))
    requires R.TableResult(kind, capacity, ExistingTable(values, name, R.Size(kind)).value, updates, T.Updated(updated))
    ensures StoredTable(kind, capacity, TableRows(updated))
  {
    hide R.TableResult, R.Stores, R.Listed, R.Edited;
    var existing := ExistingTable(values, name, R.Size(kind)).value;
    R.EmptyTableIsStored(kind, capacity);
    R.DefaultTableIsListed();
    if exists m :: R.Stores(kind, capacity, existing, m) {
      var m :| R.Stores(kind, capacity, existing, m);
      R.StoredIsListed(kind, capacity, existing, m);
    }
    var m :| R.Listed(kind, existing, m);
    R.UpdateOfListed(kind, capacity, existing, m, updates, T.Updated(updated));
  }

  /** Expiry leaves a stored table. */
  lemma ExpiryKeepsStored(capacity: nat, existing: T.Table, timers: map<nat, M.Timer>, kept: T.Table, any: bool)
    requires StoredTable(R.AllowedPreviews, capacity, TableRows(existing))
    requires M.ExpiryResult(existing, timers, kept, any)
    ensures StoredTable(R.AllowedPreviews, capacity, TableRows(if any then kept else existing))
  {
    hide M.ExpiryResult, R.Stores;
    var m :| R.Stores(R.AllowedPreviews, capacity, existing, m);
    R.StoresExpired(capacity, existing, m, timers, kept, any);
  }

  /** Normalization keeps the counter it is given. */
  ghost predicate KeepsSync(library: Library) {
    forall values: Attributes :: MIB_DATA_SYNC in values && library.normalize(ONU_DATA, values).Some? ==>
      && MIB_DATA_SYNC in library.normalize(ONU_DATA, values).value
      && library.normalize(ONU_DATA, values).value[MIB_DATA_SYNC] == values[MIB_DATA_SYNC]
  }

  /** Attributes the ONU or a command may not write: the identifier and the counter itself. */
  predicate Reserved(key: Key, attributes: Attributes) {
    MANAGED_ENTITY_ID in attributes || (key.classID == ONU_DATA_CLASS && MIB_DATA_SYNC in attributes)
  }

  /** The instance with a request's attributes written over its own. */
  function Overlaid(values: Attributes, attributes: Attributes): Attributes {
    values + (attributes - {MANAGED_ENTITY_ID})
  }

  function Put(doc: Document, key: Key, values: Attributes, origin: Origin): Document {
    doc[key := Entry(values, origin)]
  }

  /** A reset: the factory MIB, with the status snapshots of the live one. */
  function ResetDocument(factory: Document, current: Document): Document {
    if ONU3 in factory && ONU3 in current then
      factory[ONU3 := factory[ONU3].(values := factory[ONU3].values + Kept(current[ONU3].values))]
    else factory
  }

  function Kept(values: Attributes): Attributes {
    map name | name in values && name in KEPT_BY_RESET :: values[name]
  }

  /** The status snapshots of the live MIB survive a reset, whatever the factory MIB says of them. */
  lemma ResetKeepsSnapshots(factory: Document, current: Document, name: string)
    requires ONU3 in factory && ONU3 in current && name in KEPT_BY_RESET && name in current[ONU3].values
    ensures Look(ResetDocument(factory, current)[ONU3].values, name) == Look(current[ONU3].values, name)
  {}

  class Store {
    const library: Library
    var factory: Instances
    var current: Instances
    var dataSync: nat
    /** The counter's value at the last reset or explicit write, and the accepted commands since. */
    ghost var base: nat
    ghost var commands: nat
    /** The values of the live and the factory MIB. */
    ghost var mib: Document
    /** Every document the platform has accepted, oldest first. */
    ghost var accepted: seq<Applied>
    /** Every document ever offered. */
    ghost var offers: seq<Offering>
    ghost var factoryMib: Document

    /** The factory and the live MIB share no attribute map, and the live ONU data holds the counter. */
    ghost predicate Valid()
      reads this, Objects(current), Objects(factory)
    {
      && KeepsSync(library) && KeepsTables(library) && CreatesTables(library)
      && Holds(current, mib) && Holds(factory, factoryMib) && Objects(current) !! Objects(factory)
      && Agrees(mib, dataSync)
      && dataSync == SyncAfter(base, commands)
    }

    constructor (library: Library, instances: Document)
      requires KeepsSync(library) && KeepsTables(library) && CreatesTables(library)
      ensures Valid() && this.library == library && accepted == [] && offers == []
      ensures TablesStored(library, instances) ==> TablesStored(library, mib)
      ensures factoryMib == instances && mib == Synced(instances, 0)
      ensures dataSync == 0 && base == 0 && commands == 0
      ensures fresh(Objects(current)) && fresh(Objects(factory))
    {
      this.library, accepted, offers := library, [], [];
      dataSync, base, commands := 0, 0, 0;
      hide Holds, Synced, Agrees, KeepsSync, View, KeepsTables, CreatesTables, TablesStored;
      SyncedAgrees(instances, 0);
      if TablesStored(library, instances) {
        SyncKeepsTables(library, instances, 0);
      }
      var original, live := BuildBoth(instances);
      factory, current, factoryMib, mib := original, live, instances, Synced(instances, 0);
    }

    /** The factory MIB and a live copy of it, with the counter at zero. */
    static method BuildBoth(doc: Document) returns (original: Instances, live: Instances)
      ensures fresh(Objects(original)) && fresh(Objects(live)) && Objects(original) !! Objects(live)
      ensures Holds(original, doc) && Holds(live, Synced(doc, 0))
    {
      hide Holds, Synced, View;
      original := Build(doc);
      ViewOf(original, doc);
      live := CloneInstances(original);
      SetDataSync(live, 0, doc);
    }

    static method Build(doc: Document) returns (instances: Instances)
      ensures fresh(Objects(instances)) && Holds(instances, doc)
    {
      instances := map[];
      var rest := doc.Keys;
      while rest != {}
        invariant rest <= doc.Keys && instances.Keys == doc.Keys - rest
        invariant Distinct(instances) && forall key :: key in instances ==> fresh(instances[key].attributes)
        invariant forall key :: key in instances ==>
                    Entry(instances[key].attributes.values, instances[key].origin) == doc[key]
        decreases |rest|
      {
        var key :| key in rest;
        rest := rest - {key};
        var attributes := new AttributeMap(doc[key].values);
        instances := instances[key := Instance(attributes, doc[key].origin)];
      }
    }

    ghost function State(): StoreState
      reads this
    {
      StoreState(mib, dataSync, base, commands)
    }

    /** The platform accepts a document or rejects it. */
    method Apply(change: Applied) returns (ok: bool)
      modifies `accepted, `offers
      ensures accepted == if ok then old(accepted) + [change] else old(accepted)
      ensures offers == old(offers) + [Offering(change, ok)]
    {
      ok := *;
      offers := offers + [Offering(change, ok)];
      if ok {
        accepted := accepted + [change];
      }
    }

    /** Offers a finished candidate to the platform and installs it when it is accepted. */
    method Offer(operation: Operation, next: Instances, sync: nat, ghost doc: Document, ghost from: nat,
                 ghost steps: nat)
      returns (ok: bool)
      requires Valid() && Holds(next, doc) && Agrees(doc, sync) && sync == SyncAfter(from, steps)
      requires Objects(next) !! Objects(factory)
      modifies `current, `dataSync, `base, `commands, `mib, `accepted, `offers
      ensures Valid() && current == if ok then next else old(current)
      ensures State() == if ok then StoreState(doc, sync, from, steps) else old(State())
      ensures accepted ==
              if ok then old(accepted) + [Applied(operation, doc, sync)] else old(accepted)
    {
      hide SyncAfter, Holds, Agrees, KeepsSync, View;
      ViewOf(next, doc);
      var snapshot := Snapshot(next);
      ok := Apply(Applied(operation, snapshot, sync));
      if ok {
        current, dataSync := next, sync;
        base, commands, mib := from, steps, doc;
      }
    }

    /** commitLocked: the candidate becomes the MIB only when the platform accepts it. The counter is
        written into the candidate in place, which must share nothing with the live or factory MIB. */
    method CommitLocked(operation: Operation, next: Instances, sync: nat, ghost doc: Document, ghost from: nat,
                        ghost steps: nat)
      returns (ok: bool)
      requires Valid() && Holds(next, doc) && sync == SyncAfter(from, steps)
      requires Objects(next) !! Objects(current) + Objects(factory)
      modifies `current, `dataSync, `base, `commands, `mib, `accepted, `offers, Objects(next)
      ensures Valid() && current == if ok then next else old(current)
      ensures State() == if ok then StoreState(Synced(doc, sync), sync, from, steps) else old(State())
      ensures accepted ==
              if ok then old(accepted) + [Applied(operation, Synced(doc, sync), sync)] else old(accepted)
    {
      hide SyncAfter, Holds, Synced, Agrees, KeepsSync, State;
      SyncedAgrees(doc, sync);
      SetDataSync(next, sync, doc);
      ok := Offer(operation, next, sync, Synced(doc, sync), from, steps);
    }

    /** A copy of the whole MIB with one instance replaced or added. */
    method Propose(key: Key, values: Attributes, origin: Origin) returns (next: Instances)
      requires Valid()
      ensures fresh(Objects(next)) && Holds(next, Put(mib, key, values, origin))
    {
      hide Agrees, KeepsSync, SyncAfter;
      var copy := CloneInstances(current);
      var attributes := new AttributeMap(values);
      next := copy[key := Instance(attributes, origin)];
      assert Objects(next) <= Objects(copy) + {attributes};
    }

    /** Replaces one instance in a copy of the MIB and commits the copy. */
    method CommitInstance(operation: Operation, key: Key, values: Attributes, origin: Origin, sync: nat,
                          ghost from: nat, ghost steps: nat)
      returns (error: Option<Error>)
      requires Valid() && sync == SyncAfter(from, steps)
      modifies `current, `dataSync, `base, `commands, `mib, `accepted, `offers
      ensures Valid() && fresh(Objects(current) - old(Objects(current)))
      ensures error.Some? ==> State() == old(State()) && accepted == old(accepted)
      ensures error.None? ==> State() == StoreState(Synced(Put(old(mib), key, values, origin), sync), sync, from, steps)
      ensures error.None? ==> accepted == old(accepted) + [Applied(operation, mib, sync)]
    {
      hide Holds, Synced, SyncAfter, Put, Agrees, KeepsSync;
      var next := Propose(key, values, origin);
      var ok := CommitLocked(operation, next, sync, Put(mib, key, values, origin), from, steps);
      error := if ok then None else Some(ProcessingError);
    }

    /** Accepted means the platform took the new MIB; rejected means nothing at all changed. */
    method Create(key: Key, attributes: Attributes) returns (error: Option<Error>)
      requires Valid()
      modifies `current, `dataSync, `base, `commands, `mib, `accepted, `offers
      ensures Valid() && fresh(Objects(current) - old(Objects(current)))
      ensures error.Some? ==> State() == old(State())
      ensures key in old(mib) && library.supports(key.classID) ==> error == Some(InstanceExists)
      ensures error.None? ==>
                && key !in old(mib) && library.supports(key.classID)
                && exists values :: Made(library, key, attributes, values)
                     && State() == NextCommand(old(State()), Put(old(mib), key, values, FromOLT))
      ensures TablesStored(library, old(mib)) ==> TablesStored(library, mib)
    {
      hide Holds, Synced, SyncAfter, Put, Agrees, KeepsSync, KeepsTables, StoredTables, TablesStored;
      KeysAgree(current, mib);
      if !library.supports(key.classID) {
        return Some(UnknownEntity);
      }
      if key in current {
        return Some(InstanceExists);
      }
      error := library.permit(OpCreate, key, attributes);
      if error.Some? {
        return;
      }
      var created := library.complete(key, attributes);
      if created.None? {
        return Some(ParameterError);
      }
      var normalized := library.normalize(key, created.value);
      if normalized.None? {
        return Some(ParameterError);
      }
      assert Made(library, key, attributes, normalized.value);
      CreationKeepsTables(library, mib, key, attributes, Increment(dataSync));
      NextSync(dataSync, base, commands);
      error := CommitInstance(OpCreate, key, normalized.value, FromOLT, Increment(dataSync), base, commands + 1);
    }

    method Set(key: Key, attributes: Attributes) returns (error: Option<Error>)
      requires Valid()
      modifies `current, `dataSync, `base, `commands, `mib, `accepted, `offers
      ensures Valid() && fresh(Objects(current) - old(Objects(current)))
      ensures error.Some? ==> State() == old(State()) && accepted == old(accepted)
      ensures error.None? ==> key in old(mib) && SetOutcome(library, old(State()), State(), key, attributes)
      ensures error.None? ==> accepted == old(accepted) + [Applied(OpSet, mib, dataSync)] ||
                              (accepted == old(accepted) && State() == old(State()))
      ensures TablesStored(library, old(mib)) && NoTables(key, attributes) ==> TablesStored(library, mib)
    {
      hide Holds, Synced, SyncAfter, Agrees, KeepsSync, KeepsTables, StoredTables, TablesStored, NoTables;
      KeysAgree(current, mib);
      if key !in current {
        return Some(if library.supports(key.classID) then UnknownInstance else UnknownEntity);
      }
      error := library.permit(OpSet, key, attributes);
      if error.Some? {
        return;
      }
      var before := current[key].attributes.values;
      var normalized := library.normalize(key, Overlaid(before, attributes));
      if normalized.None? {
        return Some(ParameterError);
      }
      var values, sync := normalized.value, Increment(dataSync);
      ghost var from, steps := base, commands + 1;
      NextSync(dataSync, base, commands);
      if Writes(key, attributes) {
        var requested := attributes[MIB_DATA_SYNC];
        if !IsByte(requested) {
          return Some(ParameterError);
        }
        sync, from, steps := Increment(requested.value), requested.value, 1;
        SyncStarts(requested.value);
        NextSync(requested.value, requested.value, 0);
        values := values[MIB_DATA_SYNC := Scalar(8, sync)];
      }
      if before == values {
        return None;
      }
      SetKeepsTables(library, mib, key, attributes, values, sync);
      error := CommitInstance(OpSet, key, values, current[key].origin, sync, from, steps);
    }

    /** SetTable: the update rows of one table attribute go through its rules, and the resulting table is
        one more command when it changes the instance. */
    method SetTable(key: Key, name: string, value: Value) returns (error: Option<Error>)
      requires Valid()
      modifies `current, `dataSync, `base, `commands, `mib, `accepted, `offers
      ensures Valid() && fresh(Objects(current) - old(Objects(current)))
      ensures error.Some? ==> State() == old(State()) && accepted == old(accepted)
      ensures error.None? ==> exists updated :: TableSet(library, old(State()), State(), key, name, value, updated)
      ensures error.None? ==> accepted == old(accepted) + [Applied(OpSetTable, mib, dataSync)] ||
                              (accepted == old(accepted) && State() == old(State()))
      ensures TablesStored(library, old(mib)) ==> TablesStored(library, mib)
    {
      hide Holds, Synced, SyncAfter, Agrees, KeepsSync, KeepsTables, StoredTables, R.TableResult;
      KeysAgree(current, mib);
      if key !in current {
        return Some(if library.supports(key.classID) then UnknownInstance else UnknownEntity);
      }
      error := library.permit(OpSetTable, key, map[name := value]);
      if error.Some? {
        return;
      }
      var before := current[key].attributes.values;
      var table;
      table, error := UpdatedTable(key.classID, name, value, before);
      if error.Some? {
        return;
      }
      var normalized := library.normalize(key, before[name := TableRows(table)]);
      if normalized.None? {
        return Some(ParameterError);
      }
      TableSetKeepsTables(library, mib, key, name, value, table);
      if before == normalized.value {
        assert TableSet(library, old(State()), State(), key, name, value, table);
        return None;
      }
      NextSync(dataSync, base, commands);
      error :=
        CommitInstance(OpSetTable, key, normalized.value, current[key].origin, Increment(dataSync), base, commands + 1);
      if error.None? {
        assert TableSet(library, old(State()), State(), key, name, value, table);
      }
    }

    /** The outcome of the table rules, or why the request is refused. */
    method UpdatedTable(classID: nat, name: string, value: Value, values: Attributes)
      returns (table: T.Table, error: Option<Error>)
      requires KeepsTables(library)
      ensures error.None? ==> TableUpdated(library, classID, name, value, values, table)
    {
      hide R.TableResult;
      table, error := T.EmptyTable, None;
      var size := library.rowSize(classID, name);
      if size.None? {
        return table, Some(AttributeFailure);
      }
      if !value.TableRows? || !T.Aligned(value.table, size.value) {
        return table, Some(ParameterError);
      }
      var existing := ExistingTable(values, name, size.value);
      if existing.None? {
        return table, Some(ProcessingError);
      }
      var kind := R.KindOf(classID, name);
      if kind.None? {
        return table, Some(NotSupported);
      }
      assert IsTable(Key(classID, 0), name);
      var outcome := R.ApplyTableRows(kind.value, library.capacity, existing.value, value.table);
      match outcome
      case Updated(updated) => table := updated;
      case ParameterError => error := Some(ParameterError);
      case ProcessingError => error := Some(ProcessingError);
    }

    /** Timed preview rows expire on the ONU's own account: the platform is asked, the counter stays. */
    method ExpireAllowedPreviewRows(key: Key, timers: seq<M.AllowedPreviewTimer>)
      returns (any: bool, error: Option<Error>)
      requires Valid()
      modifies `current, `dataSync, `base, `commands, `mib, `accepted, `offers
      ensures Valid() && fresh(Objects(current) - old(Objects(current)))
      ensures dataSync == old(dataSync) && base == old(base) && commands == old(commands)
      ensures error.Some? || !any ==> State() == old(State()) && accepted == old(accepted)
      ensures error.None? ==> key in old(mib) && M.SoundTimers(timers)
      ensures error.None? ==> exists indexed, kept ::
                M.Indexed(timers, indexed) && TableExpired(library, old(mib), mib, dataSync, key, indexed, kept, any)
      ensures any && error.None? ==> accepted == old(accepted) + [Applied(OpAutonomous, mib, dataSync)]
      ensures TablesStored(library, old(mib)) ==> TablesStored(library, mib)
    {
      hide Holds, Synced, SyncAfter, Agrees, KeepsSync, KeepsTables, StoredTables, M.ExpiryResult, M.SoundTimers,
           M.Indexed;
      KeysAgree(current, mib);
      any := false;
      if key.classID != R.SUBSCRIBER_CLASS {
        return false, Some(ProcessingError);
      }
      if key !in current {
        return false, Some(if library.supports(key.classID) then UnknownInstance else UnknownEntity);
      }
      var indexed := M.IndexAllowedPreviewTimers(timers);
      if indexed.None? {
        return false, Some(ProcessingError);
      }
      var before := current[key].attributes.values;
      var existing := ExistingTable(before, R.ALLOWED_PREVIEWS, M.PREVIEW_SIZE);
      if existing.None? {
        return false, Some(ProcessingError);
      }
      var kept;
      kept, any := M.RemoveExpired(existing.value, indexed.value);
      if !any {
        assert TableExpired(library, old(mib), mib, dataSync, key, indexed.value, kept, any);
        return false, None;
      }
      var normalized := library.normalize(key, before[R.ALLOWED_PREVIEWS := TableRows(kept)]);
      if normalized.None? {
        return false, Some(ParameterError);
      }
      TableExpiredKeepsTables(library, mib, key, indexed.value, kept, dataSync);
      error := CommitInstance(OpAutonomous, key, normalized.value, current[key].origin, dataSync, base, commands);
      any := error.None?;
      if any {
        assert TableExpired(library, old(mib), mib, dataSync, key, indexed.value, kept, any);
      }
    }

    method Delete(key: Key) returns (error: Option<Error>)
      requires Valid()
      modifies `current, `dataSync, `base, `commands, `mib, `accepted, `offers
      ensures Valid() && fresh(Objects(current) - old(Objects(current)))
      ensures error.Some? ==> State() == old(State())
      ensures key in old(mib) && old(mib)[key].origin == FromONU ==> error == Some(NotSupported)
      ensures error.None? ==> key in old(mib) && State() == NextCommand(old(State()), old(mib) - {key})
      ensures TablesStored(library, old(mib)) ==> TablesStored(library, mib)
    {
      hide Holds, Synced, SyncAfter, Agrees, KeepsSync, KeepsTables, StoredTables;
      KeysAgree(current, mib);
      if key !in current {
        return Some(if library.supports(key.classID) then UnknownInstance else UnknownEntity);
      }
      if current[key].origin == FromONU {
        return Some(NotSupported);
      }
      error := library.permit(OpDelete, key, map[]);
      if error.Some? {
        return;
      }
      NextSync(dataSync, base, commands);
      if TablesStored(library, mib) {
        SyncKeepsTables(library, mib - {key}, Increment(dataSync));
      }
      var next := ProposeWithout(key);
      var ok := CommitLocked(OpDelete, next, Increment(dataSync), mib - {key}, base, commands + 1);
      error := if ok then None else Some(ProcessingError);
    }

    method ProposeWithout(key: Key) returns (next: Instances)
      requires Valid()
      ensures fresh(Objects(next)) && Holds(next, mib - {key})
    {
      hide Agrees, KeepsSync, SyncAfter;
      var copy := CloneInstances(current);
      next := copy - {key};
      assert Objects(next) <= Objects(copy);
    }

    /** Back to the factory MIB, but for the status snapshots; the counter starts again at zero. */
    method Reset() returns (error: Option<Error>)
      requires Valid()
      modifies `current, `dataSync, `base, `commands, `mib, `accepted, `offers
      ensures Valid() && fresh(Objects(current) - old(Objects(current)))
      ensures error.Some? ==> State() == old(State())
      ensures error.None? ==> State() == StoreState(Synced(ResetDocument(factoryMib, old(mib)), 0), 0, 0, 0)
      ensures TablesStored(library, factoryMib) && TablesStored(library, old(mib)) ==> TablesStored(library, mib)
    {
      hide Holds, Synced, Agrees, KeepsSync, View, KeepsTables, StoredTables, TablesStored;
      ViewOf(factory, factoryMib);
      var next := CloneInstances(factory);
      PreserveONU3State(current, next, mib, factoryMib);
      ResetKeepsTables(library, factoryMib, mib);
      var ok := CommitLocked(OpReset, next, 0, ResetDocument(factoryMib, mib), 0, 0);
      error := if ok then None else Some(ProcessingError);
    }

    /** Counting from a reset, the counter is 0 before the first accepted command and then runs through
        1 to 255 over and over. */
    lemma CounterAfterReset()
      requires Valid() && base == 0
      ensures dataSync == if commands == 0 then 0 else (commands - 1) % 255 + 1
      ensures ONU_DATA in mib ==> Look(mib[ONU_DATA].values, MIB_DATA_SYNC) == Some(Scalar(8, dataSync))
    {
      hide Holds, KeepsSync;
      SyncClosedForm(commands);
    }

    // ---------- updates by the ONU itself ----------

    /** The normal form of an instance with ONU-originated attributes written over it, or why not. */
    method Validate(operation: Operation, key: Key, attributes: Attributes)
      returns (values: Attributes, differs: bool, error: Option<Error>)
      requires Valid()
      ensures error.None? ==>
                key in mib && Updates(library, mib, key, attributes, values) && (differs <==> values != mib[key].values)
    {
      hide Holds, SyncAfter, KeepsSync, Agrees;
      KeysAgree(current, mib);
      values, differs := map[], false;
      if key !in current {
        return values, false, Some(if library.supports(key.classID) then UnknownInstance else UnknownEntity);
      }
      error := library.permit(operation, key, attributes);
      if error.Some? {
        return;
      }
      if Reserved(key, attributes) {
        return values, false, Some(AttributeFailure);
      }
      var normalized := library.normalize(key, current[key].attributes.values + attributes);
      if normalized.None? {
        return values, false, Some(ParameterError);
      }
      values, differs := normalized.value, normalized.value != current[key].attributes.values;
    }

    /** Records what the hardware changed: no platform call, no counter. */
    method UpdateAutonomous(key: Key, attributes: Attributes)
      returns (changed: map<string, Option<Value>>, error: Option<Error>)
      requires Valid()
      modifies `current, `mib
      ensures Valid() && fresh(Objects(current) - old(Objects(current)))
      ensures error.Some? ==> mib == old(mib) && changed == map[]
      ensures error.None? ==>
                exists values :: AutonomousOutcome(library, old(mib), mib, key, attributes, values, changed)
      ensures TablesStored(library, old(mib)) && NoTables(key, attributes) ==> TablesStored(library, mib)
    {
      hide Holds, SyncAfter, KeepsSync, Agrees, KeepsTables, StoredTables, TablesStored, NoTables;
      var values, differs;
      changed := map[];
      values, differs, error := Validate(OpAutonomous, key, attributes);
      if error.Some? {
        return;
      }
      KeysAgree(current, mib);
      changed := CollectChanges(attributes, current[key].attributes.values, values);
      if changed != map[] {
        StaysInSync(library, mib, dataSync, key, attributes, values);
        if TablesStored(library, mib) && NoTables(key, attributes) {
          WriteKeepsTables(library, mib, key, attributes);
          PutKeepsTables(library, mib, key, values, mib[key].origin);
        }
        InstallAutonomous(key, values);
      }
      assert AutonomousOutcome(library, old(mib), mib, key, attributes, values, changed);
    }

    method InstallAutonomous(key: Key, values: Attributes)
      requires Valid() && key in mib && Agrees(Put(mib, key, values, mib[key].origin), dataSync)
      modifies `current, `mib
      ensures Valid() && fresh(Objects(current) - old(Objects(current)))
      ensures mib == Put(old(mib), key, values, old(mib)[key].origin)
    {
      hide Holds, SyncAfter, KeepsSync, Agrees, Put;
      KeysAgree(current, mib);
      var replacement := new AttributeMap(values);
      InstallOne(current, mib, key, replacement, factory);
      current := current[key := Instance(replacement, current[key].origin)];
      mib := Put(mib, key, values, mib[key].origin);
    }

    /** The candidate MIB of several updates, in any order, each validated on its own. */
    method ProposeBatch(updates: map<Key, Attributes>, operation: Operation)
      returns (next: Instances, changed: bool, error: Option<Error>)
      requires Valid()
      ensures fresh(Objects(next))
      ensures error.None? ==> Permitted(library, mib, updates) && Holds(next, Batch(library, mib, updates))
      ensures error.None? ==> (changed <==> Batch(library, mib, updates) != mib)
    {
      hide Holds, SyncAfter, KeepsSync, Agrees, Put, Progress, Permitted, Batch, BatchDocument, Updates;
      ViewOf(current, mib);
      next := CloneInstances(current);
      changed := false;
      ghost var doc := mib;
      var rest := updates.Keys;
      ProgressStarts(library, mib, updates);
      while rest != {}
        invariant Valid() && rest <= updates.Keys && fresh(Objects(next)) && Holds(next, doc)
        invariant Progress(library, mib, updates, rest, doc)
        invariant changed <==> doc != mib
        invariant doc == BatchDocument(library, mib, updates, rest)
        decreases |rest|
      {
        var key :| key in rest;
        assert rest == rest - {key} + {key};
        rest := rest - {key};
        var differs;
        next, differs, error := BatchStep(next, key, updates, operation, doc, rest);
        if error.Some? {
          return;
        }
        doc := BatchDocument(library, mib, updates, rest);
        changed := changed || differs;
      }
      error := None;
      ProgressEnds(library, mib, updates, doc);
    }

    /** One update, validated against the live MIB and written into the candidate. */
    method BatchStep(instances: Instances, key: Key, updates: map<Key, Attributes>, operation: Operation,
                     ghost doc: Document, ghost rest: set<Key>)
      returns (next: Instances, differs: bool, error: Option<Error>)
      requires Valid() && Holds(instances, doc) && key in updates && key !in rest
      requires Progress(library, mib, updates, rest + {key}, doc)
      ensures fresh(Objects(next) - Objects(instances))
      ensures error.None? ==>
                && Progress(library, mib, updates, rest, BatchDocument(library, mib, updates, rest))
                && Holds(next, BatchDocument(library, mib, updates, rest))
                && (BatchDocument(library, mib, updates, rest) != mib <==> doc != mib || differs)
    {
      hide SyncAfter, KeepsSync, Agrees, Put, Updates, Progress;
      next := instances;
      var values;
      values, differs, error := Validate(operation, key, updates[key]);
      if error.Some? {
        return;
      }
      ProgressStep(library, mib, updates, rest, doc, key, values);
      next := ReplaceInstance(instances, key, values, doc);
    }

    /** All of the ONU's updates or none of them: no platform call, no counter. */
    method UpdateAutonomousBatch(updates: map<Key, Attributes>) returns (error: Option<Error>)
      requires Valid()
      modifies `current, `mib
      ensures Valid() && fresh(Objects(current) - old(Objects(current)))
      ensures error.Some? ==> mib == old(mib)
      ensures error.None? ==> Permitted(library, old(mib), updates) && mib == Batch(library, old(mib), updates)
      ensures TablesStored(library, old(mib)) && WriteNoTables(updates) ==> TablesStored(library, mib)
    {
      hide Holds, SyncAfter, KeepsSync, Agrees, Batch, Permitted, KeepsTables, StoredTables, TablesStored,
           WriteNoTables;
      var next, changed;
      next, changed, error := ProposeBatch(updates, OpAutonomous);
      if error.Some? {
        return;
      }
      BatchStaysInSync(library, mib, dataSync, updates);
      BatchKeepsTables(library, mib, updates, dataSync);
      current, mib := next, Batch(library, mib, updates);
    }

    /** What an accepted command does: nothing when no instance changes, otherwise one step of the counter. */
    ghost function CommandState(updates: map<Key, Attributes>): StoreState
      requires Permitted(library, mib, updates)
      reads this
    {
      if Batch(library, mib, updates) == mib then State() else NextCommand(State(), Batch(library, mib, updates))
    }

    method UpdateByCommand(updates: map<Key, Attributes>) returns (error: Option<Error>)
      requires Valid()
      modifies `current, `dataSync, `base, `commands, `mib, `accepted, `offers
      ensures Valid() && fresh(Objects(current) - old(Objects(current)))
      ensures error.Some? ==> State() == old(State()) && accepted == old(accepted)
      ensures error.None? ==> Permitted(library, old(mib), updates) && State() == old(CommandState(updates))
      ensures TablesStored(library, old(mib)) && WriteNoTables(updates) ==> TablesStored(library, mib)
    {
      hide Holds, Synced, SyncAfter, KeepsSync, Agrees, Batch, Permitted, KeepsTables, StoredTables, TablesStored,
           WriteNoTables;
      var next, changed;
      next, changed, error := ProposeBatch(updates, OpCommand);
      if error.Some? || !changed {
        return;
      }
      BatchKeepsTables(library, mib, updates, Increment(dataSync));
      NextSync(dataSync, base, commands);
      var ok := CommitLocked(OpCommand, next, Increment(dataSync), Batch(library, mib, updates), base, commands + 1);
      error := if ok then None else Some(ProcessingError);
    }

    /** Couples a command to a prepared platform transaction. Success commits the transaction once and
        never aborts it; any error aborts it exactly once, never commits it, and leaves the store alone. A
        candidate that was taken before the commit failed is followed by an offer of the old MIB. */
    method UpdateByCommandTransactional(updates: map<Key, Attributes>, transaction: CommandTransaction)
      returns (error: Option<Error>, ghost restored: bool)
      requires Valid()
      modifies `current, `dataSync, `base, `commands, `mib, `accepted, `offers, transaction
      ensures Valid() && fresh(Objects(current) - old(Objects(current)))
      ensures error.None? ==> transaction.committed == old(transaction.committed) + 1
      ensures error.None? ==> transaction.aborted == old(transaction.aborted)
      ensures error.None? ==> Permitted(library, old(mib), updates) && State() == old(CommandState(updates))
      ensures error.None? && State() != old(State()) ==> accepted == old(accepted) + [Applied(OpCommand, mib, dataSync)]
      ensures error.Some? ==> transaction.committed == old(transaction.committed)
      ensures error.Some? ==> transaction.aborted == old(transaction.aborted) + 1
      ensures error.Some? ==> State() == old(State())
      ensures error.Some? && offers == old(offers) ==> accepted == old(accepted)
      ensures error.Some? && offers != old(offers) ==>
                && Permitted(library, old(mib), updates) && Batch(library, old(mib), updates) != old(mib)
                && RolledBack(old(accepted), accepted, old(offers), offers, old(CommandChange(updates)),
                              Applied(OpCommand, mib, dataSync), restored)
      ensures TablesStored(library, old(mib)) && WriteNoTables(updates) ==> TablesStored(library, mib)
    {
      hide Holds, Synced, SyncAfter, KeepsSync, Agrees, Batch, Permitted, KeepsTables, TablesStored, WriteNoTables;
      var next, changed;
      restored := false;
      next, changed, error := ProposeBatch(updates, OpCommand);
      if error.Some? {
        var _ := transaction.Abort();
        return;
      }
      if !changed {
        error := FinishTransaction(transaction);
        return;
      }
      NextSync(dataSync, base, commands);
      ghost var doc := Batch(library, mib, updates);
      SyncedAgrees(doc, Increment(dataSync));
      BatchKeepsTables(library, mib, updates, Increment(dataSync));
      SetDataSync(next, Increment(dataSync), doc);
      error, restored := OfferTransactional(next, Increment(dataSync), Synced(doc, Increment(dataSync)), transaction);
    }

    /** The document a command that changes something offers to the platform. */
    ghost function CommandChange(updates: map<Key, Attributes>): Applied
      requires Permitted(library, mib, updates)
      reads this
    {
      Applied(OpCommand, Synced(Batch(library, mib, updates), Increment(dataSync)), Increment(dataSync))
    }

    method FinishTransaction(transaction: CommandTransaction) returns (error: Option<Error>)
      modifies transaction
      ensures error.None? ==> transaction.committed == old(transaction.committed) + 1
      ensures error.None? ==> transaction.aborted == old(transaction.aborted)
      ensures error.Some? ==> transaction.committed == old(transaction.committed)
      ensures error.Some? ==> transaction.aborted == old(transaction.aborted) + 1
    {
      var ok := transaction.Commit();
      if !ok {
        var _ := transaction.Abort();
        return Some(ProcessingError);
      }
      error := None;
    }

    /** Apply, then commit; when the commit fails the old MIB is offered to the platform again. */
    method OfferTransactional(next: Instances, sync: nat, ghost doc: Document, transaction: CommandTransaction)
      returns (error: Option<Error>, ghost restored: bool)
      requires Valid() && Holds(next, doc) && Agrees(doc, sync) && sync == SyncAfter(base, commands + 1)
      requires Objects(next) !! Objects(factory)
      modifies `current, `dataSync, `commands, `mib, `accepted, `offers, transaction
      ensures Valid() && current == if error.None? then next else old(current)
      ensures State() == if error.None? then StoreState(doc, sync, base, old(commands) + 1) else old(State())
      ensures error.None? ==> transaction.committed == old(transaction.committed) + 1
      ensures error.None? ==> transaction.aborted == old(transaction.aborted)
      ensures error.Some? ==> transaction.committed == old(transaction.committed)
      ensures error.Some? ==> transaction.aborted == old(transaction.aborted) + 1
      ensures error.None? ==> accepted == old(accepted) + [Applied(OpCommand, doc, sync)]
      ensures error.None? ==> offers == old(offers) + [Offering(Applied(OpCommand, doc, sync), true)]
      ensures error.Some? ==> RolledBack(old(accepted), accepted, old(offers), offers, Applied(OpCommand, doc, sync),
                                         Applied(OpCommand, mib, dataSync), restored)
    {
      hide SyncAfter, Holds, Agrees, KeepsSync, View, KeepsTables, CreatesTables;
      ViewOf(next, doc);
      ViewOf(current, mib);
      restored := false;
      var snapshot := Snapshot(next);
      var previous := Snapshot(current);
      var ok := Apply(Applied(OpCommand, snapshot, sync));
      if !ok {
        var _ := transaction.Abort();
        return Some(ProcessingError), false;
      }
      error := FinishTransaction(transaction);
      if error.Some? {
        var again := Apply(Applied(OpCommand, previous, dataSync));
        restored := again;
        return;
      }
      Install(next, sync, doc);
    }

    method Install(next: Instances, sync: nat, ghost doc: Document)
      requires Valid() && Holds(next, doc) && Agrees(doc, sync) && sync == SyncAfter(base, commands + 1)
      requires Objects(next) !! Objects(factory)
      modifies `current, `dataSync, `commands, `mib
      ensures Valid() && current == next
      ensures State() == StoreState(doc, sync, old(base), old(commands) + 1)
    {
      hide SyncAfter, Holds, Agrees, KeepsSync;
      current, dataSync, commands, mib := next, sync, commands + 1, doc;
    }

    method ReplaceInstance(instances: Instances, key: Key, values: Attributes, ghost doc: Document)
      returns (next: Instances)
      requires Valid() && key in mib && Holds(instances, doc)
      ensures fresh(Objects(next) - Objects(instances)) && Holds(next, Put(doc, key, values, mib[key].origin))
    {
      hide SyncAfter, KeepsSync, Agrees, Put;
      KeysAgree(current, mib);
      var replacement := new AttributeMap(values);
      ReplaceOne(instances, doc, key, replacement, current[key].origin);
      next := instances[key := Instance(replacement, current[key].origin)];
    }
  }

  /** The platform refused the candidate, or it took the candidate and was then offered the old MIB; when it
      took that too, the old MIB is the last document it holds. */
  ghost predicate RolledBack(before: seq<Applied>, after: seq<Applied>, offered: seq<Offering>, offers: seq<Offering>,
                             candidate: Applied, original: Applied, restored: bool) {
    || (offers == offered + [Offering(candidate, false)] && after == before)
    || (&& offers == offered + [Offering(candidate, true), Offering(original, restored)]
        && after == before + [candidate] + if restored then [original] else [])
  }

  /** `values` is the normal form of the instance with the attributes written over it. */
  ghost predicate Updates(library: Library, doc: Document, key: Key, attributes: Attributes, values: Attributes) {
    && key in doc && !Reserved(key, attributes)
    && library.normalize(key, doc[key].values + attributes) == Some(values)
  }

  /** The requested attributes whose value really changed; None stands for one that is gone. */
  function Changes(attributes: Attributes, before: Attributes, after: Attributes): map<string, Option<Value>> {
    map name | name in attributes && Look(before, name) != Look(after, name) :: Look(after, name)
  }

  function Look(values: Attributes, name: string): Option<Value> {
    if name in values then Some(values[name]) else None
  }

  /** Only when a requested attribute really changed does the instance take its new normal form. */
  ghost predicate AutonomousOutcome(library: Library, before: Document, after: Document, key: Key,
                                    attributes: Attributes,
                                    values: Attributes, changed: map<string, Option<Value>>) {
    && Updates(library, before, key, attributes, values)
    && changed == Changes(attributes, before[key].values, values)
    && after == if changed == map[] then before else Put(before, key, values, before[key].origin)
  }

  /** The rules accepted the update rows of the attribute. */
  ghost predicate TableUpdated(library: Library, classID: nat, name: string, value: Value, values: Attributes,
                               updated: T.Table) {
    var kind := R.KindOf(classID, name);
    && value.TableRows? && kind.Some?
    && T.Aligned(value.table, R.Size(kind.value))
    && var existing := ExistingTable(values, name, R.Size(kind.value));
    && existing.Some?
    && R.TableResult(kind.value, library.capacity, existing.value, value.table, T.Updated(updated))
  }

  /** SetTable replaces the attribute by the updated table: nothing, or one more command. */
  ghost predicate TableSet(library: Library, before: StoreState, after: StoreState, key: Key, name: string,
                           value: Value,
                           updated: T.Table) {
    && key in before.mib
    && var entry := before.mib[key];
    && TableUpdated(library, key.classID, name, value, entry.values, updated)
    && var normalized := library.normalize(key, entry.values[name := TableRows(updated)]);
    && normalized.Some?
    && after == if normalized.value == entry.values then before
                else NextCommand(before, Put(before.mib, key, normalized.value, entry.origin))
  }

  /** The expired rows go; the counter is not advanced. */
  ghost predicate TableExpired(library: Library, before: Document, after: Document, sync: nat, key: Key,
                               timers: map<nat, M.Timer>, kept: T.Table, any: bool) {
    && key in before
    && var existing := ExistingTable(before[key].values, R.ALLOWED_PREVIEWS, M.PREVIEW_SIZE);
    && existing.Some? && M.ExpiryResult(existing.value, timers, kept, any)
    && if !any then after == before
       else
         var normalized := library.normalize(key, before[key].values[R.ALLOWED_PREVIEWS := TableRows(kept)]);
         normalized.Some? && after == Synced(Put(before, key, normalized.value, before[key].origin), sync)
  }

  lemma CreationKeepsTables(library: Library, doc: Document, key: Key, attributes: Attributes, sync: nat)
    requires KeepsTables(library) && CreatesTables(library) && library.complete(key, attributes).Some?
    requires library.normalize(key, library.complete(key, attributes).value).Some?
    ensures var values := library.normalize(key, library.complete(key, attributes).value).value;
      TablesStored(library, doc) ==> TablesStored(library, Synced(Put(doc, key, values, FromOLT), sync))
  {
    hide KeepsTables, StoredTables, Synced, Put;
    NormalKeepsTables(library, key, library.complete(key, attributes).value);
    var values := library.normalize(key, library.complete(key, attributes).value).value;
    if TablesStored(library, doc) {
      PutKeepsTables(library, doc, key, values, FromOLT);
      SyncKeepsTables(library, Put(doc, key, values, FromOLT), sync);
    }
  }

  /** A set that writes no table, whether or not it also writes the counter. */
  lemma SetKeepsTables(library: Library, doc: Document, key: Key, attributes: Attributes, values: Attributes, sync: nat)
    requires KeepsTables(library) && key in doc && library.normalize(key, Overlaid(doc[key].values, attributes)).Some?
    requires var normalized := library.normalize(key, Overlaid(doc[key].values, attributes)).value;
      values == normalized || (Writes(key, attributes) && values == normalized[MIB_DATA_SYNC := Scalar(8, sync)])
    ensures TablesStored(library, doc) && NoTables(key, attributes) ==>
              TablesStored(library, Synced(Put(doc, key, values, doc[key].origin), sync))
  {
    hide KeepsTables, StoredTable, Synced, Put;
    if TablesStored(library, doc) && NoTables(key, attributes) {
      NormalKeepsTables(library, key, Overlaid(doc[key].values, attributes));
      assert !IsTable(ONU_DATA, MIB_DATA_SYNC);
      PutKeepsTables(library, doc, key, values, doc[key].origin);
      SyncKeepsTables(library, Put(doc, key, values, doc[key].origin), sync);
    }
  }

  lemma ResetKeepsTables(library: Library, factory: Document, doc: Document)
    ensures TablesStored(library, factory) && TablesStored(library, doc) ==>
              TablesStored(library, Synced(ResetDocument(factory, doc), 0))
  {
    hide StoredTable, Synced;
    if TablesStored(library, factory) && TablesStored(library, doc) {
      SyncKeepsTables(library, ResetDocument(factory, doc), 0);
    }
  }

  /** Several updates that write no table. */
  lemma BatchKeepsTables(library: Library, doc: Document, updates: map<Key, Attributes>, sync: nat)
    requires KeepsTables(library) && Permitted(library, doc, updates)
    ensures TablesStored(library, doc) && WriteNoTables(updates) ==>
              && TablesStored(library, Batch(library, doc, updates))
              && TablesStored(library, Synced(Batch(library, doc, updates), sync))
  {
    hide KeepsTables, StoredTables, Synced, NoTables;
    if TablesStored(library, doc) && WriteNoTables(updates) {
      forall key | key in updates
        ensures StoredTables(library, key, library.normalize(key, doc[key].values + updates[key]).value)
      {
        WriteKeepsTables(library, doc, key, updates[key]);
      }
      SyncKeepsTables(library, Batch(library, doc, updates), sync);
    }
  }

  lemma TableSetKeepsTables(library: Library, doc: Document, key: Key, name: string, value: Value, updated: T.Table)
    requires KeepsTables(library) && key in doc
    requires TableUpdated(library, key.classID, name, value, doc[key].values, updated)
    requires library.normalize(key, doc[key].values[name := TableRows(updated)]).Some?
    ensures var values := library.normalize(key, doc[key].values[name := TableRows(updated)]).value;
      TablesStored(library, doc) ==>
        forall sync: nat :: TablesStored(library, Synced(Put(doc, key, values, doc[key].origin), sync))
  {
    hide StoredTable, KeepsTables, R.TableResult, Synced, Put;
    if TablesStored(library, doc) {
      var kind := R.KindOf(key.classID, name).value;
      UpdateKeepsStored(kind, library.capacity, doc[key].values, name, value.table, updated);
      TableKeepsTables(library, doc, key, name, TableRows(updated));
      var values := library.normalize(key, doc[key].values[name := TableRows(updated)]).value;
      PutKeepsTables(library, doc, key, values, doc[key].origin);
      forall sync: nat ensures TablesStored(library, Synced(Put(doc, key, values, doc[key].origin), sync)) {
        SyncKeepsTables(library, Put(doc, key, values, doc[key].origin), sync);
      }
    }
  }

  lemma TableExpiredKeepsTables(library: Library, doc: Document, key: Key, timers: map<nat, M.Timer>, kept: T.Table,
                                sync: nat)
    requires KeepsTables(library) && key in doc && key.classID == R.SUBSCRIBER_CLASS
    requires var existing := ExistingTable(doc[key].values, R.ALLOWED_PREVIEWS, M.PREVIEW_SIZE);
      existing.Some? && M.ExpiryResult(existing.value, timers, kept, true)
    requires library.normalize(key, doc[key].values[R.ALLOWED_PREVIEWS := TableRows(kept)]).Some?
    ensures var values := library.normalize(key, doc[key].values[R.ALLOWED_PREVIEWS := TableRows(kept)]).value;
      TablesStored(library, doc) ==> TablesStored(library, Synced(Put(doc, key, values, doc[key].origin), sync))
  {
    hide KeepsTables, M.ExpiryResult, Synced, Put, R.Stores;
    if TablesStored(library, doc) {
      var existing := ExistingTable(doc[key].values, R.ALLOWED_PREVIEWS, M.PREVIEW_SIZE).value;
      R.EmptyTableIsStored(R.AllowedPreviews, library.capacity);
      ExpiryKeepsStored(library.capacity, existing, timers, kept, true);
      TableKeepsTables(library, doc, key, R.ALLOWED_PREVIEWS, TableRows(kept));
      var values := library.normalize(key, doc[key].values[R.ALLOWED_PREVIEWS := TableRows(kept)]).value;
      PutKeepsTables(library, doc, key, values, doc[key].origin);
      SyncKeepsTables(library, Put(doc, key, values, doc[key].origin), sync);
    }
  }

  method CollectChanges(attributes: Attributes, before: Attributes, after: Attributes)
    returns (changed: map<string, Option<Value>>)
    ensures changed == Changes(attributes, before, after)
  {
    changed := map[];
    var rest := attributes.Keys;
    while rest != {}
      invariant rest <= attributes.Keys
      invariant forall name :: name in changed <==>
                  name in attributes && name !in rest && Look(before, name) != Look(after, name)
      invariant forall name :: name in changed ==> changed[name] == Look(after, name)
      decreases |rest|
    {
      var name :| name in rest;
      rest := rest - {name};
      if Look(before, name) != Look(after, name) {
        changed := changed[name := Look(after, name)];
      }
    }
  }

  lemma StaysInSync(library: Library, doc: Document, sync: nat, key: Key, attributes: Attributes, values: Attributes)
    requires KeepsSync(library) && Agrees(doc, sync) && Updates(library, doc, key, attributes, values)
    ensures Agrees(Put(doc, key, values, doc[key].origin), sync)
  {
    if key == ONU_DATA {
      var overlaid := doc[key].values + attributes;
      assert MIB_DATA_SYNC in overlaid && overlaid[MIB_DATA_SYNC] == Scalar(8, sync);
      assert library.normalize(ONU_DATA, overlaid).Some?;
    }
  }

  /** A fresh attribute map in place of one instance's own. */
  lemma ReplaceOne(instances: Instances, doc: Document, key: Key, replacement: AttributeMap, origin: Origin)
    requires Holds(instances, doc) && replacement !in Objects(instances)
    ensures Holds(instances[key := Instance(replacement, origin)], Put(doc, key, replacement.values, origin))
    ensures Objects(instances[key := Instance(replacement, origin)]) <= Objects(instances) + {replacement}
  {}

  lemma InstallOne(current: Instances, doc: Document, key: Key, replacement: AttributeMap, factory: Instances)
    requires Holds(current, doc) && replacement !in Objects(current) && replacement !in Objects(factory)
    requires key in current && Objects(current) !! Objects(factory)
    ensures key in doc && current[key].origin == doc[key].origin
    ensures var next := current[key := Instance(replacement, current[key].origin)];
      && Holds(next, Put(doc, key, replacement.values, doc[key].origin))
      && Objects(next) !! Objects(factory)
      && Objects(next) <= Objects(current) + {replacement}
  {
    KeysAgree(current, doc);
    ReplaceOne(current, doc, key, replacement, current[key].origin);
  }

  // ---------- batches ----------

  ghost predicate Permitted(library: Library, doc: Document, updates: map<Key, Attributes>) {
    forall key :: key in updates ==>
      key in doc && !Reserved(key, updates[key]) && library.normalize(key, doc[key].values + updates[key]).Some?
  }

  /** Every updated instance in the normal form of its new attributes, all others as they are. */
  ghost function Batch(library: Library, doc: Document, updates: map<Key, Attributes>): Document
    requires Permitted(library, doc, updates)
  {
    map key | key in doc ::
      if key in updates then Entry(library.normalize(key, doc[key].values + updates[key]).value, doc[key].origin)
      else doc[key]
  }

  ghost function DoneUpdates(updates: map<Key, Attributes>, rest: set<Key>): map<Key, Attributes> {
    map key | key in updates && key !in rest :: updates[key]
  }

  /** The candidate once all but the remaining updates are in. */
  ghost function BatchDocument(library: Library, before: Document, updates: map<Key, Attributes>,
                               rest: set<Key>): Document {
    if Permitted(library, before, DoneUpdates(updates, rest)) then Batch(library, before, DoneUpdates(updates, rest))
    else before
  }

  lemma BatchStaysInSync(library: Library, doc: Document, sync: nat, updates: map<Key, Attributes>)
    requires KeepsSync(library) && Agrees(doc, sync) && Permitted(library, doc, updates)
    ensures Agrees(Batch(library, doc, updates), sync)
  {
    if ONU_DATA in updates {
      var attributes := updates[ONU_DATA];
      StaysInSync(library, doc, sync, ONU_DATA, attributes,
                  library.normalize(ONU_DATA, doc[ONU_DATA].values + attributes).value);
    }
  }

  ghost predicate Progress(library: Library, before: Document, updates: map<Key, Attributes>, rest: set<Key>,
                           doc: Document) {
    && Permitted(library, before, DoneUpdates(updates, rest))
    && doc == Batch(library, before, DoneUpdates(updates, rest))
  }

  lemma ProgressStarts(library: Library, before: Document, updates: map<Key, Attributes>)
    ensures Progress(library, before, updates, updates.Keys, before)
    ensures BatchDocument(library, before, updates, updates.Keys) == before
  {}

  lemma ProgressStep(library: Library, before: Document, updates: map<Key, Attributes>, rest: set<Key>, doc: Document,
                     key: Key, values: Attributes)
    requires Progress(library, before, updates, rest + {key}, doc) && key !in rest && key in updates
    requires Updates(library, before, key, updates[key], values)
    ensures Progress(library, before, updates, rest, Put(doc, key, values, before[key].origin))
    ensures Put(doc, key, values, before[key].origin) == BatchDocument(library, before, updates, rest)
    ensures key in doc && doc[key] == before[key]
    ensures Put(doc, key, values, before[key].origin) != before <==> doc != before || values != before[key].values
  {
    var next := Put(doc, key, values, before[key].origin);
    var done, earlier := DoneUpdates(updates, rest), DoneUpdates(updates, rest + {key});
    assert doc == Batch(library, before, earlier);
    assert Permitted(library, before, done);
    assert next == Batch(library, before, done);
  }

  lemma ProgressEnds(library: Library, before: Document, updates: map<Key, Attributes>, doc: Document)
    requires Progress(library, before, updates, {}, doc)
    ensures Permitted(library, before, updates) && doc == Batch(library, before, updates)
  {
    assert DoneUpdates(updates, {}) == updates;
  }

  /** preserveONU3State: writes the status snapshots of the live MIB into the reset candidate, in place. */
  method PreserveONU3State(current: Instances, reset: Instances, ghost live: Document, ghost doc: Document)
    requires Holds(current, live) && Holds(reset, doc) && Objects(current) !! Objects(reset)
    modifies Objects(reset)
    ensures Holds(reset, ResetDocument(doc, live))
  {
    if ONU3 !in current || ONU3 !in reset {
      return;
    }
    var before, after := current[ONU3].attributes, reset[ONU3].attributes;
    KeysAgree(current, live);
    KeysAgree(reset, doc);
    assert before in Objects(current) && after in Objects(reset);
    var kept := CollectKept(before.values);
    after.values := after.values + kept;
  }

  /** The five attributes, one by one, where the live instance has them. */
  method CollectKept(values: Attributes) returns (kept: Attributes)
    ensures kept == Kept(values)
  {
    kept := map[];
    var rest := KEPT_BY_RESET;
    while rest != {}
      invariant rest <= KEPT_BY_RESET
      invariant kept == map name | name in values && name in KEPT_BY_RESET - rest :: values[name]
      decreases |rest|
    {
      var name :| name in rest;
      rest := rest - {name};
      if name in values {
        kept := kept[name := values[name]];
      }
    }
  }

  predicate IsByte(value: Value) { value.Scalar? && value.bits == 8 && value.value <= 255 }

  /** A request that writes the counter itself. */
  predicate Writes(key: Key, attributes: Attributes) { key == ONU_DATA && MIB_DATA_SYNC in attributes }

  /** A set either changes nothing, or is one more command; writing the counter restarts the count from
      the written value, advanced by one. */
  ghost predicate SetOutcome(library: Library, before: StoreState, after: StoreState, key: Key, attributes: Attributes)
    requires key in before.mib
  {
    var entry := before.mib[key];
    var normalized := library.normalize(key, Overlaid(entry.values, attributes));
    && normalized.Some?
    && if Writes(key, attributes) then
         && IsByte(attributes[MIB_DATA_SYNC])
         && var v := attributes[MIB_DATA_SYNC].value;
         && var values := normalized.value[MIB_DATA_SYNC := Scalar(8, Increment(v))];
         && after == if values == entry.values then before
                     else StoreState(Synced(Put(before.mib, key, values, entry.origin), Increment(v)), Increment(v), v,
                                     1)
       else
         after == if normalized.value == entry.values then before
                  else NextCommand(before, Put(before.mib, key, normalized.value, entry.origin))
  }

  datatype StoreState = StoreState(mib: Document, sync: nat, base: nat, commands: nat)

  lemma KeysAgree(instances: Instances, doc: Document)
    requires Holds(instances, doc)
    ensures doc.Keys == instances.Keys
    ensures forall key :: key in instances ==>
              doc[key] == Entry(instances[key].attributes.values, instances[key].origin)
  {}

  lemma ViewOf(instances: Instances, doc: Document)
    requires Holds(instances, doc)
    ensures View(instances) == doc
  {}

  lemma SyncStarts(sync: nat)
    ensures SyncAfter(sync, 0) == sync
  {}

  lemma NextSync(sync: nat, base: nat, commands: nat)
    requires sync == SyncAfter(base, commands)
    ensures Increment(sync) == SyncAfter(base, commands + 1)
  {}

  ghost predicate Made(library: Library, key: Key, attributes: Attributes, values: Attributes) {
    library.complete(key, attributes).Some? &&
    library.normalize(key, library.complete(key, attributes).value) == Some(values)
  }

  /** One more accepted command: the new MIB with the counter advanced by one. */
  ghost function NextCommand(before: StoreState, mib: Document): StoreState {
    StoreState(Synced(mib, Increment(before.sync)), Increment(before.sync), before.base, before.commands + 1)
  }
}
