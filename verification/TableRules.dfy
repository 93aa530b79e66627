/** Which update rules a table attribute follows, and what its table holds after any run of updates and
    expiries (internal/mib/table.go). */
module TableRules {
  import opened Sequences
  import opened WireBytes
  import opened KeyedRows
  import opened TableUpdates
  import opened VlanRows
  import opened MulticastTables

  datatype Kind =
    | AddressTable(ipv6: bool)
    | AccessList(isStatic: bool)
    | ServicePackages
    | AllowedPreviews
    | TaggingRules
    | EnhancedTaggingRules

  const EXTENDED_VLAN_CLASS: nat := 171
  const MULTICAST_GEM_CLASS: nat := 281
  const OPERATIONS_PROFILE_CLASS: nat := 309
  const SUBSCRIBER_CLASS: nat := 310

  const ALLOWED_PREVIEWS: string := "AllowedPreviewGroupsTable"

  /** The rules of a table attribute; None for one whose updates are not supported. */
  function KindOf(classID: nat, name: string): Option<Kind> {
    if classID == MULTICAST_GEM_CLASS && name == "Ipv4MulticastAddressTable" then Some(AddressTable(false))
    else if classID == MULTICAST_GEM_CLASS && name == "Ipv6MulticastAddressTable" then Some(AddressTable(true))
    else if classID == OPERATIONS_PROFILE_CLASS && name == "DynamicAccessControlListTable" then Some(AccessList(false))
    else if classID == OPERATIONS_PROFILE_CLASS && name == "StaticAccessControlListTable" then Some(AccessList(true))
    else if classID == SUBSCRIBER_CLASS && name == "MulticastServicePackageTable" then Some(ServicePackages)
    else if classID == SUBSCRIBER_CLASS && name == ALLOWED_PREVIEWS then Some(AllowedPreviews)
    else if classID == EXTENDED_VLAN_CLASS && name == "ReceivedFrameVlanTaggingOperationTable" then Some(TaggingRules)
    else if classID == EXTENDED_VLAN_CLASS && name == "EnhancedReceivedFrameClassificationAndProcessingTable"
    then Some(EnhancedTaggingRules)
    else None
  }

  function Size(kind: Kind): (size: nat)
    ensures size > 0
  {
    match kind
    case AddressTable(ipv6) => AddressSize(ipv6)
    case AccessList(_) => ACL_SIZE
    case ServicePackages => SERVICE_SIZE
    case AllowedPreviews => PREVIEW_SIZE
    case TaggingRules => CLASSIC_SIZE
    case EnhancedTaggingRules => ENHANCED_SIZE
  }

  function KeyOf(kind: Kind): Row -> nat {
    match kind
    case AddressTable(_) => PrefixKey(4)
    case AccessList(_) => PartKey
    case ServicePackages => ServiceKey
    case AllowedPreviews => PartKey
    case TaggingRules => PrefixKey(8)
    case EnhancedTaggingRules => EnhancedKey
  }

  function LoadStep(kind: Kind): Step {
    match kind
    case AddressTable(ipv6) => LoadPrefixed(AddressSize(ipv6), 4)
    case AccessList(isStatic) => LoadACL(isStatic)
    case ServicePackages => LoadService
    case AllowedPreviews => LoadPreview
    case TaggingRules => LoadPrefixed(CLASSIC_SIZE, 8)
    case EnhancedTaggingRules => LoadEnhanced
  }

  function EditStep(kind: Kind): Step {
    match kind
    case AddressTable(ipv6) => EditValid(AddressSize(ipv6), 4, EmptyRange(ipv6), AddressRow(ipv6))
    case AccessList(isStatic) => EditACL(isStatic)
    case ServicePackages => EditService
    case AllowedPreviews => EditPreview
    case TaggingRules => EditValid(CLASSIC_SIZE, 8, Deletes, ParsesClassic)
    case EnhancedTaggingRules => EditEnhanced
  }

  /** What a stored row satisfies. */
  function RowOf(kind: Kind): Row -> bool {
    match kind
    case AddressTable(ipv6) => AddressRow(ipv6)
    case AccessList(isStatic) => IsACLRow(isStatic)
    case ServicePackages => ServiceRow
    case AllowedPreviews => PreviewRow
    case TaggingRules => ParsesClassic
    case EnhancedTaggingRules => ParsesEnhanced
  }

  /** The VLAN tables have a configured capacity. */
  predicate Overflows(kind: Kind, capacity: nat, m: Rows) {
    (kind.TaggingRules? || kind.EnhancedTaggingRules?) && |m| > capacity
  }

  ghost predicate Consistent(kind: Kind, m: Rows) { kind.AccessList? ==> Separated(m) }

  lemma Steps(kind: Kind)
    ensures StepKeeps(EditStep(kind), Size(kind), RowOf(kind), KeyOf(kind))
    ensures Loads(LoadStep(kind), Size(kind), RowOf(kind), KeyOf(kind))
  {
    hide StepKeeps, Loads;
    match kind
    case AddressTable(ipv6) => ValidSteps(AddressSize(ipv6), 4, EmptyRange(ipv6), AddressRow(ipv6));
    case AccessList(isStatic) => ACLSteps(isStatic);
    case ServicePackages => ServiceSteps();
    case AllowedPreviews => PreviewSteps();
    case TaggingRules => ValidSteps(CLASSIC_SIZE, 8, Deletes, ParsesClassic);
    case EnhancedTaggingRules => EnhancedSteps();
  }

  // ---------- one update ----------

  /** Load the committed rows, fold the update rows over them, and write the result back unless it is
      inconsistent or too large. */
  ghost predicate TableResult(kind: Kind, capacity: nat, existing: Table, updates: Table, outcome: Outcome) {
    exists old_, new_ :: TableRebuilt(kind, capacity, existing, updates, old_, new_, outcome)
  }

  ghost predicate TableRebuilt(kind: Kind, capacity: nat, existing: Table, updates: Table, old_: seq<Row>,
                               new_: seq<Row>, outcome: Outcome) {
    && Sized(old_, Size(kind)) && Concat(old_) == existing.bytes
    && Sized(new_, Size(kind)) && Concat(new_) == updates.bytes
    && var committed := Fold(map[], old_, LoadStep(kind));
    && if committed.None? then outcome == ProcessingError
       else Committed(kind, capacity, Fold(committed.value, new_, EditStep(kind)), outcome)
  }

  ghost predicate Committed(kind: Kind, capacity: nat, next: Option<Rows>, outcome: Outcome) {
    if next.None? || !Consistent(kind, next.value) then outcome == ParameterError
    else if Overflows(kind, capacity, next.value) then outcome == ProcessingError
    else outcome.Updated? && Written(outcome.table, next.value, Size(kind), KeyOf(kind))
  }

  method ApplyTableRows(kind: Kind, capacity: nat, existing: Table, updates: Table) returns (outcome: Outcome)
    requires Aligned(existing, Size(kind)) && Aligned(updates, Size(kind))
    ensures TableResult(kind, capacity, existing, updates, outcome)
  {
    hide Fold, Concat, Written, UpdateResult, ACLResult, TableResult;
    match kind
    case AddressTable(ipv6) =>
      outcome := ApplyMulticastAddressRows(existing, updates, ipv6);
      SimpleResult(kind, capacity, existing, updates, outcome, outcome);
    case AccessList(isStatic) =>
      outcome := ApplyMulticastACLRows(existing, updates, isStatic);
      ListResult(isStatic, capacity, existing, updates, outcome);
    case ServicePackages =>
      outcome := ApplyMulticastServiceRows(existing, updates);
      SimpleResult(kind, capacity, existing, updates, outcome, outcome);
    case AllowedPreviews =>
      outcome := ApplyAllowedPreviewRows(existing, updates);
      SimpleResult(kind, capacity, existing, updates, outcome, outcome);
    case TaggingRules =>
      var updated := ApplyValidRows(existing, updates, CLASSIC_SIZE, 8, Deletes, ParsesClassic);
      outcome := WithinCapacity(updated, capacity);
      SimpleResult(kind, capacity, existing, updates, updated, outcome);
    case EnhancedTaggingRules =>
      var updated := ApplyEnhancedVLANRows(existing, updates);
      outcome := WithinCapacity(updated, capacity);
      SimpleResult(kind, capacity, existing, updates, updated, outcome);
  }

  method WithinCapacity(updated: Outcome, capacity: nat) returns (outcome: Outcome)
    ensures outcome == if updated.Updated? && updated.table.count > capacity then ProcessingError else updated
  {
    outcome := if updated.Updated? && updated.table.count > capacity then ProcessingError else updated;
  }

  /** The number of rows of a written table is the size of its map. */
  lemma WrittenCount(table: Table, m: Rows, size: nat, key: Row -> nat)
    requires Written(table, m, size, key)
    ensures table.count == |m|
  {
    var rows :| WrittenAs(table, rows, m, size, key);
    var keys := seq(|rows|, i requires 0 <= i < |rows| => key(rows[i]));
    forall k ensures k in keys <==> k in m.Keys {
      if k in m {
        var i :| 0 <= i < |rows| && rows[i] == m[k];
        assert keys[i] == k;
      }
    }
    SameSize(keys, m);
  }

  lemma SimpleResult(kind: Kind, capacity: nat, existing: Table, updates: Table, updated: Outcome, outcome: Outcome)
    requires !kind.AccessList?
    requires UpdateResult(existing, updates, Size(kind), LoadStep(kind), EditStep(kind), KeyOf(kind), Anything, updated)
    requires outcome == if (kind.TaggingRules? || kind.EnhancedTaggingRules?) && updated.Updated? &&
                           updated.table.count > capacity then ProcessingError else updated
    ensures TableResult(kind, capacity, existing, updates, outcome)
  {
    hide Fold, Concat, Written, LoadStep, EditStep, KeyOf, Size;
    var old_, new_ :| RebuiltFrom(existing, updates, old_, new_, Size(kind), LoadStep(kind), EditStep(kind),
                                  KeyOf(kind),
                                  Anything, updated);
    if updated.Updated? {
      var committed := Fold(map[], old_, LoadStep(kind));
      WrittenCount(updated.table, Fold(committed.value, new_, EditStep(kind)).value, Size(kind), KeyOf(kind));
    }
    assert TableRebuilt(kind, capacity, existing, updates, old_, new_, outcome);
  }

  lemma ListResult(isStatic: bool, capacity: nat, existing: Table, updates: Table, outcome: Outcome)
    requires ACLResult(existing, updates, isStatic, outcome)
    ensures TableResult(AccessList(isStatic), capacity, existing, updates, outcome)
  {
    hide Fold, Concat, Written, Separated, LoadACL, EditACL;
    var old_, new_, next, error :| ACLRebuilt(existing, updates, isStatic, old_, new_, next, error, outcome);
    assert TableRebuilt(AccessList(isStatic), capacity, existing, updates, old_, new_, outcome);
  }

  // ---------- stored tables ----------

  ghost predicate Acceptable(kind: Kind, capacity: nat, m: Rows) {
    Consistent(kind, m) && !Overflows(kind, capacity, m)
  }

  /** The table is the canonical encoding of a map of valid rows that the rules accept. */
  ghost predicate Stores(kind: Kind, capacity: nat, table: Table, m: Rows) {
    Holds(table, m, Size(kind), RowOf(kind), KeyOf(kind)) && Acceptable(kind, capacity, m)
  }

  /** The rows of the table are valid, in whatever order, and read as the map. */
  ghost predicate Lists(kind: Kind, table: Table, rows: seq<Row>, m: Rows) {
    && Sized(rows, Size(kind)) && table == Table(|rows|, Concat(rows))
    && (forall i :: 0 <= i < |rows| ==> RowOf(kind)(rows[i]))
    && ToMap(rows, KeyOf(kind)) == m
  }

  ghost predicate Listed(kind: Kind, table: Table, m: Rows) { exists rows :: Lists(kind, table, rows, m) }

  lemma EmptyTableIsStored(kind: Kind, capacity: nat)
    ensures Stores(kind, capacity, EmptyTable, map[])
  {
    assert WrittenAs(EmptyTable, [], map[], Size(kind), KeyOf(kind));
  }

  lemma StoredIsListed(kind: Kind, capacity: nat, table: Table, m: Rows)
    requires Stores(kind, capacity, table, m)
    ensures Listed(kind, table, m)
  {
    hide Concat, RowOf, KeyOf, Size, Consistent;
    var rows :| WrittenAs(table, rows, m, Size(kind), KeyOf(kind));
    EncodesToMap(rows, m, KeyOf(kind));
    assert Lists(kind, table, rows, m);
  }

  lemma {:induction false} ListedIsKept(rows: seq<Row>, size: nat, ok: Row -> bool, key: Row -> nat)
    requires Sized(rows, size) && forall i :: 0 <= i < |rows| ==> ok(rows[i])
    ensures WellKept(ToMap(rows, key), size, ok, key)
  {
    if rows != [] {
      ListedIsKept(rows[..|rows| - 1], size, ok, key);
    }
  }

  /** What an update makes of the map. */
  ghost function Edited(kind: Kind, capacity: nat, m: Rows, updates: Table): Rows {
    if !Aligned(updates, Size(kind)) then m
    else
      var next := Fold(m, Cut(updates.bytes, updates.count, Size(kind)), EditStep(kind));
      if next.Some? && Acceptable(kind, capacity, next.value) then next.value else m
  }

  /** A table of valid rows always loads. An update folds its rows over the map the table holds, and what
      it leaves is the canonical encoding of the result; it fails to process only a result that is too
      large. */
  lemma UpdateOfListed(kind: Kind, capacity: nat, existing: Table, m: Rows, updates: Table, outcome: Outcome)
    requires Listed(kind, existing, m) && Aligned(updates, Size(kind))
    requires TableResult(kind, capacity, existing, updates, outcome)
    ensures outcome.Updated? ==> Stores(kind, capacity, outcome.table, Edited(kind, capacity, m, updates))
    ensures !outcome.Updated? ==> Edited(kind, capacity, m, updates) == m
    ensures outcome == ProcessingError ==> kind.TaggingRules? || kind.EnhancedTaggingRules?
  {
    hide Fold, Concat, Written, StepKeeps, Loads, WellKept, LoadStep, EditStep, KeyOf, RowOf, Size, Consistent, ToMap;
    var old_, new_ :| TableRebuilt(kind, capacity, existing, updates, old_, new_, outcome);
    var rows :| Lists(kind, existing, rows, m);
    FlattenInjective(rows, old_, Size(kind));
    FlattenInjective(new_, Cut(updates.bytes, updates.count, Size(kind)), Size(kind));
    Steps(kind);
    LoadRows(rows, LoadStep(kind), Size(kind), RowOf(kind), KeyOf(kind));
    ListedIsKept(rows, Size(kind), RowOf(kind), KeyOf(kind));
    FoldKeeps(m, new_, EditStep(kind), Size(kind), RowOf(kind), KeyOf(kind));
  }

  // ---------- runs ----------

  datatype Change = Update(updates: Table) | Expire(timers: map<nat, Timer>)

  /** One SetTable request, accepted or refused, or one expiry of timed previews. */
  ghost predicate ChangeResult(kind: Kind, capacity: nat, before: Table, change: Change, after: Table) {
    match change
    case Update(updates) =>
      && Aligned(updates, Size(kind))
      && exists outcome :: TableResult(kind, capacity, before, updates, outcome) && after == TableAfter(before, outcome)
    case Expire(timers) =>
      && kind.AllowedPreviews?
      && exists kept, any :: ExpiryResult(before, timers, kept, any) && after == if any then kept else before
  }

  function TableAfter(before: Table, outcome: Outcome): Table { if outcome.Updated? then outcome.table else before }

  ghost predicate IsRun(kind: Kind, capacity: nat, tables: seq<Table>, changes: seq<Change>) {
    && |tables| == |changes| + 1
    && forall i :: 0 <= i < |changes| ==> ChangeResult(kind, capacity, tables[i], changes[i], tables[i + 1])
  }

  ghost function Changed(kind: Kind, capacity: nat, m: Rows, change: Change): Rows {
    match change
    case Update(updates) => Edited(kind, capacity, m, updates)
    case Expire(timers) => Unexpired(m, timers)
  }

  /** The rows after all the changes, starting from the given ones. */
  ghost function Content(kind: Kind, capacity: nat, start: Rows, changes: seq<Change>): Rows {
    if changes == [] then start
    else Changed(kind, capacity, Content(kind, capacity, start, changes[..|changes| - 1]), changes[|changes| - 1])
  }

  /** A stored table, or one whose valid rows are still in the order they were created in. */
  ghost predicate Carries(kind: Kind, capacity: nat, first: Table, table: Table, m: Rows) {
    Stores(kind, capacity, table, m) || (kind != AllowedPreviews && table == first && Listed(kind, table, m))
  }

  lemma ChangeCarries(kind: Kind, capacity: nat, first: Table, before: Table, m: Rows, change: Change, after: Table)
    requires Carries(kind, capacity, first, before, m) && ChangeResult(kind, capacity, before, change, after)
    ensures Carries(kind, capacity, first, after, Changed(kind, capacity, m, change))
  {
    hide TableResult, ExpiryResult, Edited, Stores, Listed;
    match change
    case Update(updates) =>
      if Stores(kind, capacity, before, m) {
        StoredIsListed(kind, capacity, before, m);
      }
      var outcome :| TableResult(kind, capacity, before, updates, outcome) && after == TableAfter(before, outcome);
      UpdateOfListed(kind, capacity, before, m, updates, outcome);
    case Expire(timers) =>
      var kept, any :| ExpiryResult(before, timers, kept, any) && after == if any then kept else before;
      StoresExpired(capacity, before, m, timers, kept, any);
  }

  lemma StoresExpired(capacity: nat, before: Table, m: Rows, timers: map<nat, Timer>, kept: Table, any: bool)
    requires Stores(AllowedPreviews, capacity, before, m) && ExpiryResult(before, timers, kept, any)
    ensures Stores(AllowedPreviews, capacity, if any then kept else before, Unexpired(m, timers))
  {
    hide Holds, ExpiryResult, Unexpired;
    ExpiryKeepsCanonical(before, timers, m, kept, any);
  }

  /** After any run of updates and expiries a table is the canonical encoding of exactly the rows that the
      accepted changes leave; only a table no update has touched may still have its rows in another order. */
  lemma {:induction false} RunCarriesContent(kind: Kind, capacity: nat, tables: seq<Table>, changes: seq<Change>,
                                             start: Rows)
    requires IsRun(kind, capacity, tables, changes) && Carries(kind, capacity, tables[0], tables[0], start)
    ensures Carries(kind, capacity, tables[0], tables[|changes|], Content(kind, capacity, start, changes))
    decreases |changes|
  {
    hide Carries, ChangeResult, Changed;
    if changes != [] {
      var n := |changes| - 1;
      RunCarriesContent(kind, capacity, tables[..n + 1], changes[..n], start);
      ChangeCarries(kind, capacity, tables[0], tables[n], Content(kind, capacity, start, changes[..n]), changes[n],
                    tables[n + 1]);
    }
  }

  /** A table that starts empty is stored canonically after every change of every run. */
  lemma RunFromEmpty(kind: Kind, capacity: nat, tables: seq<Table>, changes: seq<Change>, n: nat)
    requires IsRun(kind, capacity, tables, changes) && tables[0] == EmptyTable && n <= |changes|
    ensures Stores(kind, capacity, tables[n], Content(kind, capacity, map[], changes[..n]))
  {
    hide ChangeResult, Content, Stores;
    EmptyTableIsStored(kind, capacity);
    RunCarriesContent(kind, capacity, tables[..n + 1], changes[..n], map[]);
    if tables[n] == EmptyTable && Listed(kind, EmptyTable, Content(kind, capacity, map[], changes[..n])) {
      OnlyTheEmptyMap(kind, Content(kind, capacity, map[], changes[..n]));
    }
  }

  lemma OnlyTheEmptyMap(kind: Kind, m: Rows)
    requires Listed(kind, EmptyTable, m)
    ensures m == map[]
  {
    var rows :| Lists(kind, EmptyTable, rows, m);
    assert rows == [];
  }

  /** However long the run, the table it leaves loads again. */
  lemma TablesStayLoadable(kind: Kind, capacity: nat, tables: seq<Table>, changes: seq<Change>, n: nat, updates: Table,
                           outcome: Outcome)
    requires IsRun(kind, capacity, tables, changes) && tables[0] == EmptyTable && n <= |changes|
    requires Aligned(updates, Size(kind)) && TableResult(kind, capacity, tables[n], updates, outcome)
    ensures outcome == ProcessingError ==> kind.TaggingRules? || kind.EnhancedTaggingRules?
    ensures var m := Content(kind, capacity, map[], changes[..n]);
      if outcome.Updated? then Stores(kind, capacity, outcome.table, Edited(kind, capacity, m, updates))
      else Edited(kind, capacity, m, updates) == m
  {
    hide ChangeResult, Content, TableResult, Stores, Edited;
    RunFromEmpty(kind, capacity, tables, changes, n);
    var m := Content(kind, capacity, map[], changes[..n]);
    StoredIsListed(kind, capacity, tables[n], m);
    UpdateOfListed(kind, capacity, tables[n], m, updates, outcome);
  }

  /** However long the run, no stored timer exceeds its duration. */
  lemma TimersStayWithinDurations(capacity: nat, tables: seq<Table>, changes: seq<Change>, n: nat)
    requires IsRun(AllowedPreviews, capacity, tables, changes) && tables[0] == EmptyTable && n <= |changes|
    ensures var m := Content(AllowedPreviews, capacity, map[], changes[..n]);
      && Holds(tables[n], m, PREVIEW_SIZE, PreviewRow, PartKey)
      && forall k :: k in m && k % 8 == 1 ==> |m[k]| == PREVIEW_SIZE && TimeLeft(m[k]) <= Duration(m[k])
  {
    hide IsRun, Content, TimeLeft, Duration, Written;
    RunFromEmpty(AllowedPreviews, capacity, tables, changes, n);
    var m := Content(AllowedPreviews, capacity, map[], changes[..n]);
    forall k | k in m && k % 8 == 1 ensures |m[k]| == PREVIEW_SIZE && TimeLeft(m[k]) <= Duration(m[k]) {
      assert PreviewRow(m[k]) && PartKey(m[k]) == k;
    }
  }

  /** However long the run, at most one row of a stored access list covers a group address. */
  lemma ACLStaysSeparated(isStatic: bool, capacity: nat, tables: seq<Table>, changes: seq<Change>, n: nat, ipv6: bool,
                           group: nat, a: nat, b: nat)
    requires IsRun(AccessList(isStatic), capacity, tables, changes) && tables[0] == EmptyTable && n <= |changes|
    ensures var m := Content(AccessList(isStatic), capacity, map[], changes[..n]);
      && Holds(tables[n], m, ACL_SIZE, IsACLRow(isStatic), PartKey)
      && (Covers(m, a, ipv6, group) && Covers(m, b, ipv6, group) ==> a == b)
  {
    hide IsRun, Content, Separated, LogicalRange;
    RunFromEmpty(AccessList(isStatic), capacity, tables, changes, n);
    var m := Content(AccessList(isStatic), capacity, map[], changes[..n]);
    if Covers(m, a, ipv6, group) && Covers(m, b, ipv6, group) {
      OneRowMatches(m, a, b, ipv6, group);
    }
  }

  /** Row `key` of an access list covers the group address. */
  predicate Covers(m: Rows, key: nat, ipv6: bool, group: nat) {
    && SizedMap(m) && key * 8 in m && LogicalRange(m, key).Some?
    && var r := LogicalRange(m, key).value; r.ipv6 == ipv6 && r.start <= group <= r.stop
  }

  // ---------- the tagging rules of a new instance ----------

  /** extendedVLANDefaultRows: untagged, single-tagged and double-tagged frames pass unchanged. */
  function DefaultRule(outer: Byte, inner: Byte): Row {
    [outer, 0, 0, 0, inner, 0, 0, 0, 0, 0x0f, 0, 0, 0, 0x0f, 0, 0]
  }

  function DefaultRules(): seq<Row> { [DefaultRule(0xf8, 0xf8), DefaultRule(0xf8, 0xe8), DefaultRule(0xe8, 0xe8)] }

  function DefaultTable(): Table { Table(3, Concat(DefaultRules())) }

  lemma DefaultTableIsListed()
    ensures Listed(TaggingRules, DefaultTable(), ToMap(DefaultRules(), PrefixKey(8)))
  {
    hide ParsesClassic, Concat, ToMap, PrefixKey, DefaultRule;
    DefaultRuleParses(0xf8, 0xf8);
    DefaultRuleParses(0xf8, 0xe8);
    DefaultRuleParses(0xe8, 0xe8);
    assert Lists(TaggingRules, DefaultTable(), DefaultRules(), ToMap(DefaultRules(), PrefixKey(8)));
  }

  lemma DefaultRuleParses(outer: Byte, inner: Byte)
    requires (outer == 0xf8 || outer == 0xe8) && (inner == 0xf8 || inner == 0xe8)
    ensures ParsesClassic(DefaultRule(outer, inner))
  {}

  /** The rules of a new instance stand in descending key order: their table is not canonical until the
      first accepted update sorts it. */
  lemma DefaultTableIsNotStored(capacity: nat, m: Rows)
    ensures !Stores(TaggingRules, capacity, DefaultTable(), m)
  {
    hide Concat, PrefixKey;
    var rows := DefaultRules();
    var key := PrefixKey(8);
    if Holds(DefaultTable(), m, CLASSIC_SIZE, ParsesClassic, key) {
      var other :| WrittenAs(DefaultTable(), other, m, CLASSIC_SIZE, key);
      FlattenInjective(rows, other, CLASSIC_SIZE);
      DefaultOrder();
      assert false;
    }
  }

  lemma DefaultOrder()
    ensures PrefixKey(8)(DefaultRules()[0]) > PrefixKey(8)(DefaultRules()[1])
  {
    var a, b := DefaultRules()[1][..8], DefaultRules()[0][..8];
    assert a[..4] == b[..4] && a[4] < b[4];
    NumberOrder(a, b, 4);
  }
}
