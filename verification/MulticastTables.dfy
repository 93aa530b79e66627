/** The byte tables of the multicast and VLAN managed entities (internal/mib/table.go). */
module MulticastTables {
  import opened Sequences
  import opened KeyedRows
  import opened TableUpdates
  import opened VlanRows
  import opened WireBytes

  // Every control word has two set-control bits, three row-part bits, one test bit and a ten-bit row key.

  function SetControl(row: Row): nat
    requires |row| >= 2
  {
    row[0] as nat / 64
  }

  function Part(row: Row): nat
    requires |row| >= 2
  {
    (row[0] as nat / 8) % 8
  }

  predicate TestBit(row: Row)
    requires |row| >= 2
  {
    (row[0] as nat / 4) % 2 == 1
  }

  function RowKey(row: Row): nat
    requires |row| >= 2
  {
    (row[0] as nat % 4) * 256 + row[1] as nat
  }

  /** The row with its control word reduced to part and key. */
  function Stored(row: Row): (stored: Row)
    requires |row| >= 2
    ensures |stored| == |row| && stored[1..] == row[1..]
    ensures SetControl(stored) == 0 && !TestBit(stored)
    ensures Part(stored) == Part(row) && RowKey(stored) == RowKey(row)
  {
    [(row[0] as nat % 4 + Part(row) * 8) as Byte] + row[1..]
  }

  function PutWord(row: Row, at: nat, value: nat): (result: Row)
    requires at + 1 < |row| && value < 0x1_0000
    ensures |result| == |row| && Word(result, at) == value
    ensures forall i :: 0 <= i < |row| && i != at && i != at + 1 ==> result[i] == row[i]
  {
    row[at := (value / 256) as Byte][at + 1 := (value % 256) as Byte]
  }

  // ---------- service packages ----------

  const SERVICE_SIZE: nat := 20

  predicate ValidService(row: Row)
    requires |row| == SERVICE_SIZE
  {
    && (Word(row, 2) <= 4097 || Word(row, 2) == 0xffff)
    && Word(row, 10) != 0 && Word(row, 10) != 0xffff
    && AllBytes(row[12..20], 0)
  }

  predicate ServiceRow(row: Row) { |row| == SERVICE_SIZE && row[0] < 4 && ValidService(row) }

  function ServiceKey(row: Row): nat { if |row| < 2 then 0 else RowKey(row) }

  function LoadService(m: Rows, row: Row): Option<Rows> {
    if ServiceRow(row) then Some(m[ServiceKey(row) := row]) else None
  }

  function EditService(m: Rows, row: Row): Option<Rows> {
    if |row| != SERVICE_SIZE then None
    else if SetControl(row) == 1 then
      if row[0] as nat / 4 % 16 != 0 then None
      else
        var stored := Stored(row);
        if ValidService(stored) then Some(m[RowKey(row) := stored]) else None
    else if SetControl(row) == 2 then Some(m - {RowKey(row)})
    else if SetControl(row) == 3 then Some(map[])
    else None
  }

  lemma ServiceSteps()
    ensures StepKeeps(LoadService, SERVICE_SIZE, ServiceRow, ServiceKey)
    ensures StepKeeps(EditService, SERVICE_SIZE, ServiceRow, ServiceKey)
    ensures Loads(LoadService, SERVICE_SIZE, ServiceRow, ServiceKey)
  {
    hide ValidService, AllBytes;
    forall m: Rows, row: Row | WellKept(m, SERVICE_SIZE, ServiceRow, ServiceKey) && EditService(m, row).Some?
      ensures WellKept(EditService(m, row).value, SERVICE_SIZE, ServiceRow, ServiceKey)
    {
      if SetControl(row) == 1 {
        assert Part(row) == 0;
        assert ServiceRow(Stored(row));
      }
    }
  }

  method ApplyMulticastServiceRows(existing: Table, updates: Table) returns (outcome: Outcome)
    requires Aligned(existing, SERVICE_SIZE) && Aligned(updates, SERVICE_SIZE)
    ensures UpdateResult(existing, updates, SERVICE_SIZE, LoadService, EditService, ServiceKey, Anything, outcome)
  {
    ServiceSteps();
    outcome := Rebuild(existing, updates, SERVICE_SIZE, LoadService, EditService, ServiceRow, ServiceKey, Anything);
  }

  // ---------- VLAN tagging rules ----------

  /** applyKeyedRows: rows keyed by their first bytes; a deleting row removes its key. */
  function PrefixKey(keySize: nat): Row -> nat {
    (row: Row) => if |row| < keySize then 0 else Number(row[..keySize])
  }

  function LoadPrefixed(rowSize: nat, keySize: nat): Step {
    (m: Rows, row: Row) => if |row| != rowSize then None else Some(m[PrefixKey(keySize)(row) := row])
  }

  function EditPrefixed(rowSize: nat, keySize: nat, deleted: Row -> bool): Step {
    (m: Rows, row: Row) =>
      if |row| != rowSize then None
      else if deleted(row) then Some(m - {PrefixKey(keySize)(row)})
      else Some(m[PrefixKey(keySize)(row) := row])
  }

  function AnyRow(row: Row): bool { true }

  lemma PrefixedSteps(rowSize: nat, keySize: nat, deleted: Row -> bool)
    ensures StepKeeps(LoadPrefixed(rowSize, keySize), rowSize, AnyRow, PrefixKey(keySize))
    ensures StepKeeps(EditPrefixed(rowSize, keySize, deleted), rowSize, AnyRow, PrefixKey(keySize))
    ensures Loads(LoadPrefixed(rowSize, keySize), rowSize, AnyRow, PrefixKey(keySize))
  {
    hide Number;
  }

  method ApplyKeyedRows(existing: Table, updates: Table, rowSize: nat, keySize: nat, deleted: Row -> bool)
    returns (outcome: Outcome)
    requires Aligned(existing, rowSize) && Aligned(updates, rowSize)
    ensures UpdateResult(existing, updates, rowSize, LoadPrefixed(rowSize, keySize),
                         EditPrefixed(rowSize, keySize, deleted), PrefixKey(keySize), Anything, outcome)
  {
    hide StepKeeps, Loads;
    PrefixedSteps(rowSize, keySize, deleted);
    outcome := Rebuild(existing, updates, rowSize, LoadPrefixed(rowSize, keySize),
                       EditPrefixed(rowSize, keySize, deleted), AnyRow, PrefixKey(keySize), Anything);
  }

  /** Equally long keys order as numbers exactly as their bytes order lexicographically. */
  lemma {:induction false} NumberOrder(a: seq<Byte>, b: seq<Byte>, i: nat)
    requires |a| == |b| && i < |a| && a[..i] == b[..i] && a[i] < b[i]
    ensures Number(a) < Number(b)
    decreases |a|
  {
    var n := |a| - 1;
    if i == n {
      assert a[..n] == b[..n];
    } else {
      assert a[..n][..i] == a[..i] && b[..n][..i] == b[..i];
      NumberOrder(a[..n], b[..n], i);
    }
  }

  /** applyKeyedRows after a pass over the update rows that refuses an invalid one. */
  function EditValid(rowSize: nat, keySize: nat, deleted: Row -> bool, valid: Row -> bool): Step {
    (m: Rows, row: Row) =>
      if |row| != rowSize then None
      else if deleted(row) then Some(m - {PrefixKey(keySize)(row)})
      else if !valid(row) then None
      else Some(m[PrefixKey(keySize)(row) := row])
  }

  lemma ValidSteps(rowSize: nat, keySize: nat, deleted: Row -> bool, valid: Row -> bool)
    ensures StepKeeps(EditValid(rowSize, keySize, deleted, valid), rowSize, valid, PrefixKey(keySize))
    ensures Loads(LoadPrefixed(rowSize, keySize), rowSize, valid, PrefixKey(keySize))
  {
    hide Number;
  }

  ghost predicate AllValid(rows: seq<Row>, deleted: Row -> bool, valid: Row -> bool) {
    forall i :: 0 <= i < |rows| ==> deleted(rows[i]) || valid(rows[i])
  }

  lemma {:induction false} ValidFold(m: Rows, rows: seq<Row>, size: nat, keySize: nat, deleted: Row -> bool,
                                     valid: Row -> bool)
    requires AllValid(rows, deleted, valid) && Sized(rows, size)
    ensures Fold(m, rows, EditValid(size, keySize, deleted, valid)) ==
            Fold(m, rows, EditPrefixed(size, keySize, deleted))
  {
    if rows != [] {
      ValidFold(m, rows[..|rows| - 1], size, keySize, deleted, valid);
    }
  }

  lemma {:induction false} LoadAny(rows: seq<Row>, size: nat, keySize: nat)
    requires Sized(rows, size)
    ensures Fold(map[], rows, LoadPrefixed(size, keySize)).Some?
  {
    if rows != [] {
      LoadAny(rows[..|rows| - 1], size, keySize);
    }
  }

  lemma InvalidRow(m: Rows, rows: seq<Row>, size: nat, keySize: nat, deleted: Row -> bool, valid: Row -> bool, i: nat)
    requires i < |rows| && Sized(rows, size) && !deleted(rows[i]) && !valid(rows[i])
    ensures Fold(m, rows, EditValid(size, keySize, deleted, valid)).None?
  {
    assert rows[..i + 1][..i] == rows[..i];
    FoldFails(m, rows, EditValid(size, keySize, deleted, valid), i + 1);
  }

  method ApplyValidRows(existing: Table, updates: Table, rowSize: nat, keySize: nat, deleted: Row -> bool,
                        valid: Row -> bool)
    returns (outcome: Outcome)
    requires Aligned(existing, rowSize) && Aligned(updates, rowSize) && rowSize > 0
    ensures UpdateResult(existing, updates, rowSize, LoadPrefixed(rowSize, keySize),
                         EditValid(rowSize, keySize, deleted, valid), PrefixKey(keySize), Anything, outcome)
  {
    hide StepKeeps, Loads, Fold, Concat, Written, PrefixKey, LoadPrefixed, EditValid, EditPrefixed;
    var rows := Split(updates.bytes, updates.count, rowSize);
    ghost var committed := Cut(existing.bytes, existing.count, rowSize);
    LoadAny(committed, rowSize, keySize);
    for i := 0 to |rows|
      invariant forall j :: 0 <= j < i ==> deleted(rows[j]) || valid(rows[j])
    {
      if !deleted(rows[i]) && !valid(rows[i]) {
        InvalidRow(Fold(map[], committed, LoadPrefixed(rowSize, keySize)).value, rows, rowSize, keySize, deleted, valid,
                   i);
        assert RebuiltFrom(existing, updates, committed, rows, rowSize, LoadPrefixed(rowSize, keySize),
                           EditValid(rowSize, keySize, deleted, valid), PrefixKey(keySize), Anything, ParameterError);
        return ParameterError;
      }
    }
    outcome := ApplyKeyedRows(existing, updates, rowSize, keySize, deleted);
    ValidatedResult(existing, updates, rowSize, keySize, deleted, valid, rows, outcome);
  }

  lemma ValidatedResult(existing: Table, updates: Table, size: nat, keySize: nat, deleted: Row -> bool,
                        valid: Row -> bool, rows: seq<Row>, outcome: Outcome)
    requires size > 0 && Sized(rows, size) && Concat(rows) == updates.bytes && AllValid(rows, deleted, valid)
    requires UpdateResult(existing, updates, size, LoadPrefixed(size, keySize), EditPrefixed(size, keySize, deleted),
                          PrefixKey(keySize), Anything, outcome)
    ensures UpdateResult(existing, updates, size, LoadPrefixed(size, keySize), EditValid(size, keySize, deleted, valid),
                         PrefixKey(keySize), Anything, outcome)
  {
    hide Fold, Concat, Written, PrefixKey, LoadPrefixed, EditValid, EditPrefixed;
    var old_, new_ :| RebuiltFrom(existing, updates, old_, new_, size, LoadPrefixed(size, keySize),
                                  EditPrefixed(size, keySize, deleted), PrefixKey(keySize), Anything, outcome);
    FlattenInjective(rows, new_, size);
    var committed := Fold(map[], old_, LoadPrefixed(size, keySize));
    if committed.Some? {
      ValidFold(committed.value, new_, size, keySize, deleted, valid);
    }
    assert RebuiltFrom(existing, updates, old_, new_, size, LoadPrefixed(size, keySize),
                       EditValid(size, keySize, deleted, valid), PrefixKey(keySize), Anything, outcome);
  }

  // ---------- enhanced VLAN tagging rules ----------

  function EnhancedKey(row: Row): nat { if |row| < 4 then 0 else Word(row, 2) }

  /** The row without its set-control bits. */
  function Uncontrolled(row: Row): (stored: Row)
    requires |row| == ENHANCED_SIZE
    ensures |stored| == ENHANCED_SIZE && EnhancedKey(stored) == EnhancedKey(row) && EnhancedRow(stored)
  {
    row[0 := (row[0] as nat % 64) as Byte]
  }

  predicate EnhancedRow(row: Row) { |row| == ENHANCED_SIZE && row[0] < 64 }

  function LoadEnhanced(m: Rows, row: Row): Option<Rows> {
    if |row| != ENHANCED_SIZE then None else Some(m[EnhancedKey(row) := Uncontrolled(row)])
  }

  function EditEnhanced(m: Rows, row: Row): Option<Rows> {
    if |row| != ENHANCED_SIZE then None
    else if SetControl(row) == 1 then
      if (row[0] as nat / 16) % 4 == 3 || !ParsesEnhanced(Uncontrolled(row)) then None
      else Some(m[EnhancedKey(row) := Uncontrolled(row)])
    else if SetControl(row) == 2 then Some(m - {EnhancedKey(row)})
    else if SetControl(row) == 3 then Some(map[])
    else None
  }

  lemma EnhancedSteps()
    ensures StepKeeps(LoadEnhanced, ENHANCED_SIZE, EnhancedRow, EnhancedKey)
    ensures StepKeeps(EditEnhanced, ENHANCED_SIZE, EnhancedRow, EnhancedKey)
    ensures StepKeeps(EditEnhanced, ENHANCED_SIZE, ParsesEnhanced, EnhancedKey)
    ensures Loads(LoadEnhanced, ENHANCED_SIZE, ParsesEnhanced, EnhancedKey)
  {
    hide RuleWords, AllBytes;
    forall m: Rows, row: Row | |row| == ENHANCED_SIZE && ParsesEnhanced(row)
      ensures LoadEnhanced(m, row) == Some(m[EnhancedKey(row) := row])
    {
      assert Uncontrolled(row) == row;
    }
  }

  method ApplyEnhancedVLANRows(existing: Table, updates: Table) returns (outcome: Outcome)
    requires Aligned(existing, ENHANCED_SIZE) && Aligned(updates, ENHANCED_SIZE)
    ensures UpdateResult(existing, updates, ENHANCED_SIZE, LoadEnhanced, EditEnhanced, EnhancedKey, Anything, outcome)
  {
    hide StepKeeps, Loads;
    EnhancedSteps();
    outcome :=
      Rebuild(existing, updates, ENHANCED_SIZE, LoadEnhanced, EditEnhanced, EnhancedRow, EnhancedKey, Anything);
  }

  // ---------- multicast address tables ----------

  function AddressSize(ipv6: bool): nat { if ipv6 then 24 else 12 }

  /** An address row deletes its key when nothing follows the key but zeros. */
  function EmptyRange(ipv6: bool): Row -> bool {
    (row: Row) => |row| == AddressSize(ipv6) && AllBytes(row[4..], 0)
  }

  function AddressRow(ipv6: bool): Row -> bool {
    (row: Row) =>
      && |row| == AddressSize(ipv6) && Word(row, 0) <= 0x0fff
      && (if ipv6 then row[12] == 0xff else row[4] / 16 == 14 && row[8] / 16 == 14)
      && Number(row[4..8]) <= Number(row[8..12])
  }

  method ApplyMulticastAddressRows(existing: Table, updates: Table, ipv6: bool) returns (outcome: Outcome)
    requires Aligned(existing, AddressSize(ipv6)) && Aligned(updates, AddressSize(ipv6))
    ensures UpdateResult(existing, updates, AddressSize(ipv6), LoadPrefixed(AddressSize(ipv6), 4),
                         EditValid(AddressSize(ipv6), 4, EmptyRange(ipv6), AddressRow(ipv6)), PrefixKey(4),
                         Anything, outcome)
  {
    outcome := ApplyValidRows(existing, updates, AddressSize(ipv6), 4, EmptyRange(ipv6), AddressRow(ipv6));
  }

  // ---------- access-control lists ----------

  const ACL_SIZE: nat := 24

  /** Rows are ordered by row key, then by part; a logical row has the parts 8 * key + 0..2. */
  function PartKey(row: Row): nat { if |row| < 2 then 0 else RowKey(row) * 8 + Part(row) }

  predicate ValidACLPart(row: Row, isStatic: bool)
    requires |row| == ACL_SIZE
  {
    if Part(row) == 0 then
      && Word(row, 2) <= 0x0fff
      && (Word(row, 4) < 4096 || Word(row, 4) == 4097 || Word(row, 4) == 0xffff)
      && AllBytes(row[22..24], 0)
    else if Part(row) == 1 then
      && (isStatic || Word(row, 20) <= 24 || Word(row, 20) >= 241)
      && AllBytes(row[22..24], 0)
    else AllBytes(row[14..24], 0)
  }

  /** The preview reset time of a row of part 1 that leaves it to the row before. */
  const KEEP_RESET: nat := 255

  predicate ACLRow(isStatic: bool, row: Row) {
    && |row| == ACL_SIZE && SetControl(row) == 0 && !TestBit(row) && Part(row) <= 2
    && ValidACLPart(row, isStatic)
  }

  function IsACLRow(isStatic: bool): Row -> bool { (row: Row) => ACLRow(isStatic, row) }

  function LoadACL(isStatic: bool): Step {
    (m: Rows, row: Row) => if ACLRow(isStatic, row) then Some(m[PartKey(row) := row]) else None
  }

  function PreviousReset(m: Rows, key: nat): nat {
    if key in m && |m[key]| == ACL_SIZE then Word(m[key], 20) else 0
  }

  function StoredACL(m: Rows, row: Row, isStatic: bool): (stored: Row)
    requires |row| == ACL_SIZE
    ensures |stored| == ACL_SIZE
  {
    var stored := Stored(row);
    if !isStatic && Part(row) == 1 && Word(stored, 20) == KEEP_RESET
    then PutWord(stored, 20, PreviousReset(m, PartKey(row)))
    else stored
  }

  function EditACL(isStatic: bool): Step {
    (m: Rows, row: Row) =>
      if |row| != ACL_SIZE then None
      else if SetControl(row) == 1 then
        if Part(row) > 2 || !ValidACLPart(Stored(row), isStatic) then None
        else Some(m[PartKey(row) := StoredACL(m, row, isStatic)])
      else if SetControl(row) == 2 then Some(WithoutLogicalRow(m, RowKey(row)))
      else if SetControl(row) == 3 then Some(map[])
      else None
  }

  /** All parts of one logical row go together. */
  function WithoutLogicalRow(m: Rows, key: nat): Rows {
    map k | k in m && k / 8 != key :: m[k]
  }

  lemma StoredACLIsRow(m: Rows, row: Row, isStatic: bool)
    requires |row| == ACL_SIZE && Part(row) <= 2 && ValidACLPart(Stored(row), isStatic)
    requires WellKept(m, ACL_SIZE, IsACLRow(isStatic), PartKey)
    ensures ACLRow(isStatic, StoredACL(m, row, isStatic)) && PartKey(StoredACL(m, row, isStatic)) == PartKey(row)
  {
    var stored, key := Stored(row), PartKey(row);
    if !isStatic && Part(row) == 1 && Word(stored, 20) == KEEP_RESET {
      var reset := PreviousReset(m, key);
      if key in m {
        assert ACLRow(isStatic, m[key]) && PartKey(m[key]) == key;
        assert Part(m[key]) == 1;
      }
      assert reset <= 24 || reset >= 241;
      var result := PutWord(stored, 20, reset);
      assert result[22..24] == stored[22..24];
      assert result[0] == stored[0] && result[1] == stored[1];
    }
  }

  lemma ACLSteps(isStatic: bool)
    ensures StepKeeps(LoadACL(isStatic), ACL_SIZE, IsACLRow(isStatic), PartKey)
    ensures StepKeeps(EditACL(isStatic), ACL_SIZE, IsACLRow(isStatic), PartKey)
    ensures Loads(LoadACL(isStatic), ACL_SIZE, IsACLRow(isStatic), PartKey)
  {
    hide ValidACLPart, StoredACL;
    forall m: Rows, row: Row | WellKept(m, ACL_SIZE, IsACLRow(isStatic), PartKey) && EditACL(isStatic)(m, row).Some?
      ensures WellKept(EditACL(isStatic)(m, row).value, ACL_SIZE, IsACLRow(isStatic), PartKey)
    {
      if SetControl(row) == 1 {
        StoredACLIsRow(m, row, isStatic);
      }
    }
  }

  // ---------- destination ranges ----------

  datatype Range = Range(ipv6: bool, start: nat, stop: nat)

  predicate IPv4CompatiblePrefix(prefix: seq<Byte>)
    requires |prefix| == 12
  {
    && AllBytes(prefix[..10], 0)
    && ((prefix[10] == 0 && prefix[11] == 0) || (prefix[10] == 0xff && prefix[11] == 0xff))
  }

  /** The destination range of a logical row: part 0 holds the last four bytes of both ends, part 2, when
      there is one, the twelve bytes before them. None when it is not a multicast range. */
  function RangeOf(part0: Row, part2: Option<Row>): Option<Range>
    requires |part0| == ACL_SIZE && (part2.Some? ==> |part2.value| == ACL_SIZE)
  {
    var start, stop := Number(part0[10..14]), Number(part0[14..18]);
    if part2.None? || IPv4CompatiblePrefix(part2.value[2..14]) then
      if part0[10] / 16 == 14 && part0[14] / 16 == 14 && start <= stop then Some(Range(false, start, stop)) else None
    else
      var prefix := part2.value[2..14];
      if prefix[0] == 0xff && start <= stop
      then Some(Range(true, Number(prefix + part0[10..14]), Number(prefix + part0[14..18]))) else None
  }

  function Row2(m: Rows, key: nat): Option<Row> { if key * 8 + 2 in m then Some(m[key * 8 + 2]) else None }

  predicate SizedMap(m: Rows) { forall k :: k in m ==> |m[k]| == ACL_SIZE }

  function LogicalRange(m: Rows, key: nat): Option<Range>
    requires SizedMap(m) && key * 8 in m
  {
    RangeOf(m[key * 8], Row2(m, key))
  }

  predicate Overlap(a: Range, b: Range) { a.ipv6 == b.ipv6 && a.start <= b.stop && b.start <= a.stop }

  /** Every logical row has a range, and no two ranges of one family meet. */
  ghost predicate Separated(m: Rows) {
    && SizedMap(m)
    && (forall key :: key * 8 in m ==> LogicalRange(m, key).Some?)
    && (forall a, b :: a * 8 in m && b * 8 in m && a != b ==>
          !Overlap(LogicalRange(m, a).value, LogicalRange(m, b).value))
  }

  /** The ranges collected so far are those of the logical rows visited, and they are separate. */
  ghost predicate Collected(m: Rows, visited: set<nat>, ranges: seq<Range>)
    requires SizedMap(m)
  {
    && (forall k :: k in visited && k % 8 == 0 && k in m ==>
          LogicalRange(m, k / 8).Some? && LogicalRange(m, k / 8).value in ranges)
    && (forall i :: 0 <= i < |ranges| ==> FromRow(m, visited, ranges[i]))
    && (forall a, b :: a in visited && b in visited && a in m && b in m && a % 8 == 0 && b % 8 == 0 && a != b ==>
          !Overlap(LogicalRange(m, a / 8).value, LogicalRange(m, b / 8).value))
  }

  ghost predicate FromRow(m: Rows, visited: set<nat>, range: Range)
    requires SizedMap(m)
  {
    exists k :: k in visited && k % 8 == 0 && k in m && LogicalRange(m, k / 8) == Some(range)
  }

  lemma CollectNext(m: Rows, visited: set<nat>, ranges: seq<Range>, k: nat, range: Range)
    requires SizedMap(m) && Collected(m, visited, ranges) && k !in visited && k in m && k % 8 == 0
    requires LogicalRange(m, k / 8) == Some(range)
    requires forall i :: 0 <= i < |ranges| ==> !Overlap(ranges[i], range)
    ensures Collected(m, visited + {k}, ranges + [range])
  {
    hide RangeOf;
    var more := ranges + [range];
    forall i | 0 <= i < |more| ensures FromRow(m, visited + {k}, more[i]) {
      if i < |ranges| {
        assert FromRow(m, visited, ranges[i]);
        var j :| j in visited && j % 8 == 0 && j in m && LogicalRange(m, j / 8) == Some(ranges[i]);
        assert j in visited + {k};
      } else {
        assert k in visited + {k};
      }
    }
    forall a | a in visited && a in m && a % 8 == 0
      ensures !Overlap(LogicalRange(m, a / 8).value, range) && !Overlap(range, LogicalRange(m, a / 8).value)
    {
      var i :| 0 <= i < |ranges| && ranges[i] == LogicalRange(m, a / 8).value;
    }
  }

  lemma CollectOther(m: Rows, visited: set<nat>, ranges: seq<Range>, k: nat)
    requires SizedMap(m) && Collected(m, visited, ranges) && (k !in m || k % 8 != 0)
    ensures Collected(m, visited + {k}, ranges)
  {
    hide RangeOf;
    forall i | 0 <= i < |ranges| ensures FromRow(m, visited + {k}, ranges[i]) {
      assert FromRow(m, visited, ranges[i]);
      var j :| j in visited && j % 8 == 0 && j in m && LogicalRange(m, j / 8) == Some(ranges[i]);
      assert j in visited + {k};
    }
  }

  /** validateMulticastACLRows: the verdict does not depend on the order Go visits the map in. */
  method ValidateMulticastACLRows(m: Rows) returns (ok: bool)
    requires SizedMap(m)
    ensures ok <==> Separated(m)
  {
    hide RangeOf, Overlap, Collected, SizedMap, Separated;
    var ranges: seq<Range> := [];
    var rest := m.Keys;
    ghost var visited: set<nat> := {};
    NothingCollected(m);
    while rest != {}
      invariant visited + rest == m.Keys && visited !! rest
      invariant Collected(m, visited, ranges)
      decreases |rest|
    {
      var k :| k in rest;
      if k % 8 != 0 {
        CollectOther(m, visited, ranges, k);
      } else {
        WholeKey(k);
        var range := LogicalRange(m, k / 8);
        if range.None? {
          NoRange(m, k);
          return false;
        }
        var i := FirstOverlap(ranges, range.value);
        if i < |ranges| {
          Clash(m, visited, ranges, k, range.value, i);
          return false;
        }
        CollectNext(m, visited, ranges, k, range.value);
        ranges := ranges + [range.value];
      }
      visited, rest := visited + {k}, rest - {k};
    }
    assert visited == m.Keys;
    CollectedAll(m, ranges);
    ok := true;
  }

  method FirstOverlap(ranges: seq<Range>, range: Range) returns (i: nat)
    ensures i <= |ranges| && (i < |ranges| ==> Overlap(ranges[i], range))
    ensures forall j :: 0 <= j < i ==> !Overlap(ranges[j], range)
  {
    i := 0;
    while i < |ranges| && !Overlap(ranges[i], range)
      invariant i <= |ranges|
      invariant forall j :: 0 <= j < i ==> !Overlap(ranges[j], range)
    {
      i := i + 1;
    }
  }

  lemma NoRange(m: Rows, k: nat)
    requires SizedMap(m) && k in m && k % 8 == 0 && k / 8 * 8 in m && LogicalRange(m, k / 8).None?
    ensures !Separated(m)
  {}

  lemma NothingCollected(m: Rows)
    requires SizedMap(m)
    ensures Collected(m, {}, [])
  {}

  lemma WholeKey(k: nat)
    requires k % 8 == 0
    ensures k / 8 * 8 == k
  {}

  lemma Clash(m: Rows, visited: set<nat>, ranges: seq<Range>, k: nat, range: Range, i: nat)
    requires SizedMap(m) && Collected(m, visited, ranges) && k in m && k !in visited && k % 8 == 0 && i < |ranges|
    requires LogicalRange(m, k / 8) == Some(range) && Overlap(ranges[i], range)
    ensures !Separated(m)
  {
    hide RangeOf;
    assert FromRow(m, visited, ranges[i]);
    var j :| j in visited && j % 8 == 0 && j in m && LogicalRange(m, j / 8) == Some(ranges[i]);
    WholeKey(j);
    WholeKey(k);
  }

  lemma CollectedAll(m: Rows, ranges: seq<Range>)
    requires SizedMap(m) && Collected(m, m.Keys, ranges)
    ensures Separated(m)
  {
    hide RangeOf, Overlap;
    forall key | key * 8 in m ensures LogicalRange(m, key).Some? {
      assert (key * 8) % 8 == 0 && key * 8 / 8 == key;
    }
    forall a, b | a * 8 in m && b * 8 in m && a != b
      ensures !Overlap(LogicalRange(m, a).value, LogicalRange(m, b).value)
    {
      assert (a * 8) % 8 == 0 && (b * 8) % 8 == 0 && a * 8 / 8 == a && b * 8 / 8 == b;
    }
  }

  /** In an accepted list at most one logical row covers a group address. */
  lemma OneRowMatches(m: Rows, a: nat, b: nat, ipv6: bool, group: nat)
    requires Separated(m) && a * 8 in m && b * 8 in m
    requires var r := LogicalRange(m, a).value; r.ipv6 == ipv6 && r.start <= group <= r.stop
    requires var r := LogicalRange(m, b).value; r.ipv6 == ipv6 && r.start <= group <= r.stop
    ensures a == b
  {
    hide RangeOf;
    assert Overlap(LogicalRange(m, a).value, LogicalRange(m, b).value);
  }

  /** A list is accepted exactly when every update row is valid and the resulting ranges are separate;
      what is stored is the canonical encoding of the resulting map. */
  method ApplyMulticastACLRows(existing: Table, updates: Table, isStatic: bool) returns (outcome: Outcome)
    requires Aligned(existing, ACL_SIZE) && Aligned(updates, ACL_SIZE)
    ensures ACLResult(existing, updates, isStatic, outcome)
  {
    hide StepKeeps, Loads, Written, Separated, GatheredFrom;
    ACLSteps(isStatic);
    var next, error;
    ghost var old_, new_;
    next, error, old_, new_ :=
      Gather(existing, updates, ACL_SIZE, LoadACL(isStatic), EditACL(isStatic), IsACLRow(isStatic), PartKey);
    if error.Some? {
      outcome := error.value;
    } else {
      var ok := ValidateMulticastACLRows(next);
      if !ok {
        outcome := ParameterError;
      } else {
        var table := WriteBack(next, ACL_SIZE, IsACLRow(isStatic), PartKey);
        outcome := Updated(table);
      }
    }
    assert ACLRebuilt(existing, updates, isStatic, old_, new_, if error.None? then Some(next) else None, error,
                      outcome);
  }

  ghost predicate ACLResult(existing: Table, updates: Table, isStatic: bool, outcome: Outcome) {
    exists old_, new_, next, error :: ACLRebuilt(existing, updates, isStatic, old_, new_, next, error, outcome)
  }

  ghost predicate ACLRebuilt(existing: Table, updates: Table, isStatic: bool, old_: seq<Row>, new_: seq<Row>,
                             next: Option<Rows>, error: Option<Outcome>, outcome: Outcome) {
    && GatheredFrom(existing, updates, old_, new_, ACL_SIZE, LoadACL(isStatic), EditACL(isStatic), next, error)
    && if error.Some? || next.None? then error == Some(outcome)
       else if !Separated(next.value) then outcome == ParameterError
       else outcome.Updated? && Holds(outcome.table, next.value, ACL_SIZE, IsACLRow(isStatic), PartKey)
  }

  // ---------- allowed previews ----------

  const PREVIEW_SIZE: nat := 22

  predicate ValidPreviewAddress(value: seq<Byte>, multicast: bool)
    requires |value| == 16
  {
    if AllBytes(value, 0) && !multicast then true
    else if AllBytes(value[..12], 0) then !multicast || value[12] / 16 == 14
    else !multicast || value[0] == 0xff
  }

  predicate ValidPreviewPart(row: Row)
    requires |row| == PREVIEW_SIZE
  {
    if Part(row) == 0 then
      Word(row, 18) <= 4095 && Word(row, 20) <= 4095 && ValidPreviewAddress(row[2..18], false)
    else ValidPreviewAddress(row[2..18], true)
  }

  function Duration(row: Row): (duration: nat)
    requires |row| == PREVIEW_SIZE
    ensures duration < 0x1_0000
  {
    Word(row, 18)
  }

  function TimeLeft(row: Row): nat
    requires |row| == PREVIEW_SIZE
  {
    Word(row, 20)
  }

  predicate LoadablePreview(row: Row) {
    && |row| == PREVIEW_SIZE && SetControl(row) == 0 && !TestBit(row) && Part(row) <= 1 && ValidPreviewPart(row)
  }

  /** A stored row: the timer of part 1 never exceeds its duration. */
  predicate PreviewRow(row: Row) {
    LoadablePreview(row) && (Part(row) == 1 ==> TimeLeft(row) <= Duration(row))
  }

  function LoadPreview(m: Rows, row: Row): Option<Rows> {
    if LoadablePreview(row) then Some(m[PartKey(row) := row]) else None
  }

  /** The time left after an edit of the duration: the elapsed time is kept, within 0 and 65535. */
  function AdjustedTimeLeft(previous: Option<Row>, duration: nat): (timeLeft: nat)
    requires duration < 0x1_0000 && (previous.Some? ==> |previous.value| == PREVIEW_SIZE)
    ensures timeLeft < 0x1_0000
  {
    if previous.Some? && Duration(previous.value) != 0 && duration != 0 then
      var adjusted := TimeLeft(previous.value) + duration - Duration(previous.value);
      if adjusted < 0 then 0 else if adjusted > 0xffff then 0xffff else adjusted
    else duration
  }

  function PreviousRow(m: Rows, key: nat): Option<Row> {
    if key in m && |m[key]| == PREVIEW_SIZE then Some(m[key]) else None
  }

  function EditPreview(m: Rows, row: Row): Option<Rows> {
    if |row| != PREVIEW_SIZE then None
    else if SetControl(row) == 1 then
      if TestBit(row) || Part(row) > 1 || !ValidPreviewPart(Stored(row)) then None
      else if Part(row) == 0 then Some(m[PartKey(row) := Stored(row)])
      else
        var timeLeft := AdjustedTimeLeft(PreviousRow(m, PartKey(row)), Duration(row));
        if Duration(row) != 0 && timeLeft == 0 then Some(WithoutLogicalRow(m, RowKey(row)))
        else Some(m[PartKey(row) := PutWord(Stored(row), 20, timeLeft)])
    else if SetControl(row) == 2 then Some(WithoutLogicalRow(m, RowKey(row)))
    else if SetControl(row) == 3 then Some(map[])
    else None
  }

  /** The timer an edit stores: never above the duration, so the upper clamp is never reached; the elapsed
      time is what it was, unless the new duration is already used up. */
  lemma TimerAfterEdit(previous: Row, duration: nat)
    requires PreviewRow(previous) && Part(previous) == 1 && Duration(previous) != 0 && 0 < duration < 0x1_0000
    ensures var left := AdjustedTimeLeft(Some(previous), duration);
      var elapsed := Duration(previous) - TimeLeft(previous);
      && left <= duration
      && (elapsed <= duration ==> duration - left == elapsed)
      && (elapsed >= duration <==> left == 0)
  {}

  lemma WithTimer(row: Row, timeLeft: nat)
    requires |row| == PREVIEW_SIZE && Part(row) == 1 && ValidPreviewPart(Stored(row)) && timeLeft < 0x1_0000
    ensures var stored := PutWord(Stored(row), 20, timeLeft);
      && LoadablePreview(stored) && PartKey(stored) == PartKey(row) && Part(stored) == 1
      && Duration(stored) == Duration(row) && TimeLeft(stored) == timeLeft
  {
    var stored := PutWord(Stored(row), 20, timeLeft);
    assert stored[2..18] == Stored(row)[2..18];
    assert stored[0] == Stored(row)[0] && stored[1] == Stored(row)[1];
    assert stored[18] == row[1..][17] && stored[19] == row[1..][18];
  }

  lemma TimerWithinDuration(m: Rows, row: Row)
    requires WellKept(m, PREVIEW_SIZE, PreviewRow, PartKey) && |row| == PREVIEW_SIZE && Part(row) == 1
    ensures AdjustedTimeLeft(PreviousRow(m, PartKey(row)), Duration(row)) <= Duration(row)
  {
    var previous := PreviousRow(m, PartKey(row));
    if previous.Some? {
      assert PreviewRow(previous.value) && PartKey(previous.value) == PartKey(row);
      assert Part(previous.value) == 1;
      if Duration(previous.value) != 0 && Duration(row) != 0 {
        TimerAfterEdit(previous.value, Duration(row));
      }
    }
  }

  lemma PreviewSteps()
    ensures StepKeeps(EditPreview, PREVIEW_SIZE, PreviewRow, PartKey)
    ensures StepKeeps(EditPreview, PREVIEW_SIZE, LoadablePreview, PartKey)
    ensures StepKeeps(LoadPreview, PREVIEW_SIZE, LoadablePreview, PartKey)
    ensures Loads(LoadPreview, PREVIEW_SIZE, PreviewRow, PartKey)
  {
    hide ValidPreviewPart, AdjustedTimeLeft, Duration, TimeLeft;
    forall m: Rows, row: Row |
      WellKept(m, PREVIEW_SIZE, PreviewRow, PartKey) && |row| == PREVIEW_SIZE && EditPreview(m, row).Some?
      ensures WellKept(EditPreview(m, row).value, PREVIEW_SIZE, PreviewRow, PartKey)
    {
      if SetControl(row) == 1 && Part(row) == 1 {
        TimerWithinDuration(m, row);
        WithTimer(row, AdjustedTimeLeft(PreviousRow(m, PartKey(row)), Duration(row)));
      }
    }
    forall m: Rows, row: Row |
      WellKept(m, PREVIEW_SIZE, LoadablePreview, PartKey) && |row| == PREVIEW_SIZE && EditPreview(m, row).Some?
      ensures WellKept(EditPreview(m, row).value, PREVIEW_SIZE, LoadablePreview, PartKey)
    {
      if SetControl(row) == 1 && Part(row) == 1 {
        WithTimer(row, AdjustedTimeLeft(PreviousRow(m, PartKey(row)), Duration(row)));
      }
    }
  }

  method ApplyAllowedPreviewRows(existing: Table, updates: Table) returns (outcome: Outcome)
    requires Aligned(existing, PREVIEW_SIZE) && Aligned(updates, PREVIEW_SIZE)
    ensures UpdateResult(existing, updates, PREVIEW_SIZE, LoadPreview, EditPreview, PartKey, Anything, outcome)
  {
    hide StepKeeps, Loads;
    PreviewSteps();
    outcome := Rebuild(existing, updates, PREVIEW_SIZE, LoadPreview, EditPreview, LoadablePreview, PartKey, Anything);
  }

  // ---------- expiry of timed previews ----------

  datatype Timer = Timer(duration: nat, timeLeft: nat)

  /** A row of part 1 whose running timer has reached zero. */
  predicate ExpiredRow(row: Row, timers: map<nat, Timer>)
    requires |row| == PREVIEW_SIZE
  {
    && Part(row) == 1 && RowKey(row) in timers && Duration(row) != 0
    && timers[RowKey(row)] == Timer(Duration(row), 0)
  }

  /** The keys of the logical rows to drop. */
  ghost predicate ExpiredKey(key: nat, rows: seq<Row>, timers: map<nat, Timer>)
    requires Sized(rows, PREVIEW_SIZE)
  {
    exists i :: 0 <= i < |rows| && ExpiredRow(rows[i], timers) && RowKey(rows[i]) == key
  }

  /** The rows of other keys, in their order. */
  function KeepRows(rows: seq<Row>, expired: set<nat>): (left: seq<Row>)
    requires Sized(rows, PREVIEW_SIZE)
    ensures Sized(left, PREVIEW_SIZE)
  {
    if rows == [] then []
    else
      var n := |rows| - 1;
      KeepRows(rows[..n], expired) + if RowKey(rows[n]) in expired then [] else [rows[n]]
  }

  /** The table without the logical rows that have expired, all parts of each; the rest keeps its order. */
  method RemoveExpired(existing: Table, timers: map<nat, Timer>) returns (kept: Table, any: bool)
    requires Aligned(existing, PREVIEW_SIZE)
    ensures ExpiryResult(existing, timers, kept, any) && Aligned(kept, PREVIEW_SIZE)
  {
    hide Concat;
    var rows := Split(existing.bytes, existing.count, PREVIEW_SIZE);
    var expired: set<nat> := {};
    for i := 0 to |rows|
      invariant forall key :: key in expired <==>
                  exists j :: 0 <= j < i && ExpiredRow(rows[j], timers) && RowKey(rows[j]) == key
    {
      if ExpiredRow(rows[i], timers) {
        expired := expired + {RowKey(rows[i])};
      }
    }
    any := expired != {};
    kept := Filtered(rows, expired);
    FlattenLength(KeepRows(rows, expired), PREVIEW_SIZE);
    assert ExpiredFrom(existing, rows, expired, timers, kept, any);
  }

  method Filtered(rows: seq<Row>, expired: set<nat>) returns (kept: Table)
    requires Sized(rows, PREVIEW_SIZE)
    ensures kept == Table(|KeepRows(rows, expired)|, Concat(KeepRows(rows, expired)))
  {
    var bytes: seq<Byte>, count := [], 0;
    for i := 0 to |rows|
      invariant count == |KeepRows(rows[..i], expired)| && bytes == Concat(KeepRows(rows[..i], expired))
    {
      ghost var left := KeepRows(rows[..i], expired);
      assert rows[..i + 1][..i] == rows[..i] && left + [] == left;
      if RowKey(rows[i]) !in expired {
        assert (left + [rows[i]])[..|left|] == left;
        bytes, count := bytes + rows[i], count + 1;
      }
    }
    assert rows[..|rows|] == rows;
    kept := Table(count, bytes);
  }

  ghost predicate ExpiryResult(existing: Table, timers: map<nat, Timer>, kept: Table, any: bool) {
    exists rows, expired :: ExpiredFrom(existing, rows, expired, timers, kept, any)
  }

  ghost predicate ExpiredFrom(existing: Table, rows: seq<Row>, expired: set<nat>, timers: map<nat, Timer>, kept: Table,
                              any: bool) {
    && Sized(rows, PREVIEW_SIZE) && Concat(rows) == existing.bytes
    && (forall key :: key in expired <==> ExpiredKey(key, rows, timers))
    && (any <==> expired != {})
    && kept == Table(|KeepRows(rows, expired)|, Concat(KeepRows(rows, expired)))
  }

  /** The logical row whose part 1 carries a timer that has run out. */
  predicate ExpiredIn(m: Rows, key: nat, timers: map<nat, Timer>) {
    key * 8 + 1 in m && |m[key * 8 + 1]| == PREVIEW_SIZE && ExpiredRow(m[key * 8 + 1], timers)
  }

  /** The map without its expired logical rows. */
  function Unexpired(m: Rows, timers: map<nat, Timer>): Rows { map k | k in m && !ExpiredIn(m, k / 8, timers) :: m[k] }

  /** Removing the expired rows of a stored table leaves the table of the remaining map. */
  lemma ExpiryKeepsCanonical(existing: Table, timers: map<nat, Timer>, m: Rows, kept: Table, any: bool)
    requires ExpiryResult(existing, timers, kept, any)
    requires Holds(existing, m, PREVIEW_SIZE, PreviewRow, PartKey)
    ensures Holds(kept, Unexpired(m, timers), PREVIEW_SIZE, PreviewRow, PartKey)
    ensures any <==> Unexpired(m, timers) != m
  {
    hide Concat, LoadablePreview, ExpiredRow, Encodes;
    var original :| WrittenAs(existing, original, m, PREVIEW_SIZE, PartKey);
    var rows, expired :| ExpiredFrom(existing, rows, expired, timers, kept, any);
    FlattenInjective(rows, original, PREVIEW_SIZE);
    SameExpired(rows, m, expired, timers);
    KeepEncodes(rows, m, expired, timers);
    assert WrittenAs(kept, KeepRows(rows, expired), Unexpired(m, timers), PREVIEW_SIZE, PartKey);
  }

  lemma SameExpired(rows: seq<Row>, m: Rows, expired: set<nat>, timers: map<nat, Timer>)
    requires Encodes(rows, m, PartKey) && Sized(rows, PREVIEW_SIZE)
    requires forall key :: key in expired <==> ExpiredKey(key, rows, timers)
    ensures forall key :: key in expired <==> ExpiredIn(m, key, timers)
    ensures expired != {} <==> Unexpired(m, timers) != m
  {
    hide Duration;
    forall key: nat | ExpiredKey(key, rows, timers) ensures ExpiredIn(m, key, timers) {
      var i :| 0 <= i < |rows| && ExpiredRow(rows[i], timers) && RowKey(rows[i]) == key;
      assert PartKey(rows[i]) == key * 8 + 1;
    }
    forall key: nat | ExpiredIn(m, key, timers)
      ensures ExpiredKey(key, rows, timers) && key * 8 + 1 !in Unexpired(m, timers)
    {
      var row := m[key * 8 + 1];
      var i :| 0 <= i < |rows| && rows[i] == row;
      assert PartKey(row) == key * 8 + 1 && (key * 8 + 1) / 8 == key;
    }
  }

  lemma {:induction false} KeepContents(rows: seq<Row>, expired: set<nat>)
    requires Sized(rows, PREVIEW_SIZE)
    ensures forall row :: row in KeepRows(rows, expired) <==>
              row in rows && |row| == PREVIEW_SIZE && RowKey(row) !in expired
  {
    if rows != [] {
      var n := |rows| - 1;
      KeepContents(rows[..n], expired);
      assert rows == rows[..n] + [rows[n]];
    }
  }

  lemma {:induction false} KeepCanonical(rows: seq<Row>, expired: set<nat>)
    requires Sized(rows, PREVIEW_SIZE) && Canonical(rows, PartKey)
    ensures Canonical(KeepRows(rows, expired), PartKey)
  {
    hide PartKey;
    if rows != [] {
      var n := |rows| - 1;
      KeepCanonical(rows[..n], expired);
      KeepContents(rows[..n], expired);
      var left := KeepRows(rows[..n], expired);
      forall i | 0 <= i < |left| ensures PartKey(left[i]) < PartKey(rows[n]) {
        assert left[i] in left;
        var j :| 0 <= j < n && rows[j] == left[i];
      }
    }
  }

  lemma KeepEncodes(rows: seq<Row>, m: Rows, expired: set<nat>, timers: map<nat, Timer>)
    requires Encodes(rows, m, PartKey) && Sized(rows, PREVIEW_SIZE)
    requires forall key :: key in expired <==> ExpiredIn(m, key, timers)
    ensures Encodes(KeepRows(rows, expired), Unexpired(m, timers), PartKey)
  {
    hide ExpiredIn;
    KeepContents(rows, expired);
    KeepCanonical(rows, expired);
    var left, rest := KeepRows(rows, expired), Unexpired(m, timers);
    forall i | 0 <= i < |left| ensures PartKey(left[i]) in rest && rest[PartKey(left[i])] == left[i] {
      assert left[i] in rows && PartKey(left[i]) / 8 == RowKey(left[i]);
    }
    forall k | k in rest ensures rest[k] in left && PartKey(rest[k]) == k {
      var row := m[k];
      assert row in rows && PartKey(row) / 8 == RowKey(row);
    }
  }

  /** One live timer of an allowed-preview row, as the multicast runtime reports it. */
  datatype AllowedPreviewTimer = AllowedPreviewTimer(rowKey: nat, duration: nat, timeLeft: nat)

  predicate ValidTimer(timer: AllowedPreviewTimer) { timer.rowKey <= 0x3ff && timer.timeLeft <= timer.duration }

  /** Every timer is sound and no row has two. */
  ghost predicate SoundTimers(timers: seq<AllowedPreviewTimer>) {
    && (forall i :: 0 <= i < |timers| ==> ValidTimer(timers[i]))
    && (forall i, j :: 0 <= i < j < |timers| ==> timers[i].rowKey != timers[j].rowKey)
  }

  ghost predicate Indexed(timers: seq<AllowedPreviewTimer>, indexed: map<nat, Timer>) {
    && (forall i :: 0 <= i < |timers| ==>
          timers[i].rowKey in indexed && indexed[timers[i].rowKey] == Timer(timers[i].duration, timers[i].timeLeft))
    && (forall key :: key in indexed ==> exists i :: 0 <= i < |timers| && timers[i].rowKey == key)
  }

  lemma IndexOne(timers: seq<AllowedPreviewTimer>, i: nat, indexed: map<nat, Timer>)
    requires i < |timers| && SoundTimers(timers[..i]) && Indexed(timers[..i], indexed)
    requires ValidTimer(timers[i]) && timers[i].rowKey !in indexed
    ensures SoundTimers(timers[..i + 1])
    ensures Indexed(timers[..i + 1], indexed[timers[i].rowKey := Timer(timers[i].duration, timers[i].timeLeft)])
  {
    var more := timers[..i + 1];
    assert more == timers[..i] + [timers[i]];
    var next := indexed[timers[i].rowKey := Timer(timers[i].duration, timers[i].timeLeft)];
    forall key | key in next
      ensures exists j :: 0 <= j < |more| && more[j].rowKey == key
    {
      if key == timers[i].rowKey {
        assert more[i].rowKey == key;
      } else {
        var j :| 0 <= j < i && timers[..i][j].rowKey == key;
        assert more[j].rowKey == key;
      }
    }
  }

  method IndexAllowedPreviewTimers(timers: seq<AllowedPreviewTimer>) returns (result: Option<map<nat, Timer>>)
    ensures result.Some? <==> SoundTimers(timers)
    ensures result.Some? ==> Indexed(timers, result.value)
  {
    var indexed: map<nat, Timer> := map[];
    for i := 0 to |timers|
      invariant SoundTimers(timers[..i]) && Indexed(timers[..i], indexed)
    {
      var timer := timers[i];
      if timer.rowKey > 0x3ff || (timer.duration == 0 && timer.timeLeft != 0)
         || (timer.duration != 0 && timer.timeLeft > timer.duration) {
        return None;
      }
      if timer.rowKey in indexed {
        assert exists j :: 0 <= j < i && timers[..i][j].rowKey == timer.rowKey;
        return None;
      }
      IndexOne(timers, i, indexed);
      indexed := indexed[timer.rowKey := Timer(timer.duration, timer.timeLeft)];
    }
    assert timers[..|timers|] == timers;
    result := Some(indexed);
  }
}
