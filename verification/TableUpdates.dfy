/** The common shape of the table updates of internal/mib/table.go: load the committed rows into a map,
    apply the update rows to it, and write the map back in key order. */
module TableUpdates {
  import opened Sequences
  import opened KeyedRows
  import opened WireBytes

  /** me.TableRows. */
  datatype Table = Table(count: nat, bytes: seq<Byte>)

  datatype Outcome =
    | Updated(table: Table)
    | ParameterError
    | ProcessingError

  type Step = (Rows, Row) -> Option<Rows>

  const EmptyTable := Table(0, [])

  predicate Aligned(table: Table, size: nat) { |table.bytes| == table.count * size }

  ghost function Fold(m: Rows, rows: seq<Row>, step: Step): Option<Rows> {
    if rows == [] then Some(m)
    else
      var before := Fold(m, rows[..|rows| - 1], step);
      if before.None? then None else step(before.value, rows[|rows| - 1])
  }

  lemma {:induction false} FoldFails(m: Rows, rows: seq<Row>, step: Step, n: nat)
    requires n <= |rows| && Fold(m, rows[..n], step).None?
    ensures Fold(m, rows, step).None?
    decreases |rows|
  {
    if n < |rows| {
      assert rows[..|rows| - 1][..n] == rows[..n];
      FoldFails(m, rows[..|rows| - 1], step, n);
    } else {
      assert rows[..n] == rows;
    }
  }

  method FoldRows(m: Rows, rows: seq<Row>, step: Step) returns (result: Option<Rows>)
    ensures result == Fold(m, rows, step)
  {
    result := Some(m);
    for i := 0 to |rows|
      invariant result.Some? && result == Fold(m, rows[..i], step)
    {
      assert rows[..i + 1][..i] == rows[..i];
      result := step(result.value, rows[i]);
      if result.None? {
        FoldFails(m, rows, step, i + 1);
        return;
      }
    }
    assert rows[..|rows|] == rows;
  }

  /** Every row satisfies `ok`, has the given size and is filed under its own key. */
  ghost predicate WellKept(m: Rows, size: nat, ok: Row -> bool, key: Row -> nat) {
    forall k :: k in m ==> |m[k]| == size && ok(m[k]) && key(m[k]) == k
  }

  ghost predicate StepKeeps(step: Step, size: nat, ok: Row -> bool, key: Row -> nat) {
    forall m: Rows, row: Row :: WellKept(m, size, ok, key) && |row| == size && step(m, row).Some? ==>
      WellKept(step(m, row).value, size, ok, key)
  }

  lemma {:induction false} FoldKeeps(m: Rows, rows: seq<Row>, step: Step, size: nat, ok: Row -> bool, key: Row -> nat)
    requires WellKept(m, size, ok, key) && StepKeeps(step, size, ok, key) && Sized(rows, size)
    ensures Fold(m, rows, step).Some? ==> WellKept(Fold(m, rows, step).value, size, ok, key)
  {
    if rows != [] {
      FoldKeeps(m, rows[..|rows| - 1], step, size, ok, key);
    }
  }

  // ---------- writing a map back ----------

  ghost predicate Written(table: Table, m: Rows, size: nat, key: Row -> nat) {
    exists rows :: WrittenAs(table, rows, m, size, key)
  }

  ghost predicate WrittenAs(table: Table, rows: seq<Row>, m: Rows, size: nat, key: Row -> nat) {
    && Encodes(rows, m, key) && Sized(rows, size)
    && table == Table(|rows|, Concat(rows))
  }

  method SortedKeys(keys: set<nat>) returns (list: seq<nat>)
    ensures forall i, j :: 0 <= i < j < |list| ==> list[i] < list[j]
    ensures forall k :: k in list <==> k in keys
  {
    list := [];
    var rest := keys;
    while rest != {}
      invariant rest <= keys
      invariant forall i, j :: 0 <= i < j < |list| ==> list[i] < list[j]
      invariant forall k :: k in list <==> k in keys - rest
      decreases |rest|
    {
      var k :| k in rest;
      rest := rest - {k};
      list := InsertKey(list, k);
    }
  }

  method InsertKey(list: seq<nat>, k: nat) returns (more: seq<nat>)
    requires forall i, j :: 0 <= i < j < |list| ==> list[i] < list[j]
    requires k !in list
    ensures forall i, j :: 0 <= i < j < |more| ==> more[i] < more[j]
    ensures forall x :: x in more <==> x in list || x == k
  {
    var i := 0;
    while i < |list| && list[i] < k
      invariant 0 <= i <= |list|
      invariant forall j :: 0 <= j < i ==> list[j] < k
    {
      i := i + 1;
    }
    assert forall j :: i <= j < |list| ==> k < list[j];
    more := list[..i] + [k] + list[i..];
    assert list == list[..i] + list[i..];
  }

  method WriteBack(m: Rows, size: nat, ghost ok: Row -> bool, ghost key: Row -> nat) returns (table: Table)
    requires WellKept(m, size, ok, key)
    ensures Written(table, m, size, key) && table.count == |m|
  {
    var keys := SortedKeys(m.Keys);
    var bytes: seq<Byte> := [];
    ghost var rows: seq<Row> := [];
    for i := 0 to |keys|
      invariant |rows| == i && bytes == Concat(rows)
      invariant forall j :: 0 <= j < i ==> rows[j] == m[keys[j]]
    {
      assert keys[i] in m;
      assert (rows + [m[keys[i]]])[..i] == rows;
      rows, bytes := rows + [m[keys[i]]], bytes + m[keys[i]];
    }
    AllWritten(m, keys, rows, size, ok, key);
    table := Table(|keys|, bytes);
    assert WrittenAs(table, rows, m, size, key);
    SameSize(keys, m);
  }

  lemma AllWritten(m: Rows, keys: seq<nat>, rows: seq<Row>, size: nat, ok: Row -> bool, key: Row -> nat)
    requires WellKept(m, size, ok, key) && |rows| == |keys|
    requires forall i, j :: 0 <= i < j < |keys| ==> keys[i] < keys[j]
    requires forall k :: k in keys <==> k in m.Keys
    requires forall j :: 0 <= j < |keys| ==> keys[j] in m && rows[j] == m[keys[j]]
    ensures Encodes(rows, m, key) && Sized(rows, size)
  {
    forall k | k in m ensures m[k] in rows {
      var i :| 0 <= i < |keys| && keys[i] == k;
      assert rows[i] == m[k];
    }
  }

  lemma {:induction false} SameSize(keys: seq<nat>, m: Rows)
    requires forall i, j :: 0 <= i < j < |keys| ==> keys[i] < keys[j]
    requires forall k :: k in keys <==> k in m.Keys
    ensures |keys| == |m|
    decreases |keys|
  {
    if keys == [] {
      assert m.Keys == {};
      assert m == map[];
    } else {
      var n := |keys| - 1;
      assert keys[n] in m;
      var rest := m - {keys[n]};
      assert keys == keys[..n] + [keys[n]];
      assert keys[n] !in keys[..n];
      SameSize(keys[..n], rest);
      assert rest.Keys == m.Keys - {keys[n]};
      assert |rest| == |m| - 1 by {
        assert |rest.Keys| == |rest| && |m.Keys| == |m|;
      }
    }
  }

  // ---------- what a written table says ----------

  /** A map has one table. */
  lemma OneTable(a: Table, b: Table, m: Rows, size: nat, key: Row -> nat)
    requires Written(a, m, size, key) && Written(b, m, size, key)
    ensures a == b
  {
    var rowsA :| WrittenAs(a, rowsA, m, size, key);
    var rowsB :| WrittenAs(b, rowsB, m, size, key);
    EncodingIsUnique(rowsA, rowsB, m, key);
  }

  /** A table holds one map. */
  lemma OneMap(table: Table, a: Rows, b: Rows, size: nat, key: Row -> nat)
    requires Written(table, a, size, key) && Written(table, b, size, key) && size > 0
    ensures a == b
  {
    var rowsA :| WrittenAs(table, rowsA, a, size, key);
    var rowsB :| WrittenAs(table, rowsB, b, size, key);
    FlattenInjective(rowsA, rowsB, size);
    EncodesToMap(rowsA, a, key);
    EncodesToMap(rowsB, b, key);
  }

  /** A step that stores a well-kept row under its key. */
  ghost predicate Loads(load: Step, size: nat, ok: Row -> bool, key: Row -> nat) {
    forall m: Rows, row: Row :: |row| == size && ok(row) ==> load(m, row) == Some(m[key(row) := row])
  }

  lemma {:induction false} LoadRows(rows: seq<Row>, load: Step, size: nat, ok: Row -> bool, key: Row -> nat)
    requires Loads(load, size, ok, key) && Sized(rows, size)
    requires forall i :: 0 <= i < |rows| ==> ok(rows[i])
    ensures Fold(map[], rows, load) == Some(ToMap(rows, key))
  {
    if rows != [] {
      LoadRows(rows[..|rows| - 1], load, size, ok, key);
    }
  }

  /** Loading a written table gives back the map it was written from. */
  lemma LoadsBack(table: Table, rows: seq<Row>, m: Rows, load: Step, size: nat, ok: Row -> bool, key: Row -> nat)
    requires Loads(load, size, ok, key) && WellKept(m, size, ok, key) && size > 0
    requires Written(table, m, size, key) && Sized(rows, size) && Concat(rows) == table.bytes
    ensures Fold(map[], rows, load) == Some(m)
  {
    var original :| WrittenAs(table, original, m, size, key);
    FlattenInjective(rows, original, size);
    assert forall i :: 0 <= i < |rows| ==> key(rows[i]) in m && m[key(rows[i])] == rows[i];
    LoadRows(rows, load, size, ok, key);
    EncodesToMap(rows, m, key);
  }

  // ---------- the whole update ----------

  /** Load, update, write back. A committed table that does not load is a processing error. */
  ghost predicate UpdateResult(existing: Table, updates: Table, size: nat, load: Step, edit: Step, key: Row -> nat,
                               accept: Rows -> bool, outcome: Outcome) {
    exists old_, new_ :: RebuiltFrom(existing, updates, old_, new_, size, load, edit, key, accept, outcome)
  }

  ghost predicate RebuiltFrom(existing: Table, updates: Table, old_: seq<Row>, new_: seq<Row>, size: nat, load: Step,
                              edit: Step, key: Row -> nat, accept: Rows -> bool, outcome: Outcome) {
    && Sized(old_, size) && Concat(old_) == existing.bytes
    && Sized(new_, size) && Concat(new_) == updates.bytes
    && var committed := Fold(map[], old_, load);
    && if committed.None? then outcome == ProcessingError
       else
         var next := Fold(committed.value, new_, edit);
         if next.None? || !accept(next.value) then outcome == ParameterError
         else outcome.Updated? && Written(outcome.table, next.value, size, key)
  }

  /** Loads the committed rows and applies the update rows; the error when that fails. */
  method Gather(existing: Table, updates: Table, size: nat, load: Step, edit: Step, ghost ok: Row -> bool,
                ghost key: Row -> nat)
    returns (next: Rows, error: Option<Outcome>, ghost old_: seq<Row>, ghost new_: seq<Row>)
    requires Aligned(existing, size) && Aligned(updates, size)
    requires StepKeeps(load, size, ok, key) && StepKeeps(edit, size, ok, key)
    ensures GatheredFrom(existing, updates, old_, new_, size, load, edit, if error.None? then Some(next) else None,
                         error)
    ensures error.None? ==> WellKept(next, size, ok, key)
  {
    hide Concat, Fold, WellKept, StepKeeps;
    EmptyIsKept(size, ok, key);
    var committedRows := Split(existing.bytes, existing.count, size);
    var updateRows := Split(updates.bytes, updates.count, size);
    old_, new_ := committedRows, updateRows;
    next, error := map[], None;
    var committed := FoldRows(map[], committedRows, load);
    if committed.None? {
      error := Some(ProcessingError);
      return;
    }
    FoldKeeps(map[], committedRows, load, size, ok, key);
    var result := FoldRows(committed.value, updateRows, edit);
    if result.None? {
      error := Some(ParameterError);
      return;
    }
    FoldKeeps(committed.value, updateRows, edit, size, ok, key);
    next := result.value;
  }

  ghost predicate GatheredFrom(existing: Table, updates: Table, old_: seq<Row>, new_: seq<Row>, size: nat, load: Step,
                               edit: Step, next: Option<Rows>, error: Option<Outcome>) {
    && Sized(old_, size) && Concat(old_) == existing.bytes
    && Sized(new_, size) && Concat(new_) == updates.bytes
    && var committed := Fold(map[], old_, load);
    && if committed.None? then next.None? && error == Some(ProcessingError)
       else
         next == Fold(committed.value, new_, edit) &&
         error == if next.None? then Some(ParameterError) else None
  }

  method Rebuild(existing: Table, updates: Table, size: nat, load: Step, edit: Step, ghost ok: Row -> bool,
                 ghost key: Row -> nat, accept: Rows -> bool)
    returns (outcome: Outcome)
    requires Aligned(existing, size) && Aligned(updates, size)
    requires StepKeeps(load, size, ok, key) && StepKeeps(edit, size, ok, key)
    ensures UpdateResult(existing, updates, size, load, edit, key, accept, outcome)
  {
    hide Concat, Fold, Written, WellKept, StepKeeps;
    var next, error;
    ghost var old_, new_;
    next, error, old_, new_ := Gather(existing, updates, size, load, edit, ok, key);
    if error.Some? {
      outcome := error.value;
    } else if !accept(next) {
      outcome := ParameterError;
    } else {
      var table := WriteBack(next, size, ok, key);
      outcome := Updated(table);
    }
    assert RebuiltFrom(existing, updates, old_, new_, size, load, edit, key, accept, outcome);
  }

  lemma EmptyIsKept(size: nat, ok: Row -> bool, key: Row -> nat)
    ensures WellKept(map[], size, ok, key)
  {}

  /** The table is the canonical encoding of a well-kept map. */
  ghost predicate Holds(table: Table, m: Rows, size: nat, ok: Row -> bool, key: Row -> nat) {
    WellKept(m, size, ok, key) && Written(table, m, size, key)
  }

  function Anything(m: Rows): bool { true }
}
