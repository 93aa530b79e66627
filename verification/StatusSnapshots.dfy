/** The circular table of status snapshots (setONU3Locked of internal/engine/onu3.go and validateONU3State
    of internal/mib/store.go), against the history of all snapshots since the last clearing. */
module StatusSnapshots {
  import opened Sequences
  import opened WireBytes

  const RECORD_SIZE: nat := 25

  type Record = r: seq<Byte> | |r| == RECORD_SIZE witness Zeros(RECORD_SIZE)

  /** S, M and K of the managed entity, its table and its most recent record. */
  datatype Snapshots = Snapshots(total: nat, valid: nat, next: nat, count: nat, rows: seq<Byte>, recent: seq<Byte>)

  const Blank: Record := Zeros(RECORD_SIZE)

  function Slot(rows: seq<Byte>, i: nat): seq<Byte>
    requires (i + 1) * RECORD_SIZE <= |rows|
  {
    rows[i * RECORD_SIZE..(i + 1) * RECORD_SIZE]
  }

  function Least(a: nat, b: nat): nat { if a < b then a else b }

  /** The table after a history of snapshots: the last S of them, each at its index modulo S. */
  ghost predicate Reflects(s: Snapshots, history: seq<Record>) {
    && 0 < s.total < 0x1_0000
    && s.valid == Least(|history|, s.total)
    && s.next == |history| % s.total
    && s.count == s.valid && |s.rows| == s.valid * RECORD_SIZE
    && (forall j :: |history| - s.valid <= j < |history| ==> Holds(s, j, history))
    && s.recent == if history == [] then Blank else history[|history| - 1]
  }

  ghost predicate Holds(s: Snapshots, j: nat, history: seq<Record>)
    requires s.total > 0 && j < |history|
  {
    j % s.total < s.valid && (j % s.total + 1) * RECORD_SIZE <= |s.rows| && Slot(s.rows, j % s.total) == history[j]
  }

  /** The checks every candidate has to pass. */
  method ValidateONU3State(s: Snapshots) returns (ok: bool)
    ensures ok <==> Consistent(s)
  {
    if s.total == 0 || s.valid > s.total || s.next >= s.total {
      return false;
    }
    if s.valid < s.total && s.next != s.valid {
      return false;
    }
    if s.count != s.valid || |s.rows| != s.valid * RECORD_SIZE {
      return false;
    }
    if |s.recent| != RECORD_SIZE {
      return false;
    }
    if s.valid != 0 {
      var latest := (s.next + s.total - 1) % s.total;
      var offset := latest * RECORD_SIZE;
      if offset + RECORD_SIZE > |s.rows| || s.recent != s.rows[offset..offset + RECORD_SIZE] {
        return false;
      }
    }
    ok := true;
  }

  /** The table is full or fills from the start, and the slot before the next one is the most recent. */
  predicate Consistent(s: Snapshots) {
    && 0 < s.total && s.valid <= s.total && s.next < s.total
    && (s.valid < s.total ==> s.next == s.valid)
    && s.count == s.valid && |s.rows| == s.valid * RECORD_SIZE && |s.recent| == RECORD_SIZE
    && (s.valid != 0 ==>
          var latest := (s.next + s.total - 1) % s.total;
          latest < s.valid && Slot(s.rows, latest) == s.recent)
  }

  // ---------- positions modulo the size ----------

  lemma SmallMod(n: nat, size: nat)
    requires n < size
    ensures n % size == n
  {}

  lemma NextMod(n: nat, size: nat)
    requires size > 0
    ensures (n + 1) % size == if n % size + 1 == size then 0 else n % size + 1
    ensures (n % size + 1) % size == (n + 1) % size
  {
    var q, r := n / size, n % size;
    assert n == q * size + r;
    if r + 1 == size {
      assert n + 1 == (q + 1) * size;
      ModOf(q + 1, 0, size);
      ModOf(1, 0, size);
    } else {
      ModOf(q, r + 1, size);
      SmallMod(r + 1, size);
    }
  }

  lemma ModOf(q: nat, r: nat, size: nat)
    requires size > 0 && r < size
    ensures (q * size + r) % size == r
  {
    var n := q * size + r;
    var q', r' := n / size, n % size;
    assert n == q' * size + r';
    SameQuotient(q, r, q', r', size);
  }

  lemma SameQuotient(q: nat, r: nat, q': nat, r': nat, size: nat)
    requires q * size + r == q' * size + r' && r < size && r' < size
    ensures r == r'
  {
    assert (q - q') * size == r' - r;
    Spread(q - q', size, r' - r);
  }

  lemma Spread(d: int, size: nat, difference: int)
    requires d * size == difference && -difference < size && difference < size
    ensures d == 0 && difference == 0
  {
    WholeTurns(d, size);
  }

  lemma WholeTurns(d: int, size: nat)
    ensures d > 0 ==> d * size >= size
    ensures d < 0 ==> d * size <= -(size as int)
  {
    if d > 0 {
      assert (d - 1) * size >= 0;
    }
    if d < 0 {
      assert (-d - 1) * size >= 0;
    }
  }

  /** Different positions less than one turn apart have different slots. */
  lemma SlotsDiffer(a: nat, b: nat, size: nat)
    requires a < b < a + size
    ensures a % size != b % size
  {
    var q, q' := a / size, b / size;
    assert a == q * size + a % size && b == q' * size + b % size;
    if a % size == b % size {
      assert (q' - q) * size == b - a;
      Spread(q' - q, size, b - a);
    }
  }

  // ---------- the two actions ----------

  /** The slot that the next record goes to. */
  function Written(s: Snapshots, record: Record): seq<Byte>
    requires |s.rows| == s.valid * RECORD_SIZE && s.next < s.total && s.valid <= s.total
  {
    if s.valid < s.total then s.rows + record
    else s.rows[..s.next * RECORD_SIZE] + record + s.rows[(s.next + 1) * RECORD_SIZE..]
  }

  lemma WrittenSlots(s: Snapshots, record: Record, i: nat)
    requires |s.rows| == s.valid * RECORD_SIZE && s.next < s.total && s.valid <= s.total
    requires s.valid < s.total ==> s.next == s.valid
    requires i < if s.valid < s.total then s.valid + 1 else s.valid
    ensures |Written(s, record)| == (if s.valid < s.total then s.valid + 1 else s.valid) * RECORD_SIZE
    ensures Slot(Written(s, record), i) == if i == s.next then record else Slot(s.rows, i)
  {
    var rows := Written(s, record);
    var at := i * RECORD_SIZE;
    if i == s.next {
      assert rows[at..at + RECORD_SIZE] == record;
    } else {
      assert rows[at..at + RECORD_SIZE] == s.rows[at..at + RECORD_SIZE];
    }
  }

  function Snapped(s: Snapshots, record: Record): Snapshots
    requires |s.rows| == s.valid * RECORD_SIZE && s.next < s.total && s.valid <= s.total
  {
    var valid := if s.valid < s.total then s.valid + 1 else s.valid;
    Snapshots(s.total, valid, (s.next + 1) % s.total, valid, Written(s, record), record)
  }

  lemma SnapKeepsHistory(s: Snapshots, history: seq<Record>, record: Record)
    requires Reflects(s, history)
    ensures s.next < s.total && s.valid <= s.total && (s.valid < s.total ==> s.next == s.valid)
    ensures Reflects(Snapped(s, record), history + [record])
  {
    var n, more := |history|, history + [record];
    NextMod(n, s.total);
    if n < s.total {
      SmallMod(n, s.total);
    }
    var t := Snapped(s, record);
    WrittenSlots(s, record, s.next);
    forall j | n + 1 - t.valid <= j <= n ensures Holds(t, j, more) {
      if j < n {
        assert Holds(s, j, history);
        SlotsDiffer(j, n, s.total);
        WrittenSlots(s, record, j % s.total);
      }
    }
  }

  lemma ReflectedIsConsistent(s: Snapshots, history: seq<Record>)
    requires Reflects(s, history)
    ensures Consistent(s)
  {
    var n := |history|;
    if n < s.total {
      SmallMod(n, s.total);
    }
    if n > 0 {
      PreviousMod(n, s.total);
      assert Holds(s, n - 1, history);
    }
  }

  lemma PreviousMod(n: nat, size: nat)
    requires n > 0 && size > 0
    ensures (n % size + size - 1) % size == (n - 1) % size
  {
    NextMod(n - 1, size);
    var r := (n - 1) % size;
    if r + 1 == size {
      SmallMod(size - 1, size);
    } else {
      ModOf(1, r, size);
    }
  }

  /** Every slot of the table holds the newest record whose index is congruent to the slot. */
  lemma SlotHoldsNewest(s: Snapshots, history: seq<Record>, i: nat) returns (j: nat)
    requires Reflects(s, history) && i < s.valid
    ensures j < |history| && j % s.total == i && Slot(s.rows, i) == history[j]
    ensures forall k :: j < k < |history| ==> k % s.total != i
  {
    j := NewestIndex(|history|, s.total, i);
    assert Holds(s, j, history);
  }

  lemma {:induction false} NewestIndex(n: nat, size: nat, i: nat) returns (j: nat)
    requires size > 0 && i < Least(n, size)
    ensures n - Least(n, size) <= j < n && j % size == i
    ensures forall k :: j < k < n ==> k % size != i
    decreases n
  {
    if (n - 1) % size == i {
      j := n - 1;
    } else if n <= size {
      SmallMod(n - 1, size);
      j := NewestIndex(n - 1, size, i);
    } else {
      j := NewestIndex(n - 1, size, i);
      if j == n - 1 - size {
        ModOf(1, 0, size);
        OneTurn(j, size);
      }
    }
  }

  lemma OneTurn(n: nat, size: nat)
    requires size > 0
    ensures (n + size) % size == n % size
  {
    var q, r := n / size, n % size;
    assert n + size == (q + 1) * size + r;
    ModOf(q + 1, r, size);
  }

  // ---------- the managed entity ----------

  datatype Error = ParameterError | ProcessingError

  class StatusSnapshotTable {
    var state: Snapshots
    /** The snapshots since the table was last cleared. */
    ghost var history: seq<Record>

    ghost predicate Valid()
      reads this
    {
      Reflects(state, history)
    }

    constructor (total: nat)
      requires 0 < total < 0x1_0000
      ensures Valid() && history == [] && state.total == total
    {
      state, history := Snapshots(total, 0, 0, 0, [], Blank), [];
      new;
      SmallMod(0, total);
    }

    /** Exactly one of the two actions; the store may still reject the candidate, which then has no
        effect. The candidate always passes the store's own validation. */
    method SetONU3(snap: bool, reset: bool, record: Record) returns (error: Option<Error>)
      requires Valid()
      modifies this
      ensures Valid() && state.total == old(state.total) && Consistent(state)
      ensures snap == reset ==> error == Some(ParameterError)
      ensures error.Some? ==> state == old(state) && history == old(history)
      ensures error.None? ==> snap != reset && history == if reset then [] else old(history) + [record]
      ensures error == Some(ProcessingError) ==> snap != reset
    {
      ReflectedIsConsistent(state, history);
      if snap == reset {
        return Some(ParameterError);
      }
      var candidate;
      ghost var next := [];
      if reset {
        candidate := Snapshots(state.total, 0, 0, 0, [], Blank);
        SmallMod(0, state.total);
      } else {
        SnapKeepsHistory(state, history, record);
        next := history + [record];
        var rows, valid := state.rows, state.valid;
        if valid < state.total {
          rows, valid := rows + record, valid + 1;
        } else {
          var offset := state.next * RECORD_SIZE;
          rows := rows[..offset] + record + rows[offset + RECORD_SIZE..];
        }
        candidate := Snapshots(state.total, valid, (state.next + 1) % state.total, valid, rows, record);
      }
      assert Reflects(candidate, next);
      ReflectedIsConsistent(candidate, next);
      var accepted := ValidateONU3State(candidate);
      assert accepted;
      var stored := StoreAccepts();
      if !stored {
        return Some(ProcessingError);
      }
      state, history := candidate, next;
      error := None;
    }

    /** The platform may reject the command. */
    method StoreAccepts() returns (ok: bool) {
      ok := *;
    }
  }
}
