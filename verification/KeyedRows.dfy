/** Byte tables as canonical encodings of finite maps (internal/mib/table.go). A table is a byte string of
    equally long rows; every update rebuilds it from a map, in key order. */
module KeyedRows {
  import opened Arithmetic
  import opened Sequences
  import opened WireBytes

  type Row = seq<Byte>

  type Rows = map<nat, Row>

  /** The bytes as one big-endian number; equally long byte strings compare as these numbers do. */
  function Number(bytes: seq<Byte>): nat {
    if bytes == [] then 0 else Number(bytes[..|bytes| - 1]) * 256 + bytes[|bytes| - 1] as nat
  }

  predicate AllBytes(bytes: seq<Byte>, expected: Byte) {
    bytes != [] && forall i :: 0 <= i < |bytes| ==> bytes[i] == expected
  }

  // ---------- rows of a byte string ----------

  predicate Sized(rows: seq<Row>, size: nat) {
    forall i :: 0 <= i < |rows| ==> |rows[i]| == size
  }

  lemma {:induction false} FlattenLength(rows: seq<Row>, size: nat)
    requires Sized(rows, size)
    ensures |Concat(rows)| == |rows| * size
  {
    if rows != [] {
      FlattenLength(rows[..|rows| - 1], size);
      Distribute(|rows| - 1, size);
    }
  }

  /** Rows of one size can be told apart in their concatenation. */
  lemma {:induction false} FlattenInjective(a: seq<Row>, b: seq<Row>, size: nat)
    requires Sized(a, size) && Sized(b, size) && size > 0 && Concat(a) == Concat(b)
    ensures a == b
    decreases |a|
  {
    FlattenLength(a, size);
    FlattenLength(b, size);
    SameCount(|a|, |b|, size);
    if a != [] {
      var n := |a| - 1;
      FlattenLength(a[..n], size);
      FlattenLength(b[..n], size);
      var cut := |Concat(a[..n])|;
      assert Concat(a)[..cut] == Concat(a[..n]) && Concat(a)[cut..] == a[n];
      assert Concat(b)[..cut] == Concat(b[..n]) && Concat(b)[cut..] == b[n];
      FlattenInjective(a[..n], b[..n], size);
      assert a == a[..n] + [a[n]] && b == b[..n] + [b[n]];
    }
  }

  lemma SameCount(a: nat, b: nat, size: nat)
    requires a * size == b * size && size > 0
    ensures a == b
  {
    assert (a - b) * size == 0;
  }

  /** Cuts a byte string into its rows. */
  method Split(bytes: seq<Byte>, count: nat, size: nat) returns (rows: seq<Row>)
    requires |bytes| == count * size
    ensures |rows| == count && Sized(rows, size) && Concat(rows) == bytes
  {
    rows := [];
    var offset := 0;
    for i := 0 to count
      invariant |rows| == i && offset == i * size <= |bytes|
      invariant Sized(rows, size) && Concat(rows) == bytes[..offset]
    {
      Distribute(i, size);
      AtMostAll(i + 1, count, size);
      var row := bytes[offset..offset + size];
      assert (rows + [row])[..|rows|] == rows;
      assert bytes[..offset + size] == bytes[..offset] + row;
      rows, offset := rows + [row], offset + size;
    }
    assert bytes[..offset] == bytes;
  }

  /** The rows of a byte string. */
  ghost function Cut(bytes: seq<Byte>, count: nat, size: nat): (rows: seq<Row>)
    requires |bytes| == count * size
    ensures |rows| == count && Sized(rows, size) && Concat(rows) == bytes
  {
    if count == 0 then []
    else
      Distribute(count - 1, size);
      var n := (count - 1) * size;
      var before, last := Cut(bytes[..n], count - 1, size), bytes[n..];
      assert (before + [last])[..count - 1] == before;
      before + [last]
  }

  lemma AtMostAll(a: nat, b: nat, size: nat)
    requires a <= b
    ensures a * size <= b * size
  {
    assert (b - a) * size >= 0;
  }

  // ---------- canonical encodings ----------

  /** Strictly ascending keys. */
  ghost predicate Canonical(rows: seq<Row>, key: Row -> nat) {
    forall i, j :: 0 <= i < j < |rows| ==> key(rows[i]) < key(rows[j])
  }

  /** `rows` holds exactly the rows of the map, in key order. */
  ghost predicate Encodes(rows: seq<Row>, m: Rows, key: Row -> nat) {
    && Canonical(rows, key)
    && (forall i :: 0 <= i < |rows| ==> key(rows[i]) in m && m[key(rows[i])] == rows[i])
    && (forall k :: k in m ==> m[k] in rows && key(m[k]) == k)
  }

  /** Later rows replace earlier ones with the same key. */
  ghost function ToMap(rows: seq<Row>, key: Row -> nat): Rows {
    if rows == [] then map[]
    else ToMap(rows[..|rows| - 1], key)[key(rows[|rows| - 1]) := rows[|rows| - 1]]
  }

  lemma {:induction false} ToMapContents(rows: seq<Row>, key: Row -> nat)
    requires Canonical(rows, key)
    ensures Encodes(rows, ToMap(rows, key), key)
  {
    if rows != [] {
      var n := |rows| - 1;
      ToMapContents(rows[..n], key);
      var before, after := ToMap(rows[..n], key), ToMap(rows, key);
      forall i | 0 <= i < |rows| ensures key(rows[i]) in after && after[key(rows[i])] == rows[i] {
        if i < n {
          assert rows[..n][i] == rows[i];
        }
      }
      forall k | k in after ensures after[k] in rows && key(after[k]) == k {
        if k != key(rows[n]) {
          assert before[k] in rows[..n];
        }
      }
    }
  }

  /** A map has one encoding, so a table determines its map and the map its table. */
  lemma {:induction false} EncodingIsUnique(a: seq<Row>, b: seq<Row>, m: Rows, key: Row -> nat)
    requires Encodes(a, m, key) && Encodes(b, m, key)
    ensures a == b
    decreases |a|
  {
    hide Encodes;
    NotEmpty(a, b, m, key);
    NotEmpty(b, a, m, key);
    if a != [] {
      SameLast(a, b, m, key);
      WithoutLast(a, m, key);
      WithoutLast(b, m, key);
      EncodingIsUnique(a[..|a| - 1], b[..|b| - 1], m - {key(a[|a| - 1])}, key);
      assert a == a[..|a| - 1] + [a[|a| - 1]] && b == b[..|b| - 1] + [b[|b| - 1]];
    }
  }

  lemma NotEmpty(a: seq<Row>, b: seq<Row>, m: Rows, key: Row -> nat)
    requires Encodes(a, m, key) && Encodes(b, m, key)
    ensures a != [] ==> b != []
  {
    if a != [] {
      assert m[key(a[0])] in b;
    }
  }

  lemma LastIsGreatest(rows: seq<Row>, key: Row -> nat, i: nat)
    requires Canonical(rows, key) && i < |rows|
    ensures key(rows[i]) <= key(rows[|rows| - 1])
    ensures i != |rows| - 1 ==> key(rows[i]) < key(rows[|rows| - 1])
  {}

  lemma SameLast(a: seq<Row>, b: seq<Row>, m: Rows, key: Row -> nat)
    requires Encodes(a, m, key) && Encodes(b, m, key) && a != [] && b != []
    ensures a[|a| - 1] == b[|b| - 1]
  {
    var i :| 0 <= i < |a| && a[i] == m[key(b[|b| - 1])];
    var j :| 0 <= j < |b| && b[j] == m[key(a[|a| - 1])];
    LastIsGreatest(a, key, i);
    LastIsGreatest(b, key, j);
  }

  lemma WithoutLast(rows: seq<Row>, m: Rows, key: Row -> nat)
    requires Encodes(rows, m, key) && rows != []
    ensures Encodes(rows[..|rows| - 1], m - {key(rows[|rows| - 1])}, key)
  {
    var n := |rows| - 1;
    forall k | k in m && k != key(rows[n]) ensures m[k] in rows[..n] {
      var i :| 0 <= i < |rows| && rows[i] == m[k];
      assert i != n;
      assert rows[..n][i] == rows[i];
    }
  }

  lemma EncodesToMap(rows: seq<Row>, m: Rows, key: Row -> nat)
    requires Encodes(rows, m, key)
    ensures ToMap(rows, key) == m
  {
    ToMapContents(rows, key);
    var decoded := ToMap(rows, key);
    forall k | k in m ensures k in decoded && decoded[k] == m[k] {
      var i :| 0 <= i < |rows| && rows[i] == m[k];
      assert key(rows[i]) in m;
    }
    forall k | k in decoded ensures k in m {
      var i :| 0 <= i < |rows| && rows[i] == decoded[k];
    }
  }
}
