/** Optional values and concatenation, shared by all components. */
module Sequences {

  datatype Option<T> = None | Some(value: T)

  /** The parts one after the other. */
  function Concat<T>(parts: seq<seq<T>>): seq<T> {
    if parts == [] then [] else Concat(parts[..|parts| - 1]) + parts[|parts| - 1]
  }

  lemma {:induction false} ConcatCons<T>(first: seq<T>, rest: seq<seq<T>>)
    ensures Concat([first] + rest) == first + Concat(rest)
    decreases |rest|
  {
    if rest == [] {
      assert [first] + rest == [first];
      assert Concat([first]) == Concat([]) + first;
    } else {
      var n := |rest| - 1;
      ConcatCons(first, rest[..n]);
      assert ([first] + rest)[..n + 1] == [first] + rest[..n];
      assert Concat([first] + rest) == (first + Concat(rest[..n])) + rest[n];
    }
  }
}
