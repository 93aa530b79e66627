/** Source filters of multicast clients: what membership records mean, and how the filters of many
    clients are combined (internal/multicast/runtime.go; section 3.2 of RFC 3376). */
module Membership {
  import opened MulticastTypes
  import opened SourceLists

  // ---------- one client ----------

  datatype RecordType =
    | ModeIsInclude | ModeIsExclude | ChangeToIncludeMode | ChangeToExcludeMode
    | AllowNewSources | BlockOldSources | OtherRecord(code: nat)

  datatype MembershipRecord = MembershipRecord(kind: RecordType, group: Addr, sources: seq<Addr>)

  datatype FilterMode = Include | Exclude

  datatype Filter = Filter(mode: FilterMode, sources: set<Addr>)

  const NoMembership: Filter := Filter(Include, {})

  /** The sources a filter asks for. */
  ghost function Wanted(f: Filter): iset<Addr> {
    iset a | if f.mode == Include then a in f.sources else a !in f.sources
  }

  /** What a record does to the sources asked for (section 4.2.12 of RFC 3376). */
  ghost function Meaning(before: iset<Addr>, record: MembershipRecord): iset<Addr> {
    match record.kind
    case ModeIsInclude => iset a | a in record.sources
    case ChangeToIncludeMode => iset a | a in record.sources
    case ModeIsExclude => iset a | a !in record.sources
    case ChangeToExcludeMode => iset a | a !in record.sources
    case AllowNewSources => iset a | a in before || a in record.sources
    case BlockOldSources => iset a | a in before && a !in record.sources
    case OtherRecord(_) => before
  }

  function SetOf(list: seq<Addr>): set<Addr> { set a | a in list }

  function Transition(before: Filter, record: MembershipRecord): Filter {
    var sources := SetOf(record.sources);
    match record.kind
    case ModeIsInclude => Filter(Include, sources)
    case ChangeToIncludeMode => Filter(Include, sources)
    case ModeIsExclude => Filter(Exclude, sources)
    case ChangeToExcludeMode => Filter(Exclude, sources)
    case AllowNewSources =>
      before.(sources := if before.mode == Exclude then before.sources - sources else before.sources + sources)
    case BlockOldSources =>
      before.(sources := if before.mode == Exclude then before.sources + sources else before.sources - sources)
    case OtherRecord(_) => before
  }

  /** transitionMembership, which adds and deletes the record's sources one at a time. */
  method TransitionMembership(before: Filter, record: MembershipRecord) returns (result: Filter)
    ensures result == Transition(before, record)
    ensures Wanted(result) == Meaning(Wanted(before), record)
  {
    var sources := SourceSet(record.sources);
    assert sources == SetOf(record.sources);
    result := before;
    match record.kind
    case ModeIsInclude | ChangeToIncludeMode => result := Filter(Include, sources);
    case ModeIsExclude | ChangeToExcludeMode => result := Filter(Exclude, sources);
    case AllowNewSources =>
      var all := ForEach(before.sources, sources, before.mode == Include);
      result := before.(sources := all);
    case BlockOldSources =>
      var all := ForEach(before.sources, sources, before.mode == Exclude);
      result := before.(sources := all);
    case OtherRecord(_) =>
  }

  method ForEach(start: set<Addr>, sources: set<Addr>, add: bool) returns (result: set<Addr>)
    ensures result == if add then start + sources else start - sources
  {
    result := start;
    var rest := sources;
    while rest != {}
      invariant rest <= sources
      invariant result == if add then start + (sources - rest) else start - (sources - rest)
      decreases |rest|
    {
      var a :| a in rest;
      rest := rest - {a};
      result := if add then result + {a} else result - {a};
    }
  }

  ghost function MeaningOfAll(before: iset<Addr>, records: seq<MembershipRecord>): iset<Addr> {
    if records == [] then before
    else Meaning(MeaningOfAll(before, records[..|records| - 1]), records[|records| - 1])
  }

  function TransitionAll(before: Filter, records: seq<MembershipRecord>): Filter {
    if records == [] then before
    else Transition(TransitionAll(before, records[..|records| - 1]), records[|records| - 1])
  }

  /** After any records, in any modes, the filter asks for exactly what the records mean. */
  lemma {:induction false} RecordsKeepMeaning(before: Filter, records: seq<MembershipRecord>)
    ensures Wanted(TransitionAll(before, records)) == MeaningOfAll(Wanted(before), records)
  {
    if records != [] {
      RecordsKeepMeaning(before, records[..|records| - 1]);
    }
  }

  /** forwardingSources: an exclude filter is forwarded as the wildcard source. */
  function ForwardingSources(f: Filter, client: Addr): set<Addr> {
    if f.mode == Include then f.sources
    else {if client.V6? then V6(0) else V4(0)}
  }

  // ---------- what is programmed for a client ----------

  /** An entry programmed for one source: the wildcard source stands for all but the excluded ones. */
  predicate Delivers(source: Addr, excluded: seq<Addr>, a: Addr) {
    if source.IsUnspecified() then a !in excluded else a == source
  }

  /** What the entries programmed for a filter deliver together; each carries the filter's source list. */
  ghost predicate Programmed(f: Filter, client: Addr, excluded: seq<Addr>, a: Addr) {
    exists s :: s in ForwardingSources(f, client) && Delivers(s, excluded, a)
  }

  lemma FreshAddress(sources: set<Addr>) returns (a: Addr)
    ensures a !in sources
  {
    var values := set s | s in sources && s.V4? :: s.value;
    var n := Above(values);
    a := V4(n);
    forall x | x in sources && x.V4? ensures x.value < n {
      assert x.value in values;
    }
  }

  lemma Above(values: set<nat>) returns (n: nat)
    ensures forall v :: v in values ==> v < n
  {
    if values == {} {
      n := 0;
    } else {
      var v :| v in values;
      var m := Above(values - {v});
      n := m + v + 1;
      assert forall w :: w in values ==> w == v || w in values - {v};
    }
  }

  /** The entries programmed for a client deliver exactly what it asked for, unless it lists the
      unspecified address in include mode: then the wildcard entry takes over. */
  lemma ProgrammedExactlyWhen(f: Filter, client: Addr, excluded: seq<Addr>)
    requires Lists(excluded, f.sources)
    ensures (forall a :: Programmed(f, client, excluded, a) <==> a in Wanted(f)) <==>
            (f.mode == Exclude || (V4(0) !in f.sources && V6(0) !in f.sources))
  {
    if f.mode == Exclude {
      assert (if client.V6? then V6(0) else V4(0)) in ForwardingSources(f, client);
    } else if V4(0) !in f.sources && V6(0) !in f.sources {
      forall a ensures Programmed(f, client, excluded, a) <==> a in Wanted(f) {
        assert forall s :: s in f.sources ==> (Delivers(s, excluded, a) <==> s == a);
      }
    } else {
      var s := if V4(0) in f.sources then V4(0) else V6(0);
      var a := FreshAddress(f.sources);
      assert s in ForwardingSources(f, client) && Delivers(s, excluded, a);
      assert Programmed(f, client, excluded, a) && a !in Wanted(f);
    }
  }
}
