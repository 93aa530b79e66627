/** The delayed leave of the last client of a stream (removeLocked and runPendingLeavesLocked of
    internal/multicast/runtime.go; sections 8.8 to 8.10 of RFC 3376), as the history of one client. */
module LeaveProtocol {
  import opened Clock
  import opened Sequences

  /** What happens to one client of one stream: an accepted report, a leave that starts the
      last-member queries, a query, or removal once the queries went unanswered. */
  datatype LeaveEvent =
    | Reported(at: Time)
    | Left(at: Time, robustness: nat, interval: nat)
    | Queried(at: Time)
    | Removed(at: Time)

  datatype Phase =
    | Settled
    | Leaving(since: Time, robustness: nat, interval: nat, sent: nat, last: Time)

  /** The next phase, or None when the event is out of place. */
  function Next(phase: Phase, event: LeaveEvent): Option<Phase> {
    match event
    case Reported(_) => Some(Settled)
    case Left(at, robustness, interval) => Some(Leaving(at, robustness, interval, 0, at))
    case Queried(at) =>
      if phase.Leaving? && phase.sent < phase.robustness &&
         at >= (if phase.sent == 0 then phase.since else phase.last + phase.interval)
      then Some(phase.(sent := phase.sent + 1, last := at)) else None
    case Removed(at) =>
      if phase.Leaving? && phase.sent == phase.robustness && phase.robustness > 0 && at >= phase.last + phase.interval
      then Some(Settled) else None
  }

  function PhaseAfter(history: seq<LeaveEvent>): Option<Phase> {
    if history == [] then Some(Settled)
    else
      var before := PhaseAfter(history[..|history| - 1]);
      if before.None? then None else Next(before.value, history[|history| - 1])
  }

  lemma PhaseSnoc(history: seq<LeaveEvent>, event: LeaveEvent)
    ensures PhaseAfter(history + [event]) ==
            if PhaseAfter(history).None? then None else Next(PhaseAfter(history).value, event)
  {
    assert (history + [event])[..|history|] == history;
  }

  /** In the phase Leaving, the history ends with the leave and then nothing but the queries sent. */
  ghost predicate EndsWithQueries(history: seq<LeaveEvent>, n: nat, since: Time, robustness: nat, interval: nat,
                                  last: Time) {
    var start := |history| - n - 1;
    && 0 <= start
    && history[start] == Left(since, robustness, interval)
    && (forall i :: start < i < |history| ==> history[i].Queried?)
    && (n > 0 ==> history[start + 1].at >= since && history[|history| - 1].at == last)
    && (forall i :: start + 1 < i < |history| ==> history[i].at >= history[i - 1].at + interval)
  }

  lemma {:induction false} LeavingShape(history: seq<LeaveEvent>)
    ensures PhaseAfter(history).Some? && PhaseAfter(history).value.Leaving? ==>
              var p := PhaseAfter(history).value;
              EndsWithQueries(history, p.sent, p.since, p.robustness, p.interval, p.last)
  {
    if history != [] {
      var before := history[..|history| - 1];
      LeavingShape(before);
      if PhaseAfter(history).Some? && PhaseAfter(history).value.Leaving? && history[|history| - 1].Queried? {
        var p := PhaseAfter(before).value;
        assert EndsWithQueries(before, p.sent, p.since, p.robustness, p.interval, p.last);
        assert forall i :: 0 <= i < |before| ==> history[i] == before[i];
      }
    }
  }

  lemma {:induction false} SpacedQueries(history: seq<LeaveEvent>, n: nat, k: nat, since: Time, robustness: nat,
                                         interval: nat, last: Time)
    requires EndsWithQueries(history, n, since, robustness, interval, last) && 1 <= k <= n
    ensures history[|history| - n - 1 + k].at >= since + (k - 1) * interval
  {
    if k > 1 {
      SpacedQueries(history, n, k - 1, since, robustness, interval, last);
    }
  }

  lemma {:induction false} PrefixRuns(history: seq<LeaveEvent>, n: nat)
    requires PhaseAfter(history).Some? && n <= |history|
    ensures PhaseAfter(history[..n]).Some?
    decreases |history|
  {
    if n < |history| {
      PrefixRuns(history[..|history| - 1], n);
      assert history[..|history| - 1][..n] == history[..n];
    } else {
      assert history[..n] == history;
    }
  }

  lemma RemovalShape(history: seq<LeaveEvent>, n: nat) returns (p: Phase)
    requires PhaseAfter(history).Some? && n < |history| && history[n].Removed?
    ensures p.Leaving? && p.sent == p.robustness > 0
    ensures EndsWithQueries(history[..n], p.sent, p.since, p.robustness, p.interval, p.last)
    ensures history[n].at >= p.last + p.interval
  {
    hide EndsWithQueries;
    PrefixRuns(history, n);
    PrefixRuns(history, n + 1);
    PhaseSnoc(history[..n], history[n]);
    assert history[..n + 1] == history[..n] + [history[n]];
    p := PhaseAfter(history[..n]).value;
    LeavingShape(history[..n]);
  }

  /** A client removed by the delayed leave has left, was then queried exactly `robustness` times with at
      least one interval between queries and before the removal, without an accepted report in between,
      and so goes no earlier than robustness intervals after it left. */
  lemma RemovedOnlyAfterQueries(history: seq<LeaveEvent>, n: nat) returns (start: nat)
    requires PhaseAfter(history).Some? && n < |history| && history[n].Removed?
    ensures start < n && history[start].Left?
    ensures n - start - 1 == history[start].robustness > 0
    ensures forall i :: start < i < n ==> history[i].Queried?
    ensures forall i :: start + 1 < i <= n ==> history[i].at >= history[i - 1].at + history[start].interval
    ensures history[n].at >= history[start].at + history[start].robustness * history[start].interval
  {
    hide PhaseAfter;
    var p := RemovalShape(history, n);
    var before := history[..n];
    start := n - p.sent - 1;
    assert forall i :: 0 <= i < n ==> history[i] == before[i];
    assert history[start] == Left(p.since, p.robustness, p.interval);
    assert before[n - 1].at == p.last;
    LastQuery(before, p);
    LastInterval(p.since, p.last, p.robustness, p.interval);
  }

  lemma LastQuery(history: seq<LeaveEvent>, p: Phase)
    requires p.Leaving? && p.sent == p.robustness > 0
    requires EndsWithQueries(history, p.sent, p.since, p.robustness, p.interval, p.last)
    ensures p.last >= p.since + (p.robustness - 1) * p.interval
  {
    SpacedQueries(history, p.sent, p.sent, p.since, p.robustness, p.interval, p.last);
  }

  lemma LastInterval(since: Time, last: Time, robustness: nat, interval: nat)
    requires robustness > 0 && last >= since + (robustness - 1) * interval
    ensures last + interval >= since + robustness * interval
  {}
}
