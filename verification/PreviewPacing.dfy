/** Pacing of previews for one preview key (startPreviewLocked and latestReset of
    internal/multicast/policy.go), against the history of its starts. */
module PreviewPacing {
  import opened Clock
  import opened Sequences
  import opened MulticastTypes

  const HOUR: nat := 3600 * SECOND
  const DAY: nat := 24 * HOUR

  datatype PreviewState = PreviewState(count: nat, nextAllowed: Option<Time>, lastReset: Option<Time>)

  const Untouched: PreviewState := PreviewState(0, None, None)

  predicate Resets(acl: ACLEntry) { 1 <= acl.previewResetTime <= 24 }

  /** The most recent instant at which the hour of day was `hour`; days have 24 hours. */
  function LatestReset(now: Time, hour: nat): Time {
    var resetHour := if hour == 24 then 0 else hour;
    var boundary := now - now % DAY + resetHour * HOUR;
    if boundary > now then boundary - DAY else boundary
  }

  datatype Verdict = Started | TooEarly | Exhausted

  /** The window in which `now` falls. Without a daily reset there is a single window. */
  function Window(acl: ACLEntry, now: Time): Time {
    if Resets(acl) then LatestReset(now, acl.previewResetTime) else 0
  }

  function Rolled(acl: ACLEntry, s: PreviewState, now: Time): PreviewState {
    if !Resets(acl) then s
    else
      var boundary := LatestReset(now, acl.previewResetTime);
      if s.lastReset.None? then s.(lastReset := Some(boundary))
      else if boundary > s.lastReset.value then PreviewState(0, None, Some(boundary))
      else s
  }

  function Pause(acl: ACLEntry): nat { acl.previewLength * SECOND + acl.previewRepeatTime * SECOND }

  /** One request for a preview: the new state of its key, and whether it may start. */
  function Attempt(acl: ACLEntry, state: PreviewState, now: Time): (PreviewState, Verdict) {
    var s := Rolled(acl, state, now);
    if s.nextAllowed.Some? && now < s.nextAllowed.value then (s, TooEarly)
    else if acl.previewRepeatCount != 0 && s.count >= acl.previewRepeatCount then (s, Exhausted)
    else (s.(count := (s.count + 1) % 0x1_0000, nextAllowed := Some(now + Pause(acl))), Started)
  }

  // ---------- runs ----------

  function StateAfter(acl: ACLEntry, times: seq<Time>): PreviewState {
    if times == [] then Untouched
    else Attempt(acl, StateAfter(acl, times[..|times| - 1]), times[|times| - 1]).0
  }

  /** The times at which a preview started. */
  function Starts(acl: ACLEntry, times: seq<Time>): seq<Time> {
    if times == [] then []
    else
      var before, now := times[..|times| - 1], times[|times| - 1];
      Starts(acl, before) + if Attempt(acl, StateAfter(acl, before), now).1 == Started then [now] else []
  }

  /** The starts that fall in a given window. */
  function InWindow(acl: ACLEntry, starts: seq<Time>, window: Time): seq<Time> {
    if starts == [] then []
    else
      var n := |starts| - 1;
      InWindow(acl, starts[..n], window) + if Window(acl, starts[n]) == window then [starts[n]] else []
  }

  /** The rule the limits express: a pause since the last start of this window, and a cap on its starts. */
  predicate MayStart(acl: ACLEntry, starts: seq<Time>, now: Time) {
    var recent := InWindow(acl, starts, Window(acl, now));
    && (recent != [] ==> now >= recent[|recent| - 1] + Pause(acl))
    && (acl.previewRepeatCount != 0 ==> |recent| < acl.previewRepeatCount)
  }

  // ---------- reset boundaries ----------

  lemma DayShape(now: Time)
    ensures 0 <= now % DAY < DAY
    ensures now == (now / DAY) * DAY + now % DAY
  {}

  lemma LatestResetBounds(now: Time, hour: nat)
    requires 1 <= hour <= 24
    ensures LatestReset(now, hour) <= now < LatestReset(now, hour) + DAY
  {
    DayShape(now);
  }

  lemma LatestResetMonotone(early: Time, late: Time, hour: nat)
    requires 1 <= hour <= 24 && early <= late
    ensures LatestReset(early, hour) <= LatestReset(late, hour)
  {
    DayShape(early);
    DayShape(late);
    assert early / DAY <= late / DAY;
  }

  lemma WindowMonotone(acl: ACLEntry, early: Time, late: Time)
    requires early <= late
    ensures Window(acl, early) <= Window(acl, late)
  {
    if Resets(acl) {
      LatestResetMonotone(early, late, acl.previewResetTime);
    }
  }

  // ---------- the state summarises the history ----------

  /** The remembered state is the history of the window it belongs to. */
  ghost predicate Summarises(acl: ACLEntry, s: PreviewState, starts: seq<Time>, last: Time) {
    var recent := InWindow(acl, starts, Window(acl, last));
    && (Resets(acl) ==> s.lastReset == Some(Window(acl, last)))
    && s.nextAllowed == (if recent == [] then None else Some(recent[|recent| - 1] + Pause(acl)))
    && (acl.previewRepeatCount != 0 ==> s.count == |recent| <= acl.previewRepeatCount)
    && (recent == [] ==> s.count == 0)
  }

  lemma {:induction false} LaterWindowIsFresh(acl: ACLEntry, starts: seq<Time>, window: Time)
    requires forall t :: t in starts ==> Window(acl, t) < window
    ensures InWindow(acl, starts, window) == []
  {
    if starts != [] {
      LaterWindowIsFresh(acl, starts[..|starts| - 1], window);
    }
  }

  lemma {:induction false} StartsBefore(acl: ACLEntry, times: seq<Time>, bound: Time)
    requires forall i :: 0 <= i < |times| ==> times[i] <= bound
    ensures forall t :: t in Starts(acl, times) ==> t <= bound
  {
    hide Attempt, StateAfter;
    if times != [] {
      StartsBefore(acl, times[..|times| - 1], bound);
    }
  }

  /** Moving to a later time keeps the summary, or starts it afresh in a new window. */
  lemma RollKeepsSummary(acl: ACLEntry, s: PreviewState, starts: seq<Time>, last: Time, now: Time)
    requires last <= now && Summarises(acl, s, starts, last)
    requires forall t :: t in starts ==> t <= last
    ensures Summarises(acl, Rolled(acl, s, now), starts, now)
  {
    WindowMonotone(acl, last, now);
    if Window(acl, now) > Window(acl, last) {
      forall t | t in starts ensures Window(acl, t) < Window(acl, now) {
        WindowMonotone(acl, t, last);
      }
      LaterWindowIsFresh(acl, starts, Window(acl, now));
    }
  }

  /** One more attempt extends the run by one step. */
  lemma RunSnoc(acl: ACLEntry, before: seq<Time>, now: Time)
    ensures var (s, verdict) := Attempt(acl, StateAfter(acl, before), now);
      && StateAfter(acl, before + [now]) == s
      && Starts(acl, before + [now]) ==
         (if verdict == Started then Starts(acl, before) + [now] else Starts(acl, before))
  {
    hide Attempt;
    assert (before + [now])[..|before|] == before;
  }

  lemma {:induction false} StateSummarisesHistory(acl: ACLEntry, times: seq<Time>)
    requires Clocked(times) && times != [] && acl.previewRepeatCount < 0x1_0000
    ensures Summarises(acl, StateAfter(acl, times), Starts(acl, times), times[|times| - 1])
    decreases |times|, 1
  {
    hide Attempt, StateAfter, Starts, Summarises, Rolled;
    var before, now := times[..|times| - 1], times[|times| - 1];
    assert before + [now] == times;
    HistoryAllowsAttempt(acl, before, now);
    AttemptFollowsSummary(acl, StateAfter(acl, before), Starts(acl, before), now);
    RunSnoc(acl, before, now);
  }

  /** The state an attempt works from summarises the starts before it. */
  lemma {:induction false} HistoryAllowsAttempt(acl: ACLEntry, before: seq<Time>, now: Time)
    requires Clocked(before + [now]) && acl.previewRepeatCount < 0x1_0000
    ensures Summarises(acl, Rolled(acl, StateAfter(acl, before), now), Starts(acl, before), now)
    decreases |before| + 1, 0
  {
    hide Attempt;
    if before != [] {
      var n, all := |before|, before + [now];
      forall i, j | 0 <= i < j < n ensures before[i] <= before[j] {
        assert all[i] == before[i] && all[j] == before[j];
      }
      assert all[n - 1] == before[n - 1] && all[n] == now;
      assert Clocked(before);
      StateSummarisesHistory(acl, before);
      StartsBefore(acl, before, before[n - 1]);
      RollKeepsSummary(acl, StateAfter(acl, before), Starts(acl, before), before[n - 1], now);
    }
  }

  lemma AttemptFollowsSummary(acl: ACLEntry, s: PreviewState, starts: seq<Time>, now: Time)
    requires Summarises(acl, Rolled(acl, s, now), starts, now) && acl.previewRepeatCount < 0x1_0000
    ensures var (s', verdict) := Attempt(acl, s, now);
      && (verdict == Started <==> MayStart(acl, starts, now))
      && Summarises(acl, s', if verdict == Started then starts + [now] else starts, now)
  {
    hide Window, LatestReset, InWindow, Rolled, Pause, Resets;
    InWindowSnoc(acl, starts, now, Window(acl, now));
  }

  // ---------- theorems ----------

  /** A preview starts exactly when the history of its starts allows it. */
  lemma StartsExactlyWhenAllowed(acl: ACLEntry, before: seq<Time>, now: Time)
    requires Clocked(before + [now]) && acl.previewRepeatCount < 0x1_0000
    ensures Attempt(acl, StateAfter(acl, before), now).1 == Started <==>
            MayStart(acl, Starts(acl, before), now)
  {
    hide Attempt, StateAfter, Starts, Summarises, Rolled, MayStart;
    HistoryAllowsAttempt(acl, before, now);
    AttemptFollowsSummary(acl, StateAfter(acl, before), Starts(acl, before), now);
  }

  ghost predicate Paced(acl: ACLEntry, recent: seq<Time>) {
    && (forall i :: 0 < i < |recent| ==> recent[i] >= recent[i - 1] + Pause(acl))
    && (acl.previewRepeatCount != 0 ==> |recent| <= acl.previewRepeatCount)
  }

  lemma InWindowSnoc(acl: ACLEntry, starts: seq<Time>, now: Time, window: Time)
    ensures InWindow(acl, starts + [now], window) ==
            InWindow(acl, starts, window) + if Window(acl, now) == window then [now] else []
  {
    hide Window;
    assert (starts + [now])[..|starts|] == starts;
  }

  lemma PacedSnoc(acl: ACLEntry, starts: seq<Time>, now: Time, window: Time)
    requires Paced(acl, InWindow(acl, starts, window)) && MayStart(acl, starts, now)
    ensures Paced(acl, InWindow(acl, starts + [now], window))
  {
    hide Window, InWindow, Pause;
    InWindowSnoc(acl, starts, now, window);
  }

  /** Consecutive starts of one window are a full preview and repeat time apart, and a window
      holds no more starts than the repeat count. */
  lemma {:induction false} StartsArePaced(acl: ACLEntry, times: seq<Time>, window: Time)
    requires Clocked(times) && acl.previewRepeatCount < 0x1_0000
    ensures Paced(acl, InWindow(acl, Starts(acl, times), window))
  {
    hide Attempt, StateAfter, MayStart, Window;
    if times != [] {
      var before, now := times[..|times| - 1], times[|times| - 1];
      assert before + [now] == times;
      StartsArePaced(acl, before, window);
      StartsExactlyWhenAllowed(acl, before, now);
      RunSnoc(acl, before, now);
      if MayStart(acl, Starts(acl, before), now) {
        PacedSnoc(acl, Starts(acl, before), now, window);
      }
    }
  }

  /** Without any memory every preview may start. Together with the starts it has forgotten, that start keeps
      the pacing of its window exactly when the history would have allowed it. */
  lemma RestartKeepsPacing(acl: ACLEntry, times: seq<Time>, now: Time)
    requires Clocked(times) && acl.previewRepeatCount < 0x1_0000
    ensures Attempt(acl, Untouched, now).1 == Started
    ensures Paced(acl, InWindow(acl, Starts(acl, times) + [now], Window(acl, now))) <==>
            MayStart(acl, Starts(acl, times), now)
    ensures InWindow(acl, Starts(acl, times), Window(acl, now)) == [] ==> MayStart(acl, Starts(acl, times), now)
  {
    hide Window, StateAfter, Starts;
    StartsArePaced(acl, times, Window(acl, now));
    InWindowSnoc(acl, Starts(acl, times), now, Window(acl, now));
    var recent := InWindow(acl, Starts(acl, times), Window(acl, now));
    var all := recent + [now];
    assert forall i :: 0 <= i < |recent| ==> all[i] == recent[i];
    assert all[|recent|] == now;
  }

  lemma {:induction false} PacedSpread(acl: ACLEntry, recent: seq<Time>, i: nat, j: nat)
    requires Paced(acl, recent) && i < j < |recent|
    ensures recent[j] >= recent[i] + Pause(acl)
  {
    if i + 1 < j {
      PacedSpread(acl, recent, i, j - 1);
    }
  }

  /** Any two starts of one reset window are at least a preview and its repeat time apart. */
  lemma StartsAreSpread(acl: ACLEntry, times: seq<Time>, window: Time, i: nat, j: nat)
    requires Clocked(times) && acl.previewRepeatCount < 0x1_0000
    requires i < j < |InWindow(acl, Starts(acl, times), window)|
    ensures var recent := InWindow(acl, Starts(acl, times), window);
      recent[j] >= recent[i] + acl.previewLength * SECOND + acl.previewRepeatTime * SECOND
  {
    StartsArePaced(acl, times, window);
    PacedSpread(acl, InWindow(acl, Starts(acl, times), window), i, j);
  }

  // ---------- attempts that carry their own row ----------

  datatype PreviewAttempt = PreviewAttempt(acl: ACLEntry, now: Time)

  function Replay(attempts: seq<PreviewAttempt>): PreviewState {
    if attempts == [] then Untouched
    else
      var n := |attempts| - 1;
      Attempt(attempts[n].acl, Replay(attempts[..n]), attempts[n].now).0
  }

  function Times(attempts: seq<PreviewAttempt>): seq<Time> {
    seq(|attempts|, i requires 0 <= i < |attempts| => attempts[i].now)
  }

  /** When every attempt consulted the same row, the remembered state is that row's state. */
  lemma {:induction false} ReplayOfOneRow(acl: ACLEntry, attempts: seq<PreviewAttempt>)
    requires forall i :: 0 <= i < |attempts| ==> attempts[i].acl == acl
    ensures Replay(attempts) == StateAfter(acl, Times(attempts))
  {
    hide Attempt;
    if attempts != [] {
      var n := |attempts| - 1;
      ReplayOfOneRow(acl, attempts[..n]);
      assert Times(attempts)[..n] == Times(attempts[..n]);
    }
  }
}
