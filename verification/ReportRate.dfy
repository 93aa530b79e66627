/** The limit on upstream reports per second (sendReportLocked of internal/multicast/runtime.go). */
module ReportRate {
  import opened Clock
  import opened MulticastTypes

  datatype RateKey = RateKey(subscriberID: nat, interfaceName: string, profileID: nat)

  /** The reports admitted in the second of the last attempt. */
  datatype Window = Window(second: int, count: nat)

  type Rates = map<RateKey, Window>

  const Unused: Window := Window(0, 0)

  /** One attempt under a limit: the new window, and whether the report goes out. */
  function Admit(window: Window, limit: nat, second: int): (Window, bool) {
    var current := if window.second != second then Window(second, 0) else window;
    if current.count >= limit then (current, false) else (current.(count := current.count + 1), true)
  }

  function WindowOf(rates: Rates, key: RateKey): Window { if key in rates then rates[key] else Unused }

  /** One attempt of a profile's key; a limit of zero is no limit. */
  function Attempted(rates: Rates, key: RateKey, limit: nat, now: Time): (Rates, bool) {
    if limit == 0 then (rates, true)
    else
      var (window, out) := Admit(WindowOf(rates, key), limit, now / SECOND);
      (rates[key := window], out)
  }

  function WindowAfter(limit: nat, seconds: seq<int>): Window {
    if seconds == [] then Unused
    else Admit(WindowAfter(limit, seconds[..|seconds| - 1]), limit, seconds[|seconds| - 1]).0
  }

  function Attempts(seconds: seq<int>, second: int): nat {
    if seconds == [] then 0
    else Attempts(seconds[..|seconds| - 1], second) + if seconds[|seconds| - 1] == second then 1 else 0
  }

  /** The attempts of one second that went out. */
  function Admitted(limit: nat, seconds: seq<int>, second: int): nat {
    if seconds == [] then 0
    else
      var before, last := seconds[..|seconds| - 1], seconds[|seconds| - 1];
      Admitted(limit, before, second) +
      if last == second && Admit(WindowAfter(limit, before), limit, last).1 then 1 else 0
  }

  lemma {:induction false} LaterIsUnattempted(seconds: seq<int>, second: int)
    requires forall i :: 0 <= i < |seconds| ==> seconds[i] < second
    ensures Attempts(seconds, second) == 0
  {
    if seconds != [] {
      LaterIsUnattempted(seconds[..|seconds| - 1], second);
    }
  }

  lemma {:induction false} AdmittedAttempts(limit: nat, seconds: seq<int>, second: int)
    ensures Admitted(limit, seconds, second) <= Attempts(seconds, second)
  {
    if seconds != [] {
      AdmittedAttempts(limit, seconds[..|seconds| - 1], second);
    }
  }

  /** The window counts the admitted reports of its second, the latest there is. */
  lemma {:induction false} WindowCounts(limit: nat, seconds: seq<int>)
    requires Clocked(seconds) && seconds != []
    ensures var window := WindowAfter(limit, seconds);
      window.second == seconds[|seconds| - 1] && window.count == Admitted(limit, seconds, window.second) <= limit
  {
    var before, last := seconds[..|seconds| - 1], seconds[|seconds| - 1];
    if before != [] {
      WindowCounts(limit, before);
      if before[|before| - 1] != last {
        LaterIsUnattempted(before, last);
        AdmittedAttempts(limit, before, last);
      }
    }
  }

  /** In every second as many reports go out as were attempted, up to the limit: never more, and none is
      held back below it. */
  lemma {:induction false} LimitIsExact(limit: nat, seconds: seq<int>, second: int)
    requires Clocked(seconds)
    ensures Admitted(limit, seconds, second) ==
            if Attempts(seconds, second) < limit then Attempts(seconds, second) else limit
  {
    if seconds != [] {
      var before, last := seconds[..|seconds| - 1], seconds[|seconds| - 1];
      LimitIsExact(limit, before, second);
      if last == second {
        if before == [] {
        } else {
          WindowCounts(limit, before);
          if before[|before| - 1] != last {
            LaterIsUnattempted(before, last);
          }
        }
      }
    }
  }
}
