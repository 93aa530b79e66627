/** Stop-and-wait replay of OMCI transactions (HandleFrame, replayTransaction and rememberTransaction of
    internal/engine/engine.go). What a request does when it is executed is an arbitrary outcome. */
module TransactionReplay {
  import opened Clock
  import opened Sequences
  import opened WireBytes


  const UPLOAD_TIMEOUT: nat := 60_000_000_000

  datatype Device = Baseline | Extended

  datatype Channel = LowPriority | HighPriority | ExtendedPriority

  datatype Kind =
    | MibUpload | MibUploadNext | GetAllAlarms | GetAllAlarmsNext | DownloadSectionWithoutResponse
    | OtherRequest(code: nat)

  /** A decoded header with the whole frame: `ar` asks for a response, `ak` marks one. The kind
      DownloadSectionWithoutResponse is the message type whose `ar` bit is clear. */
  datatype Request = Request(kind: Kind, ar: bool, ak: bool, device: Device, transactionID: nat, contents: Bytes)

  function ChannelOf(r: Request): Channel {
    if r.device == Extended then ExtendedPriority
    else if r.transactionID / 0x8000 % 2 == 1 then HighPriority else LowPriority
  }

  datatype Replay = Replay(transactionID: nat, response: Bytes, refreshUpload: bool, refreshAlarmUpload: bool)

  /** The live uploads of MIB and alarms: per device identifier, when they expire. */
  type Sessions = map<Device, Time>

  datatype State = State(replays: map<Channel, Replay>, oneWay: Option<Bytes>, uploads: Sessions,
                         alarmUploads: Sessions,
                         executed: seq<Request>)

  /** How a request was taken: by the special cases, by the decoder's error reply, or by the dispatcher. */
  datatype Route = Special | DecodeFailure | Dispatched

  datatype Outcome = Outcome(route: Route, response: Option<Bytes>, uploads: Sessions, alarmUploads: Sessions)

  predicate NonZero(bytes: Bytes) { exists i :: 0 <= i < |bytes| && bytes[i] != 0 }

  function UploadHasContents(response: Bytes, device: Device): bool {
    if device == Extended then |response| >= 10 && NonZero(response[8..10])
    else |response| >= 14 && NonZero(response[8..14])
  }

  function AlarmsHaveContents(response: Bytes, device: Device): bool {
    if device == Extended then |response| >= 10 && NonZero(response[8..10])
    else |response| >= 40 && NonZero(response[8..40])
  }

  predicate Unexpected(r: Request) { r.ak || (!r.ar && r.kind != DownloadSectionWithoutResponse) }

  function Live(sessions: Sessions, device: Device, now: Time): bool { device in sessions && now < sessions[device] }

  function Refreshed(sessions: Sessions, device: Device, now: Time): Sessions {
    if device in sessions then sessions[device := now + UPLOAD_TIMEOUT] else sessions
  }

  /** The remembered response to a retransmission, if the channel's last transaction has the same number.
      An expired upload is not replayed: its session is dropped and the request is executed again. */
  function ReplayOf(s: State, r: Request, now: Time): (State, Option<Bytes>) {
    var channel := ChannelOf(r);
    if !r.ar || channel !in s.replays || s.replays[channel].transactionID != r.transactionID then (s, None)
    else
      var replay := s.replays[channel];
      if r.kind == MibUploadNext && replay.refreshUpload && !Live(s.uploads, r.device, now) then
        (s.(uploads := s.uploads - {r.device}), None)
      else if r.kind == GetAllAlarmsNext && replay.refreshAlarmUpload && !Live(s.alarmUploads, r.device, now) then
        (s.(alarmUploads := s.alarmUploads - {r.device}), None)
      else
        var uploads := if (r.kind == MibUploadNext && replay.refreshUpload) || r.kind == MibUpload
                       then Refreshed(s.uploads, r.device, now) else s.uploads;
        var alarms := if (r.kind == GetAllAlarmsNext && replay.refreshAlarmUpload) || r.kind == GetAllAlarms
                      then Refreshed(s.alarmUploads, r.device, now) else s.alarmUploads;
        (s.(uploads := uploads, alarmUploads := alarms), Some(replay.response))
  }

  function Remember(s: State, r: Request, response: Bytes): State {
    if !r.ar then s
    else s.(replays := s.replays[ChannelOf(r) :=
      Replay(r.transactionID, response, r.kind == MibUploadNext && UploadHasContents(response, r.device),
             r.kind == GetAllAlarmsNext && AlarmsHaveContents(response, r.device))])
  }

  datatype Answer = Rejected | Silence | Response(bytes: Bytes)

  /** One frame: the next state and what goes upstream. */
  function HandleFrame(s: State, r: Request, now: Time, outcome: Outcome): (State, Answer) {
    if Unexpected(r) then (s, Rejected)
    else
      var (replayed, response) := ReplayOf(s, r, now);
      if response.Some? then (replayed, Response(response.value))
      else if r.kind == DownloadSectionWithoutResponse && replayed.oneWay == Some(r.contents) then (replayed, Silence)
      else
        var after := replayed.(uploads := outcome.uploads, alarmUploads := outcome.alarmUploads,
                               executed := replayed.executed + [r]);
        if outcome.response.None? then (after, Rejected)
        else if outcome.route == Dispatched && r.kind == DownloadSectionWithoutResponse then
          (after.(oneWay := Some(r.contents)), Response(outcome.response.value))
        else (Remember(after, r, outcome.response.value), Response(outcome.response.value))
  }

  class Engine {
    var replays: map<Channel, Replay>
    var oneWay: Option<Bytes>
    var uploads: Sessions
    var alarmUploads: Sessions
    ghost var executed: seq<Request>

    ghost function Value(): State
      reads this
    {
      State(replays, oneWay, uploads, alarmUploads, executed)
    }

    constructor ()
      ensures Value() == State(map[], None, map[], map[], [])
    {
      replays, oneWay, uploads, alarmUploads, executed := map[], None, map[], map[], [];
    }

    /** A carrier drop forgets everything of the session. */
    method ResetCommunicationSession()
      modifies this
      ensures Value() == State(map[], None, map[], map[], old(executed))
    {
      replays, oneWay, uploads, alarmUploads := map[], None, map[], map[];
    }

    /** replayTransaction. */
    method ReplayTransaction(r: Request, now: Time) returns (response: Option<Bytes>)
      modifies `uploads, `alarmUploads
      ensures (Value(), response) == ReplayOf(old(Value()), r, now)
    {
      var channel := ChannelOf(r);
      if !r.ar || channel !in replays || replays[channel].transactionID != r.transactionID {
        return None;
      }
      var replay := replays[channel];
      if r.kind == MibUploadNext && replay.refreshUpload {
        if !Live(uploads, r.device, now) {
          uploads := uploads - {r.device};
          return None;
        }
        uploads := uploads[r.device := now + UPLOAD_TIMEOUT];
      }
      if r.kind == GetAllAlarmsNext && replay.refreshAlarmUpload {
        if !Live(alarmUploads, r.device, now) {
          alarmUploads := alarmUploads - {r.device};
          return None;
        }
        alarmUploads := alarmUploads[r.device := now + UPLOAD_TIMEOUT];
      }
      if r.kind == MibUpload && r.device in uploads {
        uploads := uploads[r.device := now + UPLOAD_TIMEOUT];
      }
      if r.kind == GetAllAlarms && r.device in alarmUploads {
        alarmUploads := alarmUploads[r.device := now + UPLOAD_TIMEOUT];
      }
      response := Some(replay.response);
    }

    method RememberTransaction(r: Request, response: Bytes)
      modifies `replays
      ensures Value() == Remember(old(Value()), r, response)
    {
      if r.ar {
        replays := replays[ChannelOf(r) :=
          Replay(r.transactionID, response, r.kind == MibUploadNext && UploadHasContents(response, r.device),
                 r.kind == GetAllAlarmsNext && AlarmsHaveContents(response, r.device))];
      }
    }

    /** The real execution of a request. */
    method Execute(r: Request) returns (outcome: Outcome)
      modifies `uploads, `alarmUploads, `executed
      ensures uploads == outcome.uploads && alarmUploads == outcome.alarmUploads
      ensures executed == old(executed) + [r]
    {
      outcome := *;
      uploads, alarmUploads, executed := outcome.uploads, outcome.alarmUploads, executed + [r];
    }

    method Handle(r: Request, now: Time) returns (answer: Answer, ghost outcome: Outcome)
      modifies this
      ensures (Value(), answer) == HandleFrame(old(Value()), r, now, outcome)
    {
      hide UploadHasContents, AlarmsHaveContents;
      outcome := Outcome(Special, None, map[], map[]);
      if Unexpected(r) {
        return Rejected, outcome;
      }
      var response := ReplayTransaction(r, now);
      if response.Some? {
        return Response(response.value), outcome;
      }
      if r.kind == DownloadSectionWithoutResponse && oneWay == Some(r.contents) {
        return Silence, outcome;
      }
      var result := Execute(r);
      outcome := result;
      if result.response.None? {
        return Rejected, outcome;
      }
      if result.route == Dispatched && r.kind == DownloadSectionWithoutResponse {
        oneWay := Some(r.contents);
      } else {
        RememberTransaction(r, result.response.value);
      }
      answer := Response(result.response.value);
    }
  }

  // ---------- at most once ----------

  datatype Arrival = Arrival(request: Request, now: Time, outcome: Outcome)

  function Run(s: State, arrivals: seq<Arrival>): State {
    if arrivals == [] then s
    else
      var last := arrivals[|arrivals| - 1];
      HandleFrame(Run(s, arrivals[..|arrivals| - 1]), last.request, last.now, last.outcome).0
  }

  /** The channel's last transaction is this one, answered with these bytes. */
  predicate Remembers(s: State, r: Request, response: Bytes) {
    && ChannelOf(r) in s.replays
    && s.replays[ChannelOf(r)].transactionID == r.transactionID
    && s.replays[ChannelOf(r)].response == response
  }

  /** Requests whose replay never depends on a session. */
  predicate Plain(r: Request) { r.kind != MibUploadNext && r.kind != GetAllAlarmsNext }

  /** A frame of the same channel with the same transaction number; its contents do not matter. */
  predicate Retransmits(q: Request, r: Request) {
    !Unexpected(q) && q.ar && Plain(q) && ChannelOf(q) == ChannelOf(r) && q.transactionID == r.transactionID
  }

  /** A frame that leaves the channel's last transaction alone: another channel, or no response asked. */
  predicate Elsewhere(q: Request, r: Request) { ChannelOf(q) != ChannelOf(r) || !q.ar }

  lemma Answered(s: State, r: Request, now: Time, outcome: Outcome, response: Bytes)
    requires r.ar && r.kind != DownloadSectionWithoutResponse
    requires HandleFrame(s, r, now, outcome).1 == Response(response)
    ensures Remembers(HandleFrame(s, r, now, outcome).0, r, response)
  {
    hide UploadHasContents, AlarmsHaveContents;
  }

  lemma Replayed(s: State, q: Request, r: Request, now: Time, outcome: Outcome, response: Bytes)
    requires Remembers(s, r, response) && Retransmits(q, r)
    ensures HandleFrame(s, q, now, outcome).1 == Response(response)
    ensures HandleFrame(s, q, now, outcome).0.executed == s.executed
    ensures Remembers(HandleFrame(s, q, now, outcome).0, r, response)
  {
    hide UploadHasContents, AlarmsHaveContents;
  }

  lemma Undisturbed(s: State, q: Request, r: Request, now: Time, outcome: Outcome, response: Bytes)
    requires Remembers(s, r, response) && Elsewhere(q, r)
    ensures Remembers(HandleFrame(s, q, now, outcome).0, r, response)
  {
    hide UploadHasContents, AlarmsHaveContents;
  }

  /** How often frames of one channel that ask for a response were executed. */
  function Executions(executed: seq<Request>, channel: Channel): nat {
    if executed == [] then 0
    else
      Executions(executed[..|executed| - 1], channel) +
        if executed[|executed| - 1].ar && ChannelOf(executed[|executed| - 1]) == channel then 1 else 0
  }

  lemma ExecutedOnce(executed: seq<Request>, q: Request, channel: Channel)
    ensures Executions(executed + [q], channel) ==
            Executions(executed, channel) + if q.ar && ChannelOf(q) == channel then 1 else 0
  {
    assert (executed + [q])[..|executed|] == executed;
  }

  /** Once a request is answered, retransmissions of it, mixed with anything on other channels, execute
      nothing more on its channel, and the next retransmission still gets the same bytes. */
  lemma {:induction false} AtMostOnce(s: State, r: Request, response: Bytes, arrivals: seq<Arrival>)
    requires Remembers(s, r, response)
    requires forall i :: 0 <= i < |arrivals| ==>
               Retransmits(arrivals[i].request, r) || Elsewhere(arrivals[i].request, r)
    ensures Remembers(Run(s, arrivals), r, response)
    ensures Executions(Run(s, arrivals).executed, ChannelOf(r)) == Executions(s.executed, ChannelOf(r))
  {
    hide HandleFrame, Remembers, Executions, ChannelOf;
    if arrivals != [] {
      var n := |arrivals| - 1;
      AtMostOnce(s, r, response, arrivals[..n]);
      var before, last := Run(s, arrivals[..n]), arrivals[n];
      if Retransmits(last.request, r) {
        Replayed(before, last.request, r, last.now, last.outcome, response);
      } else {
        Undisturbed(before, last.request, r, last.now, last.outcome, response);
        ExecutionGrows(before, last.request, last.now, last.outcome);
        ExecutedOnce(before.executed, last.request, ChannelOf(r));
      }
    }
  }

  lemma ExecutionGrows(s: State, q: Request, now: Time, outcome: Outcome)
    ensures var after := HandleFrame(s, q, now, outcome).0;
      after.executed == s.executed || after.executed == s.executed + [q]
  {
    hide UploadHasContents, AlarmsHaveContents;
  }

  /** A download section without response is taken at most once while it is repeated. */
  lemma RepeatedSectionIsIgnored(s: State, r: Request, now: Time, outcome: Outcome, later: Time, again: Outcome)
    requires r.kind == DownloadSectionWithoutResponse && !r.ar && !r.ak
    requires outcome.route == Dispatched && outcome.response.Some?
    ensures var (after, _) := HandleFrame(s, r, now, outcome);
      HandleFrame(after, r, later, again) == (after, Silence)
  {}
}
