/**
 The relay of one owned task: it projects App Server messages to the few fields the reducer needs,
 refuses time that goes backwards, and emits one sequenced update per record, with a heartbeat for
 activity of the running current turn.
 */
module OneTaskRelay {
  import opened Collections
  import opened JsonGrammar
  import opened RemoteActionReceipt
  import opened S = StatusReducer
  import opened LiveActivityPayload

  // Projection of raw messages.

  datatype Flag = OnApproval | OnUserInput | UnknownFlag

  datatype RawStatus = RawActive(flags: seq<Flag>) | RawIdle | RawNotLoaded | RawSystemError | RawUnknown

  /** A message as it arrives; identifiers are None unless they have the type the projection asks for. */
  datatype Raw =
    | RawThreadStarted(thread: Option<Text>, status: Option<RawStatus>)
    | RawTurnStarted(thread: Option<Text>, turn: Option<Text>, inProgress: bool)
    | RawTurnCompleted(thread: Option<Text>, turn: Option<Text>, outcome: Option<TurnStatus>)
    | RawStatusChanged(thread: Option<Text>, status: Option<RawStatus>)
    | RawThreadClosed(thread: Option<Text>)
    | RawRequest(kind: RequestKind, toolInput: bool, thread: Option<Text>, turn: Option<Text>, request: Option<Text>,
                 blocking: bool)
    | RawResolved(thread: Option<Text>, request: Option<Text>)
    | RawActivity(thread: Option<Text>, turn: Option<Text>)
    | RawRename(thread: Option<Text>, title: Option<Text>)
    | RawOther

  function ProjectStatus(status: Option<RawStatus>): Option<ThreadStatus> {
    if status.None? || status.value.RawUnknown? then None
    else
      match status.value
      case RawActive(flags) =>
        if flags != [] && OnApproval !in flags && OnUserInput !in flags then None
        else Some(Active(OnApproval in flags, OnUserInput in flags))
      case RawSystemError => Some(SystemError)
      case RawNotLoaded => Some(NotLoaded)
      case _ => Some(OtherStatus)
  }

  function Project(raw: Raw, owned: Text): Option<Message> {
    var own := Some(owned);
    match raw
    case RawThreadStarted(thread, status) =>
      if thread == own then Some(ThreadStarted(own, None, ProjectStatus(status))) else None
    case RawTurnStarted(thread, turn, inProgress) =>
      if thread == own && turn.Some? && inProgress then Some(TurnStarted(own, turn)) else None
    case RawTurnCompleted(thread, turn, outcome) =>
      if thread == own && turn.Some? && outcome.Some? then Some(TurnCompleted(own, turn, outcome)) else None
    case RawStatusChanged(thread, status) =>
      if thread == own && ProjectStatus(status).Some? then Some(StatusChanged(own, ProjectStatus(status))) else None
    case RawThreadClosed(thread) => if thread == own then Some(ThreadClosed(own)) else None
    case RawRequest(kind, toolInput, thread, turn, request, blocking) =>
      if thread == own && request.Some? then Some(RequestMade(kind, own, turn, request, !toolInput || blocking))
          else None
    case RawResolved(thread, request) =>
      if thread == own && request.Some? then Some(RequestResolved(own, request)) else None
    case RawActivity(thread, turn) => if thread == own && turn.Some? then Some(TurnActivity(own, turn)) else None
    case _ => None
  }

  // The relay.

  datatype Relay = Relay(
    threadId: Text, staleAfterMs: int, staleAfterSeconds: int, reducer: Reducer, sequence: int,
        lastObserved: Option<int>)

  /** The whole window, rounded up to seconds. */
  function WindowSeconds(staleAfterMs: int): int {
    var up := (staleAfterMs + 999) / 1000;
    if up > 1 then up else 1
  }

  function FreshRelay(threadId: Text, staleAfterMs: int): Relay {
    Relay(threadId, staleAfterMs, WindowSeconds(staleAfterMs), EMPTY_REDUCER, 0, None)
  }

  datatype Outcome = Returned | TimeWentBack | PrivacyViolated | EmissionRefused

  /** A relay after a call, the updates it sent and how the call ended. */
  datatype Sent = Sent(relay: Relay, payloads: seq<Payload>, outcome: Outcome)

  predicate KeepsPrivacy(r: Relay, record: Record) {
    record.threadId == r.threadId && record.title.None? && record.aggregate.total == 1
  }

  function Emit(r: Relay, record: Record): Sent {
    if !KeepsPrivacy(r, record) then Sent(r, [], PrivacyViolated)
    else
      var payload := Build(record, r.sequence + 1, r.staleAfterSeconds);
      if payload.None? then Sent(r, [], EmissionRefused)
      else Sent(r.(sequence := r.sequence + 1), [payload.value], Returned)
  }

  /** Emit in order until one refuses. */
  function EmitAll(r: Relay, records: seq<Record>): Sent
    decreases |records|
  {
    if records == [] then Sent(r, [], Returned)
    else
      var first := Emit(r, records[0]);
      if first.outcome != Returned then first
      else
        var rest := EmitAll(first.relay, records[1..]);
        Sent(rest.relay, first.payloads + rest.payloads, rest.outcome)
  }

  predicate GoesBack(r: Relay, at: int) { r.lastObserved.Some? && at < r.lastObserved.value }

  function Advance(r: Relay, change: Change, at: int): Sent {
    EmitAll(r.(reducer := change.reducer, lastObserved := Some(at)), change.records)
  }

  /** The record an activity heartbeat repeats: the running task's own, observed now. */
  function HeartbeatRecord(r: Relay, turn: Option<Text>, at: int): Option<Record> {
    var task := TaskOf(r.reducer, r.threadId);
    if task.state == Some(Running) && task.turnId == turn then
      Some(S.RecordOf(r.reducer, task).(observedAt := Some(at), source := Some(MatchingActivity)))
    else None
  }

  function Receive(r: Relay, raw: Raw, at: int): Sent {
    var m := Project(raw, r.threadId);
    if m.None? then Sent(r, [], Returned)
    else if GoesBack(r, at) then Sent(r, [], TimeWentBack)
    else
      var sent := Advance(r, S.Ingest(r.reducer, m.value, at), at);
      if sent.outcome != Returned || !m.value.TurnActivity? || sent.payloads != [] then sent
      else
        var beat := HeartbeatRecord(sent.relay, m.value.turn, at);
        if beat.None? then sent else Emit(sent.relay, beat.value)
  }

  function SweepRelay(r: Relay, at: int): Sent {
    if GoesBack(r, at) then Sent(r, [], TimeWentBack)
    else Advance(r, S.Sweep(r.reducer, r.staleAfterMs, at, r.reducer.order), at)
  }

  function DisconnectRelay(r: Relay, at: int): Sent {
    if GoesBack(r, at) then Sent(r, [], TimeWentBack)
    else Advance(r, S.Lose(r.reducer, at, r.reducer.order), at)
  }

  datatype Op = Received(raw: Raw, at: int) | SweptAt(at: int) | DisconnectedAt(at: int)

  function AfterOp(r: Relay, op: Op): Sent {
    match op
    case Received(raw, at) => Receive(r, raw, at)
    case SweptAt(at) => SweepRelay(r, at)
    case DisconnectedAt(at) => DisconnectRelay(r, at)
  }

  /** The relay and everything it has sent after a run. */
  datatype Stream = Stream(relay: Relay, payloads: seq<Payload>)

  function StreamOf(threadId: Text, staleAfterMs: int, ops: seq<Op>): Stream
    decreases |ops|
  {
    if ops == [] then Stream(FreshRelay(threadId, staleAfterMs), [])
    else
      var before := StreamOf(threadId, staleAfterMs, ops[..|ops| - 1]);
      var sent := AfterOp(before.relay, ops[|ops| - 1]);
      Stream(sent.relay, before.payloads + sent.payloads)
  }
}
