/**
 What every run of the relay sends: sequences 1, 2, 3, ... with nondecreasing timestamps and a fixed
 window, each update accepted by the consumer's validation, and never a breach of the one-task privacy
 boundary.
 */
module OneTaskRelayRuns {
  import opened Collections
  import opened JsonGrammar
  import opened RemoteActionReceipt
  import opened S = StatusReducer
  import opened StatusReducerRuns
  import opened LiveActivityPayload
  import opened OneTaskRelay

  /** At most the owned task, untitled. */
  ghost predicate Single(r: Reducer, id: Text) {
    || r == EMPTY_REDUCER
    || (r.order == [id] && r.tasks.Keys == {id} && OwnTask(r.tasks[id], id))
  }

  ghost predicate OwnTask(t: Task, id: Text) { t.threadId == id && t.title.None? && TaskOk(t) }

  ghost predicate RelayOk(r: Relay) { Single(r.reducer, r.threadId) && r.sequence >= 0 && r.staleAfterSeconds > 0 }

  lemma SingleIsOrdered(r: Reducer, id: Text)
    requires Single(r, id)
    ensures Ordered(r) && OwnTask(TaskOf(r, id), id)
  {
  }

  // What one step emits.

  /** A record of the one owned task, in a known state, observed at `at`. */
  predicate OwnRecord(record: Record, id: Text, at: int) {
    && record.threadId == id && record.title.None? && record.aggregate.total == 1 && record.observedAt == Some(at)
    && record.state.Some? && record.attentionRequired == NeedsAttention(record.state.value)
  }

  lemma AppliedSingle(r: Reducer, id: Text, step: Step, at: int)
    requires Single(r, id) && OwnTask(step.task, id)
    requires step.emitted ==> step.task.state.Some? && step.task.observedAt == Some(at)
    ensures Single(Apply(r, step).reducer, id)
    ensures Apply(r, step).records == []
            || (|Apply(r, step).records| == 1 && OwnRecord(Apply(r, step).records[0], id, at))
  {
    hide Single, OwnTask, OwnRecord, Put, S.RecordOf;
    PutSingle(r, step.task, id);
    if step.emitted { RecordIsOwn(Put(r, step.task), step.task, id, at); }
  }

  lemma PutSingle(r: Reducer, t: Task, id: Text)
    requires Single(r, id) && OwnTask(t, id)
    ensures Single(Put(r, t), id) && Put(r, t).order == [id] && id in Put(r, t).tasks && Put(r, t).tasks[id] == t
  {
    hide TaskOk;
  }

  lemma RecordIsOwn(r: Reducer, t: Task, id: Text, at: int)
    requires r.order == [id] && id in r.tasks && r.tasks[id] == t && OwnTask(t, id)
    requires t.state.Some? && t.observedAt == Some(at)
    ensures OwnRecord(S.RecordOf(r, t), id, at)
  {
    hide TaskOk;
    OneState(r, id);
  }

  lemma OneState(r: Reducer, id: Text)
    requires r.order == [id] && id in r.tasks && r.tasks[id].state.Some?
    ensures StatesOf(r, r.order) == [r.tasks[id].state.value]
  {
    assert r.order[..0] == [];
    assert StatesOf(r, []) == [];
  }

  /** The messages the projection lets through name the owned thread and no title. */
  predicate Projected(m: Message, id: Text) {
    && !m.OtherMessage? && m.thread == Some(id)
    && !m.ThreadRenamed? && (m.ThreadStarted? ==> m.title.None?)
  }

  lemma ProjectionIsOwned(raw: Raw, id: Text)
    ensures Project(raw, id).Some? ==> Projected(Project(raw, id).value, id)
  {
  }

  lemma StepIsOwn(t: Task, m: Message, at: int, id: Text)
    requires OwnTask(t, id) && Projected(m, id)
    ensures var step := StepFor(t, m, at);
            OwnTask(step.task, id) && (step.emitted ==> step.task.state.Some? && step.task.observedAt == Some(at))
  {
    hide TaskOk, Entombed, MatchingRequests;
    StepOk(t, m, at);
  }

  /** At most one record, and only of the owned task. */
  ghost predicate OwnChange(c: Change, id: Text, at: int) {
    Single(c.reducer, id) && (c.records == [] || (|c.records| == 1 && OwnRecord(c.records[0], id, at)))
  }

  lemma IngestIsOwn(r: Reducer, m: Message, at: int, id: Text)
    requires Single(r, id) && Projected(m, id)
    ensures OwnChange(S.Ingest(r, m, at), id, at)
  {
    hide StepFor, Apply, OwnTask;
    if Reaches(r, m) {
      SingleIsOrdered(r, id);
      StepIsOwn(TaskOf(r, id), m, at, id);
      AppliedSingle(r, id, StepFor(TaskOf(r, id), m, at), at);
    }
  }

  lemma TimersAreOwn(r: Reducer, staleAfter: int, at: int, id: Text)
    requires Single(r, id)
    ensures OwnChange(S.Sweep(r, staleAfter, at, r.order), id, at) && OwnChange(S.Lose(r, at, r.order), id, at)
  {
    hide TaskOk, Apply, TaskOf;
    if r.order == [id] {
      var t := r.tasks[id];
      assert r.order[..0] == [] && TaskOf(r, id) == t by { OwnLookup(r, id); }
      TimerOk(t, staleAfter, at);
      AppliedSingle(r, id, SweepTask(t, staleAfter, at), at);
      AppliedSingle(r, id, LoseTask(t, at), at);
      OneSwept(r, staleAfter, at, id);
    }
  }

  lemma OwnLookup(r: Reducer, id: Text)
    requires id in r.tasks
    ensures TaskOf(r, id) == r.tasks[id]
  {
  }

  lemma OneSwept(r: Reducer, staleAfter: int, at: int, id: Text)
    requires r.order == [id] && id in r.tasks
    ensures S.Sweep(r, staleAfter, at, r.order) == Apply(r, SweepTask(r.tasks[id], staleAfter, at))
    ensures S.Lose(r, at, r.order) == Apply(r, LoseTask(r.tasks[id], at))
  {
    hide Apply, SweepTask, LoseTask;
    assert r.order[..0] == [];
    assert S.Sweep(r, staleAfter, at, []) == Change(r, []) && S.Lose(r, at, []) == Change(r, []);
  }

  // Emission.

  /** The next update of a relay, for one of its own records. */
  function NextPayload(r: Relay, state: State, at: int): Payload {
    Payload(Seconds(at), UPDATE_EVENT, PresentationOf(state), RELAY_MARKER, r.sequence + 1,
            Seconds(at) + r.staleAfterSeconds)
  }

  /** When an update can be built at all. */
  predicate Emittable(r: Relay, at: int) {
    0 < Seconds(at) && Seconds(at) + r.staleAfterSeconds <= MAX_SAFE_INTEGER && r.sequence + 1 <= MAX_SAFE_INTEGER
  }

  lemma EmitsExactly(r: Relay, record: Record, at: int)
    requires RelayOk(r) && OwnRecord(record, r.threadId, at)
    ensures Emit(r, record)
            == if Emittable(r, at)
                then Sent(r.(sequence := r.sequence + 1), [NextPayload(r, record.state.value, at)], Returned)
               else Sent(r, [], EmissionRefused)
  {
    hide Build, PresentationOf, Single;
    BuildsExactly(record, r.sequence + 1, r.staleAfterSeconds);
  }

  // One call.

  /** What a call that is not refused for its time may send, given the relay it leaves behind. */
  ghost predicate GoodCall(r: Relay, sent: Sent, at: int) {
    && RelayOk(sent.relay) && sent.outcome != PrivacyViolated
    && sent.relay.threadId == r.threadId && sent.relay.staleAfterSeconds == r.staleAfterSeconds
    && sent.relay.staleAfterMs == r.staleAfterMs
    && (sent.outcome == TimeWentBack ==> sent == Sent(r, [], TimeWentBack))
    && (sent.outcome == EmissionRefused ==> !Emittable(r, at))
    && |sent.payloads| <= 1 && sent.relay.sequence == r.sequence + |sent.payloads|
    && (sent.payloads != [] ==>
          && sent.outcome == Returned && Emittable(r, at) && sent.relay.lastObserved == Some(at) && !GoesBack(r, at)
          && exists state :: sent.payloads == [NextPayload(r, state, at)]
                             && TaskOf(sent.relay.reducer, r.threadId).state == Some(state))
    && (sent.relay.lastObserved != r.lastObserved ==> sent.relay.lastObserved == Some(at) && !GoesBack(r, at))
  }

  lemma AdvanceGood(r: Relay, change: Change, at: int)
    requires RelayOk(r) && OwnChange(change, r.threadId, at) && !GoesBack(r, at)
    requires change.records != [] ==> change.records[0].state == TaskOf(change.reducer, r.threadId).state
    ensures GoodCall(r, Advance(r, change, at), at)
    ensures Advance(r, change, at).relay.reducer == change.reducer
    ensures Advance(r, change, at).relay.lastObserved == Some(at)
    ensures change.records != [] ==> (Advance(r, change, at).outcome == Returned <==> Emittable(r, at))
    ensures Advance(r, change, at).outcome == Returned ==> |Advance(r, change, at).payloads| == |change.records|
  {
    hide Single, TaskOf, Emit;
    var moved := r.(reducer := change.reducer, lastObserved := Some(at));
    if change.records != [] {
      var record := change.records[0];
      EmitsExactly(moved, record, at);
      assert change.records == [record];
      EmitOne(moved, record);
      assert Emittable(moved, at) == Emittable(r, at)
             && NextPayload(moved, record.state.value, at) == NextPayload(r, record.state.value, at);
    }
  }

  lemma EmitOne(r: Relay, record: Record)
    ensures EmitAll(r, [record]) == Emit(r, record)
  {
    hide Emit;
    assert [record][1..] == [];
    assert forall x :: EmitAll(x, []) == Sent(x, [], Returned);
    EmitShape(r, record);
  }

  lemma EmitShape(r: Relay, record: Record)
    ensures var sent := Emit(r, record); sent == Sent(sent.relay, sent.payloads + [], sent.outcome)
  {
  }

  // Whole calls.

  lemma RecordShowsState(r: Reducer, step: Step, id: Text)
    requires step.task.threadId == id
    ensures Apply(r, step).records != [] ==> Apply(r, step).records[0].state == TaskOf(Apply(r, step).reducer, id).state
  {
  }

  lemma IngestShowsState(r: Reducer, m: Message, at: int, id: Text)
    requires Single(r, id) && Projected(m, id)
    ensures var c := S.Ingest(r, m, at); c.records != [] ==> c.records[0].state == TaskOf(c.reducer, id).state
  {
    hide StepFor, Apply;
    SingleIsOrdered(r, id);
    if Reaches(r, m) {
      StepKeepsThread(TaskOf(r, id), m, at);
      RecordShowsState(r, StepFor(TaskOf(r, id), m, at), id);
    }
  }

  lemma TimersShowState(r: Reducer, staleAfter: int, at: int, id: Text)
    requires Single(r, id)
    ensures var c := S.Sweep(r, staleAfter, at, r.order);
            c.records != [] ==> c.records[0].state == TaskOf(c.reducer, id).state
    ensures var c := S.Lose(r, at, r.order); c.records != [] ==> c.records[0].state == TaskOf(c.reducer, id).state
  {
    hide Apply, TaskOf;
    if r.order == [id] {
      OneSwept(r, staleAfter, at, id);
      SweepKeepsThread(r.tasks[id], staleAfter, at);
      RecordShowsState(r, SweepTask(r.tasks[id], staleAfter, at), id);
      RecordShowsState(r, LoseTask(r.tasks[id], at), id);
    }
  }

  lemma TimersGood(r: Relay, at: int)
    requires RelayOk(r)
    ensures GoodCall(r, SweepRelay(r, at), at) && GoodCall(r, DisconnectRelay(r, at), at)
  {
    hide Single, S.Sweep, S.Lose, Advance, TaskOf;
    if !GoesBack(r, at) {
      TimersAreOwn(r.reducer, r.staleAfterMs, at, r.threadId);
      TimersShowState(r.reducer, r.staleAfterMs, at, r.threadId);
      AdvanceGood(r, S.Sweep(r.reducer, r.staleAfterMs, at, r.reducer.order), at);
      AdvanceGood(r, S.Lose(r.reducer, at, r.reducer.order), at);
    }
  }

  /** A heartbeat repeats the state of the running current turn, observed now. */
  lemma HeartbeatIsOwn(r: Relay, turn: Option<Text>, at: int)
    requires RelayOk(r) && HeartbeatRecord(r, turn, at).Some?
    ensures var record := HeartbeatRecord(r, turn, at).value;
            OwnRecord(record, r.threadId, at) && record.state == Some(Running)
  {
    OneState(r.reducer, r.threadId);
  }

  lemma HeartbeatGood(r: Relay, sent: Sent, turn: Option<Text>, at: int)
    requires RelayOk(r) && GoodCall(r, sent, at) && sent.outcome == Returned && sent.payloads == []
    requires sent.relay.lastObserved == Some(at) && !GoesBack(r, at)
    requires HeartbeatRecord(sent.relay, turn, at).Some?
    ensures GoodCall(r, Emit(sent.relay, HeartbeatRecord(sent.relay, turn, at).value), at)
  {
    hide Emit, Single, TaskOf, Validates, PresentationOf, S.RecordOf;
    var record := HeartbeatRecord(sent.relay, turn, at).value;
    HeartbeatIsOwn(sent.relay, turn, at);
    EmitsExactly(sent.relay, record, at);
    assert Emittable(sent.relay, at) == Emittable(r, at)
           && NextPayload(sent.relay, Running, at) == NextPayload(r, Running, at);
  }

  lemma ReceiveGood(r: Relay, raw: Raw, at: int)
    requires RelayOk(r)
    ensures GoodCall(r, Receive(r, raw, at), at)
  {
    hide Single, S.Ingest, Advance, Emit, HeartbeatRecord, TaskOf, Project;
    var m := Project(raw, r.threadId);
    if m.Some? && !GoesBack(r, at) {
      ProjectionIsOwned(raw, r.threadId);
      IngestIsOwn(r.reducer, m.value, at, r.threadId);
      IngestShowsState(r.reducer, m.value, at, r.threadId);
      AdvanceGood(r, S.Ingest(r.reducer, m.value, at), at);
      var sent := Advance(r, S.Ingest(r.reducer, m.value, at), at);
      if sent.outcome == Returned && m.value.TurnActivity? && sent.payloads == []
         && HeartbeatRecord(sent.relay, m.value.turn, at).Some?
      {
        HeartbeatGood(r, sent, m.value.turn, at);
      }
    }
  }

  lemma CallGood(r: Relay, op: Op)
    requires RelayOk(r)
    ensures GoodCall(r, AfterOp(r, op), op.at)
  {
    hide Receive, SweepRelay, DisconnectRelay, GoodCall, RelayOk;
    match op
    case Received(raw, at) => ReceiveGood(r, raw, at);
    case SweptAt(at) => TimersGood(r, at);
    case DisconnectedAt(at) => TimersGood(r, at);
  }

  // Runs.

  /** The stream so far: numbered from one, in time order, with a fixed window, each acceptable after the last. */
  ghost predicate StreamFits(payloads: seq<Payload>, staleAfterSeconds: int) {
    forall i :: 0 <= i < |payloads| ==>
      && payloads[i].sequence == i + 1 && payloads[i].staleDate == payloads[i].timestamp + staleAfterSeconds
      && Validates(payloads[i], i)
      && (i > 0 ==> payloads[i - 1].timestamp <= payloads[i].timestamp)
  }

  ghost predicate RunOk(s: Stream, threadId: Text, staleAfterMs: int) {
    && RelayOk(s.relay) && s.relay.threadId == threadId && s.relay.staleAfterSeconds == WindowSeconds(staleAfterMs)
    && s.relay.staleAfterMs == staleAfterMs
    && s.relay.sequence == |s.payloads| && StreamFits(s.payloads, WindowSeconds(staleAfterMs))
    && (s.payloads != [] ==>
          s.relay.lastObserved.Some? && s.payloads[|s.payloads| - 1].timestamp <= Seconds(s.relay.lastObserved.value))
  }

  lemma SecondsMonotone(a: int, b: int)
    requires a <= b
    ensures Seconds(a) <= Seconds(b)
  {
  }

  lemma NextPayloadValidates(r: Relay, state: State, at: int)
    requires Emittable(r, at) && r.sequence >= 0 && r.staleAfterSeconds > 0
    ensures Validates(NextPayload(r, state, at), r.sequence)
  {
    hide PresentationWith, STATES;
    EveryStateListed(state);
    PresentationFound(state, STATES);
  }

  lemma ExtendStream(s: Stream, sent: Sent, at: int, threadId: Text, staleAfterMs: int)
    requires RunOk(s, threadId, staleAfterMs) && GoodCall(s.relay, sent, at)
    ensures RunOk(Stream(sent.relay, s.payloads + sent.payloads), threadId, staleAfterMs)
  {
    hide Single, Validates, TaskOf, Emittable, PresentationOf;
    if sent.payloads != [] {
      var state :| sent.payloads == [NextPayload(s.relay, state, at)];
      NextPayloadValidates(s.relay, state, at);
    }
    if s.relay.lastObserved.Some? && !GoesBack(s.relay, at) { SecondsMonotone(s.relay.lastObserved.value, at); }
  }

  /**
   The relay's stream fits its consumer over any run: sequences 1, 2, 3, ..., nondecreasing timestamps,
   stale date exactly one window later, and every update accepted after its predecessor.
   */
  lemma {:induction false} EveryStreamFits(threadId: Text, staleAfterMs: int, ops: seq<Op>)
    ensures RunOk(StreamOf(threadId, staleAfterMs, ops), threadId, staleAfterMs)
    decreases |ops|
  {
    hide RunOk, GoodCall, AfterOp;
    if ops == [] {
      FreshIsOk(threadId, staleAfterMs);
    } else {
      var before := StreamOf(threadId, staleAfterMs, ops[..|ops| - 1]);
      EveryStreamFits(threadId, staleAfterMs, ops[..|ops| - 1]);
      RunIsRelayOk(before, threadId, staleAfterMs);
      CallGood(before.relay, ops[|ops| - 1]);
      ExtendStream(before, AfterOp(before.relay, ops[|ops| - 1]), ops[|ops| - 1].at, threadId, staleAfterMs);
    }
  }

  lemma FreshIsOk(threadId: Text, staleAfterMs: int)
    ensures RunOk(Stream(FreshRelay(threadId, staleAfterMs), []), threadId, staleAfterMs)
  {
  }

  lemma RunIsRelayOk(s: Stream, threadId: Text, staleAfterMs: int)
    requires RunOk(s, threadId, staleAfterMs)
    ensures RelayOk(s.relay)
  {
  }

  /** In no run is the one-task privacy boundary violated: the reducer never gives it a reason. */
  lemma PrivacyIsNeverViolated(threadId: Text, staleAfterMs: int, ops: seq<Op>, op: Op)
    ensures AfterOp(StreamOf(threadId, staleAfterMs, ops).relay, op).outcome != PrivacyViolated
  {
    EveryStreamFits(threadId, staleAfterMs, ops);
    CallGood(StreamOf(threadId, staleAfterMs, ops).relay, op);
  }

  /** The operation is a sweep, a disconnection or a message that is passed on at all. */
  predicate Concerned(r: Relay, op: Op) { op.Received? ==> Project(op.raw, r.threadId).Some? }

  /**
   Time is refused exactly when it is earlier than the last accepted one, by a message that is passed on,
   a sweep or a disconnection. Such an operation changes nothing, nor does a message that is not passed on.
   */
  lemma BackwardTimeChangesNothing(r: Relay, op: Op)
    ensures AfterOp(r, op).outcome == TimeWentBack
            <==> Concerned(r, op) && r.lastObserved.Some? && op.at < r.lastObserved.value
    ensures AfterOp(r, op).outcome == TimeWentBack ==> AfterOp(r, op) == Sent(r, [], TimeWentBack)
    ensures !Concerned(r, op) ==> AfterOp(r, op) == Sent(r, [], Returned)
    ensures Concerned(r, op) && AfterOp(r, op).outcome != TimeWentBack
            ==> AfterOp(r, op).relay.lastObserved == Some(op.at)
  {
    hide S.Ingest, S.Sweep, S.Lose, Project, HeartbeatRecord, Build;
    match op
    case Received(raw, at) =>
      var m := Project(raw, r.threadId);
      if m.Some? {
        AdvanceKeepsTime(r, S.Ingest(r.reducer, m.value, at), at);
        EmittingKeepsTime(Advance(r, S.Ingest(r.reducer, m.value, at), at).relay);
      }
    case SweptAt(at) => AdvanceKeepsTime(r, S.Sweep(r.reducer, r.staleAfterMs, at, r.reducer.order), at);
    case DisconnectedAt(at) => AdvanceKeepsTime(r, S.Lose(r.reducer, at, r.reducer.order), at);
  }

  lemma EmittingKeepsTime(r: Relay)
    ensures forall record :: Emit(r, record).relay.lastObserved == r.lastObserved
    ensures forall record :: Emit(r, record).outcome != TimeWentBack
  {
  }

  lemma {:induction false} EmittingAllKeepsTime(r: Relay, records: seq<Record>)
    ensures EmitAll(r, records).relay.lastObserved == r.lastObserved && EmitAll(r, records).outcome != TimeWentBack
    decreases |records|
  {
    hide Emit;
    EmittingKeepsTime(r);
    if records != [] { EmittingAllKeepsTime(Emit(r, records[0]).relay, records[1..]); }
  }

  lemma AdvanceKeepsTime(r: Relay, change: Change, at: int)
    ensures Advance(r, change, at).relay.lastObserved == Some(at) && Advance(r, change, at).outcome != TimeWentBack
  {
    EmittingAllKeepsTime(r.(reducer := change.reducer, lastObserved := Some(at)), change.records);
  }

  // What a message of the App Server means for the task.

  /** A flagged status is passed on unless all of its flags are unknown; every other known status is, too. */
  lemma StatusMeansExactly(status: Option<RawStatus>)
    ensures ProjectStatus(status) == Some(SystemError) <==> status == Some(RawSystemError)
    ensures ProjectStatus(status) == Some(NotLoaded) <==> status == Some(RawNotLoaded)
    ensures ProjectStatus(status) == Some(OtherStatus) <==> status == Some(RawIdle)
    ensures forall onApproval, onInput :: ProjectStatus(status) == Some(Active(onApproval, onInput)) <==>
              && status.Some? && status.value.RawActive?
              && (onApproval <==> OnApproval in status.value.flags) && (onInput <==> OnUserInput in status.value.flags)
              && (status.value.flags == [] || onApproval || onInput)
  {
  }

  /** The thread a message names. */
  function Names(raw: Raw): Option<Text> {
    match raw
    case RawThreadStarted(thread, _) => thread
    case RawTurnStarted(thread, _, _) => thread
    case RawTurnCompleted(thread, _, _) => thread
    case RawStatusChanged(thread, _) => thread
    case RawThreadClosed(thread) => thread
    case RawRequest(_, _, thread, _, _, _) => thread
    case RawResolved(thread, _) => thread
    case RawActivity(thread, _) => thread
    case RawRename(_, _) => None
    case RawOther => None
  }

  /** What a message is passed on as, once it is about the owned thread and complete. */
  function Meaning(raw: Raw, own: Option<Text>): Message {
    match raw
    case RawThreadStarted(_, status) => ThreadStarted(own, None, ProjectStatus(status))
    case RawTurnStarted(_, turn, _) => TurnStarted(own, turn)
    case RawTurnCompleted(_, turn, outcome) => TurnCompleted(own, turn, outcome)
    case RawStatusChanged(_, status) => StatusChanged(own, ProjectStatus(status))
    case RawThreadClosed(_) => ThreadClosed(own)
    case RawRequest(kind, toolInput, _, turn, request, blocking) =>
      RequestMade(kind, own, turn, request, !toolInput || blocking)
    case RawResolved(_, request) => RequestResolved(own, request)
    case RawActivity(_, turn) => TurnActivity(own, turn)
    case _ => OtherMessage
  }

  /** It has the turn, the outcome, the status or the request it is about. */
  predicate IsComplete(raw: Raw) {
    && (raw.RawTurnStarted? ==> raw.turn.Some? && raw.inProgress)
    && (raw.RawTurnCompleted? ==> raw.turn.Some? && raw.outcome.Some?)
    && (raw.RawActivity? ==> raw.turn.Some?)
    && (raw.RawRequest? || raw.RawResolved? ==> raw.request.Some?)
    && (raw.RawStatusChanged? ==> ProjectStatus(raw.status).Some?)
  }

  /** A message is passed on exactly when it names the owned thread and is complete, and then as what it means. */
  lemma PassesOnExactly(raw: Raw, owned: Text)
    ensures Project(raw, owned)
            == if Names(raw) == Some(owned) && IsComplete(raw) then Some(Meaning(raw, Some(owned))) else None
  {
    hide ProjectStatus;
  }

  /** A record is refused for privacy exactly when it is not about the one owned, untitled task alone. */
  lemma PrivacyExactly(r: Relay, record: Record)
    ensures Emit(r, record).outcome == PrivacyViolated
            <==> record.threadId != r.threadId || record.title.Some? || record.aggregate.total != 1
  {
    hide Build;
  }

  /** The window in seconds covers the one in milliseconds, is at least a second, and no longer than needed. */
  lemma WindowRoundsUp(staleAfterMs: int)
    requires staleAfterMs >= 0
    ensures var seconds := WindowSeconds(staleAfterMs);
            seconds >= 1 && seconds * 1000 >= staleAfterMs && (seconds == 1 || (seconds - 1) * 1000 < staleAfterMs)
  {
  }

  // The relay's task is that of a reducer run, so the last update shows what last happened to the task.

  /** The reducer's events in a relay run: what was passed on, at times that did not go back. */
  function EventsOf(threadId: Text, staleAfterMs: int, ops: seq<Op>): seq<Event>
    decreases |ops|
  {
    if ops == [] then []
    else
      var front, op := ops[..|ops| - 1], ops[|ops| - 1];
      var r := StreamOf(threadId, staleAfterMs, front).relay;
      EventsOf(threadId, staleAfterMs, front)
      + if Concerned(r, op) && !GoesBack(r, op.at) then [EventOf(r, op)] else []
  }

  lemma {:induction false} RelayRunsReducer(threadId: Text, staleAfterMs: int, ops: seq<Op>)
    ensures var r := StreamOf(threadId, staleAfterMs, ops).relay;
            && r.reducer == RunOf(staleAfterMs, EventsOf(threadId, staleAfterMs, ops))
            && r.threadId == threadId && r.staleAfterMs == staleAfterMs
    decreases |ops|
  {
    hide AfterOp, S.Next, Concerned, GoesBack;
    if ops != [] {
      var front, op := ops[..|ops| - 1], ops[|ops| - 1];
      RelayRunsReducer(threadId, staleAfterMs, front);
      var r := StreamOf(threadId, staleAfterMs, front).relay;
      OpRunsReducer(r, op);
      var before := EventsOf(threadId, staleAfterMs, front);
      if Concerned(r, op) && !GoesBack(r, op.at) {
        assert (before + [EventOf(r, op)])[..|before|] == before;
      } else {
        assert before + [] == before;
      }
    }
  }

  lemma OpRunsReducer(r: Relay, op: Op)
    ensures var t := AfterOp(r, op).relay;
            && t.threadId == r.threadId && t.staleAfterMs == r.staleAfterMs
            && t.reducer == (if Concerned(r, op) && !GoesBack(r, op.at)
                             then S.Next(r.reducer, r.staleAfterMs, EventOf(r, op)).reducer else r.reducer)
  {
    hide S.Ingest, S.Sweep, S.Lose, Project, HeartbeatRecord, Build, EmitAll;
    match op
    case Received(raw, at) =>
      var m := Project(raw, r.threadId);
      if m.Some? { AdvanceKeepsRest(r, S.Ingest(r.reducer, m.value, at), at); }
    case SweptAt(at) => AdvanceKeepsRest(r, S.Sweep(r.reducer, r.staleAfterMs, at, r.reducer.order), at);
    case DisconnectedAt(at) => AdvanceKeepsRest(r, S.Lose(r.reducer, at, r.reducer.order), at);
  }

  lemma {:induction false} EmittingKeepsRest(r: Relay, records: seq<Record>)
    ensures EmitAll(r, records).relay == r.(sequence := EmitAll(r, records).relay.sequence)
    decreases |records|
  {
    hide Build;
    if records != [] { EmittingKeepsRest(Emit(r, records[0]).relay, records[1..]); }
  }

  lemma AdvanceKeepsRest(r: Relay, change: Change, at: int)
    ensures var t := Advance(r, change, at).relay;
            t == r.(reducer := change.reducer, lastObserved := Some(at), sequence := t.sequence)
  {
    EmittingKeepsRest(r.(reducer := change.reducer, lastObserved := Some(at)), change.records);
  }

  /** No operation of the run was refused an update it had to send. */
  ghost predicate NoneRefused(threadId: Text, staleAfterMs: int, ops: seq<Op>) {
    forall n :: 0 <= n < |ops| ==>
      AfterOp(StreamOf(threadId, staleAfterMs, ops[..n]).relay, ops[n]).outcome != EmissionRefused
  }

  /** An operation that is not refused either sends the state it leaves behind, or leaves the state alone. */
  lemma OpShowsState(r: Relay, op: Op)
    requires RelayOk(r) && AfterOp(r, op).outcome != EmissionRefused
    ensures var sent := AfterOp(r, op);
            var before, after := TaskOf(r.reducer, r.threadId).state, TaskOf(sent.relay.reducer, r.threadId).state;
            && (sent.payloads == [] ==> after == before)
            && (sent.payloads != [] ==>
                  after.Some? && |sent.payloads| == 1 && sent.payloads[0].shown == PresentationOf(after.value))
  {
    hide AfterOp, Single, S.Next, TaskOf, Concerned, GoesBack, PresentationOf, Validates;
    CallGood(r, op);
    OpRunsReducer(r, op);
    var before, after := TaskOf(r.reducer, r.threadId).state, TaskOf(AfterOp(r, op).relay.reducer, r.threadId).state;
    if after != before {
      if Emittable(r, op.at) { EveryChangeIsSent(r, op); } else { UnsendableIsRefused(r, op); }
    }
  }

  lemma UnsendableIsRefused(r: Relay, op: Op)
    requires RelayOk(r) && Concerned(r, op) && !GoesBack(r, op.at) && !Emittable(r, op.at)
    requires TaskOf(S.Next(r.reducer, r.staleAfterMs, EventOf(r, op)).reducer, r.threadId).state
             != TaskOf(r.reducer, r.threadId).state
    ensures AfterOp(r, op).outcome == EmissionRefused
  {
    hide Single, S.Ingest, S.Sweep, S.Lose, TaskOf, Emit, Project, Advance, HeartbeatRecord;
    CallGood(r, op);
    var e := EventOf(r, op);
    if op.Received? { ProjectionIsOwned(op.raw, r.threadId); }
    RecordsFollowChanges(r.reducer, r.staleAfterMs, e, r.threadId);
    ChangeIsOwn(r, e);
    var change := S.Next(r.reducer, r.staleAfterMs, e);
    AdvanceGood(r, change, op.at);
    AdvanceKeepsTime(r, change, op.at);
    AdvanceIsTheCall(r, op);
  }

  /** A call that is not refused for its time sends the reducer's records first. */
  lemma AdvanceIsTheCall(r: Relay, op: Op)
    requires Concerned(r, op) && !GoesBack(r, op.at)
    ensures var sent := Advance(r, S.Next(r.reducer, r.staleAfterMs, EventOf(r, op)), op.at);
            sent.outcome != Returned ==> AfterOp(r, op) == sent
  {
    hide Advance, S.Ingest, S.Sweep, S.Lose, HeartbeatRecord, Build;
  }

  predicate LastShows(payloads: seq<Payload>, state: State) {
    payloads != [] && payloads[|payloads| - 1].shown == PresentationOf(state)
  }

  /**
   In a run in which no update was refused, the last update always shows the task's state as its latest
   cause made it, and there is an update exactly if there has been a cause.
   */
  lemma {:induction false} LastUpdateShowsCause(threadId: Text, staleAfterMs: int, ops: seq<Op>)
    requires NoneRefused(threadId, staleAfterMs, ops)
    ensures var payloads := StreamOf(threadId, staleAfterMs, ops).payloads;
            var cause := LatestCause(staleAfterMs, EventsOf(threadId, staleAfterMs, ops), threadId);
            && (payloads == [] <==> cause == Cause.Nothing)
            && (payloads != [] ==> StateBy(cause).Some? && LastShows(payloads, StateBy(cause).value))
  {
    hide LatestCause, StateBy, PresentationOf;
    LastUpdateShowsState(threadId, staleAfterMs, ops);
    RelayRunsReducer(threadId, staleAfterMs, ops);
    StateIsItsCause(staleAfterMs, EventsOf(threadId, staleAfterMs, ops), threadId);
    CauseHasState(LatestCause(staleAfterMs, EventsOf(threadId, staleAfterMs, ops), threadId));
  }

  /** In the words the phone shows: what the last update of such a run says for each cause. */
  lemma LastUpdateSays(threadId: Text, staleAfterMs: int, ops: seq<Op>)
    requires NoneRefused(threadId, staleAfterMs, ops) && StreamOf(threadId, staleAfterMs, ops).payloads != []
    ensures var payloads := StreamOf(threadId, staleAfterMs, ops).payloads;
            var cause := LatestCause(staleAfterMs, EventsOf(threadId, staleAfterMs, ops), threadId);
            payloads[|payloads| - 1].shown
            == if cause == Finished(S.Completed) then Presentation("Ready", "Codex finished this task", false)
               else if cause.Finished? || cause.Broken? then
                 Presentation("Blocked", "Codex could not finish this task", false)
               else if cause.Flagged? && cause.onApproval then
                 Presentation("Needs approval", "Review this task in Codex on Mac", true)
               else if cause.Flagged? && cause.onInput then Presentation("Needs input", "Respond in Codex on Mac", true)
               else if cause.WentQuiet?
                   then Presentation("Status stale", "No recent App Server lifecycle signal", false)
               else if cause.CutOff? then Presentation("Disconnected", "The relay lost its App Server stream", false)
               else Presentation("Working", "Codex is working", false)
  {
    hide LatestCause, StreamOf, EventsOf;
    LastUpdateShowsCause(threadId, staleAfterMs, ops);
  }

  lemma CauseHasState(cause: Cause)
    ensures StateBy(cause).None? <==> cause == Cause.Nothing
  {
  }

  lemma {:induction false} LastUpdateShowsState(threadId: Text, staleAfterMs: int, ops: seq<Op>)
    requires NoneRefused(threadId, staleAfterMs, ops)
    ensures var stream := StreamOf(threadId, staleAfterMs, ops);
            var state := TaskOf(stream.relay.reducer, threadId).state;
            && (stream.payloads == [] <==> state.None?)
            && (stream.payloads != [] ==> state.Some? && LastShows(stream.payloads, state.value))
    decreases |ops|
  {
    hide AfterOp, TaskOf, PresentationOf, StreamOf, NoneRefused, RunOk, EventsOf, RunOf;
    StreamSteps(threadId, staleAfterMs, ops);
    if ops == [] {
      NoStateYet(threadId, staleAfterMs);
    } else {
      var n := |ops| - 1;
      var front, op := ops[..n], ops[n];
      LastUpdateShowsState(threadId, staleAfterMs, front);
      EveryStreamFits(threadId, staleAfterMs, front);
      RunIsRelayOk(StreamOf(threadId, staleAfterMs, front), threadId, staleAfterMs);
      RelayRunsReducer(threadId, staleAfterMs, front);
      RelayRunsReducer(threadId, staleAfterMs, ops);
      OpShowsState(StreamOf(threadId, staleAfterMs, front).relay, op);
    }
  }

  lemma StreamSteps(threadId: Text, staleAfterMs: int, ops: seq<Op>)
    requires NoneRefused(threadId, staleAfterMs, ops)
    ensures ops == [] ==> StreamOf(threadId, staleAfterMs, ops) == Stream(FreshRelay(threadId, staleAfterMs), [])
    ensures ops != [] ==>
              var n := |ops| - 1;
              var before := StreamOf(threadId, staleAfterMs, ops[..n]);
              var sent := AfterOp(before.relay, ops[n]);
              && NoneRefused(threadId, staleAfterMs, ops[..n]) && sent.outcome != EmissionRefused
              && StreamOf(threadId, staleAfterMs, ops) == Stream(sent.relay, before.payloads + sent.payloads)
  {
    hide AfterOp;
    if ops != [] {
      var n := |ops| - 1;
      assert forall m :: 0 <= m < n ==> ops[..n][..m] == ops[..m] && ops[..n][m] == ops[m];
    }
  }

  lemma NoStateYet(threadId: Text, staleAfterMs: int)
    ensures TaskOf(FreshRelay(threadId, staleAfterMs).reducer, threadId).state.None?
  {
  }

  /**
   An update sent for turn activity shows the owned task running that very turn: either it has just
   recovered from stale, or it is a heartbeat that left the state as it was.
   */
  lemma HeartbeatOnlyForRunningTurn(r: Relay, thread: Option<Text>, turn: Option<Text>, at: int)
    requires RelayOk(r) && Receive(r, RawActivity(thread, turn), at).payloads != []
    ensures thread == Some(r.threadId) && turn.Some?
    ensures var relay := Receive(r, RawActivity(thread, turn), at).relay;
            var before, after := TaskOf(r.reducer, r.threadId), TaskOf(relay.reducer, r.threadId);
            && after.state == Some(Running) && after.turnId == turn && turn.value !in before.tombstones
            && (before.state == Some(Running) || before.state == Some(Stale)) && before.turnId == turn
    ensures Receive(r, RawActivity(thread, turn), at).payloads == [NextPayload(r, Running, at)]
  {
    hide Single, TaskOk, Emit, EmitAll, TaskOf, S.Ingest, Advance, HeartbeatRecord;
    var m := Project(RawActivity(thread, turn), r.threadId).value;
    SingleIsOrdered(r.reducer, r.threadId);
    ActivityRefreshes(r.reducer, r.threadId, turn.value, at);
    IngestIsOwn(r.reducer, m, at, r.threadId);
    IngestShowsState(r.reducer, m, at, r.threadId);
    var change := S.Ingest(r.reducer, m, at);
    AdvanceGood(r, change, at);
    var sent := Advance(r, change, at);
    if sent.payloads == [] {
      HeartbeatIsRunning(sent.relay, turn, at);
      HeartbeatIsOwn(sent.relay, turn, at);
      EmitsExactly(sent.relay, HeartbeatRecord(sent.relay, turn, at).value, at);
      RunningTurnIsLive(TaskOf(r.reducer, r.threadId));
    }
  }

  /** What activity of a turn does to the owned task. */
  lemma ActivityRefreshes(r: Reducer, id: Text, turnId: Text, at: int)
    requires Single(r, id)
    ensures var before, c := TaskOf(r, id), S.Ingest(r, TurnActivity(Some(id), Some(turnId)), at);
            var after := TaskOf(c.reducer, id);
            && (c.records != [] ==>
                  before.state == Some(Stale) && after.state == Some(Running)
                  && before.turnId == Some(turnId) == after.turnId
                  && turnId !in before.tombstones)
            && (c.records == [] ==> after.state == before.state && after.turnId == before.turnId)
  {
  }

  lemma HeartbeatIsRunning(r: Relay, turn: Option<Text>, at: int)
    ensures HeartbeatRecord(r, turn, at).Some?
            <==> TaskOf(r.reducer, r.threadId).state == Some(Running) && TaskOf(r.reducer, r.threadId).turnId == turn
  {
  }

  lemma RunningTurnIsLive(t: Task)
    requires TaskOk(t) && t.state == Some(Running) && t.turnId.Some?
    ensures t.turnId.value !in t.tombstones
  {
  }

  // No change is lost.

  function EventOf(r: Relay, op: Op): Event
    requires Concerned(r, op)
  {
    match op
    case Received(raw, at) => Ingested(Project(raw, r.threadId).value, at)
    case SweptAt(at) => Swept(at)
    case DisconnectedAt(at) => S.Lost(at)
  }

  lemma RecordsFollowChanges(r: Reducer, staleAfter: int, e: Event, id: Text)
    requires Single(r, id) && (e.Ingested? ==> Projected(e.message, id))
    ensures var c := S.Next(r, staleAfter, e);
            TaskOf(c.reducer, id).state != TaskOf(r, id).state ==> c.records != []
  {
    hide StepFor, Apply, TaskOk, SweepTask, LoseTask, MessageCause, StateBy;
    SingleIsOrdered(r, id);
    EachTaskSteps(r, staleAfter, e, id);
    match e
    case Ingested(m, at) =>
      MessageState(TaskOf(r, id), m, at);
      EmittedIsRecorded(r, StepFor(TaskOf(r, id), m, at));
    case Swept(at) => TimerRecords(r, staleAfter, at, id);
    case Lost(at) => TimerRecords(r, staleAfter, at, id);
  }

  lemma EmittedIsRecorded(r: Reducer, step: Step)
    ensures step.emitted <==> Apply(r, step).records != []
  {
  }

  lemma TimerRecords(r: Reducer, staleAfter: int, at: int, id: Text)
    requires Single(r, id)
    ensures SweepTask(TaskOf(r, id), staleAfter, at).task.state != TaskOf(r, id).state
            ==> S.Sweep(r, staleAfter, at, r.order).records != []
    ensures LoseTask(TaskOf(r, id), at).task.state != TaskOf(r, id).state ==> S.Lose(r, at, r.order).records != []
  {
    if r.order == [id] { OneSwept(r, staleAfter, at, id); }
  }

  /** Whenever the owned task's state changes and an update can be built, exactly that state is sent. */
  lemma EveryChangeIsSent(r: Relay, op: Op)
    requires RelayOk(r) && !GoesBack(r, op.at) && Emittable(r, op.at)
    requires Concerned(r, op)
    requires TaskOf(AfterOp(r, op).relay.reducer, r.threadId).state != TaskOf(r.reducer, r.threadId).state
    ensures var state := TaskOf(AfterOp(r, op).relay.reducer, r.threadId).state;
            state.Some? && AfterOp(r, op).payloads == [NextPayload(r, state.value, op.at)]
  {
    hide Single, S.Ingest, S.Sweep, S.Lose, TaskOf, Emit, Project, Advance, HeartbeatRecord;
    CallGood(r, op);
    var e := EventOf(r, op);
    if op.Received? { ProjectionIsOwned(op.raw, r.threadId); }
    RecordsFollowChanges(r.reducer, r.staleAfterMs, e, r.threadId);
    var change := S.Next(r.reducer, r.staleAfterMs, e);
    ChangeIsOwn(r, e);
    AdvanceGood(r, change, op.at);
    if op.Received? { ReceiveKeepsReducer(r, op.raw, op.at); }
  }

  lemma ReceiveKeepsReducer(r: Relay, raw: Raw, at: int)
    requires Project(raw, r.threadId).Some? && !GoesBack(r, at)
    ensures var sent := Advance(r, S.Ingest(r.reducer, Project(raw, r.threadId).value, at), at);
            && Receive(r, raw, at).relay.reducer == sent.relay.reducer
            && (sent.payloads != [] ==> Receive(r, raw, at) == sent)
  {
    hide Advance, S.Ingest, HeartbeatRecord, Build;
  }

  lemma ChangeIsOwn(r: Relay, e: Event)
    requires RelayOk(r) && (e.Ingested? ==> Projected(e.message, r.threadId))
    ensures var c := S.Next(r.reducer, r.staleAfterMs, e);
            && OwnChange(c, r.threadId, e.at)
            && (c.records != [] ==> c.records[0].state == TaskOf(c.reducer, r.threadId).state)
  {
    hide Single, S.Ingest, S.Sweep, S.Lose, TaskOf;
    match e
    case Ingested(m, at) =>
      IngestIsOwn(r.reducer, m, at, r.threadId);
      IngestShowsState(r.reducer, m, at, r.threadId);
    case Swept(at) =>
      TimersAreOwn(r.reducer, r.staleAfterMs, at, r.threadId);
      TimersShowState(r.reducer, r.staleAfterMs, at, r.threadId);
    case Lost(at) =>
      TimersAreOwn(r.reducer, r.staleAfterMs, at, r.threadId);
      TimersShowState(r.reducer, r.staleAfterMs, at, r.threadId);
  }
}
