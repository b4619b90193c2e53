/**
 The status reducer: what each App Server message, stale sweep and disconnection does to the tasks it
 is about, and the records it emits. Identifiers and titles are already normalised (None when absent
 or unusable) and times are milliseconds.

 A task's step is a function of the task alone; the class keeps the tasks in a map with their
 insertion order, as the code does, and adds the aggregate to every record.
 */
module StatusReducer {
  import opened Collections
  import opened JsonGrammar
  import opened RemoteActionReceipt

  const MAX_TERMINAL_TURN_TOMBSTONES := 64

  datatype State = Running | WaitingForApproval | WaitingForInput | Ready | Blocked | Stale | Disconnected

  datatype TurnStatus = Completed | Failed | Interrupted

  datatype RequestKind = ApprovalRequest | InputRequest

  datatype PendingRequest = PendingRequest(kind: RequestKind, turnId: Option<Text>, observedAt: int)

  datatype Source =
    | FromServer(signal: Signal)
    | MatchingActivity
    | StaleTimeout
    | StreamClosed
    | FromStatus(signal: Signal, pendingRequestCount: nat)

  datatype Signal =
    | ThreadStartedSignal
    | ThreadNameSignal
    | TurnStartedSignal
    | TurnCompletedSignal
    | StatusSignal
    | ThreadClosedSignal

  datatype Task = Task(
    threadId: Text,
    turnId: Option<Text>,
    title: Option<Text>,
    state: Option<State>,
    stateSince: Option<int>,
    observedAt: Option<int>,
    lastSignal: Option<int>,
    source: Option<Source>,
    terminalStatus: Option<TurnStatus>,
    tombstones: seq<Text>,
    pending: map<Text, PendingRequest>)

  datatype ThreadStatus = Active(onApproval: bool, onInput: bool) | SystemError | NotLoaded | OtherStatus

  datatype Message =
    | RequestMade(kind: RequestKind, thread: Option<Text>, turn: Option<Text>, request: Option<Text>, blocking: bool)
    | TurnActivity(thread: Option<Text>, turn: Option<Text>)
    | ThreadStarted(thread: Option<Text>, title: Option<Text>, status: Option<ThreadStatus>)
    | ThreadRenamed(thread: Option<Text>, title: Option<Text>)
    | TurnStarted(thread: Option<Text>, turn: Option<Text>)
    | TurnCompleted(thread: Option<Text>, turn: Option<Text>, outcome: Option<TurnStatus>)
    | StatusChanged(thread: Option<Text>, status: Option<ThreadStatus>)
    | RequestResolved(thread: Option<Text>, request: Option<Text>)
    | ThreadClosed(thread: Option<Text>)
    | OtherMessage

  // One task.

  /** A task after a step, and whether the step emitted its record. */
  datatype Step = Step(task: Task, emitted: bool)

  function NewTask(threadId: Text): Task {
    Task(threadId, None, None, None, None, None, None, None, None, [], map[])
  }

  predicate NeedsAttention(state: State) { state.WaitingForApproval? || state.WaitingForInput? }

  predicate IsActive(state: Option<State>) {
    state == Some(Running) || state == Some(WaitingForApproval) || state == Some(WaitingForInput)
  }

  function Transition(t: Task, state: State, at: int, source: Source): Step {
    Step(t.(stateSince := if t.state != Some(state) || t.stateSince.None? then Some(at) else t.stateSince,
            state := Some(state), observedAt := Some(at), lastSignal := Some(at), source := Some(source)),
         true)
  }

  function Quiet(t: Task): Step { Step(t, false) }

  function Signalled(t: Task, at: int): Step { Quiet(t.(lastSignal := Some(at))) }

  function Disconnect(t: Task, at: int, signal: Signal): Step {
    if IsActive(t.state) || t.state == Some(Stale) then Transition(t, Disconnected, at, FromServer(signal))
    else Signalled(t, at)
  }

  /** The turn's identifier joins the most recent 64, the oldest leaves. */
  function Entombed(tombstones: seq<Text>, turnId: Text): seq<Text> {
    var longer := tombstones + [turnId];
    if |longer| > MAX_TERMINAL_TURN_TOMBSTONES then longer[1..] else longer
  }

  function FlaggedState(status: ThreadStatus): State
    requires status.Active?
  {
    if status.onApproval then WaitingForApproval else if status.onInput then WaitingForInput else Running
  }

  predicate Matches(p: PendingRequest, state: State, turnId: Option<Text>) {
    && (p.kind.ApprovalRequest? ==> state.WaitingForApproval?) && (p.kind.InputRequest? ==> state.WaitingForInput?)
    && (p.turnId.None? || turnId.None? || p.turnId == turnId)
  }

  function MatchingRequests(t: Task, state: State): nat {
    |(set id | id in t.pending && Matches(t.pending[id], state, t.turnId))|
  }

  function ApplyStatus(t: Task, status: ThreadStatus, at: int, signal: Signal): Step {
    match status
    case Active(_, _) =>
      var live := if t.terminalStatus.Some? then t.(turnId := None, terminalStatus := None) else t;
      Transition(live, FlaggedState(status), at, FromStatus(signal, MatchingRequests(live, FlaggedState(status))))
    case SystemError => Transition(t, Blocked, at, FromServer(signal))
    case NotLoaded => Disconnect(t, at, signal)
    case OtherStatus => Signalled(t, at)
  }

  function StartThread(t: Task, title: Option<Text>, status: Option<ThreadStatus>, at: int): Step {
    var named := t.(title := title, lastSignal := Some(at));
    if status.Some? && (status.value.Active? || status.value.SystemError?)
    then ApplyStatus(named, status.value, at, ThreadStartedSignal)
    else Quiet(named)
  }

  function RenameThread(t: Task, title: Option<Text>, at: int): Step {
    var named := t.(title := title, lastSignal := Some(at));
    if t.state.None? then Quiet(named) else Transition(named, t.state.value, at, FromServer(ThreadNameSignal))
  }

  function StartTurn(t: Task, turnId: Text, at: int): Step {
    if turnId in t.tombstones then Quiet(t)
    else Transition(t.(turnId := Some(turnId), terminalStatus := None), Running, at, FromServer(TurnStartedSignal))
  }

  predicate Completes(t: Task, turnId: Text, outcome: Option<TurnStatus>) {
    turnId !in t.tombstones && (t.turnId.None? || t.turnId == Some(turnId)) && outcome.Some?
  }

  function CompleteTurn(t: Task, turnId: Text, outcome: Option<TurnStatus>, at: int): Step {
    if !Completes(t, turnId, outcome) then Quiet(t)
    else
      Transition(
        t.(turnId := Some(turnId), terminalStatus := outcome, tombstones := Entombed(t.tombstones, turnId),
           pending := map[]),
        if outcome.value.Completed? then Ready else Blocked, at, FromServer(TurnCompletedSignal))
  }

  function MakeRequest(t: Task, kind: RequestKind, turnId: Option<Text>, request: Option<Text>, at: int): Step {
    if (turnId.Some? && turnId.value in t.tombstones) || request.None? then Quiet(t)
    else Signalled(t.(pending := t.pending[request.value := PendingRequest(kind, turnId, at)]), at)
  }

  function ResolveRequest(t: Task, request: Option<Text>): Step {
    Quiet(if request.None? then t else t.(pending := t.pending - {request.value}))
  }

  function Refresh(t: Task, turnId: Text, at: int): Step {
    if !(t.state == Some(Running) || t.state == Some(Stale)) then Quiet(t)
    else if turnId in t.tombstones || t.turnId != Some(turnId) then Quiet(t)
    else if t.state == Some(Stale) then Transition(t, Running, at, MatchingActivity)
    else Signalled(t, if t.lastSignal.Some? && t.lastSignal.value > at then t.lastSignal.value else at)
  }

  predicate GoesStale(t: Task, staleAfter: int, at: int) {
    t.state == Some(Running) && at - (if t.lastSignal.Some? then t.lastSignal.value else 0) >= staleAfter
  }

  function SweepTask(t: Task, staleAfter: int, at: int): Step {
    if GoesStale(t, staleAfter, at) then Transition(t, Stale, at, StaleTimeout) else Quiet(t)
  }

  function LoseTask(t: Task, at: int): Step {
    if IsActive(t.state) || t.state == Some(Stale) then Transition(t, Disconnected, at, StreamClosed) else Quiet(t)
  }

  // All tasks.

  datatype Reducer = Reducer(tasks: map<Text, Task>, order: seq<Text>)

  const EMPTY_REDUCER := Reducer(map[], [])

  function TaskOf(r: Reducer, threadId: Text): Task {
    if threadId in r.tasks then r.tasks[threadId] else NewTask(threadId)
  }

  function Put(r: Reducer, t: Task): Reducer {
    Reducer(r.tasks[t.threadId := t], if t.threadId in r.tasks then r.order else r.order + [t.threadId])
  }

  /** The first task, in insertion order, whose current turn this is. */
  function ThreadForTurn(r: Reducer, turnId: Text, among: seq<Text>): Option<Text> {
    if among == [] then None
    else if among[0] in r.tasks && r.tasks[among[0]].turnId == Some(turnId) then Some(among[0])
    else ThreadForTurn(r, turnId, among[1..])
  }

  /** The thread a message is about; only a completion may leave it to be found by its turn. */
  function ThreadOf(r: Reducer, m: Message): Option<Text> {
    if m.OtherMessage? then None
    else if m.TurnCompleted? && m.thread.None? && m.turn.Some? then ThreadForTurn(r, m.turn.value, r.order)
    else m.thread
  }

  /** Whether the message gets as far as its task, creating it if need be. */
  predicate Reaches(r: Reducer, m: Message) {
    && ThreadOf(r, m).Some?
    && match m
       case RequestMade(kind, _, _, _, blocking) => !(kind.InputRequest? && !blocking)
       case TurnActivity(_, turn) => turn.Some? && ThreadOf(r, m).value in r.tasks
       case TurnStarted(_, turn) => turn.Some?
       case TurnCompleted(_, turn, _) => turn.Some?
       case StatusChanged(_, status) => status.Some?
       case RequestResolved(_, _) => ThreadOf(r, m).value in r.tasks
       case _ => true
  }

  /** What the message does to the task it reaches. */
  function StepFor(t: Task, m: Message, at: int): Step
  {
    match m
    case RequestMade(kind, _, turn, request, _) => MakeRequest(t, kind, turn, request, at)
    case TurnActivity(_, turn) => if turn.None? then Quiet(t) else Refresh(t, turn.value, at)
    case ThreadStarted(_, title, status) => StartThread(t, title, status, at)
    case ThreadRenamed(_, title) => RenameThread(t, title, at)
    case TurnStarted(_, turn) => if turn.None? then Quiet(t) else StartTurn(t, turn.value, at)
    case TurnCompleted(_, turn, outcome) => if turn.None? then Quiet(t) else CompleteTurn(t, turn.value, outcome, at)
    case StatusChanged(_, status) => if status.None? then Quiet(t) else ApplyStatus(t, status.value, at, StatusSignal)
    case RequestResolved(_, request) => ResolveRequest(t, request)
    case ThreadClosed(_) => Disconnect(t, at, ThreadClosedSignal)
    case OtherMessage => Quiet(t)
  }

  // Records and aggregates.

  datatype Aggregate = Aggregate(total: nat, attention: nat, priority: Option<State>, counts: map<State, nat>)

  datatype Record = Record(
    threadId: Text, turnId: Option<Text>, observedAt: Option<int>, stateSince: Option<int>, state: Option<State>,
    attentionRequired: bool, title: Option<Text>, source: Option<Source>, aggregate: Aggregate)

  const STATES := [Running, WaitingForApproval, WaitingForInput, Ready, Blocked, Stale, Disconnected]

  lemma EveryStateListed(s: State)
    ensures s in STATES
  {
    assert STATES[0] == Running && STATES[1] == WaitingForApproval && STATES[2] == WaitingForInput;
    assert STATES[3] == Ready && STATES[4] == Blocked && STATES[5] == Stale && STATES[6] == Disconnected;
  }

  const PRIORITY := [WaitingForApproval, WaitingForInput, Blocked, Ready, Running, Stale, Disconnected]

  /** The states the tasks are in, those not yet known left out. */
  function StatesOf(r: Reducer, among: seq<Text>): seq<State> {
    if among == [] then []
    else
      StatesOf(r, among[..|among| - 1])
      + (var id := among[|among| - 1];
         if id in r.tasks && r.tasks[id].state.Some? then [r.tasks[id].state.value] else [])
  }

  function FirstWith(states: multiset<State>, among: seq<State>): (s: Option<State>)
    ensures s.None? ==> forall x :: x in among ==> states[x] == 0
    ensures s.Some? ==> s.value in among && states[s.value] > 0
  {
    if among == [] then None
    else if states[among[0]] > 0 then Some(among[0])
    else FirstWith(states, among[1..])
  }

  /** The aggregate as a statement about the multiset of states. */
  function AggregateOf(states: multiset<State>): Aggregate {
    Aggregate(|states|, states[WaitingForApproval] + states[WaitingForInput], FirstWith(states, PRIORITY),
              CountsOf(states))
  }

  function CountsOf(states: multiset<State>): map<State, nat> { map s | s in STATES :: states[s] }

  function RecordOf(r: Reducer, t: Task): Record {
    Record(t.threadId, t.turnId, t.observedAt, t.stateSince, t.state, t.state.Some? && NeedsAttention(t.state.value),
           t.title, t.source, AggregateOf(multiset(StatesOf(r, r.order))))
  }

  // Steps of the reducer.

  datatype Change = Change(reducer: Reducer, records: seq<Record>)

  function Apply(r: Reducer, step: Step): Change {
    var r' := Put(r, step.task);
    Change(r', if step.emitted then [RecordOf(r', step.task)] else [])
  }

  function Ingest(r: Reducer, m: Message, at: int): Change {
    if !Reaches(r, m) then Change(r, [])
    else Apply(r, StepFor(TaskOf(r, ThreadOf(r, m).value), m, at))
  }

  /** Every task in turn, each record taken after its own transition. */
  function Sweep(r: Reducer, staleAfter: int, at: int, among: seq<Text>): Change {
    if among == [] then Change(r, [])
    else
      var before := Sweep(r, staleAfter, at, among[..|among| - 1]);
      var c := Apply(before.reducer, SweepTask(TaskOf(before.reducer, among[|among| - 1]), staleAfter, at));
      Change(c.reducer, before.records + c.records)
  }

  function Lose(r: Reducer, at: int, among: seq<Text>): Change {
    if among == [] then Change(r, [])
    else
      var before := Lose(r, at, among[..|among| - 1]);
      var c := Apply(before.reducer, LoseTask(TaskOf(before.reducer, among[|among| - 1]), at));
      Change(c.reducer, before.records + c.records)
  }

  datatype Event = Ingested(message: Message, at: int) | Swept(at: int) | Lost(at: int)

  function Next(r: Reducer, staleAfter: int, e: Event): Change {
    match e
    case Ingested(message, at) => Ingest(r, message, at)
    case Swept(at) => Sweep(r, staleAfter, at, r.order)
    case Lost(at) => Lose(r, at, r.order)
  }

  function RunOf(staleAfter: int, events: seq<Event>): Reducer
    decreases |events|
  {
    if events == [] then EMPTY_REDUCER
    else Next(RunOf(staleAfter, events[..|events| - 1]), staleAfter, events[|events| - 1]).reducer
  }
}
