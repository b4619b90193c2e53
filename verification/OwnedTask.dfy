/**
 The controller of one owned App Server task, as a machine over the events it reacts to: lines from
 the App Server, authenticated dispatches, timers, promise continuations and the child's end.

 A continuation runs as a job. Lines may be handled while jobs are queued (several lines can arrive
 in one chunk); a timer, a dispatch or the child's end starts only when the queue is empty. The
 `trace` and the `marks` into it are history: the code keeps neither.
 */
module OwnedTask {
  import opened Collections
  import opened JsonGrammar
  import opened RemoteActionReceipt
  import opened RemoteActionReceiptJson
  import opened RelayTurnAction
  import FileReplayStore

  const MAX_EARLY_TERMINALS := 8

  const LOCAL_PROOF_ACTION_ID := Units("local-long-task-stop")

  datatype Mode = NoProof | Loopback | LocalLongTask | ExternalStop

  /** Both proofs that interrupt a command the model itself started. */
  predicate NeedsCommand(m: Mode) { m.LocalLongTask? || m.ExternalStop? }

  datatype Phase = Initializing | StartingThread | CheckingTools | StartingTurn | Running

  datatype Status = TurnCompleted | TurnFailed | Interrupted

  datatype Terminal = Terminal(turnId: Text, status: Status)

  /** A model-owned command start; every other field of an eligible one is fixed. */
  datatype Command = Command(turnId: Text, itemId: Text, source: Text)

  datatype Outcome = Success(status: Status) | Failure

  datatype TimerKind = ProofTimeout | Observation | Confirmation

  // What the App Server sends.

  datatype MessageId = NumericId(n: int) | TextId(text: Text) | OtherId

  /** A response; `keys` counts its top-level members, identifiers are None unless strings. */
  datatype ServerAnswer = ServerAnswer(
    id: MessageId, error: Option<ErrorField>, result: Option<ResultField>, keys: nat,
    threadId: Option<Text>, toolsIsolated: bool, turnId: Option<Text>)

  /** `command` is Some when the started item has the shape of a model-owned command. */
  datatype Notification =
    | McpStartup
    | ThreadStarted(thread: Option<Text>)
    | TurnStarted(threadId: Text, turnId: Option<Text>, inProgress: bool)
    | ItemStarted(threadId: Text, command: Option<Command>)
    | ItemCompleted(threadId: Text, ended: Option<Text>, itemId: Option<Text>)
    | TurnEnded(threadId: Text, turnId: Option<Text>, status: Option<Status>)
    | ThreadClosed(threadId: Text)
    | OtherNotification

  datatype Line =
    | AnswerLine(answer: ServerAnswer)
    | RequestLine
    | NotificationLine(notification: Notification)
    | MalformedLine

  // What happens to the controller.

  /** What the surroundings do: the relay accepts a message, a context can be issued (and reissued),
   a status line and a request can be written, an action and a turn identifier are well formed. */
  datatype Env = Env(
    ingests: bool, activates: bool, reactivates: bool, writesStatus: bool, writesRequest: bool,
    wellFormed: bool, turnWellFormed: bool)

  datatype Event =
    | LineRead(line: Line, env: Env)
    | RunJob
    | Admit(action: FileReplayStore.Action)
    | Dispatch(action: FileReplayStore.Action, env: Env)
    | ActivationTimer
    | ProofTimer(env: Env)
    | ResponseLost(id: Text)
    | ProofClientDone(ok: bool)
    | Fault
    | Close(code: int, disconnects: bool)

  /** A queued continuation: of a dispatch whose request settled, and of a proof's own dispatch. */
  datatype Job =
    | Settle(action: PrivateAction, delivery: Delivery)
    | ProofSettled(actionId: Text, settlement: Settlement)

  datatype Note =
    | Heard(line: Line)
    | TurnStartSent
    | ContextWritten(turnId: Text)
    | Dispatched
    | Wrote(request: Request)
    | ChildClosed(code: int)

  datatype Marks = Marks(
    answered: int, began: int, command: int, context: int, dispatch: int, wrote: int, response: int, ended: int)

  datatype Task = Task(
    mode: Mode,
    phase: Phase,
    thread: Option<Text>,
    expected: Option<Text>,
    observed: Option<Text>,
    terminals: seq<Terminal>,
    terminal: Option<Status>,
    outcome: Option<Outcome>,
    boundary: Option<Boundary>,
    started: bool,
    accepted: bool,
    confirmed: bool,
    activationArmed: bool,
    timer: Option<TimerKind>,
    responseSeen: bool,
    tracked: Option<Command>,
    early: Option<Command>,
    stopDispatched: bool,
    pending: seq<PrivateAction>,
    jobs: seq<Job>,
    contextLive: bool,
    admitted: Option<FileReplayStore.Action>,
    trace: seq<Note>,
    marks: Marks)

  function Fresh(mode: Mode): Task {
    Task(mode, Initializing, None, None, None, [], None, None, None, false, false, false, false, None,
         false, None, None, false, [], [], false, None, [], Marks(0, 0, 0, 0, 0, 0, 0, 0))
  }

  predicate Settled(s: Task) { s.outcome.Some? }

  /** The turn both the response and the notification named. */
  predicate TurnsAgree(s: Task) { s.expected.Some? && s.expected == s.observed }

  // Ending.

  /** Revoke the context and let the boundary forget a pending Stop. */
  function Revoke(s: Task): Task {
    s.(contextLive := false,
       boundary := if s.boundary.Some? then Some(s.boundary.value.(stopPending := false)) else None)
  }

  lemma RevokeKeepsMode(s: Task)
    ensures Revoke(s).mode == s.mode && Revoke(s).started == s.started
  {
  }

  /** Every outstanding request is rejected, in the order they were made. */
  function LostJobs(pending: seq<PrivateAction>): seq<Job> {
    seq(|pending|, i requires 0 <= i < |pending| => Settle(pending[i], SendFailed))
  }

  /** Stop everything once, with an outcome. */
  function End(s: Task, outcome: Outcome): Task {
    Revoke(s).(outcome := Some(outcome), activationArmed := false, timer := None,
               jobs := s.jobs + LostJobs(s.pending), pending := [])
  }

  function Fail(s: Task): Task { if Settled(s) then s else End(s, Failure) }

  function Closed(s: Task, code: int, disconnects: bool): Task {
    if Settled(s) then s
    else
      var clean := s.thread.None? || s.terminal.Some? || disconnects;
      var proven := s.mode.NoProof? || s.confirmed;
      End(s.(trace := s.trace + [ChildClosed(code)]),
          if clean && code == 0 && s.terminal.Some? && proven then Success(s.terminal.value) else Failure)
  }

  // Requests to the App Server.

  function IndexOf(pending: seq<PrivateAction>, id: Text): (r: Option<nat>)
    ensures r.Some? ==> r.value < |pending| && pending[r.value].actionId == id
    ensures r.None? ==> forall a :: a in pending ==> a.actionId != id
  {
    if pending == [] then None
    else if pending[0].actionId == id then Some(0)
    else
      var rest := IndexOf(pending[1..], id);
      assert pending == [pending[0]] + pending[1..];
      if rest.None? then None else Some(rest.value + 1)
  }

  function Without(pending: seq<PrivateAction>, n: nat): seq<PrivateAction>
    requires n < |pending|
  {
    pending[..n] + pending[n + 1..]
  }

  function SendRequest(s: Task, a: PrivateAction, request: Request, writable: bool): Task {
    if Settled(s) || !s.phase.Running? || s.terminal.Some? || IndexOf(s.pending, request.id).Some? || !writable then
      s.(jobs := s.jobs + [Settle(a, SendFailed)])
    else
      s.(pending := s.pending + [a], marks := s.marks.(wrote := |s.trace|), trace := s.trace + [Wrote(request)])
  }

  function TurnNow(s: Task, env: Env): ActiveTurn {
    if s.terminal.Some? || s.expected != s.observed || s.expected.None? then NoTurn
    else if !env.turnWellFormed then MalformedTurn
    else Turn(s.expected.value)
  }

  function BeginDispatch(s: Task, a: PrivateAction, env: Env): Task
    requires s.boundary.Some?
  {
    var begin := AfterBegin(s.boundary.value, if env.wellFormed then Some(a) else None, TurnNow(s, env));
    FollowUp(s.(boundary := Some(begin.0)), a.actionId, begin.1, env.writesRequest)
  }

  /** What a dispatch does next: queue its refusal, or send its request. */
  function FollowUp(s: Task, actionId: Text, begun: Begun, writable: bool): Task {
    match begun
    case Resolved(settlement) =>
      if NeedsCommand(s.mode) then s.(jobs := s.jobs + [ProofSettled(actionId, settlement)]) else s
    case Sent(action, request) => SendRequest(s, action, request, writable)
  }

  /** A proof's own Stop: from now on the tracked command may end. The first one is marked. */
  function BeginProofDispatch(s: Task, a: PrivateAction, env: Env): Task
    requires s.boundary.Some?
  {
    BeginDispatch(MarkDispatch(s), a, env)
  }

  function MarkDispatch(s: Task): Task {
    s.(stopDispatched := true, trace := s.trace + [Dispatched],
       marks := if s.stopDispatched then s.marks else s.marks.(dispatch := |s.trace|))
  }

  // The proof.

  function MaybeConfirm(s: Task): Task {
    if s.mode.NoProof? || s.confirmed || Settled(s) then s
    else if s.terminal.Some? && s.terminal.value != Interrupted then Fail(s)
    else if !s.accepted || s.terminal.None? then s
    else s.(timer := None, confirmed := true)
  }

  function Accept(s: Task): Task {
    MaybeConfirm(s.(accepted := true, timer := if s.terminal.None? then Some(Confirmation) else s.timer))
  }

  function ArmActivation(s: Task): Task {
    if s.mode.NoProof? || s.started then s else s.(activationArmed := true)
  }

  /** The thread is claimed long before any proof begins. */
  function NewBoundary(s: Task): Boundary {
    Boundary(if s.thread.Some? then s.thread.value else [], false, false, [])
  }

  /** Both turn identifiers agree, and the command is known where one is needed. */
  predicate ReadyToBegin(s: Task) {
    && !s.mode.NoProof? && !s.mode.LocalLongTask? && !s.started && s.phase.Running? && TurnsAgree(s)
    && (s.mode.ExternalStop? ==> s.tracked.Some?)
  }

  function BeginProof(s: Task, activates: bool, env: Env): Task {
    if ReadyToBegin(s) then Activate(s, activates, env) else s
  }

  /** Activate the control context, and show it where the proof is external. */
  function Activate(s: Task, activates: bool, env: Env): Task
    requires s.expected.Some?
  {
    var ready := s.(activationArmed := false, boundary := Some(NewBoundary(s)));
    if !activates then Fail(ready)
    else if s.mode.Loopback? then ready.(started := true, contextLive := true)
    else
      var shown := ready.(started := true, contextLive := true, marks := s.marks.(context := |s.trace|),
                          trace := s.trace + [ContextWritten(s.expected.value)]);
      if env.writesStatus then shown.(timer := Some(ProofTimeout)) else Fail(shown)
  }

  /** Start from a command that belongs to the correlated turn; anything else leaves the state alone. */
  function StartFromCommand(s: Task, c: Command, env: Env): Task {
    if !NeedsCommand(s.mode) || s.started || s.tracked.Some? || !s.phase.Running? || s.terminal.Some?
       || !TurnsAgree(s) || Some(c.turnId) != s.expected
    then s
    else
      var found := s.(tracked := Some(c));
      if s.mode.ExternalStop? then BeginProof(found, env.activates, env)
      else found.(activationArmed := false, started := true, boundary := Some(NewBoundary(s)),
                  timer := Some(Observation))
  }

  function NoteEarly(s: Task, c: Command): Task {
    s.(early := Some(c), marks := s.marks.(command := |s.trace| - 1))
  }

  function CommandStarted(s: Task, c: Command, env: Env): Task {
    if !NeedsCommand(s.mode) then s
    else if s.tracked.Some? then
      if s.tracked == Some(c) || s.stopDispatched then s else Fail(s)
    else if s.phase.Running? && s.expected.Some? && s.observed.Some? then
      if Some(c.turnId) != s.expected || s.observed != s.expected then Fail(s)
      else StartFromCommand(s.(marks := s.marks.(command := |s.trace| - 1)), c, env)
    else if s.terminal.Some? || !(s.phase.StartingTurn? || s.phase.Running?) then s
    else if s.early.None? then NoteEarly(s, c)
    else if s.early == Some(c) then s
    else Fail(s)
  }

  // Turn correlation and the end of the turn.

  function FinishTerminal(s: Task, status: Status): Task {
    if s.terminal.Some? then s
    else if NeedsCommand(s.mode) && status == Interrupted && !s.responseSeen then Fail(s)
    else
      var ended := Revoke(s.(terminal := Some(status), marks := s.marks.(ended := |s.trace| - 1)));
      if s.mode.NoProof? then ended
      else if !s.started then Fail(ended)
      else MaybeConfirm(ended)
  }

  function AcceptTerminal(s: Task, status: Status, env: Env): Task {
    if env.ingests then FinishTerminal(s, status) else Fail(s)
  }

  function TerminalFor(terminals: seq<Terminal>, turnId: Text): (r: Option<Terminal>)
    ensures r.Some? ==> r.value in terminals && r.value.turnId == turnId
    ensures r.None? ==> forall t :: t in terminals ==> t.turnId != turnId
  {
    if terminals == [] then None
    else if terminals[0].turnId == turnId then Some(terminals[0])
    else TerminalFor(terminals[1..], turnId)
  }

  function Reconcile(s: Task, env: Env): Task {
    if s.expected.Some? && s.observed.Some? && s.observed != s.expected then Fail(s)
    else if s.expected.None? then s
    else Drain(s, s.expected.value, env)
  }

  /** The turn is known: take up what arrived early, its end first. */
  function Drain(s: Task, turnId: Text, env: Env): Task {
    var terminal, drained := TerminalFor(s.terminals, turnId), s.(terminals := []);
    if terminal.Some? then AcceptTerminal(drained, terminal.value.status, env)
    else if NeedsCommand(s.mode) && s.early.Some? && s.observed.Some? then TakeEarly(drained, s.early.value, env)
    else AfterReconcile(drained, env)
  }

  function TakeEarly(s: Task, c: Command, env: Env): Task {
    var taken := s.(early := None);
    if Some(c.turnId) != s.expected || s.observed != s.expected then Fail(taken)
    else AfterReconcile(StartFromCommand(taken, c, env), env)
  }

  /** The last two calls of a reconciliation; they run even when the proof has just failed. */
  function AfterReconcile(s: Task, env: Env): Task {
    BeginProof(ArmActivation(s), if Settled(s) then env.reactivates else env.activates, env)
  }

  // Responses.

  function ToBoundary(a: ServerAnswer, id: Text): Response { Response(id, a.error, a.result) }

  /** Exactly an identifier and an empty result object. */
  predicate ExactEmpty(a: ServerAnswer) { a.error.None? && a.result == Some(EmptyObject) && a.keys == 2 }

  function ClaimThread(s: Task, thread: Option<Text>): Task {
    if thread.None? || thread.value == [] then Fail(s)
    else if s.thread.Some? && s.thread != thread then Fail(s)
    else s.(thread := thread)
  }

  function HandleActionAnswer(s: Task, a: ServerAnswer, n: nat): Task
    requires n < |s.pending|
  {
    var action := s.pending[n];
    if NeedsCommand(s.mode) && (!action.kind.Stop? || !ExactEmpty(a)) then Fail(s)
    else
      var seen := if NeedsCommand(s.mode)
                  then s.(responseSeen := true, marks := s.marks.(response := |s.trace| - 1)) else s;
      seen.(pending := Without(s.pending, n),
            jobs := s.jobs + [Settle(action, Delivered(ToBoundary(a, action.actionId)))])
  }

  function LearnTurn(s: Task, turnId: Text): Task {
    s.(expected := Some(turnId), phase := Running, marks := s.marks.(answered := |s.trace| - 1))
  }

  function HandleAnswer(s: Task, a: ServerAnswer, env: Env): Task {
    var waiting := if a.id.TextId? then IndexOf(s.pending, a.id.text) else None;
    if waiting.Some? then HandleActionAnswer(s, a, waiting.value)
    else if a.error.Some? then Fail(s)
    else PhaseAnswer(s, a, env)
  }

  /** A response to the relay's own requests, each in its phase. */
  function PhaseAnswer(s: Task, a: ServerAnswer, env: Env): Task {
    if a.id == NumericId(0) && s.phase.Initializing? then s.(phase := StartingThread)
    else if a.id == NumericId(1) && s.phase.StartingThread? then
      var claimed := ClaimThread(s, a.threadId);
      if Settled(claimed) then claimed else claimed.(phase := CheckingTools)
    else if a.id == NumericId(2) && s.phase.CheckingTools? then
      if !a.toolsIsolated then Fail(s)
      else
        ArmActivation(s.(phase := StartingTurn, trace := s.trace + [TurnStartSent]))
    else if a.id == NumericId(3) && s.phase.StartingTurn? && s.thread.Some? then
      if a.turnId.None? then Fail(s) else Reconcile(LearnTurn(s, a.turnId.value), env)
    else Fail(s)
  }

  // Notifications.

  function Ingest(s: Task, env: Env): Task { if env.ingests then s else Fail(s) }

  function HandleTurnStarted(s: Task, turnId: Option<Text>, inProgress: bool, env: Env): Task {
    if turnId.None? || !inProgress then Fail(s)
    else if s.observed.Some? && s.observed != turnId then Fail(s)
    else
      Ingest(Reconcile(SeeTurn(s, turnId.value), env), env)
  }

  function SeeTurn(s: Task, turnId: Text): Task {
    s.(observed := Some(turnId),
       marks := if s.observed.None? then s.marks.(began := |s.trace| - 1) else s.marks)
  }

  /** The command whose end, before a dispatch, ends the proof. */
  function WatchedCommand(s: Task): Option<Command> {
    if !NeedsCommand(s.mode) || s.stopDispatched then None
    else if s.started then s.tracked
    else s.early
  }

  function HandleItemCompleted(s: Task, threadId: Text, turnId: Option<Text>, itemId: Option<Text>, env: Env): Task {
    var watched := WatchedCommand(s);
    if watched.Some? && Some(threadId) == s.thread && turnId == Some(watched.value.turnId)
       && itemId == Some(watched.value.itemId)
    then Fail(s)
    else Ingest(s, env)
  }

  function HandleTurnEnded(s: Task, turnId: Option<Text>, status: Option<Status>, env: Env): Task {
    if turnId.None? || status.None? then Fail(s)
    else if s.expected.None? then
      if |s.terminals| >= MAX_EARLY_TERMINALS then Fail(s)
      else s.(terminals := s.terminals + [Terminal(turnId.value, status.value)])
    else if turnId == s.expected then AcceptTerminal(s, status.value, env)
    else s
  }

  function HandleNotification(s: Task, n: Notification, env: Env): Task {
    if n.McpStartup? then Fail(s)
    else
      var claimed := if n.ThreadStarted? && s.phase.StartingThread? then ClaimThread(s, n.thread) else s;
      if Settled(claimed) || claimed.thread.None? then claimed
      else
        match n
        case TurnStarted(threadId, turnId, inProgress) =>
          if Some(threadId) == claimed.thread then HandleTurnStarted(claimed, turnId, inProgress, env)
          else Ingest(claimed, env)
        case ItemStarted(threadId, command) =>
          if Some(threadId) == claimed.thread && command.Some?
          then Ingest(CommandStarted(claimed, command.value, env), env)
          else Ingest(claimed, env)
        case ItemCompleted(threadId, turnId, itemId) => HandleItemCompleted(claimed, threadId, turnId, itemId, env)
        case TurnEnded(threadId, turnId, status) =>
          if Some(threadId) == claimed.thread then HandleTurnEnded(claimed, turnId, status, env)
          else Ingest(claimed, env)
        case ThreadClosed(threadId) => if Some(threadId) == claimed.thread then Fail(claimed) else Ingest(claimed, env)
        case _ => Ingest(claimed, env)
  }

  function HandleLine(s: Task, line: Line, env: Env): Task {
    if Settled(s) then s
    else
      var heard := s.(trace := s.trace + [Heard(line)]);
      match line
      case AnswerLine(answer) => HandleAnswer(heard, answer, env)
      case RequestLine => if s.terminal.Some? then heard else Fail(heard)
      case NotificationLine(n) => if s.terminal.Some? then heard else HandleNotification(heard, n, env)
      case MalformedLine => Fail(heard)
  }

  // Dispatches, continuations, timers.

  /** The latch on remote actions: the first must be a Stop, every later one exactly the same. */
  function AdmitAction(s: Task, action: FileReplayStore.Action): Task {
    if !s.mode.ExternalStop? || s.admitted == Some(action) then s
    else if s.admitted.None? && action.kind.Stop? then s.(admitted := Some(action))
    else Fail(s)
  }

  /** A remote action reaches the dispatch handle of the live context, bound to its thread and turn. */
  function DispatchAction(s: Task, action: FileReplayStore.Action, env: Env): Task {
    if !s.contextLive || s.thread.None? || s.expected.None? || s.boundary.None? then s
    else DispatchBound(s, action, Bind(action, s.thread.value, s.expected.value), env)
  }

  function Bind(action: FileReplayStore.Action, thread: Text, turn: Text): PrivateAction {
    PrivateAction(action.actionId, action.kind, thread, turn, if action.kind.Reply? then action.text else [])
  }

  function DispatchBound(s: Task, action: FileReplayStore.Action, private: PrivateAction, env: Env): Task
    requires s.boundary.Some?
  {
    if !s.mode.ExternalStop? then BeginDispatch(s, private, env)
    else if s.admitted != Some(action) then s
    else BeginProofDispatch(s.(timer := None), private, env)
  }

  /** What a proof makes of its dispatch: only the accepted interrupt of its own Stop goes on. */
  function ProofContinues(s: Task, actionId: Text, settlement: Settlement): Task {
    if settlement == AcceptedBy(Correlation(actionId, Stop), TurnInterrupt) then Accept(s) else Fail(s)
  }

  function RunHead(s: Task): Task {
    if s.jobs == [] then s
    else
      var s' := s.(jobs := s.jobs[1..]);
      match s.jobs[0]
      case Settle(action, delivery) =>
        if s.boundary.None? then s'
        else
          s'.(boundary := Some(AfterSettle(s.boundary.value, action, delivery)),
              jobs := if NeedsCommand(s.mode)
                      then s'.jobs + [ProofSettled(action.actionId, SettlementOf(action, delivery))] else s'.jobs)
      case ProofSettled(actionId, settlement) => ProofContinues(s', actionId, settlement)
  }

  /** The long-task window ends: say so and interrupt; the other proof timers are failures. */
  function ProofTimerFires(s: Task, env: Env): Task {
    if s.timer.None? then s
    else if s.timer.value.Observation? then
      var s' := s.(timer := None);
      if Settled(s) || s.terminal.Some? then s'
      else if !env.writesStatus then Fail(s')
      else if s.thread.None? || s.expected.None? || s.boundary.None? then s'
      else BeginProofDispatch(s', PrivateAction(LOCAL_PROOF_ACTION_ID, Stop, s.thread.value, s.expected.value, []), env)
    else Fail(s.(timer := None))
  }

  function LoseResponse(s: Task, id: Text): Task {
    var n := IndexOf(s.pending, id);
    if n.None? then s
    else s.(pending := Without(s.pending, n.value), jobs := s.jobs + [Settle(s.pending[n.value], SendFailed)])
  }

  function ProofClientEnds(s: Task, ok: bool): Task {
    if !s.mode.Loopback? || !s.started || Settled(s) then s else if ok then Accept(s) else Fail(s)
  }

  // What a dispatch changes, whatever comes of it.

  lemma SendRequestChanges(s: Task, a: PrivateAction, request: Request, writable: bool)
    ensures var t := SendRequest(s, a, request, writable);
            && t == s.(jobs := t.jobs, pending := t.pending, marks := t.marks, trace := t.trace)
            && (Settled(s) ==> t.trace == s.trace)
  {
    hide IndexOf;
  }

  lemma FollowUpChanges(s: Task, actionId: Text, begun: Begun, writable: bool)
    ensures var t := FollowUp(s, actionId, begun, writable);
            && t == s.(jobs := t.jobs, pending := t.pending, marks := t.marks, trace := t.trace)
            && (Settled(s) ==> t.trace == s.trace)
  {
    hide SendRequest;
    if begun.Sent? { SendRequestChanges(s, begun.action, begun.request, writable); }
  }

  lemma BeginChanges(s: Task, a: PrivateAction, env: Env)
    requires s.boundary.Some?
    ensures var t := BeginDispatch(s, a, env);
            && t == s.(boundary := t.boundary, jobs := t.jobs, pending := t.pending, marks := t.marks, trace := t.trace)
            && (Settled(s) ==> t.trace == s.trace)
  {
    hide AfterBegin, FollowUp, TurnNow, IndexOf;
    BegunChanges(s, a.actionId, AfterBegin(s.boundary.value, if env.wellFormed then Some(a) else None, TurnNow(s, env)),
                 env.writesRequest);
  }

  lemma BegunChanges(s: Task, actionId: Text, begin: (Boundary, Begun), writable: bool)
    ensures var t := FollowUp(s.(boundary := Some(begin.0)), actionId, begin.1, writable);
            && t == s.(boundary := t.boundary, jobs := t.jobs, pending := t.pending, marks := t.marks, trace := t.trace)
            && (Settled(s) ==> t.trace == s.trace)
  {
    hide FollowUp;
    FollowUpChanges(s.(boundary := Some(begin.0)), actionId, begin.1, writable);
  }

  lemma BeginProofChanges(s: Task, a: PrivateAction, env: Env)
    requires s.boundary.Some?
    ensures var t := BeginProofDispatch(s, a, env);
            && t == s.(stopDispatched := true, boundary := t.boundary, jobs := t.jobs, pending := t.pending,
                       marks := t.marks, trace := t.trace)
            && (Settled(s) ==> t.trace == s.trace + [Dispatched])
  {
    hide BeginDispatch;
    BeginChanges(MarkDispatch(s), a, env);
  }

  lemma BoundChanges(s: Task, action: FileReplayStore.Action, private: PrivateAction, env: Env)
    requires s.boundary.Some?
    ensures var t := DispatchBound(s, action, private, env);
            && t == s.(stopDispatched := t.stopDispatched, timer := t.timer, boundary := t.boundary, jobs := t.jobs,
                       pending := t.pending, marks := t.marks, trace := t.trace)
            && (Settled(s) ==> t.trace in [s.trace, s.trace + [Dispatched]])
  {
    hide BeginDispatch, BeginProofDispatch;
    BeginChanges(s, private, env);
    BeginProofChanges(s.(timer := None), private, env);
  }

  lemma DispatchChanges(s: Task, action: FileReplayStore.Action, env: Env)
    ensures var t := DispatchAction(s, action, env);
            && t == s.(stopDispatched := t.stopDispatched, timer := t.timer, boundary := t.boundary, jobs := t.jobs,
                       pending := t.pending, marks := t.marks, trace := t.trace)
            && (Settled(s) ==> t.trace in [s.trace, s.trace + [Dispatched]])
  {
    hide DispatchBound, Bind;
    if s.thread.Some? && s.expected.Some? && s.boundary.Some? {
      BoundChanges(s, action, Bind(action, s.thread.value, s.expected.value), env);
    }
  }

  /** A proof timer fails the run or dispatches; in an ended run it only goes out. */
  lemma TimerChanges(s: Task, env: Env)
    ensures var t := ProofTimerFires(s, env);
            || t == Fail(s.(timer := None))
            || (&& t == s.(stopDispatched := t.stopDispatched, timer := t.timer, boundary := t.boundary, jobs := t.jobs,
                           pending := t.pending, marks := t.marks, trace := t.trace)
                && (Settled(s) ==> t.trace == s.trace))
  {
    hide Fail, BeginProofDispatch;
    if s.thread.Some? && s.expected.Some? && s.boundary.Some? {
      BeginProofChanges(s.(timer := None),
                        PrivateAction(LOCAL_PROOF_ACTION_ID, Stop, s.thread.value, s.expected.value, []), env);
    }
  }

  // Runs.

  /** Macrotasks start only when every queued continuation has run. */
  predicate Waits(e: Event) { !(e.LineRead? || e.RunJob? || e.Fault?) }

  function Next(s: Task, e: Event): Task {
    if Waits(e) && s.jobs != [] then s
    else
      match e
      case LineRead(line, env) => HandleLine(s, line, env)
      case RunJob => RunHead(s)
      case Admit(action) => AdmitAction(s, action)
      case Dispatch(action, env) => DispatchAction(s, action, env)
      case ActivationTimer => if s.activationArmed then Fail(s.(activationArmed := false)) else s
      case ProofTimer(env) => ProofTimerFires(s, env)
      case ResponseLost(id) => LoseResponse(s, id)
      case ProofClientDone(ok) => ProofClientEnds(s, ok)
      case Fault => Fail(s)
      case Close(code, disconnects) => Closed(s, code, disconnects)
  }

  function RunOf(mode: Mode, events: seq<Event>): Task
    decreases |events|
  {
    if events == [] then Fresh(mode)
    else Next(RunOf(mode, events[..|events| - 1]), events[|events| - 1])
  }
}
