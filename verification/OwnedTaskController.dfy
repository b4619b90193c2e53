/**
 The owned-task controller as the object it is: one record of the variables its handlers share, which
 the handlers update a statement at a time. Each is proved against the step function it implements.
 */
module OwnedTaskController {
  import opened Collections
  import opened JsonGrammar
  import opened RemoteActionReceipt
  import opened RelayTurnAction
  import opened M = OwnedTask
  import FileReplayStore
  import CommandProof
  import OwnedTaskOutcomes
  import PlainReference
  import PlainRuns

  /** The task once its first `i` outstanding requests have been rejected. */
  ghost function Rejecting(s: Task, i: nat): Task
    requires i <= |s.pending|
  {
    s.(jobs := s.jobs + LostJobs(s.pending[..i]))
  }

  lemma RejectsNone(s: Task)
    ensures Rejecting(s, 0) == s
  {
  }

  lemma RejectsOneMore(s: Task, i: nat)
    requires i < |s.pending|
    ensures var t := Rejecting(s, i);
            t.pending == s.pending == Rejecting(s, i + 1).pending
            && t.(jobs := t.jobs + [Settle(s.pending[i], SendFailed)]) == Rejecting(s, i + 1)
  {
    assert LostJobs(s.pending[..i + 1]) == LostJobs(s.pending[..i]) + [Settle(s.pending[i], SendFailed)];
  }

  lemma RejectsAll(s: Task)
    ensures var t := Rejecting(s, |s.pending|);
            t.pending == s.pending && t.(pending := []) == s.(jobs := s.jobs + LostJobs(s.pending), pending := [])
  {
    assert s.pending[..|s.pending|] == s.pending;
  }

  lemma EndsWithOutcome(s: Task)
    ensures forall trace, result :: End(s.(trace := trace), result).outcome == Some(result)
  {
  }

  class Controller {
    var task: Task

    constructor (mode: Mode)
      ensures task == Fresh(mode)
    {
      task := Fresh(mode);
    }

    // Ending.

    method RevokeActiveTurn()
      modifies this
      ensures task == Revoke(old(task))
    {
      task := task.(contextLive := false);
      if task.boundary.Some? { task := task.(boundary := Some(task.boundary.value.(stopPending := false))); }
    }

    /** Leave a continuation to run once the present handler is done. */
    method Queue(job: Job)
      modifies this
      ensures task == old(task).(jobs := old(task).jobs + [job])
    {
      task := task.(jobs := task.jobs + [job]);
    }

    /** Reject every outstanding request, in the order they were made. */
    method RejectPendingResponses()
      modifies this
      ensures task == old(task).(jobs := old(task).jobs + LostJobs(old(task).pending), pending := [])
    {
      hide LostJobs, Rejecting;
      ghost var was := task;
      RejectsNone(was);
      RejectsAll(was);
      var i := 0;
      while i < |task.pending|
        invariant 0 <= i <= |was.pending| && task.pending == was.pending && task == Rejecting(was, i)
      {
        RejectsOneMore(was, i);
        Queue(Settle(task.pending[i], SendFailed));
        i := i + 1;
      }
      task := task.(pending := []);
    }

    method Finish(result: Outcome)
      modifies this
      ensures task == End(old(task), result)
    {
      task := task.(outcome := Some(result), activationArmed := false, timer := None);
      RevokeActiveTurn();
      RejectPendingResponses();
    }

    method FailRun()
      modifies this
      ensures task == Fail(old(task))
    {
      if task.outcome.Some? { return; }
      Finish(Failure);
    }

    /** A run that is still open resolves with its turn's end if the exit is clean and a proof was confirmed. */
    method ChildCloses(code: int, disconnects: bool)
      modifies this
      ensures task == Closed(old(task), code, disconnects)
      ensures old(task).outcome.Some? ==> task == old(task)
      ensures old(task).outcome.None? ==>
                var won := code == 0 && old(task).terminal.Some? && (old(task).mode.NoProof? || old(task).confirmed);
                task.outcome == Some(if won then Success(old(task).terminal.value) else Failure)
    {
      hide End;
      EndsWithOutcome(old(task));
      if task.outcome.Some? { return; }
      task := task.(trace := task.trace + [ChildClosed(code)]);
      if task.thread.Some? && task.terminal.None? && !disconnects {
        Finish(Failure);
        return;
      }
      if code != 0 || task.terminal.None? || (!task.mode.NoProof? && !task.confirmed) {
        Finish(Failure);
        return;
      }
      Finish(Success(task.terminal.value));
    }

    // Requests to the App Server.

    method SendActionRequest(a: PrivateAction, request: Request, writable: bool)
      modifies this
      ensures task == SendRequest(old(task), a, request, writable)
    {
      var known := IndexOf(task.pending, request.id);
      if task.outcome.Some? || !task.phase.Running? || task.terminal.Some? || known.Some? || !writable {
        Queue(Settle(a, SendFailed));
        return;
      }
      task := task.(marks := task.marks.(wrote := |task.trace|));
      task := task.(pending := task.pending + [a], trace := task.trace + [Wrote(request)]);
    }

    method DispatchToBoundary(a: PrivateAction, env: Env)
      requires task.boundary.Some?
      modifies this
      ensures task == BeginDispatch(old(task), a, env)
    {
      hide AfterBegin, SendRequest;
      var active := TurnNow(task, env);
      var begin := AfterBegin(task.boundary.value, if env.wellFormed then Some(a) else None, active);
      task := task.(boundary := Some(begin.0));
      match begin.1
      case Resolved(settlement) =>
        if NeedsCommand(task.mode) { task := task.(jobs := task.jobs + [ProofSettled(a.actionId, settlement)]); }
      case Sent(action, request) => SendActionRequest(action, request, env.writesRequest);
    }

    method DispatchForProof(a: PrivateAction, env: Env)
      requires task.boundary.Some?
      modifies this
      ensures task == BeginProofDispatch(old(task), a, env)
    {
      hide BeginDispatch;
      if !task.stopDispatched { task := task.(marks := task.marks.(dispatch := |task.trace|)); }
      task := task.(stopDispatched := true, trace := task.trace + [Dispatched]);
      DispatchToBoundary(a, env);
    }

    // The proof.

    method MaybeConfirmProof()
      modifies this
      ensures task == MaybeConfirm(old(task))
    {
      hide Fail;
      if task.mode.NoProof? || task.confirmed || task.outcome.Some? { return; }
      if task.terminal.Some? && task.terminal.value != Interrupted {
        FailRun();
        return;
      }
      if !task.accepted || task.terminal != Some(Interrupted) { return; }
      task := task.(timer := None, confirmed := true);
    }

    method AcceptActions()
      modifies this
      ensures task == Accept(old(task))
    {
      hide MaybeConfirm;
      task := task.(accepted := true);
      if task.terminal.None? { task := task.(timer := Some(Confirmation)); }
      MaybeConfirmProof();
    }

    method ArmActivationTimer()
      modifies this
      ensures task == ArmActivation(old(task))
    {
      if task.mode.NoProof? || task.started || task.activationArmed { return; }
      task := task.(activationArmed := true);
    }

    method BeginActionProof(activates: bool, env: Env)
      modifies this
      ensures task == BeginProof(old(task), activates, env)
    {
      hide Activate;
      if task.mode.NoProof? || task.started || !task.phase.Running? || !TurnsAgree(task) { return; }
      if task.mode.LocalLongTask? { return; }
      if task.mode.ExternalStop? && task.tracked.None? { return; }
      ActivateContext(activates, env);
    }

    method ActivateContext(activates: bool, env: Env)
      requires task.expected.Some? && (task.mode.Loopback? || task.mode.ExternalStop?)
      modifies this
      ensures task == Activate(old(task), activates, env)
    {
      hide Fail;
      task := task.(activationArmed := false, boundary := Some(NewBoundary(task)));
      if !activates {
        FailRun();
        return;
      }
      task := task.(started := true, contextLive := true);
      if task.mode.ExternalStop? { ShowContext(env); }
    }

    method ShowContext(env: Env)
      requires task.expected.Some?
      modifies this
      ensures var shown := old(task).(marks := old(task).marks.(context := |old(task).trace|),
                                      trace := old(task).trace + [ContextWritten(old(task).expected.value)]);
              task == if env.writesStatus then shown.(timer := Some(ProofTimeout)) else Fail(shown)
    {
      hide Fail;
      task := task.(marks := task.marks.(context := |task.trace|));
      task := task.(trace := task.trace + [ContextWritten(task.expected.value)]);
      if !env.writesStatus {
        FailRun();
        return;
      }
      task := task.(timer := Some(ProofTimeout));
    }

    method StartProofFromCommand(c: Command, env: Env)
      modifies this
      ensures task == StartFromCommand(old(task), c, env)
    {
      hide BeginProof;
      if !NeedsCommand(task.mode) || task.started || task.tracked.Some? || !task.phase.Running? || task.terminal.Some? {
        return;
      }
      if !TurnsAgree(task) || Some(c.turnId) != task.expected { return; }
      task := task.(tracked := Some(c));
      if task.mode.ExternalStop? {
        BeginActionProof(env.activates, env);
        return;
      }
      task := task.(activationArmed := false, started := true);
      task := task.(boundary := Some(NewBoundary(task)), timer := Some(Observation));
    }

    method HandleCommandStart(c: Command, env: Env)
      modifies this
      ensures task == CommandStarted(old(task), c, env)
    {
      hide Fail, StartFromCommand;
      if !NeedsCommand(task.mode) { return; }
      if task.tracked.Some? {
        if task.tracked == Some(c) { return; }
        if !task.stopDispatched { FailRun(); }
        return;
      }
      if task.phase.Running? && task.expected.Some? && task.observed.Some? {
        if Some(c.turnId) != task.expected || task.observed != task.expected {
          FailRun();
          return;
        }
        task := task.(marks := task.marks.(command := |task.trace| - 1));
        StartProofFromCommand(c, env);
        return;
      }
      if task.terminal.Some? || (!task.phase.StartingTurn? && !task.phase.Running?) { return; }
      if task.early.None? {
        task := task.(early := Some(c), marks := task.marks.(command := |task.trace| - 1));
        return;
      }
      if task.early == Some(c) { return; }
      FailRun();
    }

    // Turn correlation and the end of the turn.

    method RecordTurnEnd(status: Status)
      modifies this
      ensures task == Revoke(old(task).(terminal := Some(status),
                                        marks := old(task).marks.(ended := |old(task).trace| - 1)))
      ensures task.mode == old(task).mode && task.started == old(task).started
    {
      hide Revoke;
      task := task.(terminal := Some(status), marks := task.marks.(ended := |task.trace| - 1));
      RevokeKeepsMode(task);
      RevokeActiveTurn();
    }

    method FinishTurn(status: Status)
      modifies this
      ensures task == FinishTerminal(old(task), status)
    {
      hide Fail, MaybeConfirm, Revoke;
      if task.terminal.Some? { return; }
      if NeedsCommand(task.mode) && status == Interrupted && !task.responseSeen {
        FailRun();
        return;
      }
      RecordTurnEnd(status);
      if task.mode.NoProof? { return; }
      if !task.started {
        FailRun();
        return;
      }
      MaybeConfirmProof();
    }

    method AcceptTurnEnd(status: Status, env: Env)
      modifies this
      ensures task == AcceptTerminal(old(task), status, env)
    {
      hide FinishTerminal, Fail;
      if !env.ingests {
        FailRun();
        return;
      }
      FinishTurn(status);
    }

    method ReconcileTurnCorrelation(env: Env)
      modifies this
      ensures task == Reconcile(old(task), env)
    {
      hide Fail, Drain;
      if task.expected.Some? && task.observed.Some? && task.observed != task.expected {
        FailRun();
        return;
      }
      if task.expected.None? { return; }
      DrainEarly(task.expected.value, env);
    }

    /** Take up what arrived before the turn was known: its end, or its command. */
    method DrainEarly(turnId: Text, env: Env)
      modifies this
      ensures task == Drain(old(task), turnId, env)
    {
      hide AcceptTerminal, TakeEarly, AfterReconcile;
      var i := 0;
      assert task.terminals[0..] == task.terminals;
      while i < |task.terminals| && task.terminals[i].turnId != turnId
        invariant 0 <= i <= |task.terminals|
        invariant TerminalFor(task.terminals, turnId) == TerminalFor(task.terminals[i..], turnId)
        invariant task == old(task)
      {
        assert task.terminals[i..][1..] == task.terminals[i + 1..];
        i := i + 1;
      }
      var terminal := if i < |task.terminals| then Some(task.terminals[i]) else None;
      task := task.(terminals := []);
      if terminal.Some? {
        AcceptTurnEnd(terminal.value.status, env);
        return;
      }
      if NeedsCommand(task.mode) && task.early.Some? && task.observed.Some? {
        TakeEarlyCommand(task.early.value, env);
        return;
      }
      ArmAndBegin(env);
    }

    method TakeEarlyCommand(c: Command, env: Env)
      modifies this
      ensures task == TakeEarly(old(task), c, env)
    {
      hide Fail, StartFromCommand, AfterReconcile;
      task := task.(early := None);
      if Some(c.turnId) != task.expected || task.observed != task.expected {
        FailRun();
        return;
      }
      StartProofFromCommand(c, env);
      ArmAndBegin(env);
    }

    /** Runs even when the proof has just failed, and may then activate a context after all. */
    method ArmAndBegin(env: Env)
      modifies this
      ensures task == AfterReconcile(old(task), env)
    {
      hide BeginProof;
      var activates := if task.outcome.Some? then env.reactivates else env.activates;
      ArmActivationTimer();
      BeginActionProof(activates, env);
    }

    // Responses.

    method Claim(thread: Option<Text>)
      modifies this
      ensures task == ClaimThread(old(task), thread)
    {
      hide Fail;
      if thread.None? || thread.value == [] || (task.thread.Some? && task.thread != thread) {
        FailRun();
        return;
      }
      task := task.(thread := thread);
    }

    method ResolveAction(a: ServerAnswer, n: nat)
      requires n < |task.pending|
      modifies this
      ensures task == HandleActionAnswer(old(task), a, n)
    {
      hide Fail, ExactEmpty, ToBoundary;
      var action := task.pending[n];
      if NeedsCommand(task.mode) && (!action.kind.Stop? || !ExactEmpty(a)) {
        FailRun();
        return;
      }
      if NeedsCommand(task.mode) {
        task := task.(responseSeen := true, marks := task.marks.(response := |task.trace| - 1));
      }
      task := task.(pending := Without(task.pending, n),
                    jobs := task.jobs + [Settle(action, Delivered(ToBoundary(a, action.actionId)))]);
    }

    method HandleResponse(a: ServerAnswer, env: Env)
      modifies this
      ensures task == HandleAnswer(old(task), a, env)
    {
      hide Fail, ClaimThread, HandleActionAnswer, Reconcile;
      var waiting := if a.id.TextId? then IndexOf(task.pending, a.id.text) else None;
      if waiting.Some? {
        ResolveAction(a, waiting.value);
        return;
      }
      if a.error.Some? {
        FailRun();
        return;
      }
      if a.id == NumericId(0) && task.phase.Initializing? {
        task := task.(phase := StartingThread);
        return;
      }
      if a.id == NumericId(1) && task.phase.StartingThread? {
        Claim(a.threadId);
        if task.outcome.None? { task := task.(phase := CheckingTools); }
        return;
      }
      if a.id == NumericId(2) && task.phase.CheckingTools? {
        CheckTools(a.toolsIsolated);
        return;
      }
      if a.id == NumericId(3) && task.phase.StartingTurn? && task.thread.Some? && a.turnId.Some? {
        task := task.(expected := a.turnId, marks := task.marks.(answered := |task.trace| - 1));
        task := task.(phase := M.Running);
        ReconcileTurnCorrelation(env);
        return;
      }
      FailRun();
    }

    /** Only isolated tools let the turn start. */
    method CheckTools(isolated: bool)
      modifies this
      ensures task == if isolated
                      then ArmActivation(old(task).(phase := StartingTurn, trace := old(task).trace + [TurnStartSent]))
                      else Fail(old(task))
    {
      hide Fail;
      if !isolated {
        FailRun();
        return;
      }
      task := task.(phase := StartingTurn);
      task := task.(trace := task.trace + [TurnStartSent]);
      ArmActivationTimer();
    }

    // Notifications.

    method IngestInRelay(env: Env)
      modifies this
      ensures task == Ingest(old(task), env)
    {
      hide Fail;
      if !env.ingests { FailRun(); }
    }

    method HandleTurnStart(turnId: Option<Text>, inProgress: bool, env: Env)
      modifies this
      ensures task == HandleTurnStarted(old(task), turnId, inProgress, env)
    {
      hide Fail, Reconcile, Ingest;
      if turnId.None? || !inProgress {
        FailRun();
        return;
      }
      if task.observed.Some? && task.observed != turnId {
        FailRun();
        return;
      }
      if task.observed.None? { task := task.(marks := task.marks.(began := |task.trace| - 1)); }
      task := task.(observed := turnId);
      ReconcileTurnCorrelation(env);
      IngestInRelay(env);
    }

    method HandleItemCompletion(threadId: Text, turnId: Option<Text>, itemId: Option<Text>, env: Env)
      modifies this
      ensures task == HandleItemCompleted(old(task), threadId, turnId, itemId, env)
    {
      hide Fail, Ingest;
      if NeedsCommand(task.mode) && !task.stopDispatched {
        var watched := if task.started then task.tracked else task.early;
        if watched.Some? && Some(threadId) == task.thread && turnId == Some(watched.value.turnId)
           && itemId == Some(watched.value.itemId)
        {
          FailRun();
          return;
        }
      }
      IngestInRelay(env);
    }

    method HandleTurnEnd(turnId: Option<Text>, status: Option<Status>, env: Env)
      modifies this
      ensures task == HandleTurnEnded(old(task), turnId, status, env)
    {
      hide Fail, AcceptTerminal;
      if turnId.None? || status.None? {
        FailRun();
        return;
      }
      if task.expected.None? {
        if |task.terminals| >= MAX_EARLY_TERMINALS {
          FailRun();
          return;
        }
        task := task.(terminals := task.terminals + [Terminal(turnId.value, status.value)]);
        return;
      }
      if turnId == task.expected { AcceptTurnEnd(status.value, env); }
    }

    method HandleNotice(n: Notification, env: Env)
      modifies this
      ensures task == HandleNotification(old(task), n, env)
    {
      hide Fail, ClaimThread, Ingest, HandleTurnStarted, CommandStarted, HandleItemCompleted, HandleTurnEnded;
      if n.McpStartup? {
        FailRun();
        return;
      }
      if n.ThreadStarted? && task.phase.StartingThread? {
        Claim(n.thread);
      }
      if task.outcome.Some? || task.thread.None? { return; }
      match n
      case TurnStarted(threadId, turnId, inProgress) =>
        if Some(threadId) == task.thread { HandleTurnStart(turnId, inProgress, env); } else { IngestInRelay(env); }
      case ItemStarted(threadId, command) =>
        if Some(threadId) == task.thread && command.Some? { HandleCommandStart(command.value, env); }
        IngestInRelay(env);
      case ItemCompleted(threadId, turnId, itemId) => HandleItemCompletion(threadId, turnId, itemId, env);
      case TurnEnded(threadId, turnId, status) =>
        if Some(threadId) == task.thread { HandleTurnEnd(turnId, status, env); } else { IngestInRelay(env); }
      case ThreadClosed(threadId) =>
        if Some(threadId) == task.thread { FailRun(); } else { IngestInRelay(env); }
      case ThreadStarted(_) => IngestInRelay(env);
      case OtherNotification => IngestInRelay(env);
      case McpStartup =>
    }

    method HandleInput(line: Line, env: Env)
      modifies this
      ensures task == HandleLine(old(task), line, env)
    {
      hide Fail, HandleAnswer, HandleNotification;
      if task.outcome.Some? { return; }
      task := task.(trace := task.trace + [Heard(line)]);
      match line
      case AnswerLine(answer) => HandleResponse(answer, env);
      case MalformedLine => FailRun();
      case RequestLine => if task.terminal.None? { FailRun(); }
      case NotificationLine(n) => if task.terminal.None? { HandleNotice(n, env); }
    }

    // Dispatches, continuations, timers.

    method AdmitResolvedAction(action: FileReplayStore.Action)
      modifies this
      ensures task == AdmitAction(old(task), action)
    {
      hide Fail;
      if !task.mode.ExternalStop? { return; }
      if task.admitted.None? {
        if !action.kind.Stop? {
          FailRun();
          return;
        }
        task := task.(admitted := Some(action));
        return;
      }
      if task.admitted.value != action { FailRun(); }
    }

    method DispatchRemoteAction(action: FileReplayStore.Action, env: Env)
      modifies this
      ensures task == DispatchAction(old(task), action, env)
    {
      hide BeginDispatch, BeginProofDispatch, Bind;
      if !task.contextLive || task.thread.None? || task.expected.None? || task.boundary.None? { return; }
      var private := Bind(action, task.thread.value, task.expected.value);
      if !task.mode.ExternalStop? {
        DispatchToBoundary(private, env);
        return;
      }
      if task.admitted != Some(action) { return; }
      task := task.(timer := None);
      DispatchForProof(private, env);
    }

    method RunContinuation()
      modifies this
      ensures task == RunHead(old(task))
    {
      hide AfterSettle, SettlementOf, ProofContinues;
      if task.jobs == [] { return; }
      var job := task.jobs[0];
      task := task.(jobs := task.jobs[1..]);
      match job
      case Settle(action, delivery) =>
        if task.boundary.Some? {
          task := task.(boundary := Some(AfterSettle(task.boundary.value, action, delivery)));
          if NeedsCommand(task.mode) {
            task := task.(jobs := task.jobs + [ProofSettled(action.actionId, SettlementOf(action, delivery))]);
          }
        }
      case ProofSettled(actionId, settlement) => ContinueProof(actionId, settlement);
    }

    method ContinueProof(actionId: Text, settlement: Settlement)
      modifies this
      ensures task == ProofContinues(old(task), actionId, settlement)
    {
      hide Fail, Accept;
      if settlement != AcceptedBy(Correlation(actionId, Stop), TurnInterrupt) {
        FailRun();
        return;
      }
      AcceptActions();
    }

    method FireProofTimer(env: Env)
      modifies this
      ensures task == ProofTimerFires(old(task), env)
    {
      hide Fail, BeginProofDispatch;
      if task.timer.None? { return; }
      var observing := task.timer.value.Observation?;
      task := task.(timer := None);
      if !observing {
        FailRun();
        return;
      }
      if task.outcome.Some? || task.terminal.Some? { return; }
      if !env.writesStatus {
        FailRun();
        return;
      }
      if task.thread.None? || task.expected.None? || task.boundary.None? { return; }
      DispatchForProof(PrivateAction(LOCAL_PROOF_ACTION_ID, Stop, task.thread.value, task.expected.value, []), env);
    }

    /** A request's response timed out, or its write failed. */
    method DropResponse(id: Text)
      modifies this
      ensures task == LoseResponse(old(task), id)
    {
      var n := IndexOf(task.pending, id);
      if n.None? { return; }
      var action := task.pending[n.value];
      task := task.(pending := Without(task.pending, n.value));
      Queue(Settle(action, SendFailed));
    }

    method FinishProofClient(ok: bool)
      modifies this
      ensures task == ProofClientEnds(old(task), ok)
    {
      hide Fail, Accept;
      if !task.mode.Loopback? || !task.started || task.outcome.Some? { return; }
      if !ok {
        FailRun();
        return;
      }
      AcceptActions();
    }

    /** One event, as the machine sees it. */
    method React(e: Event)
      modifies this
      ensures task == Next(old(task), e)
    {
      hide Fail, HandleLine, RunHead, AdmitAction, DispatchAction;
      hide ProofTimerFires, LoseResponse, ProofClientEnds, Closed;
      if Waits(e) && task.jobs != [] { return; }
      match e
      case LineRead(line, env) => HandleInput(line, env);
      case RunJob => RunContinuation();
      case Admit(action) => AdmitResolvedAction(action);
      case Dispatch(action, env) => DispatchRemoteAction(action, env);
      case ActivationTimer =>
        if task.activationArmed {
          task := task.(activationArmed := false);
          FailRun();
        }
      case ProofTimer(env) => FireProofTimer(env);
      case ResponseLost(id) => DropResponse(id);
      case ProofClientDone(ok) => FinishProofClient(ok);
      case Fault => FailRun();
      case Close(code, disconnects) => ChildCloses(code, disconnects);
    }
  }

  lemma ResolvesExactly(mode: Mode, events: seq<Event>, status: Status)
    ensures RunOf(mode, events).outcome == Some(Success(status))
            <==> exists n :: 0 <= n < |events| && OwnedTaskOutcomes.Concludes(mode, events[..n], events[n], status)
    ensures mode.NoProof? ==>
              (RunOf(mode, events).outcome == Some(Success(status))
               <==> exists n :: 0 <= n < |events| && PlainRuns.EndsWell(events[..n], events[n], status))
  {
    OwnedTaskOutcomes.RunSucceedsExactly(mode, events, status);
    if mode.NoProof? { PlainRuns.PlainRunSucceedsExactly(events, status); }
  }

  lemma RunBegins(mode: Mode, events: seq<Event>)
    ensures RunOf(mode, events[..0]) == Fresh(mode)
  {
  }

  lemma RunsOneMore(mode: Mode, events: seq<Event>, i: nat)
    requires i < |events|
    ensures RunOf(mode, events[..i + 1]) == Next(RunOf(mode, events[..i]), events[i])
  {
    assert events[..i + 1][..i] == events[..i];
  }

  /**
   One run of the task: the controller reacts to every event, and its outcome settles the run's promise.
   It resolves exactly when the child's exit concludes the run, which for a plain run can be read off the
   events and is what the reference judges. A command proof that resolves has its whole story behind it,
   told by the controller's own history.
   */
  method RunOwnedTask(mode: Mode, events: seq<Event>) returns (outcome: Option<Outcome>, controller: Controller)
    ensures fresh(controller) && controller.task == RunOf(mode, events) && outcome == controller.task.outcome
    ensures forall status :: outcome == Some(Success(status))
              <==> exists n :: 0 <= n < |events| && OwnedTaskOutcomes.Concludes(mode, events[..n], events[n], status)
    ensures mode.NoProof? ==> outcome == PlainReference.Judged(events)
    ensures mode.NoProof? ==>
              forall status :: outcome == Some(Success(status))
                <==> exists n :: 0 <= n < |events| && PlainRuns.EndsWell(events[..n], events[n], status)
    ensures NeedsCommand(mode) && outcome.Some? && outcome.value.Success? ==>
              outcome.value.status == Interrupted && CommandProof.Proven(controller.task, Interrupted)
  {
    hide Next, RunOf, PlainReference.Judged, CommandProof.Proven, OwnedTaskOutcomes.Concludes, PlainRuns.EndsWell;
    controller := new Controller(mode);
    RunBegins(mode, events);
    var i := 0;
    while i < |events|
      invariant 0 <= i <= |events| && fresh(controller) && controller.task == RunOf(mode, events[..i])
    {
      RunsOneMore(mode, events, i);
      controller.React(events[i]);
      i := i + 1;
    }
    assert events[..i] == events;
    outcome := controller.task.outcome;
    forall status { ResolvesExactly(mode, events, status); }
    if mode.NoProof? { PlainReference.PlainRunsAreJudged(events); }
    if NeedsCommand(mode) && outcome.Some? && outcome.value.Success? {
      CommandProof.SuccessHasTheWholeStory(mode, events, outcome.value.status);
      CommandProof.ProvenIsInterrupted(controller.task, outcome.value.status);
    }
  }
}
