/**
 What is revoked when a turn or a run ends: the control context, and the boundary's memory of a pending
 Stop. Only a failed external-stop run may come to have a live context again, which `SettledRuns`
 describes exactly.
 */
module RevokedRuns {
  import opened Collections
  import opened JsonGrammar
  import opened RemoteActionReceipt
  import opened RelayTurnAction
  import opened OwnedTask
  import opened OwnedTaskOutcomes
  import FileReplayStore

  /** The turn, or the whole run, is over. */
  predicate Ended(s: Task) { s.terminal.Some? || s.outcome.Some? }

  predicate Quiet(s: Task) {
    && (s.expected.Some? <==> s.phase.Running?) && (s.terminal.Some? ==> s.expected.Some? && !s.contextLive)
    && (Ended(s) && !s.contextLive && s.boundary.Some? ==> !s.boundary.value.stopPending)
    && (s.confirmed ==> s.terminal.Some? && s.timer.None?)
    && (s.outcome.None? ==> (s.activationArmed <==> AwaitsProof(s)))
  }

  /** A proof whose turn has been asked for, and which has not started. */
  predicate AwaitsProof(s: Task) { !s.mode.NoProof? && (s.phase.StartingTurn? || s.phase.Running?) && !s.started }

  /** Quiet, with a turn that has not ended. */
  predicate QuietOpen(s: Task) { Quiet(s) && s.terminal.None? }

  /** Nothing it depends on has changed. */
  lemma SameQuiet(s: Task, t: Task)
    requires Quiet(s) && t.expected == s.expected && t.phase == s.phase && t.terminal == s.terminal
    requires t.contextLive == s.contextLive && t.outcome == s.outcome
    requires t.confirmed == s.confirmed && (t.timer == s.timer || t.timer.None?)
    requires t.mode == s.mode && t.started == s.started && t.activationArmed == s.activationArmed
    requires t.boundary == s.boundary || (s.boundary.Some? && t.boundary.Some?
                                          && (t.boundary.value.stopPending ==> s.boundary.value.stopPending))
    ensures Quiet(t) && (QuietOpen(s) ==> QuietOpen(t))
  {
  }

  lemma FailQuiet(s: Task)
    ensures Quiet(s) ==> Quiet(Fail(s))
    ensures QuietOpen(s) ==> QuietOpen(Fail(s))
    ensures Fail(s).phase == s.phase && Fail(s).expected == s.expected
  {
    hide LostJobs;
  }

  /** Failing leaves nothing to ask of the rest. */
  lemma AnyFailQuiet(s: Task)
    requires (s.expected.Some? <==> s.phase.Running?) && s.terminal.None? && !s.confirmed
    requires s.outcome.Some? ==> QuietOpen(s)
    ensures QuietOpen(Fail(s))
  {
    hide LostJobs;
  }

  lemma ActivateQuiet(s: Task, activates: bool, env: Env)
    requires QuietOpen(s) && s.expected.Some?
    ensures QuietOpen(Activate(s, activates, env))
  {
    hide Fail;
    var ready := s.(activationArmed := false, boundary := Some(NewBoundary(s)));
    AnyFailQuiet(ready);
    AnyFailQuiet(ready.(started := true, contextLive := true, marks := s.marks.(context := |s.trace|),
                        trace := s.trace + [ContextWritten(s.expected.value)]));
  }

  lemma BeginQuiet(s: Task, activates: bool, env: Env)
    requires QuietOpen(s)
    ensures QuietOpen(BeginProof(s, activates, env))
  {
    hide Activate, QuietOpen;
    if ReadyToBegin(s) { ActivateQuiet(s, activates, env); }
  }

  lemma StartQuiet(s: Task, c: Command, env: Env)
    requires QuietOpen(s)
    ensures QuietOpen(StartFromCommand(s, c, env))
  {
    hide BeginProof;
    BeginQuiet(s.(tracked := Some(c)), env.activates, env);
  }

  lemma StartKeepsTurn(s: Task, c: Command, env: Env)
    ensures StartFromCommand(s, c, env).expected == s.expected
  {
    hide Activate;
    if s.expected.Some? { ActivateKeepsTurn(s.(tracked := Some(c)), env.activates, env); }
  }

  lemma ActivateKeepsTurn(s: Task, activates: bool, env: Env)
    requires s.expected.Some?
    ensures Activate(s, activates, env).expected == s.expected
  {
    hide Fail;
    var ready := s.(activationArmed := false, boundary := Some(NewBoundary(s)));
    FailQuiet(ready);
    FailQuiet(ready.(started := true, contextLive := true, marks := s.marks.(context := |s.trace|),
                     trace := s.trace + [ContextWritten(s.expected.value)]));
  }

  lemma CommandQuiet(s: Task, c: Command, env: Env)
    requires QuietOpen(s)
    ensures QuietOpen(CommandStarted(s, c, env))
  {
    hide StartFromCommand, Fail, Quiet, QuietOpen;
    FailQuiet(s);
    OpenQuiet(s);
    var marked := s.(marks := s.marks.(command := |s.trace| - 1));
    SameQuiet(s, marked);
    SameQuiet(s, NoteEarly(s, c));
    StartQuiet(marked, c, env);
  }

  lemma OpenQuiet(s: Task)
    requires QuietOpen(s)
    ensures Quiet(s) && s.terminal.None?
  {
  }

  lemma ConfirmQuiet(s: Task)
    requires Quiet(s)
    ensures Quiet(MaybeConfirm(s))
  {
    hide Fail;
    FailQuiet(s);
  }

  lemma EndedQuiet(s: Task, status: Status)
    requires Quiet(s) && s.expected.Some?
    ensures Quiet(Revoke(s.(terminal := Some(status), marks := s.marks.(ended := |s.trace| - 1))))
  {
  }

  lemma FinishQuiet(s: Task, status: Status, env: Env)
    requires Quiet(s) && s.expected.Some?
    ensures Quiet(AcceptTerminal(s, status, env))
  {
    hide Fail, MaybeConfirm, Quiet, Revoke;
    FailQuiet(s);
    var ended := Revoke(s.(terminal := Some(status), marks := s.marks.(ended := |s.trace| - 1)));
    EndedQuiet(s, status);
    FailQuiet(ended);
    ConfirmQuiet(ended);
  }

  lemma AfterReconcileQuiet(s: Task, env: Env)
    requires QuietOpen(s) && s.expected.Some?
    ensures QuietOpen(AfterReconcile(s, env))
  {
    hide BeginProof;
    BeginQuiet(ArmActivation(s), if Settled(s) then env.reactivates else env.activates, env);
  }

  lemma TakeEarlyQuiet(s: Task, c: Command, env: Env)
    requires QuietOpen(s) && s.expected.Some?
    ensures Quiet(TakeEarly(s, c, env))
  {
    hide StartFromCommand, AfterReconcile, Fail;
    var taken := s.(early := None);
    FailQuiet(taken);
    StartQuiet(taken, c, env);
    StartKeepsTurn(taken, c, env);
    AfterReconcileQuiet(StartFromCommand(taken, c, env), env);
  }

  lemma ReconcileQuiet(s: Task, env: Env)
    requires QuietOpen(s)
    ensures Quiet(Reconcile(s, env))
  {
    hide Fail, AcceptTerminal, TakeEarly, AfterReconcile, Quiet, QuietOpen;
    OpenQuiet(s);
    FailQuiet(s);
    if s.expected.Some? {
      var drained := s.(terminals := []);
      SameQuiet(s, drained);
      var terminal := TerminalFor(s.terminals, s.expected.value);
      if terminal.Some? { FinishQuiet(drained, terminal.value.status, env); }
      if s.early.Some? { TakeEarlyQuiet(drained, s.early.value, env); }
      AfterReconcileQuiet(drained, env);
      OpenQuiet(AfterReconcile(drained, env));
    }
  }

  // Lines.

  lemma IngestQuiet(s: Task, env: Env)
    requires Quiet(s)
    ensures Quiet(Ingest(s, env))
  {
    hide Fail;
    FailQuiet(s);
  }

  lemma ClaimQuiet(s: Task, thread: Option<Text>)
    ensures Quiet(s) ==> Quiet(ClaimThread(s, thread))
    ensures QuietOpen(s) ==> QuietOpen(ClaimThread(s, thread))
  {
    hide Fail;
    FailQuiet(s);
  }

  lemma PhaseQuiet(s: Task)
    requires Quiet(s)
    ensures s.phase.Initializing? ==> Quiet(s.(phase := StartingThread))
    ensures s.phase.StartingThread? ==> Quiet(s.(phase := CheckingTools))
    ensures s.phase.CheckingTools?
            ==> Quiet(ArmActivation(s.(phase := StartingTurn, trace := s.trace + [TurnStartSent])))
  {
  }

  lemma LearnQuiet(s: Task, turn: Text)
    requires Quiet(s) && s.phase.StartingTurn?
    ensures QuietOpen(LearnTurn(s, turn))
  {
  }

  lemma PhaseAnswerQuiet(s: Task, a: ServerAnswer, env: Env)
    requires Quiet(s)
    ensures Quiet(PhaseAnswer(s, a, env))
  {
    hide Fail, ClaimThread, Reconcile, Quiet, QuietOpen, LearnTurn, ArmActivation;
    FailQuiet(s);
    PhaseQuiet(s);
    ClaimQuiet(s, a.threadId);
    var claimed := ClaimThread(s, a.threadId);
    if s.phase.StartingThread? {
      ClaimKeepsPhase(s, a.threadId);
      PhaseQuiet(claimed);
    }
    if a.turnId.Some? && s.phase.StartingTurn? {
      LearnQuiet(s, a.turnId.value);
      ReconcileQuiet(LearnTurn(s, a.turnId.value), env);
    }
  }

  lemma ClaimKeepsPhase(s: Task, thread: Option<Text>)
    ensures ClaimThread(s, thread).phase == s.phase
  {
    hide Fail;
    FailQuiet(s);
  }

  lemma AnswerQuiet(s: Task, a: ServerAnswer, env: Env)
    requires Quiet(s)
    ensures Quiet(HandleAnswer(s, a, env))
  {
    hide Fail, PhaseAnswer, HandleActionAnswer, IndexOf, Quiet;
    FailQuiet(s);
    var waiting := if a.id.TextId? then IndexOf(s.pending, a.id.text) else None;
    if waiting.Some? { ActionAnswerQuiet(s, a, waiting.value); } else { PhaseAnswerQuiet(s, a, env); }
  }

  lemma ActionAnswerQuiet(s: Task, a: ServerAnswer, n: nat)
    requires Quiet(s) && n < |s.pending|
    ensures Quiet(HandleActionAnswer(s, a, n))
  {
    hide Fail;
    FailQuiet(s);
  }

  lemma TurnStartQuiet(s: Task, turnId: Option<Text>, inProgress: bool, env: Env)
    requires QuietOpen(s)
    ensures Quiet(HandleTurnStarted(s, turnId, inProgress, env))
  {
    hide Fail, Reconcile, Ingest, Quiet, QuietOpen;
    OpenQuiet(s);
    FailQuiet(s);
    if turnId.Some? {
      SameQuiet(s, SeeTurn(s, turnId.value));
      ReconcileQuiet(SeeTurn(s, turnId.value), env);
      IngestQuiet(Reconcile(SeeTurn(s, turnId.value), env), env);
    }
  }

  lemma TurnEndQuiet(s: Task, turnId: Option<Text>, status: Option<Status>, env: Env)
    requires Quiet(s)
    ensures Quiet(HandleTurnEnded(s, turnId, status, env))
  {
    hide Fail, AcceptTerminal, Quiet;
    FailQuiet(s);
    if turnId.Some? && status.Some? {
      SameQuiet(s, s.(terminals := s.terminals + [Terminal(turnId.value, status.value)]));
      if s.expected.Some? { FinishQuiet(s, status.value, env); }
    }
  }

  lemma NoticeQuiet(s: Task, n: Notification, env: Env)
    requires QuietOpen(s)
    ensures Quiet(HandleNotification(s, n, env))
  {
    hide Fail, ClaimThread, HandleTurnStarted, HandleTurnEnded, CommandStarted, Ingest, WatchedCommand, Quiet,
        QuietOpen;
    OpenQuiet(s);
    FailQuiet(s);
    var claimed := if n.ThreadStarted? && s.phase.StartingThread? then ClaimThread(s, n.thread) else s;
    if n.ThreadStarted? { ClaimQuiet(s, n.thread); }
    OpenQuiet(claimed);
    FailQuiet(claimed);
    IngestQuiet(claimed, env);
    match n
    case TurnStarted(_, turnId, inProgress) => TurnStartQuiet(claimed, turnId, inProgress, env);
    case TurnEnded(_, turnId, status) => TurnEndQuiet(claimed, turnId, status, env);
    case ItemStarted(_, command) =>
      if command.Some? {
        CommandQuiet(claimed, command.value, env);
        OpenQuiet(CommandStarted(claimed, command.value, env));
        IngestQuiet(CommandStarted(claimed, command.value, env), env);
      }
    case _ =>
  }

  lemma LineQuiet(s: Task, line: Line, env: Env)
    requires Quiet(s)
    ensures Quiet(HandleLine(s, line, env))
  {
    hide Fail, HandleAnswer, HandleNotification, Quiet;
    var heard := s.(trace := s.trace + [Heard(line)]);
    SameQuiet(s, heard);
    FailQuiet(heard);
    match line
    case AnswerLine(answer) => AnswerQuiet(heard, answer, env);
    case NotificationLine(n) => if s.terminal.None? { NoticeQuiet(heard, n, env); }
    case _ =>
  }

  // Other events.

  lemma AcceptQuiet(s: Task)
    requires Quiet(s)
    ensures Quiet(Accept(s))
  {
    hide MaybeConfirm;
    ConfirmQuiet(s.(accepted := true, timer := if s.terminal.None? then Some(Confirmation) else s.timer));
  }

  lemma SettlingLifts(b: Boundary, a: PrivateAction, delivery: Delivery)
    ensures AfterSettle(b, a, delivery).stopPending ==> b.stopPending
  {
    hide SettlementOf;
  }

  lemma SettleQuiet(s: Task)
    requires Quiet(s) && s.jobs != [] && s.jobs[0].Settle?
    ensures Quiet(RunHead(s))
  {
    hide AfterSettle, SettlementOf, Quiet;
    if s.boundary.Some? { SettlingLifts(s.boundary.value, s.jobs[0].action, s.jobs[0].delivery); }
    SameQuiet(s, RunHead(s));
  }

  lemma JobQuiet(s: Task)
    requires Quiet(s)
    ensures Quiet(RunHead(s))
  {
    hide AfterSettle, SettlementOf, Accept, Fail, Quiet;
    if s.jobs != [] {
      var popped := s.(jobs := s.jobs[1..]);
      SameQuiet(s, popped);
      match s.jobs[0]
      case Settle(_, _) => SettleQuiet(s);
      case ProofSettled(_, _) =>
        AcceptQuiet(popped);
        FailQuiet(popped);
    }
  }

  lemma DispatchQuiet(s: Task, action: FileReplayStore.Action, env: Env)
    requires Quiet(s)
    ensures Quiet(DispatchAction(s, action, env))
  {
    hide DispatchBound, Bind;
    if s.contextLive {
      hide DispatchAction;
      DispatchChanges(s, action, env);
    }
  }

  lemma TimerQuiet(s: Task, env: Env)
    requires Quiet(s)
    ensures Quiet(ProofTimerFires(s, env))
  {
    hide Fail, BeginProofDispatch;
    FailQuiet(s.(timer := None));
    if !Ended(s) && s.thread.Some? && s.expected.Some? && s.boundary.Some? {
      BeginProofChanges(s.(timer := None),
                        PrivateAction(LOCAL_PROOF_ACTION_ID, Stop, s.thread.value, s.expected.value, []), env);
    }
  }

  lemma OtherQuiet(s: Task, e: Event)
    requires Quiet(s) && (e.Admit? || e.ActivationTimer? || e.ResponseLost? || e.ProofClientDone? || e.Fault?)
    ensures Quiet(Next(s, e))
  {
    hide Fail, Accept, LoseResponse, Quiet;
    FailQuiet(s);
    AcceptQuiet(s);
    match e
    case Admit(action) => SameQuiet(s, s.(admitted := Some(action)));
    case ActivationTimer => UnarmedFailQuiet(s);
    case ResponseLost(id) => LossQuiet(s, id);
    case _ =>
  }

  lemma UnarmedFailQuiet(s: Task)
    requires Quiet(s)
    ensures Quiet(Fail(s.(activationArmed := false)))
  {
    hide LostJobs;
  }

  lemma LossQuiet(s: Task, id: Text)
    requires Quiet(s)
    ensures Quiet(LoseResponse(s, id))
  {
    hide IndexOf;
  }

  lemma CloseQuiet(s: Task, code: int, disconnects: bool)
    requires Quiet(s)
    ensures Quiet(Closed(s, code, disconnects))
  {
    hide LostJobs;
  }

  lemma EventQuiet(s: Task, e: Event)
    requires Quiet(s)
    ensures Quiet(Next(s, e))
  {
    hide Quiet, HandleLine, RunHead, DispatchAction, ProofTimerFires, Closed;
    match e
    case LineRead(line, env) => LineQuiet(s, line, env);
    case RunJob => JobQuiet(s);
    case Dispatch(action, env) => DispatchQuiet(s, action, env);
    case ProofTimer(env) => TimerQuiet(s, env);
    case Close(code, disconnects) => CloseQuiet(s, code, disconnects);
    case _ => OtherQuiet(s, e);
  }

  lemma {:induction false} EveryRunIsQuiet(mode: Mode, events: seq<Event>)
    ensures Quiet(RunOf(mode, events))
    decreases |events|
  {
    hide Next;
    if events != [] {
      EveryRunIsQuiet(mode, events[..|events| - 1]);
      EventQuiet(RunOf(mode, events[..|events| - 1]), events[|events| - 1]);
    }
  }

  /**
   In every run no context is live once the turn has ended, and when the turn or the run has ended and no
   context is live, the boundary has forgotten any pending Stop. A confirmed proof waits for no timer. An
   open run has a deadline for its proof to start exactly from turn/start until it does.
   */
  lemma EndedRunsAreRevoked(mode: Mode, events: seq<Event>)
    ensures var s := RunOf(mode, events);
            && (s.terminal.Some? ==> !s.contextLive)
            && ((s.terminal.Some? || s.outcome.Some?) && !s.contextLive && s.boundary.Some? ==>
                  !s.boundary.value.stopPending)
            && (s.confirmed ==> s.timer.None?)
            && (s.outcome.None? ==>
                  (s.activationArmed <==>
                     !mode.NoProof? && (s.phase.StartingTurn? || s.phase.Running?) && !s.started))
  {
    EveryRunIsQuiet(mode, events);
    EveryRunIsSound(mode, events);
  }

  /** The deadline fails exactly the open runs whose proof has not started since turn/start. */
  lemma DeadlineIsDecided(mode: Mode, events: seq<Event>)
    requires RunOf(mode, events).outcome.None? && RunOf(mode, events).jobs == []
    ensures var s, t := RunOf(mode, events), RunOf(mode, events + [ActivationTimer]);
            t.outcome == if !mode.NoProof? && (s.phase.StartingTurn? || s.phase.Running?) && !s.started
                         then Some(Failure) else None
  {
    var more := events + [ActivationTimer];
    assert more[..|more| - 1] == events;
    EndedRunsAreRevoked(mode, events);
  }
}
