/**
 Every run that sends turn/start is, at that moment, in the state the correlation of its turn starts
 from: nothing about the turn, its command or the proof has been taken up, in any mode.
 */
module TurnStart {
  import opened Collections
  import opened JsonGrammar
  import opened RemoteActionReceipt
  import opened RelayTurnAction
  import opened M = OwnedTask
  import opened TurnCorrelation
  import OwnedTaskOutcomes
  import FileReplayStore

  predicate BeforeTurn(p: M.Phase) { p.Initializing? || p.StartingThread? || p.CheckingTools? }

  /** Before turn/start is sent nothing about the turn, its command or the proof has been taken up. */
  predicate Blank(s: Task) {
    && s.outcome.None? && s.terminal.None? && s.pending == [] && s.expected.None? && s.early.None? && s.tracked.None?
    && !s.started && !s.stopDispatched && !s.contextLive && s.boundary.None? && s.timer.None? && s.jobs == []
    && (s.phase.CheckingTools? || s.observed.Some? ==> s.thread.Some?)
  }

  predicate OpensBlank(s: Task) { s.outcome.None? && BeforeTurn(s.phase) ==> Blank(s) && !s.activationArmed }

  lemma BlankFails(s: Task)
    requires s.outcome.None?
    ensures Fail(s).outcome.Some?
  {
  }

  lemma BlankLine(s: Task, line: Line, env: Env)
    requires Blank(s) && !s.activationArmed && BeforeTurn(s.phase)
    ensures OpensBlank(HandleLine(s, line, env))
  {
    hide Fail, HandleAnswer, HandleNotification;
    var h := s.(trace := s.trace + [Heard(line)]);
    BlankFails(h);
    match line
    case AnswerLine(answer) => BlankAnswer(h, answer, env);
    case NotificationLine(n) => BlankNotification(h, n, env);
    case _ =>
  }

  lemma BlankAnswer(s: Task, a: ServerAnswer, env: Env)
    requires Blank(s) && !s.activationArmed && BeforeTurn(s.phase)
    ensures OpensBlank(HandleAnswer(s, a, env))
  {
    hide Fail, Reconcile;
    BlankFails(s);
  }

  lemma BlankNotification(s: Task, n: Notification, env: Env)
    requires Blank(s) && !s.activationArmed && BeforeTurn(s.phase)
    ensures OpensBlank(HandleNotification(s, n, env))
  {
    hide Fail, ClaimThread, HandleTurnStarted, CommandStarted, HandleItemCompleted, HandleTurnEnded;
    BlankFails(s);
    var claimed := if n.ThreadStarted? && s.phase.StartingThread? then ClaimThread(s, n.thread) else s;
    BlankClaim(s, n);
    if claimed.outcome.None? {
      BlankFails(claimed);
      match n
      case TurnStarted(_, turnId, inProgress) =>
        if claimed.thread.Some? { BlankTurnStart(claimed, turnId, inProgress, env); }
      case ItemStarted(_, command) =>
        if command.Some? { BlankCommand(claimed, command.value, env); }
      case ItemCompleted(threadId, turnId, itemId) => BlankCompletion(claimed, threadId, turnId, itemId, env);
      case TurnEnded(_, turnId, status) => BlankTurnEnd(claimed, turnId, status, env);
      case _ =>
    }
  }

  lemma BlankClaim(s: Task, n: Notification)
    requires Blank(s) && !s.activationArmed && BeforeTurn(s.phase)
    ensures n.ThreadStarted? ==> OpensBlank(ClaimThread(s, n.thread))
    ensures n.ThreadStarted? && ClaimThread(s, n.thread).outcome.None? ==> ClaimThread(s, n.thread).phase == s.phase
  {
    hide Fail;
    BlankFails(s);
  }

  lemma BlankTurnStart(s: Task, turnId: Option<Text>, inProgress: bool, env: Env)
    requires Blank(s) && !s.activationArmed && BeforeTurn(s.phase) && s.thread.Some?
    ensures OpensBlank(HandleTurnStarted(s, turnId, inProgress, env))
  {
    hide Fail, Drain;
    BlankFails(s);
    if turnId.Some? { BlankFails(SeeTurn(s, turnId.value)); }
  }

  lemma BlankCommand(s: Task, c: Command, env: Env)
    requires Blank(s) && BeforeTurn(s.phase)
    ensures CommandStarted(s, c, env) == s
  {
    hide StartFromCommand, Fail;
  }

  lemma BlankCompletion(s: Task, threadId: Text, turnId: Option<Text>, itemId: Option<Text>, env: Env)
    requires Blank(s) && !s.activationArmed && BeforeTurn(s.phase)
    ensures OpensBlank(HandleItemCompleted(s, threadId, turnId, itemId, env))
  {
    hide Fail;
    BlankFails(s);
  }

  lemma BlankTurnEnd(s: Task, turnId: Option<Text>, status: Option<Status>, env: Env)
    requires Blank(s) && !s.activationArmed && BeforeTurn(s.phase)
    ensures OpensBlank(HandleTurnEnded(s, turnId, status, env))
  {
    hide Fail, AcceptTerminal;
    BlankFails(s);
  }

  // No event leads back.

  lemma FailKeepsPhase(s: Task)
    ensures Fail(s).phase == s.phase
  {
  }

  lemma ConfirmKeepsPhase(s: Task)
    ensures MaybeConfirm(s).phase == s.phase && Accept(s).phase == s.phase
  {
    hide Fail;
    var accepted := s.(accepted := true, timer := if s.terminal.None? then Some(Confirmation) else s.timer);
    FailKeepsPhase(s);
    FailKeepsPhase(accepted);
  }

  lemma FinishKeepsPhase(s: Task, status: Status, env: Env)
    ensures AcceptTerminal(s, status, env).phase == s.phase
  {
    hide Fail, MaybeConfirm;
    FailKeepsPhase(s);
    var ended := Revoke(s.(terminal := Some(status), marks := s.marks.(ended := |s.trace| - 1)));
    FailKeepsPhase(ended);
    ConfirmKeepsPhase(ended);
  }

  lemma BeginKeepsPhase(s: Task, activates: bool, env: Env)
    ensures BeginProof(s, activates, env).phase == s.phase
  {
    hide Activate;
    if ReadyToBegin(s) { ActivateKeepsPhase(s, activates, env); }
  }

  lemma ActivateKeepsPhase(s: Task, activates: bool, env: Env)
    requires s.expected.Some?
    ensures Activate(s, activates, env).phase == s.phase
  {
    hide Fail;
    var ready := s.(activationArmed := false, boundary := Some(NewBoundary(s)));
    FailKeepsPhase(ready);
    FailKeepsPhase(ready.(started := true, contextLive := true, marks := s.marks.(context := |s.trace|),
                          trace := s.trace + [ContextWritten(s.expected.value)]));
  }

  lemma StartKeepsPhase(s: Task, c: Command, env: Env)
    ensures StartFromCommand(s, c, env).phase == s.phase
  {
    hide BeginProof;
    BeginKeepsPhase(s.(tracked := Some(c)), env.activates, env);
  }

  lemma CommandKeepsPhase(s: Task, c: Command, env: Env)
    ensures CommandStarted(s, c, env).phase == s.phase
  {
    hide StartFromCommand, Fail;
    FailKeepsPhase(s);
    StartKeepsPhase(s.(marks := s.marks.(command := |s.trace| - 1)), c, env);
  }

  lemma AfterReconcileKeepsPhase(s: Task, env: Env)
    ensures AfterReconcile(s, env).phase == s.phase
  {
    hide BeginProof;
    BeginKeepsPhase(ArmActivation(s), if Settled(s) then env.reactivates else env.activates, env);
  }

  lemma DrainKeepsPhase(s: Task, turnId: Text, env: Env)
    ensures Drain(s, turnId, env).phase == s.phase
  {
    hide AcceptTerminal, AfterReconcile, StartFromCommand, Fail;
    var drained := s.(terminals := []);
    var terminal := TerminalFor(s.terminals, turnId);
    if terminal.Some? { FinishKeepsPhase(drained, terminal.value.status, env); }
    AfterReconcileKeepsPhase(drained, env);
    if s.early.Some? {
      var taken := drained.(early := None);
      FailKeepsPhase(taken);
      StartKeepsPhase(taken, s.early.value, env);
      AfterReconcileKeepsPhase(StartFromCommand(taken, s.early.value, env), env);
    }
  }

  lemma ReconcileKeepsPhase(s: Task, env: Env)
    ensures Reconcile(s, env).phase == s.phase
  {
    hide Fail, Drain;
    FailKeepsPhase(s);
    if s.expected.Some? { DrainKeepsPhase(s, s.expected.value, env); }
  }

  lemma AnswerStaysLater(s: Task, a: ServerAnswer, env: Env)
    requires !BeforeTurn(s.phase)
    ensures !BeforeTurn(HandleAnswer(s, a, env).phase)
  {
    hide Fail, Reconcile, IndexOf;
    FailKeepsPhase(s);
    if a.turnId.Some? { ReconcileKeepsPhase(LearnTurn(s, a.turnId.value), env); }
  }

  lemma IngestKeepsPhase(s: Task, env: Env)
    ensures Ingest(s, env).phase == s.phase
  {
  }

  lemma TurnNoticesKeepPhase(s: Task, turnId: Option<Text>, inProgress: bool, status: Option<Status>, env: Env)
    ensures HandleTurnStarted(s, turnId, inProgress, env).phase == s.phase
    ensures HandleTurnEnded(s, turnId, status, env).phase == s.phase
  {
    hide Fail, Reconcile, AcceptTerminal, Ingest;
    FailKeepsPhase(s);
    if turnId.Some? {
      ReconcileKeepsPhase(SeeTurn(s, turnId.value), env);
      IngestKeepsPhase(Reconcile(SeeTurn(s, turnId.value), env), env);
    }
    if status.Some? { FinishKeepsPhase(s, status.value, env); }
  }

  lemma ClaimKeepsPhase(s: Task, thread: Option<Text>)
    ensures ClaimThread(s, thread).phase == s.phase
  {
    hide Fail;
    FailKeepsPhase(s);
  }

  lemma NotificationKeepsPhase(s: Task, n: Notification, env: Env)
    ensures HandleNotification(s, n, env).phase == s.phase
  {
    hide Fail, HandleTurnStarted, HandleTurnEnded, CommandStarted, Ingest, ClaimThread, WatchedCommand;
    FailKeepsPhase(s);
    if n.ThreadStarted? { ClaimKeepsPhase(s, n.thread); }
    var claimed := if n.ThreadStarted? && s.phase.StartingThread? then ClaimThread(s, n.thread) else s;
    FailKeepsPhase(claimed);
    IngestKeepsPhase(claimed, env);
    match n
    case TurnStarted(_, turnId, inProgress) => TurnNoticesKeepPhase(s, turnId, inProgress, None, env);
    case TurnEnded(_, turnId, status) => TurnNoticesKeepPhase(s, turnId, true, status, env);
    case ItemStarted(_, command) =>
      if command.Some? {
        CommandKeepsPhase(s, command.value, env);
        IngestKeepsPhase(CommandStarted(s, command.value, env), env);
      }
    case _ =>
  }

  lemma LineStaysLater(s: Task, line: Line, env: Env)
    requires !BeforeTurn(s.phase)
    ensures !BeforeTurn(HandleLine(s, line, env).phase)
  {
    hide Fail, HandleAnswer, HandleNotification;
    var h := s.(trace := s.trace + [Heard(line)]);
    FailKeepsPhase(h);
    match line
    case AnswerLine(answer) => AnswerStaysLater(h, answer, env);
    case NotificationLine(n) => NotificationKeepsPhase(h, n, env);
    case _ =>
  }

  lemma OutsideKeepsPhase(s: Task, e: Event)
    requires e.Dispatch? || e.ProofTimer?
    ensures Next(s, e).phase == s.phase
  {
    hide Fail, DispatchAction, ProofTimerFires;
    if e.Dispatch? {
      DispatchChanges(s, e.action, e.env);
    } else {
      TimerChanges(s, e.env);
      FailKeepsPhase(s.(timer := None));
    }
  }

  lemma JobKeepsPhase(s: Task)
    ensures RunHead(s).phase == s.phase
  {
    hide Fail, Accept, AfterSettle, SettlementOf;
    if s.jobs != [] {
      FailKeepsPhase(s.(jobs := s.jobs[1..]));
      ConfirmKeepsPhase(s.(jobs := s.jobs[1..]));
    }
  }

  lemma OthersKeepPhase(s: Task, e: Event)
    requires !e.LineRead? && !e.Dispatch? && !e.ProofTimer?
    ensures Next(s, e).phase == s.phase
  {
    hide Fail, Accept, LoseResponse, RunHead, Closed, AdmitAction;
    JobKeepsPhase(s);
    if e.ResponseLost? { LossKeepsPhase(s, e.id); }
    if e.Admit? { AdmitKeepsPhase(s, e.action); }
    FailKeepsPhase(s);
    FailKeepsPhase(s.(activationArmed := false));
    ConfirmKeepsPhase(s);
    if e.Close? { CloseKeepsPhase(s, e.code, e.disconnects); }
  }

  lemma LossKeepsPhase(s: Task, id: Text)
    ensures LoseResponse(s, id).phase == s.phase
  {
    hide IndexOf;
  }

  lemma AdmitKeepsPhase(s: Task, action: FileReplayStore.Action)
    ensures AdmitAction(s, action).phase == s.phase
  {
    hide Fail;
    FailKeepsPhase(s);
  }

  lemma CloseKeepsPhase(s: Task, code: int, disconnects: bool)
    ensures Closed(s, code, disconnects).phase == s.phase
  {
  }

  /** Outside lines, a blank state is left only by failing or closing. */
  lemma BlankOutside(s: Task, e: Event)
    requires Blank(s) && !s.activationArmed && BeforeTurn(s.phase) && !e.LineRead?
    ensures OpensBlank(Next(s, e))
  {
    hide IndexOf;
    BlankFails(s);
  }

  lemma NextOpensBlank(s: Task, e: Event)
    requires OpensBlank(s) && (s.outcome.Some? ==> Next(s, e).outcome.Some?)
    ensures OpensBlank(Next(s, e))
  {
    hide HandleLine, Blank;
    if s.outcome.None? {
      if !BeforeTurn(s.phase) {
        if e.LineRead? { LineStaysLater(s, e.line, e.env); }
        else if e.Dispatch? || e.ProofTimer? { OutsideKeepsPhase(s, e); }
        else { OthersKeepPhase(s, e); }
      } else if e.LineRead? {
        BlankLine(s, e.line, e.env);
      } else {
        BlankOutside(s, e);
      }
    }
  }

  lemma {:induction false} EveryRunOpensBlank(mode: Mode, events: seq<Event>)
    ensures OpensBlank(RunOf(mode, events))
    decreases |events|
  {
    hide OpensBlank, Next;
    if events == [] {
      FreshOpensBlank(mode);
    } else {
      var s, e := RunOf(mode, events[..|events| - 1]), events[|events| - 1];
      EveryRunOpensBlank(mode, events[..|events| - 1]);
      if s.outcome.Some? { OwnedTaskOutcomes.OutcomeIsFinal(s, e); }
      NextOpensBlank(s, e);
    }
  }

  lemma FreshOpensBlank(mode: Mode)
    ensures OpensBlank(Fresh(mode))
  {
  }

  /**
   In any run, the response that sends turn/start leads there. Turn ends that were buffered before it
   stay buffered, and are all that such a state may have over the one the correlation starts from.
   */
  lemma TurnStartIsSent(mode: Mode, events: seq<Event>, a: ServerAnswer, env: Env)
    requires var s := RunOf(mode, events); s.outcome.None? && s.phase.CheckingTools?
    requires a.id == NumericId(2) && a.error.None? && a.toolsIsolated
    ensures var s := RunOf(mode, events);
            var t := Next(s, LineRead(AnswerLine(a), env));
            s.thread.Some? && t.terminals == s.terminals && TurnStartJustSent(t.(terminals := []), s.thread.value)
  {
    EveryRunOpensBlank(mode, events);
    Sends(RunOf(mode, events), a, env);
  }

  lemma Sends(s: Task, a: ServerAnswer, env: Env)
    requires Blank(s) && !s.activationArmed && s.phase.CheckingTools?
    requires a.id == NumericId(2) && a.error.None? && a.toolsIsolated
    ensures var t := Next(s, LineRead(AnswerLine(a), env));
            s.thread.Some? && t.terminals == s.terminals && TurnStartJustSent(t.(terminals := []), s.thread.value)
  {
    hide Reconcile, HandleNotification;
  }
}
