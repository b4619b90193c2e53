/**
 What a run may still do once it has an outcome. It writes no request, but a failed external-stop run
 may have a live context: when activating from an early command fails, the same reconciliation tries
 once more, and that attempt may succeed.
 */
module SettledRuns {
  import opened Collections
  import opened JsonGrammar
  import opened RemoteActionReceipt
  import opened RelayTurnAction
  import opened OwnedTask
  import opened OwnedTaskOutcomes
  import opened CommandProof
  import FileReplayStore

  // Failing hides the context.

  /** No context is live in a run that has an outcome. */
  predicate Hidden(s: Task) { s.outcome.Some? ==> !s.contextLive }

  lemma FailHides(s: Task)
    requires Hidden(s)
    ensures Hidden(Fail(s))
  {
  }

  lemma ActivateHides(s: Task, activates: bool, env: Env)
    requires s.outcome.None? && s.expected.Some?
    ensures Hidden(Activate(s, activates, env))
  {
    hide End;
    EndHides(s.(activationArmed := false, boundary := Some(NewBoundary(s))));
    EndHides(s.(activationArmed := false, boundary := Some(NewBoundary(s)), started := true, contextLive := true,
                marks := s.marks.(context := |s.trace|), trace := s.trace + [ContextWritten(s.expected.value)]));
  }

  lemma EndHides(s: Task)
    ensures !End(s, Failure).contextLive
  {
  }

  lemma BeginHides(s: Task, activates: bool, env: Env)
    requires s.outcome.None?
    ensures Hidden(BeginProof(s, activates, env))
  {
    hide Activate;
    if ReadyToBegin(s) { ActivateHides(s, activates, env); }
  }

  lemma StartHides(s: Task, c: Command, env: Env)
    requires s.outcome.None?
    ensures Hidden(StartFromCommand(s, c, env))
  {
    hide BeginProof;
    BeginHides(s.(tracked := Some(c)), env.activates, env);
  }

  lemma CommandHides(s: Task, c: Command, env: Env)
    requires s.outcome.None?
    ensures Hidden(CommandStarted(s, c, env))
  {
    hide StartFromCommand, Fail, Hidden;
    NoOutcomeHides(s);
    FailHides(s);
    var marked := s.(marks := s.marks.(command := |s.trace| - 1));
    StartHides(marked, c, env);
    NoOutcomeHides(NoteEarly(s, c));
  }

  lemma NoOutcomeHides(s: Task)
    requires s.outcome.None?
    ensures Hidden(s)
  {
  }

  lemma ConfirmHides(s: Task)
    requires Hidden(s)
    ensures Hidden(MaybeConfirm(s))
  {
    hide Fail;
    FailHides(s);
  }

  lemma FinishHides(s: Task, status: Status, env: Env)
    requires s.outcome.None?
    ensures Hidden(AcceptTerminal(s, status, env))
  {
    hide Fail, MaybeConfirm;
    FailHides(s);
    var ended := Revoke(s.(terminal := Some(status), marks := s.marks.(ended := |s.trace| - 1)));
    FailHides(ended);
    ConfirmHides(ended);
  }

  // Reconciliation: the one place where a failed run can come to show a context.

  /** A reconciliation that takes up an early command of the agreed turn. */
  predicate TakesEarly(s: Task) {
    && s.expected.Some? && s.expected == s.observed && s.early.Some? && Some(s.early.value.turnId) == s.expected
    && TerminalFor(s.terminals, s.expected.value).None?
  }

  lemma AfterOpenStart(s: Task, env: Env)
    requires s.outcome.None?
    ensures Hidden(AfterReconcile(s, env))
  {
    hide BeginProof;
    BeginHides(ArmActivation(s), env.activates, env);
  }

  /** Ready to be started by an early command that has just been taken up. */
  predicate Taken(s: Task, c: Command) {
    && s.mode.ExternalStop? && s.outcome.None? && s.phase.Running? && s.terminal.None? && s.tracked.None?
    && !s.started && !s.contextLive && s.expected == Some(c.turnId) == s.observed
  }

  lemma FirstAttemptFails(s: Task, c: Command, env: Env)
    requires Taken(s, c) && !env.activates
    ensures var t := StartFromCommand(s, c, env);
            t.outcome == Some(Failure) && ReadyToBegin(t) && !t.contextLive && t.mode.ExternalStop?
  {
    hide LostJobs;
  }

  lemma SecondAttempt(s: Task, env: Env)
    requires s.mode.ExternalStop? && s.outcome == Some(Failure) && ReadyToBegin(s) && !s.contextLive
    ensures AfterReconcile(s, env).contextLive <==> env.reactivates
    ensures AfterReconcile(s, env).outcome == s.outcome
  {
    hide End;
  }

  lemma StartedAlready(s: Task, c: Command, env: Env)
    requires Taken(s, c) && env.activates
    ensures StartFromCommand(s, c, env).started && Hidden(StartFromCommand(s, c, env))
    ensures AfterReconcile(StartFromCommand(s, c, env), env) == StartFromCommand(s, c, env)
  {
    hide LostJobs;
  }

  lemma TakenShows(s: Task, c: Command, env: Env)
    requires Taken(s, c)
    ensures !Hidden(AfterReconcile(StartFromCommand(s, c, env), env)) <==> !env.activates && env.reactivates
  {
    hide StartFromCommand, AfterReconcile, ReadyToBegin;
    if env.activates {
      StartedAlready(s, c, env);
    } else {
      FirstAttemptFails(s, c, env);
      SecondAttempt(StartFromCommand(s, c, env), env);
    }
  }

  lemma ReconcileShows(s: Task, env: Env)
    requires s.mode.ExternalStop? && Reconcilable(s) && s.expected.Some?
    ensures !Hidden(Reconcile(s, env)) <==> TakesEarly(s) && !env.activates && env.reactivates
  {
    hide Reconcilable, AcceptTerminal, AfterReconcile, StartFromCommand, Fail, Hidden;
    ReconcilableIsOpenEnded(s);
    var drained := s.(terminals := []);
    NoOutcomeHides(s);
    FailHides(s);
    var terminal := TerminalFor(s.terminals, s.expected.value);
    if s.observed.Some? && s.observed != s.expected {
    } else if terminal.Some? {
      FinishHides(drained, terminal.value.status, env);
    } else if s.early.Some? && s.observed.Some? {
      var taken := drained.(early := None);
      NoOutcomeHides(taken);
      FailHides(taken);
      if Some(s.early.value.turnId) == s.expected {
        EarlyIsTaken(s, s.early.value);
        TakenShows(taken, s.early.value, env);
      }
    } else {
      AfterOpenStart(drained, env);
    }
  }

  lemma EarlyIsTaken(s: Task, c: Command)
    requires s.mode.ExternalStop? && Reconcilable(s) && s.early == Some(c) && s.expected == Some(c.turnId) == s.observed
    ensures Taken(s.(terminals := [], early := None), c)
  {
  }

  // Which events show it.

  /** The line that makes the turn of an early command known in full. */
  predicate CompletesTurn(s: Task, line: Line) {
    && s.early.Some? && !line.RequestLine? && !line.MalformedLine?
    && match line
       case AnswerLine(a) =>
         && s.phase.StartingTurn? && a.id == NumericId(3) && a.error.None?
         && a.turnId == Some(s.early.value.turnId) == s.observed
       case NotificationLine(n) =>
         && n.TurnStarted? && Some(n.threadId) == s.thread && n.inProgress
         && n.turnId == Some(s.early.value.turnId) == s.expected
       case _ => false
  }

  /** The first attempt to activate fails and the second, by then in a failed run, succeeds. */
  predicate ShowsLate(s: Task, e: Event) {
    && s.outcome.None? && e.LineRead? && CompletesTurn(s, e.line)
    && TerminalFor(s.terminals, s.early.value.turnId).None?
    && !e.env.activates && e.env.reactivates
  }

  lemma IngestHides(s: Task, env: Env)
    ensures Hidden(Ingest(s, env)) <==> Hidden(s)
  {
    hide End;
    EndHides(s);
  }

  lemma TurnAnswerShows(s: Task, a: ServerAnswer, env: Env)
    requires s.mode.ExternalStop? && Open(s, |s.trace|) && s.phase.StartingTurn?
    requires s.trace != [] && s.trace[|s.trace| - 1] == Heard(AnswerLine(a))
    requires a.id == NumericId(3) && a.error.None? && a.turnId.Some?
    ensures !Hidden(HandleAnswer(s, a, env)) <==> ShowsLate(s, LineRead(AnswerLine(a), env))
  {
    hide Open, Reconcile, Reconcilable, Hidden, LearnTurn;
    StartingHasThread(s);
    TurnAnswerReconcilable(s, a);
    LearnTurnIs(s, a.turnId.value);
    ReconcileShows(LearnTurn(s, a.turnId.value), env);
  }

  lemma StartingHasThread(s: Task)
    requires Open(s, |s.trace|) && s.phase.StartingTurn?
    ensures s.thread.Some? && s.outcome.None?
  {
  }

  lemma LearnTurnIs(s: Task, turn: Text)
    ensures var t := LearnTurn(s, turn);
            t.expected == Some(turn) && t.observed == s.observed && t.early == s.early && t.terminals == s.terminals
  {
  }

  lemma AnswerShows(s: Task, a: ServerAnswer, env: Env)
    requires s.mode.ExternalStop? && Open(s, |s.trace|)
    requires s.trace != [] && s.trace[|s.trace| - 1] == Heard(AnswerLine(a))
    ensures !Hidden(HandleAnswer(s, a, env)) <==> ShowsLate(s, LineRead(AnswerLine(a), env))
  {
    hide Open, Reconcile, Fail, Hidden, TerminalFor;
    OpenHasNoOutcome(s);
    if a.id == NumericId(3) && s.phase.StartingTurn? && a.error.None? && a.turnId.Some? {
      TurnAnswerShows(s, a, env);
    } else {
      OtherAnswerHides(s, a, env);
    }
  }

  lemma OtherAnswerHides(s: Task, a: ServerAnswer, env: Env)
    requires s.outcome.None?
    requires !(a.id == NumericId(3) && s.phase.StartingTurn? && a.error.None? && a.turnId.Some?)
    ensures Hidden(HandleAnswer(s, a, env))
  {
    hide IndexOf, HandleActionAnswer, PhaseAnswer, Hidden, Fail;
    NoOutcomeHides(s);
    FailHides(s);
    var waiting := if a.id.TextId? then IndexOf(s.pending, a.id.text) else None;
    if waiting.Some? { ActionAnswerHides(s, a, waiting.value); }
    else if a.error.None? { PhaseAnswerHides(s, a, env); }
  }

  lemma PhaseAnswerHides(s: Task, a: ServerAnswer, env: Env)
    requires s.outcome.None? && !(a.id == NumericId(3) && s.phase.StartingTurn? && a.turnId.Some?)
    ensures Hidden(PhaseAnswer(s, a, env))
  {
    hide Reconcile, ClaimThread, ArmActivation, Hidden, Fail;
    NoOutcomeHides(s);
    FailHides(s);
    NoOutcomeHides(s.(phase := StartingThread));
    ClaimHides(s, a.threadId);
    PhaseHides(ClaimThread(s, a.threadId));
    ArmHides(s.(phase := StartingTurn, trace := s.trace + [TurnStartSent]));
  }

  lemma ActionAnswerHides(s: Task, a: ServerAnswer, n: nat)
    requires s.outcome.None? && n < |s.pending|
    ensures Hidden(HandleActionAnswer(s, a, n))
  {
    hide Fail;
    FailHides(s);
  }

  lemma PhaseHides(s: Task)
    ensures Hidden(s.(phase := CheckingTools)) <==> Hidden(s)
  {
  }

  lemma ArmHides(s: Task)
    requires s.outcome.None?
    ensures Hidden(ArmActivation(s))
  {
  }

  lemma TurnStartedShows(s: Task, turnId: Option<Text>, inProgress: bool, env: Env)
    requires s.mode.ExternalStop? && s.thread.Some? && Handling(s, TurnStarted(s.thread.value, turnId, inProgress))
    ensures !Hidden(HandleTurnStarted(s, turnId, inProgress, env))
            <==> ShowsLate(s, LineRead(NotificationLine(TurnStarted(s.thread.value, turnId, inProgress)), env))
  {
    hide Handling, Reconcile, Reconcilable, Hidden, SeeTurn, Fail, Ingest, TerminalFor;
    var n := TurnStarted(s.thread.value, turnId, inProgress);
    HandlingHasNoOutcome(s, n);
    NoOutcomeHides(s);
    FailHides(s);
    if turnId.Some? && inProgress {
      EarlyIsUnseen(s, n);
      if s.observed.None? || s.observed == turnId {
        TurnStartedReconcilable(s, turnId);
        SeeTurnIs(s, turnId.value);
        var seen := SeeTurn(s, turnId.value);
        if seen.expected.Some? { ReconcileShows(seen, env); } else { UnknownTurnWaits(seen, env); }
        IngestHides(Reconcile(seen, env), env);
      }
    }
  }

  lemma EarlyIsUnseen(s: Task, n: Notification)
    requires Handling(s, n)
    ensures s.early.Some? && s.expected.Some? ==> s.observed.None?
  {
  }

  lemma SeeTurnIs(s: Task, turn: Text)
    ensures var t := SeeTurn(s, turn);
            t.observed == Some(turn) && t.expected == s.expected && t.early == s.early && t.terminals == s.terminals
            && t.outcome == s.outcome
  {
  }

  lemma UnknownTurnWaits(s: Task, env: Env)
    requires s.outcome.None? && s.expected.None?
    ensures Hidden(Reconcile(s, env))
  {
  }

  lemma NotificationShows(s: Task, n: Notification, env: Env)
    requires s.mode.ExternalStop? && Handling(s, n)
    ensures !Hidden(HandleNotification(s, n, env)) <==> ShowsLate(s, LineRead(NotificationLine(n), env))
  {
    hide Handling, Fail, HandleTurnStarted, Hidden, TerminalFor;
    HandlingHasNoOutcome(s, n);
    HandlingHasThread(s, n);
    if n.TurnStarted? && Some(n.threadId) == s.thread {
      TurnStartedShows(s, n.turnId, n.inProgress, env);
    } else {
      OtherNotificationHides(s, n, env);
    }
  }

  lemma HandlingHasThread(s: Task, n: Notification)
    requires Handling(s, n)
    ensures s.early.Some? ==> s.thread.Some?
  {
  }

  lemma OtherNotificationHides(s: Task, n: Notification, env: Env)
    requires s.outcome.None? && !(n.TurnStarted? && Some(n.threadId) == s.thread)
    ensures Hidden(HandleNotification(s, n, env))
  {
    hide Fail, CommandStarted, AcceptTerminal, Ingest, WatchedCommand, Hidden, HandleTurnStarted;
    NoOutcomeHides(s);
    FailHides(s);
    IngestHides(s, env);
    match n
    case ThreadStarted(thread) =>
      ClaimHides(s, thread);
      IngestHides(ClaimThread(s, thread), env);
    case ItemStarted(_, command) =>
      if command.Some? {
        CommandHides(s, command.value, env);
        IngestHides(CommandStarted(s, command.value, env), env);
      }
    case TurnEnded(_, turnId, status) =>
      if turnId.Some? && status.Some? {
        FinishHides(s, status.value, env);
        NoOutcomeHides(s.(terminals := s.terminals + [Terminal(turnId.value, status.value)]));
      }
    case _ =>
  }

  lemma ClaimHides(s: Task, thread: Option<Text>)
    requires s.outcome.None?
    ensures Hidden(ClaimThread(s, thread))
  {
    hide Fail;
    FailHides(s);
  }

  lemma LineShows(s: Task, line: Line, env: Env)
    requires s.mode.ExternalStop? && Open(s, |s.trace|)
    ensures !Hidden(HandleLine(s, line, env)) <==> ShowsLate(s, LineRead(line, env))
  {
    hide Open, HandleAnswer, HandleNotification, Fail, Hidden, TerminalFor;
    var heard := s.(trace := s.trace + [Heard(line)]);
    HeardOpen(s, line);
    OpenHasNoOutcome(s);
    NoOutcomeHides(heard);
    FailHides(heard);
    EndedHasNoEarly(s);
    match line
    case AnswerLine(answer) =>
      HeardAnswerOpen(s, line);
      AnswerShows(heard, answer, env);
    case NotificationLine(n) => if s.terminal.None? { NotificationShows(heard, n, env); }
    case _ =>
  }

  lemma EndedHasNoEarly(s: Task)
    requires Open(s, |s.trace|)
    ensures s.terminal.Some? ==> s.early.None?
  {
  }

  /** Outside lines, an outcome comes without a context. */
  lemma OutsideHides(s: Task, e: Event)
    requires s.outcome.None? && !e.LineRead?
    ensures Hidden(Next(s, e))
  {
    hide Fail, Accept, RunHead, AdmitAction, DispatchAction, ProofTimerFires, LoseResponse, Closed, Hidden;
    NoOutcomeHides(s);
    FailHides(s);
    match e
    case RunJob => JobHides(s);
    case Admit(action) => AdmitHides(s, action);
    case Dispatch(action, env) =>
      DispatchChanges(s, action, env);
      NoOutcomeHides(DispatchAction(s, action, env));
    case ProofTimer(env) => TimerHides(s, env);
    case ActivationTimer => FailHides(s.(activationArmed := false));
    case ProofClientDone(_) => AcceptHides(s);
    case Close(code, disconnects) => CloseHides(s, code, disconnects);
    case ResponseLost(id) => LossHides(s, id);
    case Fault =>
  }

  lemma JobHides(s: Task)
    requires s.outcome.None?
    ensures Hidden(RunHead(s))
  {
    hide Fail, Accept, AfterSettle, SettlementOf;
    if s.jobs != [] {
      FailHides(s.(jobs := s.jobs[1..]));
      AcceptHides(s.(jobs := s.jobs[1..]));
    }
  }

  lemma AdmitHides(s: Task, action: FileReplayStore.Action)
    requires s.outcome.None?
    ensures Hidden(AdmitAction(s, action))
  {
    hide Fail;
    FailHides(s);
  }

  lemma LossHides(s: Task, id: Text)
    requires s.outcome.None?
    ensures Hidden(LoseResponse(s, id))
  {
    hide IndexOf;
  }

  lemma AcceptHides(s: Task)
    requires s.outcome.None?
    ensures Hidden(Accept(s))
  {
    hide MaybeConfirm;
    ConfirmHides(s.(accepted := true, timer := if s.terminal.None? then Some(Confirmation) else s.timer));
  }

  lemma CloseHides(s: Task, code: int, disconnects: bool)
    requires s.outcome.None?
    ensures Hidden(Closed(s, code, disconnects))
  {
    hide LostJobs;
  }

  lemma TimerHides(s: Task, env: Env)
    requires s.outcome.None?
    ensures Hidden(ProofTimerFires(s, env))
  {
    hide Fail, ProofTimerFires;
    TimerChanges(s, env);
    FailHides(s.(timer := None));
  }

  lemma OpenShows(s: Task, e: Event)
    requires s.mode.ExternalStop? && Open(s, |s.trace|)
    ensures !Hidden(Next(s, e)) <==> ShowsLate(s, e)
  {
    hide Open, HandleLine, Hidden, CompletesTurn, TerminalFor;
    OpenHasNoOutcome(s);
    if e.LineRead? { LineShows(s, e.line, e.env); }
    else { OutsideHides(s, e); }
  }

  // Whole runs.

  /** Some line of the run was the one that shows a context in a run it has just failed. */
  ghost predicate ShownLate(events: seq<Event>) {
    exists n :: 0 <= n < |events| && ShowsLate(RunOf(ExternalStop, events[..n]), events[n])
  }

  /**
   A failed external-stop run has a live context exactly when a line completed the turn of its early
   command, the first activation failed and the second succeeded; every other failure hides it.
   */
  lemma {:induction false} FailedRunShowsContextExactly(events: seq<Event>)
    ensures var s := RunOf(ExternalStop, events);
            s.outcome == Some(Failure) && s.contextLive <==> ShownLate(events)
    decreases |events|
  {
    hide Next, Open, ShowsLate, Proven;
    if events == [] {
      assert !ShownLate(events);
    } else {
      var n := |events| - 1;
      var before, e := events[..n], events[n];
      var s := RunOf(ExternalStop, before);
      EveryRunKeepsInv(ExternalStop, before);
      EveryRunKeepsInv(ExternalStop, events);
      FailedRunShowsContextExactly(before);
      ShownLateGrows(events);
      if s.outcome.None? {
        OpenShows(s, e);
      } else {
        OutcomeIsFinal(s, e);
        SettledStays(s, e);
        assert !ShowsLate(s, e) by { SettledShowsNothing(s, e); }
      }
    }
  }

  lemma SettledShowsNothing(s: Task, e: Event)
    requires s.outcome.Some?
    ensures !ShowsLate(s, e)
  {
  }

  lemma ShownLateGrows(events: seq<Event>)
    requires events != []
    ensures var n := |events| - 1;
            ShownLate(events) <==> ShownLate(events[..n]) || ShowsLate(RunOf(ExternalStop, events[..n]), events[n])
  {
    hide ShowsLate, RunOf;
    var n := |events| - 1;
    assert forall m :: 0 <= m < n ==> events[..n][..m] == events[..m] && events[..n][m] == events[m];
  }

  // After the outcome.

  /** Once a run has an outcome, no event writes another request. */
  lemma NothingWrittenAfterOutcome(s: Task, e: Event)
    requires Settled(s)
    ensures s.trace <= Next(s, e).trace
    ensures forall i :: |s.trace| <= i < |Next(s, e).trace| ==> !Next(s, e).trace[i].Wrote?
  {
    hide Next;
    SettledStays(s, e);
  }
}
