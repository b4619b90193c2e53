/**
 What success means in every mode: the child left cleanly after its turn had ended, and a proof run
 succeeds only with its actions accepted and the turn interrupted.
 */
module OwnedTaskOutcomes {
  import opened Collections
  import opened JsonGrammar
  import opened RemoteActionReceipt
  import opened RelayTurnAction
  import opened OwnedTask
  import FileReplayStore

  /** Accepted actions and an interrupted turn confirm an open proof at once. */
  predicate Prompt(s: Task) {
    s.outcome.None? && !s.mode.NoProof? && s.accepted && s.terminal == Some(Interrupted) ==> s.confirmed
  }

  predicate Sound(mode: Mode, s: Task) { NearlySound(mode, s) && Prompt(s) }

  /** Sound but for a confirmation still to be made. */
  predicate NearlySound(mode: Mode, s: Task) {
    && s.mode == mode
    && (s.confirmed ==> !s.mode.NoProof? && s.accepted && s.terminal == Some(Interrupted))
    && (s.terminal == Some(Interrupted) && NeedsCommand(s.mode) ==> s.responseSeen)
    && (s.outcome.Some? && s.outcome.value.Success? ==>
          s.terminal == Some(s.outcome.value.status) && (!s.mode.NoProof? ==> s.confirmed))
  }

  /** Nothing that success is made of has changed, except that the run may have failed. */
  predicate Keeps(s: Task, t: Task) {
    && t.mode == s.mode && t.confirmed == s.confirmed && t.accepted == s.accepted && t.terminal == s.terminal
    && t.responseSeen == s.responseSeen
    && (t.outcome == s.outcome || (s.outcome.None? && t.outcome == Some(Failure)))
  }

  lemma KeepsSound(mode: Mode, s: Task, t: Task)
    requires Sound(mode, s) && Keeps(s, t)
    ensures Sound(mode, t)
  {
  }

  lemma KeepsTwice(s: Task, t: Task, u: Task)
    requires Keeps(s, t) && Keeps(t, u)
    ensures Keeps(s, u)
  {
  }

  lemma FailKeeps(s: Task)
    ensures Keeps(s, Fail(s))
  {
  }

  lemma BeginKeeps(s: Task, activates: bool, env: Env)
    ensures Keeps(s, BeginProof(s, activates, env))
  {
    hide Fail, Activate;
    if ReadyToBegin(s) { ActivateKeeps(s, activates, env); }
  }

  lemma ActivateKeeps(s: Task, activates: bool, env: Env)
    requires s.expected.Some?
    ensures Keeps(s, Activate(s, activates, env))
  {
    hide Fail;
    var ready := s.(activationArmed := false, boundary := Some(NewBoundary(s)));
    FailKeeps(ready);
    FailKeeps(ready.(started := true, contextLive := true, marks := s.marks.(context := |s.trace|),
                     trace := s.trace + [ContextWritten(s.expected.value)]));
  }

  lemma StartKeeps(s: Task, c: Command, env: Env)
    ensures Keeps(s, StartFromCommand(s, c, env))
  {
    hide BeginProof;
    BeginKeeps(s.(tracked := Some(c)), env.activates, env);
  }

  lemma CommandKeeps(s: Task, c: Command, env: Env)
    ensures Keeps(s, CommandStarted(s, c, env))
  {
    hide StartFromCommand, Fail, Keeps, NoteEarly;
    FailKeeps(s);
    NotingKeeps(s, c);
    var marked := s.(marks := s.marks.(command := |s.trace| - 1));
    StartKeeps(marked, c, env);
    KeepsTwice(s, marked, StartFromCommand(marked, c, env));
  }

  lemma NotingKeeps(s: Task, c: Command)
    ensures Keeps(s, s) && Keeps(s, NoteEarly(s, c)) && Keeps(s, s.(marks := s.marks.(command := |s.trace| - 1)))
  {
  }

  // Steps that do more.

  lemma ConfirmSound(mode: Mode, s: Task)
    requires NearlySound(mode, s)
    ensures Sound(mode, MaybeConfirm(s))
  {
    hide Fail;
    FailSound(mode, s);
  }

  lemma FailSound(mode: Mode, s: Task)
    requires NearlySound(mode, s)
    ensures Sound(mode, Fail(s))
  {
    hide Fail;
    FailKeeps(s);
    FailSettles(s);
  }

  lemma FailSettles(s: Task)
    ensures Fail(s).outcome.Some?
  {
  }

  /** The turn's end, as it is recorded. */
  function Ended(s: Task, status: Status): Task {
    Revoke(s.(terminal := Some(status), marks := s.marks.(ended := |s.trace| - 1)))
  }

  lemma EndedSound(mode: Mode, s: Task, status: Status)
    requires Sound(mode, s) && s.outcome.None? && s.terminal.None?
    requires !(NeedsCommand(mode) && status == Interrupted && !s.responseSeen)
    ensures NearlySound(mode, Ended(s, status))
  {
  }

  lemma FinishSound(mode: Mode, s: Task, status: Status, env: Env)
    requires Sound(mode, s) && s.outcome.None?
    ensures Sound(mode, AcceptTerminal(s, status, env))
  {
    hide Fail, MaybeConfirm, Sound, NearlySound, Revoke;
    FailKeeps(s);
    KeepsSound(mode, s, Fail(s));
    ModeIs(mode, s);
    if s.terminal.None? && !(NeedsCommand(mode) && status == Interrupted && !s.responseSeen) {
      EndedSound(mode, s, status);
      FailSound(mode, Ended(s, status));
      PlainEndSound(mode, s, status);
      ConfirmSound(mode, Ended(s, status));
    }
  }

  lemma PlainEndSound(mode: Mode, s: Task, status: Status)
    requires NearlySound(mode, Ended(s, status))
    ensures mode.NoProof? ==> Sound(mode, Ended(s, status))
  {
  }

  lemma ModeIs(mode: Mode, s: Task)
    requires Sound(mode, s)
    ensures s.mode == mode
  {
  }

  lemma AfterReconcileKeeps(s: Task, env: Env)
    ensures Keeps(s, AfterReconcile(s, env))
  {
    hide BeginProof;
    BeginKeeps(ArmActivation(s), if Settled(s) then env.reactivates else env.activates, env);
  }

  lemma TakeEarlyKeeps(s: Task, c: Command, env: Env)
    ensures Keeps(s, TakeEarly(s, c, env))
  {
    hide StartFromCommand, AfterReconcile, Fail;
    var taken := s.(early := None);
    FailKeeps(taken);
    StartKeeps(taken, c, env);
    AfterReconcileKeeps(StartFromCommand(taken, c, env), env);
  }

  lemma ReconcileSound(mode: Mode, s: Task, env: Env)
    requires Sound(mode, s) && s.outcome.None?
    ensures Sound(mode, Reconcile(s, env))
  {
    hide Fail, AcceptTerminal, TakeEarly, AfterReconcile, Sound;
    FailKeeps(s);
    KeepsSound(mode, s, Fail(s));
    if s.expected.Some? {
      var drained := s.(terminals := []);
      KeepsSound(mode, s, drained);
      var terminal := TerminalFor(s.terminals, s.expected.value);
      if terminal.Some? { FinishSound(mode, drained, terminal.value.status, env); }
      if s.early.Some? {
        TakeEarlyKeeps(drained, s.early.value, env);
        KeepsSound(mode, drained, TakeEarly(drained, s.early.value, env));
      }
      AfterReconcileKeeps(drained, env);
      KeepsSound(mode, drained, AfterReconcile(drained, env));
    }
  }

  lemma AnswerSound(mode: Mode, s: Task, a: ServerAnswer, env: Env)
    requires Sound(mode, s) && s.outcome.None?
    ensures Sound(mode, HandleAnswer(s, a, env))
  {
    hide Fail, Reconcile, HandleActionAnswer, IndexOf, ArmActivation, ClaimThread, Sound, LearnTurn;
    FailKeeps(s);
    KeepsSound(mode, s, Fail(s));
    var waiting := if a.id.TextId? then IndexOf(s.pending, a.id.text) else None;
    if waiting.Some? {
      ActionAnswerSound(mode, s, a, waiting.value);
    } else {
      PhaseSound(mode, s, a);
      if a.turnId.Some? {
        LearnSound(mode, s, a.turnId.value);
        ReconcileSound(mode, LearnTurn(s, a.turnId.value), env);
      }
    }
  }

  lemma LearnSound(mode: Mode, s: Task, turnId: Text)
    requires Sound(mode, s) && s.outcome.None?
    ensures Sound(mode, LearnTurn(s, turnId)) && LearnTurn(s, turnId).outcome.None?
  {
  }

  lemma PhaseSound(mode: Mode, s: Task, a: ServerAnswer)
    requires Sound(mode, s) && s.outcome.None?
    ensures Sound(mode, s.(phase := StartingThread)) && Sound(mode, ClaimThread(s, a.threadId))
    ensures Sound(mode, ClaimThread(s, a.threadId).(phase := CheckingTools))
    ensures Sound(mode, ArmActivation(s.(phase := StartingTurn, trace := s.trace + [TurnStartSent])))
  {
    hide Sound, ClaimThread, Fail;
    KeepsSound(mode, s, s.(phase := StartingThread));
    ClaimSound(mode, s, a.threadId);
    KeepsSound(mode, ClaimThread(s, a.threadId), ClaimThread(s, a.threadId).(phase := CheckingTools));
    KeepsSound(mode, s, ArmActivation(s.(phase := StartingTurn, trace := s.trace + [TurnStartSent])));
  }

  lemma ActionAnswerSound(mode: Mode, s: Task, a: ServerAnswer, n: nat)
    requires Sound(mode, s) && s.outcome.None? && n < |s.pending|
    ensures Sound(mode, HandleActionAnswer(s, a, n))
  {
    hide Fail;
    FailKeeps(s);
    KeepsSound(mode, s, Fail(s));
  }

  lemma IngestSound(mode: Mode, s: Task, env: Env)
    requires Sound(mode, s)
    ensures Sound(mode, Ingest(s, env))
  {
    hide Fail;
    FailKeeps(s);
    KeepsSound(mode, s, Fail(s));
  }

  lemma TurnNoticesSound(mode: Mode, s: Task, turnId: Option<Text>, inProgress: bool, status: Option<Status>, env: Env)
    requires Sound(mode, s) && s.outcome.None?
    ensures Sound(mode, HandleTurnStarted(s, turnId, inProgress, env))
            && Sound(mode, HandleTurnEnded(s, turnId, status, env))
  {
    hide Fail, Reconcile, AcceptTerminal, Ingest, Sound, SeeTurn;
    FailKeeps(s);
    KeepsSound(mode, s, Fail(s));
    if turnId.Some? {
      SeeSound(mode, s, turnId.value);
      ReconcileSound(mode, SeeTurn(s, turnId.value), env);
      IngestSound(mode, Reconcile(SeeTurn(s, turnId.value), env), env);
      if status.Some? {
        FinishSound(mode, s, status.value, env);
        KeepsSound(mode, s, s.(terminals := s.terminals + [Terminal(turnId.value, status.value)]));
      }
    }
  }

  lemma SeeSound(mode: Mode, s: Task, turnId: Text)
    requires Sound(mode, s) && s.outcome.None?
    ensures Sound(mode, SeeTurn(s, turnId)) && SeeTurn(s, turnId).outcome.None?
  {
  }

  lemma NotificationSound(mode: Mode, s: Task, n: Notification, env: Env)
    requires Sound(mode, s) && s.outcome.None?
    ensures Sound(mode, HandleNotification(s, n, env))
  {
    hide Fail, HandleTurnStarted, HandleTurnEnded, CommandStarted, Ingest, Sound, ClaimThread, WatchedCommand;
    FailKeeps(s);
    KeepsSound(mode, s, Fail(s));
    var claimed := if n.ThreadStarted? && s.phase.StartingThread? then ClaimThread(s, n.thread) else s;
    if n.ThreadStarted? { ClaimSound(mode, s, n.thread); }
    FailKeeps(claimed);
    KeepsSound(mode, claimed, Fail(claimed));
    IngestSound(mode, claimed, env);
    match n
    case TurnStarted(_, turnId, inProgress) => TurnNoticesSound(mode, claimed, turnId, inProgress, None, env);
    case TurnEnded(_, turnId, status) => TurnNoticesSound(mode, claimed, turnId, true, status, env);
    case ItemStarted(_, command) =>
      if command.Some? {
        CommandKeeps(claimed, command.value, env);
        KeepsSound(mode, claimed, CommandStarted(claimed, command.value, env));
        IngestSound(mode, CommandStarted(claimed, command.value, env), env);
      }
    case _ =>
  }

  lemma ClaimSound(mode: Mode, s: Task, thread: Option<Text>)
    requires Sound(mode, s)
    ensures Sound(mode, ClaimThread(s, thread))
  {
    hide Fail;
    FailKeeps(s);
    KeepsSound(mode, s, Fail(s));
  }

  lemma LineSound(mode: Mode, s: Task, line: Line, env: Env)
    requires Sound(mode, s)
    ensures Sound(mode, HandleLine(s, line, env))
  {
    hide Fail, HandleAnswer, HandleNotification, Sound;
    if s.outcome.None? {
      var heard := s.(trace := s.trace + [Heard(line)]);
      KeepsSound(mode, s, heard);
      FailKeeps(heard);
      KeepsSound(mode, heard, Fail(heard));
      match line
      case AnswerLine(answer) => AnswerSound(mode, heard, answer, env);
      case NotificationLine(n) => NotificationSound(mode, heard, n, env);
      case _ =>
    }
  }

  lemma SoundIsNearly(mode: Mode, s: Task)
    requires Sound(mode, s)
    ensures NearlySound(mode, s)
  {
  }

  lemma AcceptSound(mode: Mode, s: Task)
    requires NearlySound(mode, s)
    ensures Sound(mode, Accept(s))
  {
    hide MaybeConfirm;
    ConfirmSound(mode, s.(accepted := true, timer := if s.terminal.None? then Some(Confirmation) else s.timer));
  }

  lemma JobSound(mode: Mode, s: Task)
    requires Sound(mode, s)
    ensures Sound(mode, RunHead(s))
  {
    hide AfterSettle, SettlementOf, Accept, Fail, Sound;
    if s.jobs != [] {
      var popped := s.(jobs := s.jobs[1..]);
      KeepsSound(mode, s, popped);
      if s.jobs[0].Settle? { KeepsSound(mode, s, RunHead(s)); }
      SoundIsNearly(mode, popped);
      AcceptSound(mode, popped);
      FailKeeps(popped);
      KeepsSound(mode, popped, Fail(popped));
    }
  }

  lemma OutsideSound(mode: Mode, s: Task, e: Event)
    requires Sound(mode, s) && (e.Dispatch? || e.ProofTimer?)
    ensures Sound(mode, Next(s, e))
  {
    hide Fail, DispatchAction, ProofTimerFires, Sound;
    if e.Dispatch? {
      DispatchChanges(s, e.action, e.env);
      KeepsSound(mode, s, DispatchAction(s, e.action, e.env));
    } else {
      TimerChanges(s, e.env);
      FailKeeps(s.(timer := None));
      KeepsSound(mode, s, ProofTimerFires(s, e.env));
    }
  }

  lemma OtherEventSound(mode: Mode, s: Task, e: Event)
    requires Sound(mode, s) && !e.LineRead? && !e.RunJob? && !e.Dispatch? && !e.ProofTimer?
    ensures Sound(mode, Next(s, e))
  {
    hide Fail, Accept, LoseResponse, AdmitAction, Closed, Sound;
    FailKeeps(s);
    KeepsSound(mode, s, Fail(s));
    match e
    case Admit(action) => AdmitSound(mode, s, action);
    case ActivationTimer =>
      KeepsSound(mode, s, s.(activationArmed := false));
      FailKeeps(s.(activationArmed := false));
      KeepsSound(mode, s.(activationArmed := false), Fail(s.(activationArmed := false)));
    case ResponseLost(id) => LossSound(mode, s, id);
    case ProofClientDone(_) =>
      SoundIsNearly(mode, s);
      AcceptSound(mode, s);
    case Close(code, disconnects) => CloseSound(mode, s, code, disconnects);
    case _ =>
  }

  lemma AdmitSound(mode: Mode, s: Task, action: FileReplayStore.Action)
    requires Sound(mode, s)
    ensures Sound(mode, AdmitAction(s, action))
  {
    hide Fail;
    FailKeeps(s);
    KeepsSound(mode, s, Fail(s));
  }

  lemma LossSound(mode: Mode, s: Task, id: Text)
    requires Sound(mode, s)
    ensures Sound(mode, LoseResponse(s, id))
  {
    hide IndexOf, Sound;
    KeepsSound(mode, s, LoseResponse(s, id));
  }

  lemma CloseSound(mode: Mode, s: Task, code: int, disconnects: bool)
    requires Sound(mode, s)
    ensures Sound(mode, Closed(s, code, disconnects))
  {
    hide LostJobs;
  }

  lemma {:induction false} EveryRunIsSound(mode: Mode, events: seq<Event>)
    ensures Sound(mode, RunOf(mode, events))
    decreases |events|
  {
    hide Sound, HandleLine, RunHead, DispatchAction, ProofTimerFires;
    if events == [] {
      FreshSound(mode);
    } else {
      var s, e := RunOf(mode, events[..|events| - 1]), events[|events| - 1];
      EveryRunIsSound(mode, events[..|events| - 1]);
      if e.LineRead? { LineSound(mode, s, e.line, e.env); }
      else if e.RunJob? { JobSound(mode, s); }
      else if e.Dispatch? || e.ProofTimer? { OutsideSound(mode, s, e); }
      else { OtherEventSound(mode, s, e); }
    }
  }

  lemma FreshSound(mode: Mode)
    ensures Sound(mode, Fresh(mode))
  {
  }

  // An event other than the child's end may fail the run, and nothing else gives it an outcome.

  predicate OnlyFails(s: Task, t: Task) { t.outcome == s.outcome || (s.outcome.None? && t.outcome == Some(Failure)) }

  lemma FailOnly(s: Task)
    ensures OnlyFails(s, Fail(s)) && (s.outcome.None? ==> Fail(s).outcome == Some(Failure))
  {
    hide LostJobs;
  }

  lemma IngestOnly(s: Task, env: Env)
    ensures OnlyFails(s, Ingest(s, env))
  {
    hide Fail;
    FailOnly(s);
  }

  lemma FinishOnly(s: Task, status: Status, env: Env)
    ensures OnlyFails(s, AcceptTerminal(s, status, env))
  {
    hide Fail;
    var ended := Revoke(s.(terminal := Some(status), marks := s.marks.(ended := |s.trace| - 1)));
    FailOnly(s);
    FailOnly(ended);
  }

  lemma ReconcileOnly(s: Task, env: Env)
    ensures OnlyFails(s, Reconcile(s, env))
  {
    hide Fail, AcceptTerminal, TakeEarly, AfterReconcile;
    var drained := s.(terminals := []);
    FailOnly(s);
    AfterReconcileKeeps(drained, env);
    if s.early.Some? { TakeEarlyKeeps(drained, s.early.value, env); }
    if s.expected.Some? && TerminalFor(s.terminals, s.expected.value).Some? {
      FinishOnly(drained, TerminalFor(s.terminals, s.expected.value).value.status, env);
    }
  }

  lemma StartedOnly(s: Task, turnId: Option<Text>, inProgress: bool, env: Env)
    ensures OnlyFails(s, HandleTurnStarted(s, turnId, inProgress, env))
  {
    hide Fail, Ingest, Reconcile;
    FailOnly(s);
    if turnId.Some? {
      ReconcileOnly(SeeTurn(s, turnId.value), env);
      IngestOnly(Reconcile(SeeTurn(s, turnId.value), env), env);
    }
  }

  lemma CommandOnly(s: Task, c: Command, env: Env)
    ensures OnlyFails(s, Ingest(CommandStarted(s, c, env), env))
  {
    hide CommandStarted, Ingest;
    CommandKeeps(s, c, env);
    IngestOnly(CommandStarted(s, c, env), env);
  }

  lemma ClaimOnly(s: Task, thread: Option<Text>)
    ensures OnlyFails(s, ClaimThread(s, thread))
  {
    hide Fail;
    FailOnly(s);
  }

  lemma AnswerOnly(s: Task, a: ServerAnswer, env: Env)
    ensures OnlyFails(s, HandleAnswer(s, a, env))
  {
    hide IndexOf, HandleActionAnswer, PhaseAnswer, Fail;
    FailOnly(s);
    var waiting := if a.id.TextId? then IndexOf(s.pending, a.id.text) else None;
    if waiting.Some? { ActionAnswerOnly(s, a, waiting.value); }
    PhaseAnswerOnly(s, a, env);
  }

  lemma ActionAnswerOnly(s: Task, a: ServerAnswer, n: nat)
    requires n < |s.pending|
    ensures OnlyFails(s, HandleActionAnswer(s, a, n))
  {
    hide Fail;
    FailOnly(s);
  }

  lemma PhaseAnswerOnly(s: Task, a: ServerAnswer, env: Env)
    ensures OnlyFails(s, PhaseAnswer(s, a, env))
  {
    hide Fail, ClaimThread, Reconcile, ArmActivation, LearnTurn;
    FailOnly(s);
    ClaimOnly(s, a.threadId);
    ArmingOnly(s.(phase := StartingTurn, trace := s.trace + [TurnStartSent]));
    if a.turnId.Some? { LearningOnly(s, a.turnId.value); }
    if a.turnId.Some? { ReconcileOnly(LearnTurn(s, a.turnId.value), env); }
  }

  lemma ArmingOnly(s: Task)
    ensures ArmActivation(s).outcome == s.outcome
  {
  }

  lemma LearningOnly(s: Task, turnId: Text)
    ensures LearnTurn(s, turnId).outcome == s.outcome
  {
  }

  lemma NotificationOnly(s: Task, n: Notification, env: Env)
    ensures OnlyFails(s, HandleNotification(s, n, env))
  {
    hide Fail, ClaimThread, HandleTurnStarted, CommandStarted, Ingest, AcceptTerminal, WatchedCommand;
    var claimed := if n.ThreadStarted? && s.phase.StartingThread? then ClaimThread(s, n.thread) else s;
    if n.ThreadStarted? { ClaimOnly(s, n.thread); }
    FailOnly(s);
    FailOnly(claimed);
    IngestOnly(claimed, env);
    match n
    case TurnStarted(_, turnId, inProgress) => StartedOnly(s, turnId, inProgress, env);
    case ItemStarted(_, command) => if command.Some? { CommandOnly(s, command.value, env); }
    case TurnEnded(_, _, status) => if status.Some? { FinishOnly(s, status.value, env); }
    case _ =>
  }

  lemma LineOnly(s: Task, line: Line, env: Env)
    ensures OnlyFails(s, HandleLine(s, line, env))
  {
    hide HandleAnswer, HandleNotification, Fail;
    var heard := s.(trace := s.trace + [Heard(line)]);
    FailOnly(heard);
    match line
    case AnswerLine(a) => AnswerOnly(heard, a, env);
    case NotificationLine(n) => NotificationOnly(heard, n, env);
    case _ =>
  }

  lemma JobOnly(s: Task)
    ensures OnlyFails(s, RunHead(s))
  {
    hide Fail, AfterSettle, SettlementOf, Accept;
    if s.jobs != [] {
      var popped := s.(jobs := s.jobs[1..]);
      FailOnly(popped);
      AcceptOnly(popped);
    }
  }

  lemma AcceptOnly(s: Task)
    ensures OnlyFails(s, Accept(s))
  {
    hide MaybeConfirm;
    ConfirmOnly(s.(accepted := true, timer := if s.terminal.None? then Some(Confirmation) else s.timer));
  }

  lemma ConfirmOnly(s: Task)
    ensures OnlyFails(s, MaybeConfirm(s))
  {
    hide Fail;
    FailOnly(s);
  }

  lemma OtherOnly(s: Task, e: Event)
    requires e.Admit? || e.ActivationTimer? || e.ResponseLost? || e.ProofClientDone? || e.Fault?
    ensures OnlyFails(s, Next(s, e))
  {
    hide Fail, LoseResponse, Accept;
    FailOnly(s);
    FailOnly(s.(activationArmed := false));
    AcceptOnly(s);
    if e.ResponseLost? { LossOnly(s, e.id); }
  }

  lemma LossOnly(s: Task, id: Text)
    ensures OnlyFails(s, LoseResponse(s, id))
  {
    hide IndexOf;
  }

  lemma OutsideOnly(s: Task, e: Event)
    requires e.Dispatch? || e.ProofTimer?
    ensures OnlyFails(s, Next(s, e))
  {
    hide Fail, DispatchAction, ProofTimerFires;
    if e.Dispatch? {
      DispatchChanges(s, e.action, e.env);
    } else {
      TimerChanges(s, e.env);
      FailOnly(s.(timer := None));
    }
  }

  lemma EventOnly(s: Task, e: Event)
    requires !e.Close?
    ensures OnlyFails(s, Next(s, e))
  {
    hide HandleLine, RunHead;
    if e.LineRead? { LineOnly(s, e.line, e.env); }
    else if e.RunJob? { JobOnly(s); }
    else if e.Dispatch? || e.ProofTimer? { OutsideOnly(s, e); }
    else { OtherOnly(s, e); }
  }

  /**
   A proof run of any mode resolves only with the turn interrupted and its actions accepted, and the
   proofs around a command only after the App Server's exact response.
   */
  lemma ProofSuccessIsInterruption(mode: Mode, events: seq<Event>, status: Status)
    requires !mode.NoProof? && RunOf(mode, events).outcome == Some(Success(status))
    ensures var s := RunOf(mode, events);
            && status == Interrupted && s.terminal == Some(Interrupted) && s.accepted && s.confirmed
            && (NeedsCommand(mode) ==> s.responseSeen)
  {
    EveryRunIsSound(mode, events);
  }

  /** An outcome is final. */
  lemma OutcomeIsFinal(s: Task, e: Event)
    requires Settled(s)
    ensures Next(s, e).outcome == s.outcome && Next(s, e).mode == s.mode
  {
    hide Next;
    SettledStays(s, e);
  }

  /** What no event changes any more once a run has an outcome. */
  predicate Stays(s: Task, t: Task) {
    t.outcome == s.outcome && t.mode == s.mode && t.contextLive == s.contextLive
    && t.trace in [s.trace, s.trace + [Dispatched]]
  }

  lemma SettledStays(s: Task, e: Event)
    requires Settled(s)
    ensures Stays(s, Next(s, e))
  {
    hide RunHead, DispatchAction, ProofTimerFires, LoseResponse;
    match e
    case RunJob => SettledJob(s);
    case Dispatch(action, env) => SettledDispatch(s, action, env);
    case ProofTimer(env) => SettledTimer(s, env);
    case ResponseLost(id) => SettledLoss(s, id);
    case _ =>
  }

  lemma SettledJob(s: Task)
    requires Settled(s)
    ensures Stays(s, RunHead(s))
  {
    hide AfterSettle, SettlementOf, Accept, Fail;
    if s.jobs != [] { SettledContinuation(s.(jobs := s.jobs[1..])); }
  }

  lemma SettledContinuation(s: Task)
    requires Settled(s)
    ensures Stays(s, Accept(s)) && Fail(s) == s
  {
    hide End;
  }

  lemma SettledDispatch(s: Task, action: FileReplayStore.Action, env: Env)
    requires Settled(s)
    ensures Stays(s, DispatchAction(s, action, env))
  {
    hide DispatchAction;
    DispatchChanges(s, action, env);
  }

  lemma SettledTimer(s: Task, env: Env)
    requires Settled(s)
    ensures Stays(s, ProofTimerFires(s, env))
  {
    hide ProofTimerFires;
    TimerChanges(s, env);
  }

  lemma SettledLoss(s: Task, id: Text)
    requires Settled(s)
    ensures Stays(s, LoseResponse(s, id))
  {
    hide IndexOf;
  }

  /** The child's exit that makes a run succeed: nothing failed, the turn ended, and a proof's actions were accepted. */
  ghost predicate Concludes(mode: Mode, before: seq<Event>, e: Event, status: Status) {
    && e.Close? && e.code == 0
    && var s := RunOf(mode, before);
       && s.outcome.None? && s.jobs == [] && s.terminal == Some(status)
       && (!mode.NoProof? ==> status == Interrupted && s.accepted)
  }

  lemma ClosesExactly(mode: Mode, before: seq<Event>, e: Event, status: Status)
    requires RunOf(mode, before).outcome.None?
    ensures Next(RunOf(mode, before), e).outcome == Some(Success(status)) <==> Concludes(mode, before, e, status)
  {
    hide Next, RunOf;
    EveryRunIsSound(mode, before);
    NextSucceedsExactly(mode, RunOf(mode, before), e, status);
  }

  lemma NextSucceedsExactly(mode: Mode, s: Task, e: Event, status: Status)
    requires Sound(mode, s) && s.outcome.None?
    ensures Next(s, e).outcome == Some(Success(status)) <==>
              && e.Close? && e.code == 0 && s.jobs == [] && s.terminal == Some(status)
              && (!mode.NoProof? ==> status == Interrupted && s.accepted)
  {
    hide LostJobs;
    if !e.Close? {
      hide Next;
      EventOnly(s, e);
    }
  }

  /**
   A run of any mode succeeds exactly when the child exits with code 0 after its turn has ended and
   nothing has failed; a proof also needs its actions accepted and the turn interrupted.
   */
  lemma {:induction false} RunSucceedsExactly(mode: Mode, events: seq<Event>, status: Status)
    ensures RunOf(mode, events).outcome == Some(Success(status))
            <==> exists n :: 0 <= n < |events| && Concludes(mode, events[..n], events[n], status)
    decreases |events|
  {
    hide Next, Concludes;
    if events != [] {
      var n := |events| - 1;
      var front, e := events[..n], events[n];
      RunSucceedsExactly(mode, front, status);
      assert forall m :: 0 <= m < n ==> front[..m] == events[..m] && front[m] == events[m];
      if RunOf(mode, front).outcome.None? {
        ClosesExactly(mode, front, e, status);
      } else {
        SettledStays(RunOf(mode, front), e);
        assert !Concludes(mode, front, e, status) by { SettledConcludesNoMore(mode, front, e, status); }
      }
      ConcludedOnceMore(mode, events, status);
    }
  }

  lemma SettledConcludesNoMore(mode: Mode, before: seq<Event>, e: Event, status: Status)
    requires RunOf(mode, before).outcome.Some?
    ensures !Concludes(mode, before, e, status)
  {
  }

  lemma ConcludedOnceMore(mode: Mode, events: seq<Event>, status: Status)
    requires events != []
    ensures var n := |events| - 1;
            (exists m :: 0 <= m < |events| && Concludes(mode, events[..m], events[m], status)) <==>
              || Concludes(mode, events[..n], events[n], status)
              || exists m :: 0 <= m < n && Concludes(mode, events[..n][..m], events[..n][m], status)
  {
    hide Concludes;
    var n := |events| - 1;
    assert forall m :: 0 <= m < n ==> events[..n][..m] == events[..m] && events[..n][m] == events[m];
  }
}
