/**
 Runs without a proof, and with the loopback proof, that succeed: one for each status a turn can end with,
 and one whose proof client is done before the turn is interrupted.
 */
module PlainRunsWitness {
  import opened Collections
  import opened JsonGrammar
  import opened RemoteActionReceipt
  import opened RelayTurnAction
  import opened OwnedTask
  import opened TurnCorrelation
  import opened W = CommandProofWitness

  /** Everything up to the turn's end, of a run that needs no command. */
  predicate NeedsNoCommand(mode: Mode) { mode.NoProof? || mode.Loopback? }

  ghost predicate Opened(s: Task) {
    && NeedsNoCommand(s.mode) && Waiting(s) && s.jobs == [] && s.thread == Some(THREAD) && s.early.None?
    && !s.accepted && !s.confirmed
  }

  /** The turn runs, and a proof has begun. */
  predicate TurnRuns(s: Task) {
    && NeedsNoCommand(s.mode) && s.outcome.None? && s.terminal.None? && s.pending == [] && s.jobs == []
    && s.thread == Some(THREAD) && s.phase.Running? && s.expected == Some(TURN) == s.observed && !s.accepted
    && !s.confirmed && (s.started <==> s.mode.Loopback?)
  }

  lemma OpeningReached(mode: Mode)
    requires NeedsNoCommand(mode)
    ensures var s := After(Fresh(mode), TO_TURN_START);
            Opened(s) && s.mode == mode && s.phase.StartingTurn? && s.expected.None? && s.observed.None?
  {
    ThreeSteps(Fresh(mode), TO_TURN_START);
  }

  lemma AnswerOpens(s: Task)
    requires Opened(s) && s.phase.StartingTurn? && s.expected.None? && s.observed.None?
    ensures var t := Next(s, W.Heard(Answered(TURN)));
            Opened(t) && t.mode == s.mode && t.phase.Running? && t.expected == Some(TURN) && t.observed.None?
  {
    hide Reconcile;
    var h := s.(trace := s.trace + [Note.Heard(LineOf(Answered(TURN), THREAD))]);
    ReconcileWaits(LearnTurn(h, TURN), FINE);
  }

  lemma StartRuns(s: Task)
    requires Opened(s) && s.phase.Running? && s.expected == Some(TURN) && s.observed.None?
    ensures var t := Next(s, W.Heard(Began(TURN))); TurnRuns(t) && t.mode == s.mode
  {
    hide Reconcile;
    var seen := SeeTurn(s.(trace := s.trace + [Note.Heard(LineOf(Began(TURN), THREAD))]), TURN);
    if s.mode.NoProof? { ReconcileWithoutCommand(seen, FINE); } else { ReconcileLoopback(seen, FINE); }
  }

  lemma TurnReached(mode: Mode)
    requires NeedsNoCommand(mode)
    ensures exists events :: TurnRuns(RunOf(mode, events)) && RunOf(mode, events).mode == mode
  {
    hide Next, Opened, TurnRuns;
    var s3 := After(Fresh(mode), TO_TURN_START);
    OpeningReached(mode);
    AnswerOpens(s3);
    StartRuns(Next(s3, W.Heard(Answered(TURN))));
    var facts := [W.Heard(Answered(TURN)), W.Heard(Began(TURN))];
    TwoSteps(s3, facts);
    AfterIsRun(mode, [], TO_TURN_START);
    assert [] + TO_TURN_START == TO_TURN_START;
    AfterIsRun(mode, TO_TURN_START, facts);
    assert TurnRuns(RunOf(mode, TO_TURN_START + facts));
  }

  function TurnEnds(status: Status): Event {
    LineRead(NotificationLine(TurnEnded(THREAD, Some(TURN), Some(status))), FINE)
  }

  lemma PlainEndSucceeds(s: Task, status: Status)
    requires TurnRuns(s) && s.mode.NoProof?
    ensures Next(Next(s, TurnEnds(status)), Close(0, true)).outcome == Some(Success(status))
  {
  }

  /** A plain run can succeed with any of the three statuses a turn ends with. */
  lemma PlainSuccessIsPossible(status: Status)
    ensures exists events :: RunOf(NoProof, events).outcome == Some(Success(status))
  {
    hide Next, TurnRuns;
    TurnReached(NoProof);
    var events :| TurnRuns(RunOf(NoProof, events)) && RunOf(NoProof, events).mode == NoProof;
    PlainEndSucceeds(RunOf(NoProof, events), status);
    var more := [TurnEnds(status), Close(0, true)];
    TwoSteps(RunOf(NoProof, events), more);
    AfterIsRun(NoProof, events, more);
    assert RunOf(NoProof, events + more).outcome == Some(Success(status));
  }

  lemma ClientIsDone(s: Task)
    requires TurnRuns(s) && s.mode.Loopback?
    ensures Next(s, ProofClientDone(true)) == s.(accepted := true, timer := Some(Confirmation))
  {
  }

  lemma AcceptedEndConfirms(s: Task)
    requires TurnRuns(s.(accepted := false)) && s.mode.Loopback? && s.accepted
    ensures var t := Next(s, TurnEnds(Interrupted));
            t.outcome.None? && t.confirmed && t.terminal == Some(Interrupted) && t.jobs == []
  {
    hide Fail;
  }

  lemma ConfirmedCloses(s: Task)
    requires s.outcome.None? && s.confirmed && s.terminal == Some(Interrupted) && s.jobs == []
    ensures Next(s, Close(0, true)).outcome == Some(Success(Interrupted))
  {
  }

  lemma LoopbackEndSucceeds(s: Task)
    requires TurnRuns(s) && s.mode.Loopback?
    ensures Next(Next(Next(s, ProofClientDone(true)), TurnEnds(Interrupted)), Close(0, true)).outcome
            == Some(Success(Interrupted))
  {
    hide Next;
    ClientIsDone(s);
    AcceptedEndConfirms(s.(accepted := true, timer := Some(Confirmation)));
    ConfirmedCloses(Next(s.(accepted := true, timer := Some(Confirmation)), TurnEnds(Interrupted)));
  }

  /** A loopback proof can succeed: its client is done, then the turn is interrupted. */
  lemma LoopbackSuccessIsPossible()
    ensures exists events :: RunOf(Loopback, events).outcome == Some(Success(Interrupted))
  {
    hide Next, TurnRuns;
    TurnReached(Loopback);
    var events :| TurnRuns(RunOf(Loopback, events)) && RunOf(Loopback, events).mode == Loopback;
    LoopbackEndSucceeds(RunOf(Loopback, events));
    var more := [ProofClientDone(true), TurnEnds(Interrupted), Close(0, true)];
    ThreeSteps(RunOf(Loopback, events), more);
    AfterIsRun(Loopback, events, more);
    assert RunOf(Loopback, events + more).outcome == Some(Success(Interrupted));
  }
}
