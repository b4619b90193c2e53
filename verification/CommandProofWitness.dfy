/**
 The success story is not empty: for each proof around a command a run that succeeds, event by event.
 And a failed external-stop run can have a live context: such a run.
 */
module CommandProofWitness {
  import opened Collections
  import opened JsonGrammar
  import opened RemoteActionReceipt
  import opened RelayTurnAction
  import opened OwnedTask
  import opened TurnCorrelation
  import opened SettledRuns
  import FileReplayStore

  // A run that succeeds.

  const FINE := Env(true, true, true, true, true, true, true)
  const THREAD: Text := [0x68]
  const TURN: Text := [0x74]
  const COMMAND := Command(TURN, [0x63], [0x61])
  const INSTANT := FileReplayStore.Instant([], None)
  const STOP_ACTION := FileReplayStore.Action([0x73], [], INSTANT, INSTANT, Stop, [])

  /** Where a proof's Stop comes from: the phone, or the end of the observation window. */
  function StopId(mode: Mode): Text { if mode.ExternalStop? then [0x73] else LOCAL_PROOF_ACTION_ID }

  function StopFor(mode: Mode): PrivateAction { PrivateAction(StopId(mode), Stop, THREAD, TURN, []) }

  function StopEvent(mode: Mode): Event {
    if mode.ExternalStop? then Dispatch(STOP_ACTION, FINE) else ProofTimer(FINE)
  }

  function Reply(id: MessageId, result: ResultField): Line {
    AnswerLine(ServerAnswer(id, None, Some(result), 2, Some(THREAD), true, Some(TURN)))
  }

  const TO_TURN_START := [
    LineRead(Reply(NumericId(0), OtherObject), FINE), LineRead(Reply(NumericId(1), OtherObject), FINE),
    LineRead(Reply(NumericId(2), OtherObject), FINE)]

  const FACTS := [Answered(TURN), Began(TURN), Ran(COMMAND)]

  function Heard(f: Fact): Event { LineRead(LineOf(f, THREAD), FINE) }

  const TURN_END := LineRead(NotificationLine(TurnEnded(THREAD, Some(TURN), Some(Interrupted))), FINE)

  function ToTheEnd(mode: Mode): seq<Event> {
    [Admit(STOP_ACTION), StopEvent(mode), LineRead(Reply(TextId(StopId(mode)), EmptyObject), FINE), RunJob, RunJob,
     TURN_END, Close(0, true)]
  }

  function After(s: Task, events: seq<Event>): Task
    decreases |events|
  {
    if events == [] then s else After(Next(s, events[0]), events[1..])
  }

  lemma {:induction false} AfterIsRun(mode: Mode, before: seq<Event>, events: seq<Event>)
    ensures RunOf(mode, before + events) == After(RunOf(mode, before), events)
    decreases |events|
  {
    hide Next;
    if events == [] {
      assert before + events == before;
    } else {
      var more := before + [events[0]];
      assert more[..|more| - 1] == before && before + events == more + events[1..];
      AfterIsRun(mode, more, events[1..]);
    }
  }

  lemma TurnStartReached(mode: Mode)
    requires NeedsCommand(mode)
    ensures var s := After(Fresh(mode), TO_TURN_START); TurnStartJustSent(s, THREAD) && Untouched(s) && s.observed.None?
    ensures After(Fresh(mode), TO_TURN_START).mode == mode
  {
    var s0 := Fresh(mode);
    var s1 := Next(s0, TO_TURN_START[0]);
    var s2 := Next(s1, TO_TURN_START[1]);
    var s3 := Next(s2, TO_TURN_START[2]);
    assert TO_TURN_START[1..][1..][1..] == [];
    assert After(s0, TO_TURN_START) == After(s1, TO_TURN_START[1..]) == After(s2, TO_TURN_START[1..][1..])
           == After(s3, []);
  }

  /** What matters once turn/start has been sent, apart from how far the turn is known. */
  predicate Untouched(s: Task) {
    && NeedsCommand(s.mode) && s.thread == Some(THREAD) && s.early.None? && s.jobs == [] && s.admitted.None?
    && !s.responseSeen && !s.confirmed && !s.accepted
  }

  lemma AnswerHeard(s: Task)
    requires Untouched(s) && Waiting(s) && s.phase.StartingTurn? && s.expected.None? && s.observed.None?
    ensures var t := Next(s, Heard(Answered(TURN)));
            Untouched(t) && Waiting(t) && t.mode == s.mode && t.phase.Running? && t.expected == Some(TURN)
            && t.observed.None?
  {
    hide Reconcile;
    var h := s.(trace := s.trace + [Note.Heard(LineOf(Answered(TURN), THREAD))]);
    ReconcileWaits(LearnTurn(h, TURN), FINE);
  }

  lemma StartHeard(s: Task)
    requires Untouched(s) && Waiting(s) && s.phase.Running? && s.expected == Some(TURN) && s.observed.None?
    ensures var t := Next(s, Heard(Began(TURN)));
            Untouched(t) && Waiting(t) && t.mode == s.mode && t.phase.Running? && t.expected == Some(TURN) == t.observed
  {
    hide Reconcile;
    var h := s.(trace := s.trace + [Note.Heard(LineOf(Began(TURN), THREAD))]);
    ReconcileWithoutCommand(SeeTurn(h, TURN), FINE);
  }

  /** The proof has begun and its boundary is fresh. */
  predicate Started(s: Task) {
    && NeedsCommand(s.mode) && s.outcome.None? && s.phase.Running? && s.thread == Some(THREAD)
    && s.expected == Some(TURN) == s.observed && s.terminal.None? && s.started && !s.confirmed
    && s.boundary == Some(Boundary(THREAD, false, false, [])) && s.pending == [] && s.jobs == [] && !s.responseSeen
    && s.contextLive == s.mode.ExternalStop? && (s.mode.LocalLongTask? ==> s.timer == Some(Observation))
  }

  lemma CommandHeard(s: Task)
    requires Untouched(s) && Waiting(s) && s.phase.Running? && s.expected == Some(TURN) == s.observed
    ensures var t := Next(s, Heard(Ran(COMMAND))); Started(t) && t.admitted.None? && t.mode == s.mode
  {
    hide StartFromCommand;
    var h := s.(trace := s.trace + [Note.Heard(LineOf(Ran(COMMAND), THREAD))]);
    StartBegins(h.(marks := h.marks.(command := |h.trace| - 1)), COMMAND, FINE);
  }

  lemma StopDispatches(s: Task)
    requires Started(s) && s.admitted.None?
    ensures var t := Next(Next(s, Admit(STOP_ACTION)), StopEvent(s.mode));
            Interrupting(t) && t.mode == s.mode && t.pending == [StopFor(s.mode)]
  {
    hide BeginProofDispatch;
    var admitted := Next(s, Admit(STOP_ACTION));
    assert admitted == if s.mode.ExternalStop? then s.(admitted := Some(STOP_ACTION)) else s;
    DispatchWrites(admitted.(timer := None));
  }

  /** The interrupt is written and the turn has not ended. */
  predicate Interrupting(s: Task) {
    && NeedsCommand(s.mode) && s.outcome.None? && s.phase.Running? && s.thread == Some(THREAD)
    && s.expected == Some(TURN) && s.terminal.None? && s.started && !s.confirmed && s.boundary.Some? && s.jobs == []
  }

  lemma DispatchWrites(s: Task)
    requires Started(s.(timer := if s.mode.LocalLongTask? then Some(Observation) else None))
    ensures var t := BeginProofDispatch(s, StopFor(s.mode), FINE);
            Interrupting(t) && t.mode == s.mode && t.pending == [StopFor(s.mode)]
  {
    var marked, stop := MarkDispatch(s), StopFor(s.mode);
    assert AfterBegin(marked.boundary.value, Some(stop), Turn(TURN)).1 == Sent(stop, RequestFor(stop));
  }

  lemma ResponseSettles(s: Task)
    requires Interrupting(s) && s.pending == [StopFor(s.mode)]
    ensures var t := Next(s, LineRead(Reply(TextId(StopId(s.mode)), EmptyObject), FINE));
            t == s.(trace := t.trace, marks := t.marks, responseSeen := true, pending := [],
                    jobs := [Settle(StopFor(s.mode), Delivered(Response(StopId(s.mode), None, Some(EmptyObject))))])
  {
    assert IndexOf([StopFor(s.mode)], StopId(s.mode)) == Some(0);
  }

  lemma JobsAccept(s: Task)
    requires NeedsCommand(s.mode) && s.outcome.None? && s.terminal.None? && !s.confirmed && s.boundary.Some?
    requires s.jobs == [Settle(StopFor(s.mode), Delivered(Response(StopId(s.mode), None, Some(EmptyObject))))]
    ensures var t := Next(Next(s, RunJob), RunJob);
            t == s.(boundary := t.boundary, jobs := [], accepted := true, timer := Some(Confirmation))
  {
    var t := Next(s, RunJob);
    var settlement := AcceptedBy(Correlation(StopId(s.mode), Stop), TurnInterrupt);
    assert SettlementOf(StopFor(s.mode), s.jobs[0].delivery) == settlement;
    assert s.jobs[1..] == [] && t.jobs == [ProofSettled(StopId(s.mode), settlement)];
    assert t.jobs[1..] == [];
  }

  lemma EndConfirms(s: Task)
    requires NeedsCommand(s.mode) && s.outcome.None? && s.terminal.None? && !s.confirmed && s.accepted && s.responseSeen
    requires s.phase.Running? && s.thread == Some(THREAD) && s.expected == Some(TURN) && s.started && s.jobs == []
    ensures var t := Next(s, TURN_END);
            t.mode == s.mode && t.outcome.None? && t.confirmed && t.terminal == Some(Interrupted) && t.jobs == []
  {
  }

  lemma CloseSucceeds(s: Task)
    requires NeedsCommand(s.mode) && s.outcome.None? && s.confirmed && s.terminal == Some(Interrupted) && s.jobs == []
    ensures Next(s, Close(0, true)).outcome == Some(Success(Interrupted))
  {
  }

  lemma EndReached(s: Task)
    requires Started(s) && s.admitted.None?
    ensures After(s, ToTheEnd(s.mode)).outcome == Some(Success(Interrupted))
  {
    hide Next;
    var e := ToTheEnd(s.mode);
    StopDispatches(s);
    var s2 := Next(Next(s, e[0]), e[1]);
    ResponseSettles(s2);
    var s3 := Next(s2, e[2]);
    JobsAccept(s3);
    var s5 := Next(Next(s3, e[3]), e[4]);
    EndConfirms(s5);
    CloseSucceeds(Next(s5, e[5]));
    SevenSteps(s, e);
  }

  lemma SevenSteps(s: Task, e: seq<Event>)
    requires |e| == 7
    ensures After(s, e) == Next(Next(Next(Next(Next(Next(Next(s, e[0]), e[1]), e[2]), e[3]), e[4]), e[5]), e[6])
  {
    hide Next;
    var s1 := Next(s, e[0]);
    var s2 := Next(s1, e[1]);
    var s3 := Next(s2, e[2]);
    var s4 := Next(s3, e[3]);
    var s5 := Next(s4, e[4]);
    var s6 := Next(s5, e[5]);
    assert After(s, e) == After(s1, e[1..]);
    assert e[1..][1..] == e[2..] && After(s1, e[1..]) == After(s2, e[2..]);
    assert e[2..][1..] == e[3..] && After(s2, e[2..]) == After(s3, e[3..]);
    assert e[3..][1..] == e[4..] && After(s3, e[3..]) == After(s4, e[4..]);
    assert e[4..][1..] == e[5..] && After(s4, e[4..]) == After(s5, e[5..]);
    assert e[5..][1..] == e[6..] && After(s5, e[5..]) == After(s6, e[6..]);
    var last := e[6..];
    assert last == [e[6]] && last[1..] == [];
    assert After(s6, last) == After(Next(s6, last[0]), last[1..]);
  }

  /** In each mode some run succeeds, so the success story is about something. */
  lemma SuccessIsPossible(mode: Mode)
    requires NeedsCommand(mode)
    ensures exists events :: RunOf(mode, events).outcome == Some(Success(Interrupted))
  {
    hide Next;
    var s3 := After(Fresh(mode), TO_TURN_START);
    TurnStartReached(mode);
    var facts := [Heard(FACTS[0]), Heard(FACTS[1]), Heard(FACTS[2])];
    AnswerHeard(s3);
    StartHeard(Next(s3, facts[0]));
    CommandHeard(Next(Next(s3, facts[0]), facts[1]));
    ThreeSteps(s3, facts);
    EndReached(After(s3, facts));
    AfterIsRun(mode, [], TO_TURN_START);
    assert [] + TO_TURN_START == TO_TURN_START;
    AfterIsRun(mode, TO_TURN_START, facts);
    AfterIsRun(mode, TO_TURN_START + facts, ToTheEnd(mode));
  }

  lemma ThreeSteps(s: Task, e: seq<Event>)
    requires |e| == 3
    ensures After(s, e) == Next(Next(Next(s, e[0]), e[1]), e[2])
  {
    hide Next;
    assert e[1..][1..] == e[2..] && e[2..][1..] == [];
    assert After(s, e) == After(Next(s, e[0]), e[1..]);
    assert After(Next(s, e[0]), e[1..]) == After(Next(Next(s, e[0]), e[1]), e[2..]);
    var t := Next(Next(s, e[0]), e[1]);
    assert After(t, e[2..]) == Next(t, e[2]);
  }

  // A run that fails and still has a live context.

  /** The first activation fails, the second succeeds. */
  const LATE := Env(true, false, true, true, true, true, true)

  /** The command comes before the turn, and the turn's start is read while activation is failing. */
  const TO_LATE_CONTEXT := [Heard(Answered(TURN)), Heard(Ran(COMMAND)), LineRead(LineOf(Began(TURN), THREAD), LATE)]

  lemma EarlyCommandHeard(s: Task)
    requires Untouched(s) && Waiting(s) && s.phase.Running? && s.expected == Some(TURN) && s.observed.None?
    ensures var t := Next(s, Heard(Ran(COMMAND)));
            t.outcome.None? && t.early == Some(COMMAND) && t.expected == Some(TURN) && t.thread == Some(THREAD)
            && t.terminals == []
  {
  }

  lemma FailedRunMayShowContext()
    ensures exists events ::
              RunOf(ExternalStop, events).outcome == Some(Failure) && RunOf(ExternalStop, events).contextLive
  {
    hide Next, Untouched, Waiting, TurnStartJustSent;
    var e := TO_LATE_CONTEXT;
    var before, events := TO_TURN_START + e[..2], TO_TURN_START + e;
    var s3 := After(Fresh(ExternalStop), TO_TURN_START);
    TurnStartReached(ExternalStop);
    SentIsWaiting(s3);
    AnswerHeard(s3);
    EarlyCommandHeard(Next(s3, e[0]));
    AfterIsRun(ExternalStop, [], TO_TURN_START);
    assert [] + TO_TURN_START == TO_TURN_START;
    AfterIsRun(ExternalStop, TO_TURN_START, e[..2]);
    TwoSteps(s3, e[..2]);
    assert events[..|events| - 1] == before && events[|before|] == e[2];
    assert ShowsLate(RunOf(ExternalStop, before), e[2]);
    assert ShowsLate(RunOf(ExternalStop, events[..|before|]), events[|before|]);
    FailedRunShowsContextExactly(events);
  }

  lemma SentIsWaiting(s: Task)
    requires TurnStartJustSent(s, THREAD) && Untouched(s)
    ensures Waiting(s) && s.phase.StartingTurn? && s.expected.None?
  {
  }

  lemma TwoSteps(s: Task, e: seq<Event>)
    requires |e| == 2
    ensures After(s, e) == Next(Next(s, e[0]), e[1])
  {
    hide Next;
    assert e[1..][1..] == [];
    assert After(s, e) == After(Next(s, e[0]), e[1..]) == After(Next(Next(s, e[0]), e[1]), []);
  }
}
