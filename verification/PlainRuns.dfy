/**
 When a run without a proof succeeds, read off the events alone: the answer to turn/start named a turn,
 an end of that turn was heard on the claimed thread, nothing had failed, and the child exited with
 code 0. The status is that of the turn's first end.
 */
module PlainRuns {
  import opened Collections
  import opened JsonGrammar
  import opened RelayTurnAction
  import opened OwnedTask
  import opened OwnedTaskOutcomes

  // Reading the events.

  /** The run up to here has neither failed nor succeeded. */
  ghost predicate Unsettled(events: seq<Event>) { RunOf(NoProof, events).outcome.None? }

  /** The answer to turn/start, naming the turn. */
  predicate AnswersTurn(e: Event, turn: Text) {
    && e.LineRead? && e.line.AnswerLine? && e.line.answer.id == NumericId(3)
    && e.line.answer.error.None? && e.line.answer.turnId == Some(turn)
  }

  /** Some event answered turn/start with this turn. */
  ghost predicate TurnAnswered(events: seq<Event>, turn: Text) {
    exists n :: 0 <= n < |events| && AnswersTurn(events[n], turn)
  }

  /** The turn end an event is, if any, for the thread claimed at the time. */
  function EndIn(thread: Option<Text>, e: Event): seq<Terminal> {
    if e.LineRead? && e.line.NotificationLine? && e.line.notification.TurnEnded?
       && e.line.notification.turnId.Some? && e.line.notification.status.Some?
       && thread == Some(e.line.notification.threadId)
    then [Terminal(e.line.notification.turnId.value, e.line.notification.status.value)] else []
  }

  /** Every turn end heard, in order. */
  ghost function EndsHeard(events: seq<Event>): seq<Terminal>
    decreases |events|
  {
    if events == [] then []
    else
      var front := events[..|events| - 1];
      EndsHeard(front) + EndIn(RunOf(NoProof, front).thread, events[|events| - 1])
  }

  /** The first end of the turn has this status. */
  predicate FirstEnd(ends: seq<Terminal>, turn: Text, status: Status) {
    exists n :: 0 <= n < |ends| && ends[n] == Terminal(turn, status)
                && forall m :: 0 <= m < n ==> ends[m].turnId != turn
  }

  // What an open plain run knows.

  lemma {:induction false} FirstEndFound(ends: seq<Terminal>, turn: Text, status: Status)
    ensures StatusFor(ends, turn) == Some(status) <==> FirstEnd(ends, turn, status)
    decreases |ends|
  {
    hide FirstEnd;
    if ends == [] {
      NoFirstEnd(turn, status);
    } else {
      FirstEndFound(ends[1..], turn, status);
      FirstEndStep(ends, turn, status);
    }
  }

  lemma NoFirstEnd(turn: Text, status: Status)
    ensures !FirstEnd([], turn, status)
  {
  }

  lemma FirstEndStep(ends: seq<Terminal>, turn: Text, status: Status)
    requires ends != []
    ensures FirstEnd(ends, turn, status)
            <==> if ends[0].turnId == turn then ends[0].status == status else FirstEnd(ends[1..], turn, status)
  {
    var rest := ends[1..];
    if ends[0].turnId == turn && ends[0].status == status { assert ends[0] == Terminal(turn, status); }
    if ends[0].turnId != turn && FirstEnd(rest, turn, status) {
      var n :| 0 <= n < |rest| && rest[n] == Terminal(turn, status)
               && forall m :: 0 <= m < n ==> rest[m].turnId != turn;
      assert ends[n + 1] == Terminal(turn, status);
      assert forall m :: 0 <= m < n + 1 ==> ends[m] == if m == 0 then ends[0] else rest[m - 1];
    }
    if FirstEnd(ends, turn, status) && ends[0].turnId != turn {
      var n :| 0 <= n < |ends| && ends[n] == Terminal(turn, status)
               && forall m :: 0 <= m < n ==> ends[m].turnId != turn;
      assert rest[n - 1] == ends[n];
      assert forall m :: 0 <= m < n - 1 ==> rest[m] == ends[m + 1];
    }
  }

  lemma {:induction false} LaterEnds(ends: seq<Terminal>, more: seq<Terminal>, turn: Text)
    ensures TerminalFor(ends + more, turn)
            == if TerminalFor(ends, turn).Some? then TerminalFor(ends, turn) else TerminalFor(more, turn)
    decreases |ends|
  {
    if ends == [] {
      assert ends + more == more;
    } else {
      assert (ends + more)[1..] == ends[1..] + more;
      LaterEnds(ends[1..], more, turn);
    }
  }

  predicate LateEnough(p: OwnedTask.Phase) { p.CheckingTools? || p.StartingTurn? || p.Running? }

  /** What an open plain run has made of the answers and ends it heard. */
  predicate Follows(s: Task, ends: seq<Terminal>) {
    && s.mode.NoProof? && s.outcome.None? && s.pending == [] && s.jobs == [] && s.boundary.None? && !s.contextLive
    && s.timer.None? && !s.activationArmed
    && (s.expected.Some? <==> s.phase.Running?) && (LateEnough(s.phase) ==> s.thread.Some?)
    && (if s.expected.None? then s.terminal.None? && s.terminals == ends
        else s.terminals == [] && s.terminal == StatusFor(ends, s.expected.value))
  }

  function StatusFor(ends: seq<Terminal>, turn: Text): Option<Status> {
    var t := TerminalFor(ends, turn);
    if t.Some? then Some(t.value.status) else None
  }

  // One event more.

  /** What an event makes of an open plain run. */
  ghost predicate GoesOn(s: Task, ends: seq<Terminal>, e: Event, t: Task) {
    && (t.outcome.None? ==>
          && Follows(t, ends + EndIn(s.thread, e))
          && (forall turn :: t.expected == Some(turn) <==> s.expected == Some(turn) || AnswersTurn(e, turn)))
    && (forall status :: t.outcome == Some(Success(status)) <==>
          e.Close? && e.code == 0 && s.terminal == Some(status))
  }

  lemma FailGoesOn(s: Task, ends: seq<Terminal>, e: Event, t: Task)
    requires Follows(s, ends) && t.outcome.None? && !e.Close?
    ensures GoesOn(s, ends, e, Fail(t))
  {
  }

  /** Nothing the run follows has changed. */
  lemma SameGoesOn(s: Task, ends: seq<Terminal>, e: Event, t: Task)
    requires Follows(s, ends) && EndIn(s.thread, e) == [] && !e.Close? && (forall turn :: !AnswersTurn(e, turn))
    requires t == s.(thread := t.thread, observed := t.observed, phase := t.phase, admitted := t.admitted,
                     marks := t.marks,
                     trace := t.trace)
    requires (t.phase.Running? <==> s.phase.Running?) && (LateEnough(t.phase) ==> t.thread.Some?)
    ensures GoesOn(s, ends, e, t)
  {
    assert ends + [] == ends;
  }

  /** An end that is heard is kept until the turn is known, then recorded if it is the turn's. */
  lemma EndGoesOn(s: Task, ends: seq<Terminal>, n: Notification, env: Env)
    requires Follows(s, ends) && s.terminal.None? && EndIn(s.thread, LineRead(NotificationLine(n), env)) != []
    ensures GoesOn(s, ends, LineRead(NotificationLine(n), env), HandleLine(s, NotificationLine(n), env))
  {
    hide Fail, GoesOn, EndIn, HandleTurnEnded;
    EndInIs(s.thread, n, env);
    EndedGoesOn(s, ends, n, env);
  }

  lemma EndedGoesOn(s: Task, ends: seq<Terminal>, n: Notification, env: Env)
    requires Follows(s, ends) && s.terminal.None? && n.TurnEnded? && n.turnId.Some? && n.status.Some?
    requires s.thread == Some(n.threadId)
    ensures var heard := s.(trace := s.trace + [Heard(NotificationLine(n))]);
            GoesOn(s, ends, LineRead(NotificationLine(n), env), HandleTurnEnded(heard, n.turnId, n.status, env))
  {
    hide Fail, GoesOn, FinishTerminal;
    var e := LineRead(NotificationLine(n), env);
    var heard := s.(trace := s.trace + [Heard(NotificationLine(n))]);
    var end := Terminal(n.turnId.value, n.status.value);
    FailGoesOn(s, ends, e, heard);
    if s.expected.Some? { LaterEnds(ends, [end], s.expected.value); }
    KeptGoesOn(s, ends, e, end, heard);
    if s.expected == n.turnId { RecordedGoesOn(s, ends, e, end, heard); }
  }

  /** An end that is kept, or is not the turn's. */
  lemma KeptGoesOn(s: Task, ends: seq<Terminal>, e: Event, end: Terminal, heard: Task)
    requires Follows(s, ends) && s.terminal.None? && !e.Close? && EndIn(s.thread, e) == [end]
    requires heard == s.(trace := heard.trace) && forall turn :: !AnswersTurn(e, turn)
    requires s.expected.Some? ==> TerminalFor(ends + [end], s.expected.value)
                                  == if TerminalFor(ends, s.expected.value).Some?
                                      then TerminalFor(ends, s.expected.value)
                                     else TerminalFor([end], s.expected.value)
    ensures s.expected.None? ==> GoesOn(s, ends, e, heard.(terminals := s.terminals + [end]))
    ensures s.expected.Some? && s.expected != Some(end.turnId) ==> GoesOn(s, ends, e, heard)
  {
  }

  lemma RecordedGoesOn(s: Task, ends: seq<Terminal>, e: Event, end: Terminal, heard: Task)
    requires Follows(s, ends) && s.terminal.None? && !e.Close? && EndIn(s.thread, e) == [end]
    requires heard == s.(trace := heard.trace) && forall turn :: !AnswersTurn(e, turn)
    requires s.expected == Some(end.turnId)
    requires TerminalFor(ends + [end], end.turnId)
             == if TerminalFor(ends, end.turnId).Some? then TerminalFor(ends, end.turnId)
                else TerminalFor([end], end.turnId)
    ensures GoesOn(s, ends, e, FinishTerminal(heard, end.status))
  {
    hide Fail, MaybeConfirm;
  }

  lemma EndInIs(thread: Option<Text>, n: Notification, env: Env)
    requires EndIn(thread, LineRead(NotificationLine(n), env)) != []
    ensures n.TurnEnded? && n.turnId.Some? && n.status.Some? && thread == Some(n.threadId)
    ensures EndIn(thread, LineRead(NotificationLine(n), env)) == [Terminal(n.turnId.value, n.status.value)]
  {
  }

  lemma IgnoredGoesOn(s: Task, ends: seq<Terminal>, line: Line, env: Env)
    requires Follows(s, ends) && s.terminal.Some? && line.NotificationLine?
    ensures GoesOn(s, ends, LineRead(line, env), HandleLine(s, line, env))
  {
    hide HandleNotification, HandleAnswer;
    LaterEnds(ends, EndIn(s.thread, LineRead(line, env)), s.expected.value);
  }

  lemma FailIsFailure(s: Task)
    requires s.outcome.None?
    ensures Fail(s).outcome == Some(Failure)
  {
  }

  /** The answer to turn/start takes up the end that was already heard. */
  lemma TurnGoesOn(s: Task, ends: seq<Terminal>, turn: Text, env: Env)
    requires Follows(s, ends) && s.expected.None? && s.thread.Some?
    ensures Answered(Reconcile(LearnTurn(s, turn), env), ends, turn)
  {
    hide Fail, TakeEarly, AfterReconcile, AcceptTerminal, Answered;
    var learned := LearnTurn(s, turn);
    FailedAnswer(learned, ends, turn);
    DrainedAnswer(s, ends, turn, learned.(terminals := []), env);
  }

  /** Failed, or following the ends of the answered turn. */
  predicate Answered(t: Task, ends: seq<Terminal>, turn: Text) {
    && (t.outcome.None? ==> Follows(t, ends) && t.expected == Some(turn))
    && (t.outcome.Some? ==> t.outcome == Some(Failure))
  }

  lemma FailedAnswer(s: Task, ends: seq<Terminal>, turn: Text)
    requires s.outcome.None?
    ensures Answered(Fail(s), ends, turn)
  {
  }

  lemma DrainedAnswer(s: Task, ends: seq<Terminal>, turn: Text, drained: Task, env: Env)
    requires Follows(s, ends) && s.expected.None? && s.thread.Some?
    requires drained == LearnTurn(s, turn).(terminals := [])
    ensures TerminalFor(ends, turn).Some? ==>
              Answered(AcceptTerminal(drained, TerminalFor(ends, turn).value.status, env), ends, turn)
    ensures TerminalFor(ends, turn).None? ==> Answered(AfterReconcile(drained, env), ends, turn)
  {
    hide Fail, MaybeConfirm;
    FailedAnswer(drained, ends, turn);
    FailedAnswer(drained, ends, turn);
  }

  lemma AnswerGoesOn(s: Task, ends: seq<Terminal>, a: ServerAnswer, env: Env)
    requires Follows(s, ends)
    ensures GoesOn(s, ends, LineRead(AnswerLine(a), env), HandleLine(s, AnswerLine(a), env))
  {
    hide Fail, Reconcile, ClaimThread, LearnTurn, Follows, GoesOn;
    var e := LineRead(AnswerLine(a), env);
    var heard := s.(trace := s.trace + [Heard(AnswerLine(a))]);
    HeardFollows(s, ends, heard);
    FailGoesOn(s, ends, e, heard);
    if a.error.None? && a.id == NumericId(3) && s.phase.StartingTurn? && s.thread.Some? && a.turnId.Some? {
      TurnGoesOn(heard, ends, a.turnId.value, env);
      AnsweredGoesOn(s, ends, a, env, Reconcile(LearnTurn(heard, a.turnId.value), env));
    } else if a.error.None? {
      PhaseGoesOn(s, ends, a, env);
    }
  }

  lemma HeardFollows(s: Task, ends: seq<Terminal>, heard: Task)
    requires Follows(s, ends) && heard == s.(trace := heard.trace)
    ensures Follows(heard, ends) && heard.outcome.None? && heard.pending == []
    ensures s.phase.StartingTurn? ==> s.expected.None? && s.thread.Some?
  {
  }

  lemma AnsweredGoesOn(s: Task, ends: seq<Terminal>, a: ServerAnswer, env: Env, t: Task)
    requires Follows(s, ends) && s.expected.None? && a.error.None? && a.id == NumericId(3) && a.turnId.Some?
    requires Answered(t, ends, a.turnId.value)
    ensures GoesOn(s, ends, LineRead(AnswerLine(a), env), t)
  {
    assert ends + [] == ends;
  }

  lemma PhaseGoesOn(s: Task, ends: seq<Terminal>, a: ServerAnswer, env: Env)
    requires Follows(s, ends) && a.error.None?
    requires !(a.id == NumericId(3) && s.phase.StartingTurn? && s.thread.Some? && a.turnId.Some?)
    ensures var heard := s.(trace := s.trace + [Heard(AnswerLine(a))]);
            GoesOn(s, ends, LineRead(AnswerLine(a), env), HandleAnswer(heard, a, env))
  {
    hide Fail, GoesOn, Reconcile, ClaimThread, Follows;
    var e := LineRead(AnswerLine(a), env);
    var heard := s.(trace := s.trace + [Heard(AnswerLine(a))]);
    HeardFollows(s, ends, heard);
    FailGoesOn(s, ends, e, heard);
    if a.id == NumericId(0) && s.phase.Initializing? { StepGoesOn(s, ends, e, heard.(phase := StartingThread)); }
    if a.id == NumericId(1) && s.phase.StartingThread? { ClaimGoesOn(s, ends, e, heard, a.threadId); }
    if a.id == NumericId(2) && s.phase.CheckingTools? {
      StepGoesOn(s, ends, e, heard.(phase := StartingTurn, trace := heard.trace + [TurnStartSent]));
      PlainArmsNothing(heard.(phase := StartingTurn, trace := heard.trace + [TurnStartSent]));
    }
  }

  lemma PlainArmsNothing(s: Task)
    requires s.mode.NoProof?
    ensures ArmActivation(s) == s
  {
  }

  /** A step of the opening. */
  lemma StepGoesOn(s: Task, ends: seq<Terminal>, e: Event, t: Task)
    requires Follows(s, ends) && e.LineRead? && e.line.AnswerLine? && e.line.answer.id != NumericId(3)
    requires t == s.(phase := t.phase, trace := t.trace)
    requires (s.phase.Initializing? && t.phase.StartingThread?) || (s.phase.CheckingTools? && t.phase.StartingTurn?)
    ensures GoesOn(s, ends, e, t)
  {
    hide GoesOn;
    SameGoesOn(s, ends, e, t);
  }

  lemma ClaimGoesOn(s: Task, ends: seq<Terminal>, e: Event, heard: Task, thread: Option<Text>)
    requires Follows(s, ends) && s.phase.StartingThread? && heard == s.(trace := heard.trace)
    requires e.LineRead? && e.line.AnswerLine? && e.line.answer.id != NumericId(3)
    ensures var claimed := ClaimThread(heard, thread);
            GoesOn(s, ends, e, if Settled(claimed) then claimed else claimed.(phase := CheckingTools))
  {
    hide GoesOn, Fail;
    FailGoesOn(s, ends, e, heard);
    FailIsFailure(heard);
    if thread.Some? { SameGoesOn(s, ends, e, heard.(thread := thread, phase := CheckingTools)); }
  }

  lemma NoticeGoesOn(s: Task, ends: seq<Terminal>, n: Notification, env: Env)
    requires Follows(s, ends) && s.terminal.None? && EndIn(s.thread, LineRead(NotificationLine(n), env)) == []
    ensures GoesOn(s, ends, LineRead(NotificationLine(n), env), HandleLine(s, NotificationLine(n), env))
  {
    hide Fail, GoesOn, HandleTurnStarted;
    var e := LineRead(NotificationLine(n), env);
    var heard := s.(trace := s.trace + [Heard(NotificationLine(n))]);
    FailGoesOn(s, ends, e, heard);
    FailIsFailure(heard);
    SameGoesOn(s, ends, e, heard);
    if n.ThreadStarted? && n.thread.Some? {
      SameGoesOn(s, ends, e, heard.(thread := n.thread));
      FailGoesOn(s, ends, e, heard.(thread := n.thread));
    }
    if n.TurnStarted? { StartGoesOn(s, ends, n, env); }
  }

  lemma StartGoesOn(s: Task, ends: seq<Terminal>, n: Notification, env: Env)
    requires Follows(s, ends) && s.terminal.None? && n.TurnStarted?
    ensures var heard := s.(trace := s.trace + [Heard(NotificationLine(n))]);
            GoesOn(s, ends, LineRead(NotificationLine(n), env), HandleTurnStarted(heard, n.turnId, n.inProgress, env))
  {
    hide Fail, GoesOn, Reconcile, SeeTurn;
    var e := LineRead(NotificationLine(n), env);
    var heard := s.(trace := s.trace + [Heard(NotificationLine(n))]);
    FailGoesOn(s, ends, e, heard);
    if n.turnId.Some? {
      SeeTurnIs(heard, n.turnId.value);
      SeenGoesOn(s, ends, e, SeeTurn(heard, n.turnId.value), env);
    }
  }

  lemma SeenGoesOn(s: Task, ends: seq<Terminal>, e: Event, seen: Task, env: Env)
    requires Follows(s, ends) && seen == s.(observed := seen.observed, marks := seen.marks, trace := seen.trace)
    requires EndIn(s.thread, e) == [] && !e.Close? && forall turn :: !AnswersTurn(e, turn)
    ensures GoesOn(s, ends, e, Ingest(Reconcile(seen, env), env))
  {
    hide Fail, GoesOn, Reconcile;
    SameGoesOn(s, ends, e, seen);
    FailGoesOn(s, ends, e, seen);
    SeenReconciles(seen, ends, env);
    FailStaysFailed(seen, env);
  }

  lemma SeeTurnIs(s: Task, turn: Text)
    ensures SeeTurn(s, turn) == s.(observed := Some(turn), marks := SeeTurn(s, turn).marks)
  {
  }

  /** With the turn's end, if any, already taken up, a reconciliation changes nothing or fails. */
  lemma SeenReconciles(s: Task, ends: seq<Terminal>, env: Env)
    requires Follows(s, ends)
    ensures Reconcile(s, env) == s || Reconcile(s, env) == Fail(s)
  {
    hide Fail;
    if s.expected.Some? { assert s.(terminals := []) == s; }
  }

  lemma FailStaysFailed(s: Task, env: Env)
    ensures Ingest(Fail(s), env) == Fail(s)
  {
    hide LostJobs;
  }

  lemma LineGoesOn(s: Task, ends: seq<Terminal>, line: Line, env: Env)
    requires Follows(s, ends)
    ensures GoesOn(s, ends, LineRead(line, env), HandleLine(s, line, env))
  {
    hide GoesOn, HandleAnswer, HandleNotification, Fail;
    var e := LineRead(line, env);
    var heard := s.(trace := s.trace + [Heard(line)]);
    match line
    case AnswerLine(a) => AnswerGoesOn(s, ends, a, env);
    case NotificationLine(n) =>
      if s.terminal.Some? { IgnoredGoesOn(s, ends, line, env); }
      else if EndIn(s.thread, e) != [] { EndGoesOn(s, ends, n, env); }
      else { NoticeGoesOn(s, ends, n, env); }
    case _ =>
      SameGoesOn(s, ends, e, heard);
      FailGoesOn(s, ends, e, heard);
  }

  lemma OtherGoesOn(s: Task, ends: seq<Terminal>, e: Event)
    requires Follows(s, ends) && !e.LineRead? && !e.Close?
    ensures GoesOn(s, ends, e, Next(s, e))
  {
    hide GoesOn, Fail, Accept;
    SameGoesOn(s, ends, e, s);
    FailGoesOn(s, ends, e, s);
  }

  lemma CloseGoesOn(s: Task, ends: seq<Terminal>, e: Event)
    requires Follows(s, ends) && e.Close?
    ensures GoesOn(s, ends, e, Next(s, e)) && Next(s, e).outcome.Some?
  {
  }

  lemma FreshFollows()
    ensures Follows(Fresh(NoProof), [])
  {
  }

  /** An open run follows what it heard, and knows the one turn that was answered. */
  lemma {:induction false} OpenRunFollows(events: seq<Event>)
    requires Unsettled(events)
    ensures Follows(RunOf(NoProof, events), EndsHeard(events))
    ensures forall turn :: RunOf(NoProof, events).expected == Some(turn) <==> TurnAnswered(events, turn)
    decreases |events|
  {
    hide Follows, GoesOn, Next, AnswersTurn;
    if events == [] {
      FreshFollows();
    } else {
      var n := |events| - 1;
      var front, e := events[..n], events[n];
      var s := RunOf(NoProof, front);
      if s.outcome.Some? { OutcomeIsFinal(s, e); }
      OpenRunFollows(front);
      EventGoesOn(s, EndsHeard(front), e);
      OpenAgain(s, EndsHeard(front), e, Next(s, e));
      forall turn ensures TurnAnswered(events, turn) <==> TurnAnswered(front, turn) || AnswersTurn(e, turn) {
        AnsweredOnceMore(events, turn);
      }
    }
  }

  lemma OpenAgain(s: Task, ends: seq<Terminal>, e: Event, t: Task)
    requires GoesOn(s, ends, e, t) && t.outcome.None?
    ensures Follows(t, ends + EndIn(s.thread, e))
    ensures forall turn :: t.expected == Some(turn) <==> s.expected == Some(turn) || AnswersTurn(e, turn)
  {
  }

  lemma AnsweredOnceMore(events: seq<Event>, turn: Text)
    requires events != []
    ensures var n := |events| - 1;
            TurnAnswered(events, turn) <==> TurnAnswered(events[..n], turn) || AnswersTurn(events[n], turn)
  {
    hide AnswersTurn;
    var n := |events| - 1;
    assert forall m :: 0 <= m < n ==> events[..n][m] == events[m];
    if TurnAnswered(events[..n], turn) {
      var m :| 0 <= m < n && AnswersTurn(events[..n][m], turn);
      assert AnswersTurn(events[m], turn);
    }
  }

  lemma EventGoesOn(s: Task, ends: seq<Terminal>, e: Event)
    requires Follows(s, ends)
    ensures GoesOn(s, ends, e, Next(s, e))
  {
    hide Follows, GoesOn, HandleLine;
    if e.LineRead? { LineGoesOn(s, ends, e.line, e.env); }
    else if e.Close? { CloseGoesOn(s, ends, e); }
    else { OtherGoesOn(s, ends, e); }
  }

  // The theorem.

  /** The child exits with code 0 after an open run has heard the answered turn end, first with this status. */
  ghost predicate EndsWell(before: seq<Event>, e: Event, status: Status) {
    && Unsettled(before) && e.Close? && e.code == 0
    && exists turn :: TurnAnswered(before, turn) && FirstEnd(EndsHeard(before), turn, status)
  }

  lemma ClosesExactly(before: seq<Event>, e: Event, status: Status)
    requires Unsettled(before)
    ensures Next(RunOf(NoProof, before), e).outcome == Some(Success(status)) <==> EndsWell(before, e, status)
  {
    hide Next, GoesOn, TurnAnswered, FirstEnd, EndsHeard;
    var s, ends := RunOf(NoProof, before), EndsHeard(before);
    OpenRunFollows(before);
    EventGoesOn(s, ends, e);
    SucceedsExactly(s, ends, e, status);
    if s.expected.Some? { FirstEndFound(ends, s.expected.value, status); }
  }

  lemma SucceedsExactly(s: Task, ends: seq<Terminal>, e: Event, status: Status)
    requires Follows(s, ends) && GoesOn(s, ends, e, Next(s, e))
    ensures Next(s, e).outcome == Some(Success(status))
            <==> e.Close? && e.code == 0 && s.expected.Some? && StatusFor(ends, s.expected.value) == Some(status)
  {
  }

  /**
   A run without a proof succeeds exactly when, with nothing failed, its answered turn was heard to end
   and the child then exited with code 0; the status is that of the turn's first end.
   */
  lemma {:induction false} PlainRunSucceedsExactly(events: seq<Event>, status: Status)
    ensures RunOf(NoProof, events).outcome == Some(Success(status))
            <==> exists n :: 0 <= n < |events| && EndsWell(events[..n], events[n], status)
    decreases |events|
  {
    hide Next, EndsWell;
    if events != [] {
      var n := |events| - 1;
      var front, e := events[..n], events[n];
      var s := RunOf(NoProof, front);
      PlainRunSucceedsExactly(front, status);
      assert forall m :: 0 <= m < n ==> front[..m] == events[..m] && front[m] == events[m];
      if Unsettled(front) {
        ClosesExactly(front, e, status);
      } else {
        OutcomeIsFinal(s, e);
        assert !EndsWell(front, e, status) by { SettledEndsNoMore(front, e, status); }
      }
      WellEndedOnceMore(events, status);
    }
  }

  lemma SettledEndsNoMore(before: seq<Event>, e: Event, status: Status)
    requires !Unsettled(before)
    ensures !EndsWell(before, e, status)
  {
  }

  lemma WellEndedOnceMore(events: seq<Event>, status: Status)
    requires events != []
    ensures var n := |events| - 1;
            (exists m :: 0 <= m < |events| && EndsWell(events[..m], events[m], status)) <==>
              || EndsWell(events[..n], events[n], status)
              || exists m :: 0 <= m < n && EndsWell(events[..n][..m], events[..n][m], status)
  {
    hide EndsWell;
    var n := |events| - 1;
    assert forall m :: 0 <= m < n ==> events[..n][..m] == events[..m] && events[..n][m] == events[m];
  }
}
