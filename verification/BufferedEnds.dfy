/**
 Turn correlation when ends of turns were buffered before turn/start's response. An end of the
 answered turn is taken up at once: it fails a proof that has not started, and it ends a run without
 a proof, which then ignores what arrives later. So order matters in exactly the latter case.
 */
module BufferedEnds {
  import opened Collections
  import opened JsonGrammar
  import opened OwnedTask
  import opened TurnCorrelation
  import opened OwnedTaskOutcomes
  import TurnStart

  /** turn/start has just been sent, and ends of turns may already be buffered. */
  predicate JustSent(s: Task, thread: Text) { TurnStartJustSent(s.(terminals := []), thread) }

  /** The turn's end was buffered. */
  predicate Ended(s: Task, turn: Text) { TerminalFor(s.terminals, turn).Some? }

  /** An end of the answered turn fails the run: a proof waits, or another turn was seen to start. */
  predicate EndFails(s: Task, turn: Text) { !s.mode.NoProof? || (s.observed.Some? && s.observed != Some(turn)) }

  /** Some buffered end would be taken up without failing a run that has no proof. */
  ghost predicate EndWaits(s: Task) {
    exists t :: t in s.terminals && (s.observed.None? || s.observed == Some(t.turnId))
  }

  // Until the response, the buffered ends change nothing else.

  /** Before the response: nothing but the turn's start and commands can have been noted. */
  predicate Buffering(s: Task, thread: Text) {
    && s.outcome.None? && s.terminal.None? && s.phase.StartingTurn? && s.thread == Some(thread) && s.expected.None?
    && s.tracked.None? && !s.started && !s.stopDispatched && s.pending == []
  }

  /** The same, but for ends that are still buffered in the first. */
  predicate Twins(s: Task, u: Task, thread: Text) {
    s == u || (u == s.(terminals := []) && (s.outcome.Some? || Buffering(s, thread)))
  }

  lemma FailClears(s: Task, thread: Text)
    ensures Twins(Fail(s), Fail(s.(terminals := [])), thread)
  {
    hide LostJobs;
  }

  lemma IngestClears(s: Task, thread: Text, env: Env)
    requires Buffering(s, thread)
    ensures Twins(Ingest(s, env), Ingest(s.(terminals := []), env), thread)
  {
    hide Fail;
    FailClears(s, thread);
  }

  lemma BeganClears(s: Task, turn: Text, thread: Text, env: Env)
    requires Buffering(s, thread)
    ensures Twins(HandleTurnStarted(s, Some(turn), true, env),
                  HandleTurnStarted(s.(terminals := []), Some(turn), true, env), thread)
  {
    hide Fail, Ingest;
    FailClears(s, thread);
    IngestClears(SeeTurn(s, turn), thread, env);
  }

  lemma RanClears(s: Task, c: Command, thread: Text, env: Env)
    requires Buffering(s, thread)
    ensures Twins(Ingest(CommandStarted(s, c, env), env),
                  Ingest(CommandStarted(s.(terminals := []), c, env), env), thread)
  {
    hide Fail, Ingest, StartFromCommand;
    FailClears(s, thread);
    IngestClears(s, thread, env);
    IngestClears(NoteEarly(s, c), thread, env);
    FailedIngest(s, env);
    FailedIngest(s.(terminals := []), env);
  }

  lemma FailedIngest(s: Task, env: Env)
    ensures Ingest(Fail(s), env) == Fail(s)
  {
    hide LostJobs;
  }

  lemma AnsweredClears(s: Task, turn: Text, thread: Text, env: Env)
    requires Buffering(s, thread) && !Ended(s, turn)
    ensures Twins(Reconcile(LearnTurn(s, turn), env), Reconcile(LearnTurn(s.(terminals := []), turn), env), thread)
  {
    hide Fail, TakeEarly, AfterReconcile;
    FailClears(LearnTurn(s, turn), thread);
  }

  lemma FactClears(s: Task, u: Task, f: Fact, thread: Text, env: Env)
    requires Twins(s, u, thread) && (f.Answered? && Buffering(s, thread) ==> !Ended(s, f.turn))
    ensures Twins(HandleLine(s, LineOf(f, thread), env), HandleLine(u, LineOf(f, thread), env), thread)
  {
    hide HandleAnswer, HandleNotification;
    if s.outcome.None? && s != u {
      var heard := s.(trace := s.trace + [Heard(LineOf(f, thread))]);
      if f.Answered? { AnswerClears(heard, f.turn, thread, env); } else { NoticeClears(heard, f, thread, env); }
    }
  }

  lemma AnswerClears(s: Task, turn: Text, thread: Text, env: Env)
    requires Buffering(s, thread) && !Ended(s, turn)
    ensures var a := LineOf(Answered(turn), thread).answer;
            Twins(HandleAnswer(s, a, env), HandleAnswer(s.(terminals := []), a, env), thread)
  {
    hide Fail, Reconcile, LearnTurn;
    AnsweredClears(s, turn, thread, env);
  }

  lemma NoticeClears(s: Task, f: Fact, thread: Text, env: Env)
    requires Buffering(s, thread) && !f.Answered?
    ensures var n := LineOf(f, thread).notification;
            Twins(HandleNotification(s, n, env), HandleNotification(s.(terminals := []), n, env), thread)
  {
    hide Fail, Ingest, CommandStarted, HandleTurnStarted;
    if f.Began? { BeganClears(s, f.turn, thread, env); } else { RanClears(s, f.command, thread, env); }
  }

  // How far a run comes.

  /** Waiting with the same ends, answered, or failed. */
  ghost predicate Reached(s: Task, t: Task, thread: Text) {
    || t.outcome == Some(Failure)
    || (t.outcome.None? && t.phase.Running?)
    || (Buffering(t, thread) && t.terminals == s.terminals && t.mode == s.mode && SeenStays(s, t))
  }

  predicate SeenStays(s: Task, t: Task) { s.observed.Some? ==> t.observed == s.observed }

  lemma AnsweredReaches(s: Task, t: Task, turn: Text, thread: Text, env: Env)
    requires Reached(s, t, thread)
    ensures var after := HandleLine(t, LineOf(Answered(turn), thread), env);
            Reached(s, after, thread) && (t.outcome.None? && t.phase.Running? ==> after.outcome == Some(Failure))
  {
    hide Fail, Reconcile;
    var heard := t.(trace := t.trace + [Heard(LineOf(Answered(turn), thread))]);
    FailOnly(heard);
    ReconcileOnly(LearnTurn(heard, turn), env);
    TurnStart.ReconcileKeepsPhase(LearnTurn(heard, turn), env);
  }

  lemma NoticeReaches(s: Task, t: Task, f: Fact, thread: Text, env: Env)
    requires Reached(s, t, thread) && !f.Answered?
    ensures Reached(s, HandleLine(t, LineOf(f, thread), env), thread)
  {
    hide HandleNotification, Reached;
    if t.outcome.None? {
      var heard := t.(trace := t.trace + [Heard(LineOf(f, thread))]);
      var n := LineOf(f, thread).notification;
      HeardReached(s, t, heard.trace, thread);
      if t.terminal.None? {
        TurnStart.NotificationKeepsPhase(heard, n, env);
        NoticeOnly(heard, f, thread, env);
        if t.phase.Running? { RunningReached(s, HandleNotification(heard, n, env), thread); }
        else { NoticeBuffers(s, heard, f, thread, env); }
      }
    } else {
      FailedStays(t, LineOf(f, thread), env);
    }
  }

  lemma HeardReached(s: Task, t: Task, trace: seq<Note>, thread: Text)
    requires Reached(s, t, thread)
    ensures Reached(s, t.(trace := trace), thread)
    ensures t.outcome.None? && !t.phase.Running? ==> Buffering(t.(trace := trace), thread)
  {
  }

  lemma RunningReached(s: Task, t: Task, thread: Text)
    requires t.phase.Running? && (t.outcome.None? || t.outcome == Some(Failure))
    ensures Reached(s, t, thread)
  {
  }

  lemma NoticeOnly(s: Task, f: Fact, thread: Text, env: Env)
    requires !f.Answered?
    ensures OnlyFails(s, HandleNotification(s, LineOf(f, thread).notification, env))
  {
    hide HandleTurnStarted, CommandStarted, Ingest;
    IngestOnly(s, env);
    if f.Began? { StartedOnly(s, Some(f.turn), true, env); } else { CommandOnly(s, f.command, env); }
  }

  lemma NoticeBuffers(s: Task, t: Task, f: Fact, thread: Text, env: Env)
    requires Reached(s, t, thread) && !f.Answered? && Buffering(t, thread)
    ensures Reached(s, HandleNotification(t, LineOf(f, thread).notification, env), thread)
  {
    hide Fail, StartFromCommand;
    FailOnly(t);
    match f
    case Began(turn) => FailOnly(SeeTurn(t, turn));
    case Ran(c) =>
      FailOnly(NoteEarly(t, c));
      FailedIngest(t, env);
  }

  lemma {:induction false} RunReaches(s: Task, facts: seq<Fact>, thread: Text, env: Env)
    requires Buffering(s, thread)
    ensures Reached(s, Learn(s, facts, thread, env), thread)
    decreases |facts|
  {
    hide HandleLine, Reached;
    if facts == [] {
      StartReached(s, thread);
    } else {
      var front, last := facts[..|facts| - 1], facts[|facts| - 1];
      RunReaches(s, front, thread, env);
      if last.Answered? { AnsweredReaches(s, Learn(s, front, thread, env), last.turn, thread, env); }
      else { NoticeReaches(s, Learn(s, front, thread, env), last, thread, env); }
    }
  }

  lemma StartReached(s: Task, thread: Text)
    requires Buffering(s, thread)
    ensures Reached(s, s, thread)
  {
  }

  // Responses whose turn has ended, and others.

  /** Some of the facts is the response naming a turn whose end was buffered. */
  ghost predicate AnswersEnded(s: Task, facts: seq<Fact>) {
    exists n :: 0 <= n < |facts| && facts[n].Answered? && Ended(s, facts[n].turn)
  }

  lemma FrontAnswers(s: Task, facts: seq<Fact>)
    requires facts != []
    ensures var front, last := facts[..|facts| - 1], facts[|facts| - 1];
            AnswersEnded(s, facts) <==> AnswersEnded(s, front) || (last.Answered? && Ended(s, last.turn))
  {
    hide Ended;
    var front := facts[..|facts| - 1];
    assert forall n :: 0 <= n < |front| ==> front[n] == facts[n];
  }

  lemma {:induction false} UnansweredTwins(s: Task, facts: seq<Fact>, thread: Text, env: Env)
    requires Buffering(s, thread) && !AnswersEnded(s, facts)
    ensures Twins(Learn(s, facts, thread, env), Learn(s.(terminals := []), facts, thread, env), thread)
    decreases |facts|
  {
    hide HandleLine, Twins, AnswersEnded, Reached;
    if facts == [] {
      StartTwins(s, thread);
    } else {
      var front, last := facts[..|facts| - 1], facts[|facts| - 1];
      FrontAnswers(s, facts);
      UnansweredTwins(s, front, thread, env);
      RunReaches(s, front, thread, env);
      var t, u := Learn(s, front, thread, env), Learn(s.(terminals := []), front, thread, env);
      SameEnds(s, t, thread);
      FactClears(t, u, last, thread, env);
    }
  }

  lemma StartTwins(s: Task, thread: Text)
    requires Buffering(s, thread)
    ensures Twins(s, s.(terminals := []), thread)
  {
  }

  lemma SameEnds(s: Task, t: Task, thread: Text)
    requires Reached(s, t, thread)
    ensures Buffering(t, thread) ==> t.terminals == s.terminals && t.mode == s.mode && SeenStays(s, t)
  {
  }

  /** The response naming an ended turn fails the run, unless it ends one without a proof. */
  lemma EndedAnswerFails(s: Task, turn: Text, thread: Text, env: Env)
    requires Buffering(s, thread) && Ended(s, turn) && EndFails(s, turn)
    ensures HandleLine(s, LineOf(Answered(turn), thread), env).outcome == Some(Failure)
  {
    hide Fail, MaybeConfirm;
    var learned := LearnTurn(s.(trace := s.trace + [Heard(LineOf(Answered(turn), thread))]), turn);
    var drained := learned.(terminals := []);
    FailOnly(learned);
    FailOnly(drained);
    if TerminalFor(s.terminals, turn).Some? {
      var status := TerminalFor(s.terminals, turn).value.status;
      FailOnly(Revoke(drained.(terminal := Some(status), marks := drained.marks.(ended := |drained.trace| - 1))));
    }
  }

  lemma {:induction false} AnsweredEndFails(s: Task, facts: seq<Fact>, thread: Text, env: Env)
    requires Buffering(s, thread) && AnswersEnded(s, facts)
    requires forall turn :: Ended(s, turn) ==> EndFails(s, turn)
    ensures Learn(s, facts, thread, env).outcome == Some(Failure)
    decreases |facts|
  {
    hide HandleLine, AnswersEnded, Reached, Ended, EndFails;
    NothingAnswered(s);
    var front, last := facts[..|facts| - 1], facts[|facts| - 1];
    FrontAnswers(s, facts);
    RunReaches(s, front, thread, env);
    var t := Learn(s, front, thread, env);
    if AnswersEnded(s, front) {
      AnsweredEndFails(s, front, thread, env);
      FailedStays(t, LineOf(last, thread), env);
    } else {
      LastAnswerFails(s, t, last.turn, thread, env);
    }
  }

  lemma NothingAnswered(s: Task)
    ensures !AnswersEnded(s, [])
  {
  }

  lemma LastAnswerFails(s: Task, t: Task, turn: Text, thread: Text, env: Env)
    requires Reached(s, t, thread) && Ended(s, turn) && EndFails(s, turn)
    ensures HandleLine(t, LineOf(Answered(turn), thread), env).outcome == Some(Failure)
  {
    hide HandleLine;
    if t.outcome.Some? {
      FailedStays(t, LineOf(Answered(turn), thread), env);
    } else if t.phase.Running? {
      AnsweredReaches(s, t, turn, thread, env);
    } else {
      EndedAnswerFails(t, turn, thread, env);
    }
  }

  /** Which turns were answered is part of what is known. */
  lemma {:induction false} AnswersAreKnown(k: Knowledge, facts: seq<Fact>, turn: Text)
    ensures turn in WithAll(k, facts).answers
            <==> turn in k.answers || exists n :: 0 <= n < |facts| && facts[n] == Answered(turn)
    decreases |facts|
  {
    if facts != [] {
      var front, last := facts[..|facts| - 1], facts[|facts| - 1];
      AnswersAreKnown(k, front, turn);
      assert forall n :: 0 <= n < |front| ==> front[n] == facts[n];
      if turn in WithAll(k, front).answers && turn !in k.answers {
        var n :| 0 <= n < |front| && front[n] == Answered(turn);
        assert facts[n] == Answered(turn);
      }
      if last == Answered(turn) { assert facts[|facts| - 1] == Answered(turn); }
    }
  }

  lemma SameAnswers(s: Task, f: seq<Fact>, g: seq<Fact>, thread: Text)
    requires WithAll(InitialKnowledge(s, thread), f) == WithAll(InitialKnowledge(s, thread), g)
    ensures AnswersEnded(s, f) ==> AnswersEnded(s, g)
  {
    hide WithAll, Ended;
    if AnswersEnded(s, f) {
      var n :| 0 <= n < |f| && f[n].Answered? && Ended(s, f[n].turn);
      AnswersAreKnown(InitialKnowledge(s, thread), f, f[n].turn);
      AnswersAreKnown(InitialKnowledge(s, thread), g, f[n].turn);
      var m :| 0 <= m < |g| && g[m] == Answered(f[n].turn);
    }
  }

  // When order matters.

  lemma JustSentBuffers(s: Task, thread: Text)
    requires JustSent(s, thread)
    ensures Buffering(s, thread) && InitialKnowledge(s.(terminals := []), thread) == InitialKnowledge(s, thread)
  {
  }

  lemma EndsFail(s: Task)
    requires !(s.mode.NoProof? && EndWaits(s))
    ensures forall turn :: Ended(s, turn) ==> EndFails(s, turn)
  {
    forall turn | Ended(s, turn) ensures EndFails(s, turn) {
      assert TerminalFor(s.terminals, turn).value in s.terminals;
    }
  }

  lemma TwinsProveAlike(s: Task, u: Task, thread: Text)
    requires Twins(s, u, thread)
    ensures SameProof(s, u)
  {
  }

  lemma FailuresAreAlike(s: Task, t: Task)
    requires s.outcome == Some(Failure) == t.outcome
    ensures SameProof(s, t)
  {
  }

  lemma AlikeChain(s: Task, u: Task, v: Task, t: Task)
    requires SameProof(s, u) && SameProof(u, v) && SameProof(t, v)
    ensures SameProof(s, t)
  {
  }

  /**
   Two sequences of responses, turn starts and command starts with the same contents lead to the same
   outcome and proof state, whatever ends were buffered, unless one would end a run without a proof.
   */
  lemma OrderDoesNotMatter(s: Task, f: seq<Fact>, g: seq<Fact>, thread: Text, env: Env)
    requires JustSent(s, thread) && (s.observed.Some? ==> env.ingests) && !(s.mode.NoProof? && EndWaits(s))
    requires WithAll(InitialKnowledge(s, thread), f) == WithAll(InitialKnowledge(s, thread), g)
    ensures SameProof(Learn(s, f, thread, env), Learn(s, g, thread, env))
  {
    hide Learn, WithAll, Twins, AnswersEnded, EndWaits, Ended, EndFails, SameProof;
    JustSentBuffers(s, thread);
    SameAnswers(s, f, g, thread);
    SameAnswers(s, g, f, thread);
    if AnswersEnded(s, f) {
      EndsFail(s);
      AnsweredEndFails(s, f, thread, env);
      AnsweredEndFails(s, g, thread, env);
      FailuresAreAlike(Learn(s, f, thread, env), Learn(s, g, thread, env));
    } else {
      var u := s.(terminals := []);
      UnansweredTwins(s, f, thread, env);
      UnansweredTwins(s, g, thread, env);
      TurnCorrelation.OrderDoesNotMatter(u, f, g, thread, env);
      TwinsProveAlike(Learn(s, f, thread, env), Learn(u, f, thread, env), thread);
      TwinsProveAlike(Learn(s, g, thread, env), Learn(u, g, thread, env), thread);
      AlikeChain(Learn(s, f, thread, env), Learn(u, f, thread, env), Learn(u, g, thread, env),
                 Learn(s, g, thread, env));
    }
  }

  /** Every interleaving of the same arrivals ends the same way, in every run of a proof. */
  lemma EveryInterleavingAgrees(s: Task, f: seq<Fact>, g: seq<Fact>, thread: Text, env: Env)
    requires JustSent(s, thread) && (s.observed.Some? ==> env.ingests) && !(s.mode.NoProof? && EndWaits(s))
    requires multiset(f) == multiset(g)
    ensures SameProof(Learn(s, f, thread, env), Learn(s, g, thread, env))
  {
    PermutedKnowledge(InitialKnowledge(s, thread), f, g);
    OrderDoesNotMatter(s, f, g, thread, env);
  }

  /** Two arrivals with the same contents that the run tells apart. */
  ghost predicate ToldApart(s: Task, f: seq<Fact>, g: seq<Fact>, thread: Text, env: Env) {
    && (s.observed.Some? ==> env.ingests)
    && WithAll(InitialKnowledge(s, thread), f) == WithAll(InitialKnowledge(s, thread), g)
    && !SameProof(Learn(s, f, thread, env), Learn(s, g, thread, env))
  }

  const WORKING := Env(true, true, true, true, true, true, true)

  /** An ended turn answered first ends the run; another turn's start heard first fails it. */
  lemma EndFirst(s: Task, turn: Text, other: Text, thread: Text)
    requires JustSent(s, thread) && s.mode.NoProof? && Ended(s, turn) && other != turn
    requires s.observed.None? || s.observed == Some(turn)
    ensures ToldApart(s, [Began(other), Answered(turn)], [Answered(turn), Began(other)], thread, WORKING)
  {
    var f, g := [Began(other), Answered(turn)], [Answered(turn), Began(other)];
    PermutedKnowledge(InitialKnowledge(s, thread), f, g);
    OtherStartFails(s, turn, other, thread);
    AnswerEnds(s, turn, other, thread);
    TwoFacts(s, f, thread);
    TwoFacts(s, g, thread);
  }

  lemma TwoFacts(s: Task, f: seq<Fact>, thread: Text)
    requires |f| == 2
    ensures Learn(s, f, thread, WORKING)
            == HandleLine(HandleLine(s, LineOf(f[0], thread), WORKING), LineOf(f[1], thread), WORKING)
  {
    hide HandleLine;
    assert f[..1][..0] == [];
    assert Learn(s, [], thread, WORKING) == s;
    assert Learn(s, f[..1], thread, WORKING) == HandleLine(s, LineOf(f[0], thread), WORKING);
  }

  lemma OtherStartFails(s: Task, turn: Text, other: Text, thread: Text)
    requires Buffering(s, thread) && other != turn && (s.observed.None? || s.observed == Some(turn))
    ensures var t := HandleLine(s, LineOf(Began(other), thread), WORKING);
            HandleLine(t, LineOf(Answered(turn), thread), WORKING).outcome == Some(Failure)
  {
    hide Fail, Drain;
    var heard := s.(trace := s.trace + [Heard(LineOf(Began(other), thread))]);
    FailOnly(heard);
    var seen := SeeTurn(heard, other);
    FailOnly(LearnTurn(seen.(trace := seen.trace + [Heard(LineOf(Answered(turn), thread))]), turn));
  }

  lemma AnswerEnds(s: Task, turn: Text, other: Text, thread: Text)
    requires Buffering(s, thread) && s.mode.NoProof? && Ended(s, turn) && (s.observed.None? || s.observed == Some(turn))
    ensures var t := HandleLine(s, LineOf(Answered(turn), thread), WORKING);
            HandleLine(t, LineOf(Began(other), thread), WORKING).outcome.None?
  {
    hide HandleLine, Ended;
    AnswerLineEndsRun(s, turn, thread);
    StartAfterEnd(HandleLine(s, LineOf(Answered(turn), thread), WORKING), other, thread);
  }

  lemma StartAfterEnd(s: Task, other: Text, thread: Text)
    requires s.outcome.None? && s.terminal.Some?
    ensures HandleLine(s, LineOf(Began(other), thread), WORKING).outcome.None?
  {
    hide HandleNotification, HandleAnswer, Fail;
  }

  lemma AnswerLineEndsRun(s: Task, turn: Text, thread: Text)
    requires Buffering(s, thread) && s.mode.NoProof? && Ended(s, turn) && (s.observed.None? || s.observed == Some(turn))
    ensures var t := HandleLine(s, LineOf(Answered(turn), thread), WORKING); t.outcome.None? && t.terminal.Some?
  {
    hide HandleAnswer;
    AnswerEndsRun(s.(trace := s.trace + [Heard(LineOf(Answered(turn), thread))]), turn, thread);
  }

  lemma AnswerEndsRun(s: Task, turn: Text, thread: Text)
    requires Buffering(s, thread) && s.mode.NoProof? && Ended(s, turn) && (s.observed.None? || s.observed == Some(turn))
    ensures var t := HandleAnswer(s, LineOf(Answered(turn), thread).answer, WORKING);
            t.outcome.None? && t.terminal.Some?
  {
    hide Fail, TakeEarly, AfterReconcile, MaybeConfirm, Revoke;
    var drained := LearnTurn(s, turn).(terminals := []);
    EndIsRecorded(drained, TerminalFor(s.terminals, turn).value.status);
  }

  lemma EndIsRecorded(s: Task, status: Status)
    requires s.mode.NoProof? && s.outcome.None? && s.terminal.None?
    ensures FinishTerminal(s, status).outcome.None? && FinishTerminal(s, status).terminal.Some?
  {
  }

  /** Order matters exactly in a run without a proof in which a buffered end may be taken up. */
  lemma OrderMattersExactly(s: Task, thread: Text)
    requires JustSent(s, thread)
    ensures (exists f, g, env :: ToldApart(s, f, g, thread, env)) <==> s.mode.NoProof? && EndWaits(s)
  {
    hide ToldApart, Learn, WithAll, EndWaits;
    if s.mode.NoProof? && EndWaits(s) {
      var turn := WaitingEnd(s);
      EndFirst(s, turn, turn + [0], thread);
    } else {
      forall f, g, env ensures !ToldApart(s, f, g, thread, env) { NotToldApart(s, f, g, thread, env); }
    }
  }

  lemma WaitingEnd(s: Task) returns (turn: Text)
    requires EndWaits(s)
    ensures Ended(s, turn) && (s.observed.None? || s.observed == Some(turn))
  {
    var t :| t in s.terminals && (s.observed.None? || s.observed == Some(t.turnId));
    turn := t.turnId;
    assert TerminalFor(s.terminals, turn).Some?;
  }

  lemma NotToldApart(s: Task, f: seq<Fact>, g: seq<Fact>, thread: Text, env: Env)
    requires JustSent(s, thread) && !(s.mode.NoProof? && EndWaits(s))
    ensures !ToldApart(s, f, g, thread, env)
  {
    hide SameProof, Learn, WithAll, EndWaits, JustSent;
    if (s.observed.Some? ==> env.ingests)
       && WithAll(InitialKnowledge(s, thread), f) == WithAll(InitialKnowledge(s, thread), g)
    {
      OrderDoesNotMatter(s, f, g, thread, env);
    }
  }

  /**
   In working surroundings a proof run fails if and only if identifiers or commands disagree or the
   response names a turn whose end was buffered; otherwise it has started exactly when all is known.
   */
  lemma FailsExactlyOnConflict(s: Task, facts: seq<Fact>, thread: Text, env: Env)
    requires JustSent(s, thread) && !s.mode.NoProof? && env.ingests && env.activates && env.writesStatus
    ensures var k, t := WithAll(InitialKnowledge(s, thread), facts), Learn(s, facts, thread, env);
            && (t.outcome == Some(Failure) <==> Conflict(s.mode, k) || AnswersEnded(s, facts))
            && (!Conflict(s.mode, k) && !AnswersEnded(s, facts) ==> t.started == Complete(s.mode, k))
  {
    hide Learn, Conflict, WithAll, AnswersEnded, EndWaits, Ended, EndFails;
    JustSentBuffers(s, thread);
    if AnswersEnded(s, facts) {
      EndsFail(s);
      AnsweredEndFails(s, facts, thread, env);
    } else {
      UnansweredTwins(s, facts, thread, env);
      TurnCorrelation.FailsExactlyOnConflict(s.(terminals := []), facts, thread, env);
    }
  }
}
