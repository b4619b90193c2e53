/**
 Runs without a proof against a reference of five facts: how many answers were heard, the claimed thread,
 the answered and the started turn, and the turn ends. These alone decide every plain run, whatever else
 the controller keeps.
 */
module PlainReference {
  import opened Collections
  import opened JsonGrammar
  import opened RelayTurnAction
  import opened OwnedTask
  import opened OwnedTaskOutcomes
  import opened PlainRuns

  datatype Known = Known(
    answers: nat, thread: Option<Text>, answered: Option<Text>, started: Option<Text>, ends: seq<Terminal>)

  const NOTHING_KNOWN := Known(0, None, None, None, [])

  /** How the answered turn ended, if it has. */
  function EndOf(k: Known): Option<Status> { if k.answered.None? then None else StatusFor(k.ends, k.answered.value) }

  /** A claim of a thread that names none, or another than before. */
  predicate BadClaim(k: Known, thread: Option<Text>) {
    thread.None? || thread.value == [] || (k.thread.Some? && k.thread != thread)
  }

  predicate Clash(a: Option<Text>, b: Option<Text>) { a.Some? && b.Some? && a != b }

  /** Answers must come in order, without an error: to initialize, thread, tools and turn. */
  predicate BadAnswer(k: Known, a: ServerAnswer, env: Env) {
    || a.error.Some? || k.answers > 3 || a.id != NumericId(k.answers)
    || (k.answers == 1 && BadClaim(k, a.threadId))
    || (k.answers == 2 && !a.toolsIsolated)
    || (k.answers == 3 && (a.turnId.None? || Clash(k.started, a.turnId)))
    || (k.answers == 3 && StatusFor(k.ends, a.turnId.value).Some? && !env.ingests)
  }

  /** What the relay takes on only when it knows the thread. */
  predicate BadNotice(k: Known, n: Notification, env: Env) {
    var refused := k.thread.Some? && !env.ingests;
    match n
    case McpStartup => true
    case ThreadStarted(thread) => if k.answers == 1 then BadClaim(k, thread) || !env.ingests else refused
    case TurnStarted(thread, turn, inProgress) =>
      || refused
      || (k.thread == Some(thread) && (turn.None? || !inProgress || Clash(k.started, turn) || Clash(k.answered, turn)))
    case TurnEnded(thread, turn, status) =>
      if k.thread != Some(thread) then refused
      else turn.None? || status.None? || (k.answered.None? && |k.ends| >= 8) || (k.answered == turn && !env.ingests)
    case ThreadClosed(thread) => refused || k.thread == Some(thread)
    case _ => refused
  }

  predicate BadLine(k: Known, line: Line, env: Env) {
    match line
    case MalformedLine => true
    case RequestLine => EndOf(k).None?
    case AnswerLine(a) => BadAnswer(k, a, env)
    case NotificationLine(n) => EndOf(k).None? && BadNotice(k, n, env)
  }

  /** What an event decides about a plain run that is still open. */
  function Decided(k: Known, e: Event): Option<Outcome> {
    match e
    case Fault => Some(Failure)
    case Close(code, _) => Some(if code == 0 && EndOf(k).Some? then Success(EndOf(k).value) else Failure)
    case LineRead(line, env) => if BadLine(k, line, env) then Some(Failure) else None
    case _ => None
  }

  /** What an event that decides nothing adds. */
  function Learned(k: Known, e: Event): Known {
    var more := k.(ends := k.ends + EndIn(k.thread, e));
    if !e.LineRead? then more
    else
      match e.line
      case AnswerLine(a) =>
        more.(answers := k.answers + 1, thread := if k.answers == 1 then a.threadId else k.thread,
              answered := if k.answers == 3 then a.turnId else k.answered)
      case NotificationLine(n) =>
        if EndOf(k).Some? then more
        else if n.ThreadStarted? && k.answers == 1 then more.(thread := n.thread)
        else if n.TurnStarted? && k.thread == Some(n.threadId) then more.(started := n.turnId)
        else more
      case _ => more
  }

  function KnownAfter(events: seq<Event>): Known
    decreases |events|
  {
    if events == [] then NOTHING_KNOWN else Learned(KnownAfter(events[..|events| - 1]), events[|events| - 1])
  }

  /** The first event that decides anything decides the run. */
  function Judged(events: seq<Event>): Option<Outcome>
    decreases |events|
  {
    if events == [] then None
    else
      var front := events[..|events| - 1];
      if Judged(front).Some? then Judged(front) else Decided(KnownAfter(front), events[|events| - 1])
  }

  // The controller against the reference.

  function Answers(p: OwnedTask.Phase): nat {
    match p
    case Initializing => 0
    case StartingThread => 1
    case CheckingTools => 2
    case StartingTurn => 3
    case Running => 4
  }

  /** An open plain run keeps these facts, and nothing else that matters. */
  predicate Knows(s: Task, k: Known) {
    && Follows(s, k.ends) && Answers(s.phase) == k.answers
    && s.thread == k.thread && s.expected == k.answered && s.observed == k.started
  }

  /** The step from one to the next, decided as the reference says. */
  predicate StepsAs(s: Task, k: Known, e: Event, t: Task) {
    && t.outcome == Decided(k, e)
    && (t.outcome.None? ==>
          var l := Learned(k, e); Answers(t.phase) == l.answers && t.thread == l.thread && t.observed == l.started)
  }

  lemma EndIsTerminal(s: Task, k: Known)
    requires Knows(s, k)
    ensures EndOf(k) == s.terminal
  {
  }

  lemma FailureSteps(s: Task, k: Known, e: Event, t: Task)
    requires t.outcome.None? && Decided(k, e) == Some(Failure)
    ensures StepsAs(s, k, e, Fail(t))
  {
    FailIsFailure(t);
  }

  lemma AnswerSteps(s: Task, k: Known, a: ServerAnswer, env: Env)
    requires Knows(s, k)
    ensures StepsAs(s, k, LineRead(AnswerLine(a), env), HandleLine(s, AnswerLine(a), env))
  {
    hide Fail, Reconcile, StepsAs, LearnTurn;
    var e := LineRead(AnswerLine(a), env);
    var heard := s.(trace := s.trace + [Heard(AnswerLine(a))]);
    if a.error.Some? || a.id != NumericId(k.answers) || k.answers > 3 {
      FailureSteps(s, k, e, heard);
    } else if k.answers < 3 {
      OpeningSteps(s, k, a, env);
    } else if a.turnId.None? {
      FailureSteps(s, k, e, heard);
    } else {
      TurnSteps(s, k, a, env);
    }
  }

  lemma OpeningSteps(s: Task, k: Known, a: ServerAnswer, env: Env)
    requires Knows(s, k) && a.error.None? && a.id == NumericId(k.answers) && k.answers < 3
    ensures var heard := s.(trace := s.trace + [Heard(AnswerLine(a))]);
            StepsAs(s, k, LineRead(AnswerLine(a), env), PhaseAnswer(heard, a, env))
  {
    hide StepsAs, PhaseAnswer, Follows;
    OpenIsOpen(s, k);
    var heard := s.(trace := s.trace + [Heard(AnswerLine(a))]);
    if k.answers == 1 { ClaimSteps(s, k, heard, a, env); } else { PhaseSteps(s, k, heard, a, env); }
  }

  /** The same in the fields that answers before turn/start read and change. */
  predicate Opening(s: Task, k: Known, heard: Task) {
    && heard == s.(trace := heard.trace) && s.outcome.None? && s.mode.NoProof? && Answers(s.phase) == k.answers < 3
    && s.thread == k.thread && s.observed == k.started
  }

  lemma PhaseSteps(s: Task, k: Known, heard: Task, a: ServerAnswer, env: Env)
    requires Opening(s, k, heard) && a.error.None? && a.id == NumericId(k.answers) && k.answers != 1
    ensures StepsAs(s, k, LineRead(AnswerLine(a), env), PhaseAnswer(heard, a, env))
  {
    hide Fail, Reconcile, ClaimThread, EndIn, BadClaim, StatusFor, Clash, StepsAs;
    var next := heard.(phase := if k.answers == 0 then StartingThread else StartingTurn,
                       trace := if k.answers == 0 then heard.trace else heard.trace + [TurnStartSent]);
    if k.answers == 2 && !a.toolsIsolated {
      FailureSteps(s, k, LineRead(AnswerLine(a), env), heard);
    } else {
      AdvanceSteps(s, k, next, a, env);
      PlainArmsNothing(next);
    }
  }

  lemma AdvanceSteps(s: Task, k: Known, next: Task, a: ServerAnswer, env: Env)
    requires s.outcome.None? && Answers(s.phase) == k.answers && s.thread == k.thread && s.observed == k.started
    requires next == s.(phase := next.phase, trace := next.trace) && Answers(next.phase) == k.answers + 1
    requires a.error.None? && a.id == NumericId(k.answers) && (k.answers == 0 || (k.answers == 2 && a.toolsIsolated))
    ensures StepsAs(s, k, LineRead(AnswerLine(a), env), next)
  {
    hide EndIn, BadClaim, StatusFor;
  }

  lemma ClaimSteps(s: Task, k: Known, heard: Task, a: ServerAnswer, env: Env)
    requires Opening(s, k, heard) && a.error.None? && a.id == NumericId(1) && k.answers == 1
    ensures StepsAs(s, k, LineRead(AnswerLine(a), env), PhaseAnswer(heard, a, env))
  {
    hide Fail, Reconcile, ArmActivation, ClaimThread, BadClaim, EndIn;
    FailIsFailure(heard);
    ClaimIs(k, heard, a.threadId);
  }

  lemma ClaimIs(k: Known, s: Task, thread: Option<Text>)
    requires s.thread == k.thread
    ensures ClaimThread(s, thread) == if BadClaim(k, thread) then Fail(s) else s.(thread := thread)
  {
    hide Fail;
  }

  lemma OpenIsOpen(s: Task, k: Known)
    requires Knows(s, k)
    ensures s.outcome.None? && s.mode.NoProof?
  {
  }

  lemma TurnSteps(s: Task, k: Known, a: ServerAnswer, env: Env)
    requires Knows(s, k) && a.error.None? && a.id == NumericId(3) && k.answers == 3 && a.turnId.Some?
    ensures var heard := s.(trace := s.trace + [Heard(AnswerLine(a))]);
            StepsAs(s, k, LineRead(AnswerLine(a), env), Reconcile(LearnTurn(heard, a.turnId.value), env))
  {
    hide Fail, AcceptTerminal, Reconcile;
    var learned := LearnTurn(s.(trace := s.trace + [Heard(AnswerLine(a))]), a.turnId.value);
    TurnReconciles(learned, k.ends, env);
    FailIsFailure(learned);
    FailIsFailure(learned.(terminals := []));
  }

  /** Once the turn is known, its end is taken up if it was heard before. */
  lemma TurnReconciles(s: Task, ends: seq<Terminal>, env: Env)
    requires s.expected.Some? && s.mode.NoProof? && s.outcome.None? && s.terminal.None? && s.terminals == ends
    ensures var drained, status := s.(terminals := []), StatusFor(ends, s.expected.value);
            Reconcile(s, env)
            == if Clash(s.expected, s.observed) then Fail(s)
               else if status.None? then drained
               else if !env.ingests then Fail(drained)
               else Revoke(drained.(terminal := status, marks := s.marks.(ended := |s.trace| - 1)))
  {
    hide Fail, AcceptTerminal;
    var drained, status := s.(terminals := []), StatusFor(ends, s.expected.value);
    if status.Some? { AcceptSteps(drained, status.value, env); }
  }

  lemma NoticeSteps(s: Task, k: Known, n: Notification, env: Env)
    requires Knows(s, k) && s.terminal.None?
    ensures StepsAs(s, k, LineRead(NotificationLine(n), env), HandleLine(s, NotificationLine(n), env))
  {
    hide StepsAs, HandleNotification;
    if n.ThreadStarted? { ThreadSteps(s, k, n, env); }
    else if n.TurnStarted? && s.thread == Some(n.threadId) { StartSteps(s, k, n, env); }
    else if n.TurnEnded? && s.thread == Some(n.threadId) { EndSteps(s, k, n, env); }
    else { PassingSteps(s, k, n, env); }
  }

  /** Notices the relay only passes on, or stops at. */
  lemma PassingSteps(s: Task, k: Known, n: Notification, env: Env)
    requires Knows(s, k) && s.terminal.None? && !n.ThreadStarted?
    requires (n.TurnStarted? || n.TurnEnded?) ==> s.thread != Some(n.threadId)
    ensures var heard := s.(trace := s.trace + [Heard(NotificationLine(n))]);
            StepsAs(s, k, LineRead(NotificationLine(n), env), HandleNotification(heard, n, env))
  {
    hide Fail;
    EndIsTerminal(s, k);
    FailIsFailure(s.(trace := s.trace + [Heard(NotificationLine(n))]));
  }

  lemma ThreadSteps(s: Task, k: Known, n: Notification, env: Env)
    requires Knows(s, k) && s.terminal.None? && n.ThreadStarted?
    ensures var heard := s.(trace := s.trace + [Heard(NotificationLine(n))]);
            StepsAs(s, k, LineRead(NotificationLine(n), env), HandleNotification(heard, n, env))
  {
    hide Fail;
    EndIsTerminal(s, k);
    var heard := s.(trace := s.trace + [Heard(NotificationLine(n))]);
    FailIsFailure(heard);
    FailIsFailure(heard.(thread := n.thread));
  }

  lemma EndSteps(s: Task, k: Known, n: Notification, env: Env)
    requires Knows(s, k) && s.terminal.None? && n.TurnEnded? && s.thread == Some(n.threadId)
    ensures var heard := s.(trace := s.trace + [Heard(NotificationLine(n))]);
            StepsAs(s, k, LineRead(NotificationLine(n), env), HandleNotification(heard, n, env))
  {
    hide Fail, AcceptTerminal, EndIn, Revoke;
    EndIsTerminal(s, k);
    var heard := s.(trace := s.trace + [Heard(NotificationLine(n))]);
    FailIsFailure(heard);
    if n.status.Some? { AcceptSteps(heard, n.status.value, env); }
  }

  lemma StartSteps(s: Task, k: Known, n: Notification, env: Env)
    requires Knows(s, k) && s.terminal.None? && n.TurnStarted? && s.thread == Some(n.threadId)
    ensures var heard := s.(trace := s.trace + [Heard(NotificationLine(n))]);
            StepsAs(s, k, LineRead(NotificationLine(n), env), HandleNotification(heard, n, env))
  {
    hide Fail, HandleTurnStarted;
    EndIsTerminal(s, k);
    TurnStartSteps(s, k, n, env);
  }

  lemma AcceptSteps(s: Task, status: Status, env: Env)
    requires s.outcome.None? && s.mode.NoProof? && s.terminal.None?
    ensures var t := AcceptTerminal(s, status, env);
            && t.outcome == (if env.ingests then None else Some(Failure))
            && (env.ingests ==> t.phase == s.phase && t.thread == s.thread && t.observed == s.observed)
    ensures AcceptTerminal(s, status, env)
            == if env.ingests
               then Revoke(s.(terminal := Some(status), marks := s.marks.(ended := |s.trace| - 1))) else Fail(s)
  {
    hide Fail, MaybeConfirm;
    FailIsFailure(s);
  }

  lemma TurnStartSteps(s: Task, k: Known, n: Notification, env: Env)
    requires Knows(s, k) && n.TurnStarted?
    ensures var t := HandleTurnStarted(s.(trace := s.trace + [Heard(NotificationLine(n))]), n.turnId, n.inProgress,
                                       env);
            && (t.outcome == if n.turnId.None? || !n.inProgress || Clash(k.started, n.turnId)
                || Clash(k.answered, n.turnId)
                                || !env.ingests
                             then Some(Failure) else None)
            && (t.outcome.None? ==> t.phase == s.phase && t.thread == s.thread && t.observed == n.turnId)
  {
    hide Fail, Reconcile;
    var heard := s.(trace := s.trace + [Heard(NotificationLine(n))]);
    FailIsFailure(heard);
    if n.turnId.Some? {
      var seen := SeeTurn(heard, n.turnId.value);
      FailIsFailure(seen);
      SeenSteps(seen, k.ends, env);
      FailStaysFailed(seen, env);
    }
  }

  lemma SeenSteps(s: Task, ends: seq<Terminal>, env: Env)
    requires Follows(s, ends)
    ensures Reconcile(s, env) == if Clash(s.expected, s.observed) then Fail(s) else s
  {
    hide Fail;
    if s.expected.Some? { assert s.(terminals := []) == s; }
  }

  /** A line that is no answer and no notice taken up. */
  lemma StraySteps(s: Task, k: Known, e: Event)
    requires Knows(s, k) && e.LineRead? && !e.line.AnswerLine? && (e.line.NotificationLine? ==> s.terminal.Some?)
    ensures StepsAs(s, k, e, HandleLine(s, e.line, e.env))
  {
    hide HandleNotification, HandleAnswer, Fail, EndIn;
    EndIsTerminal(s, k);
    OpenIsOpen(s, k);
    FailIsFailure(s.(trace := s.trace + [Heard(e.line)]));
  }

  lemma CloseSteps(s: Task, k: Known, e: Event)
    requires Knows(s, k) && e.Close?
    ensures StepsAs(s, k, e, Next(s, e))
  {
    hide LostJobs, EndIn;
    EndIsTerminal(s, k);
  }

  lemma OtherSteps(s: Task, k: Known, e: Event)
    requires Knows(s, k) && !e.LineRead? && !e.Close?
    ensures StepsAs(s, k, e, Next(s, e))
  {
    hide Fail, Accept, EndIn;
    OpenIsOpen(s, k);
    FailIsFailure(s);
  }

  lemma EventSteps(s: Task, k: Known, e: Event)
    requires Knows(s, k)
    ensures StepsAs(s, k, e, Next(s, e))
  {
    hide Knows, StepsAs, HandleLine;
    OpenIsOpen(s, k);
    if !e.LineRead? {
      if e.Close? { CloseSteps(s, k, e); } else { OtherSteps(s, k, e); }
    } else if e.line.AnswerLine? {
      AnswerSteps(s, k, e.line.answer, e.env);
    } else if e.line.NotificationLine? && s.terminal.None? {
      NoticeSteps(s, k, e.line.notification, e.env);
    } else {
      StraySteps(s, k, e);
    }
  }

  lemma KnowsNext(s: Task, k: Known, e: Event)
    requires Knows(s, k)
    ensures Next(s, e).outcome == Decided(k, e)
    ensures Decided(k, e).None? ==> Knows(Next(s, e), Learned(k, e))
  {
    hide Next, Decided, GoesOn;
    EventSteps(s, k, e);
    EventGoesOn(s, k.ends, e);
    if Next(s, e).outcome.None? { LearnsTurn(s, k, e, Next(s, e)); }
  }

  lemma LearnsTurn(s: Task, k: Known, e: Event, t: Task)
    requires Knows(s, k) && Decided(k, e).None? && GoesOn(s, k.ends, e, t) && t.outcome.None?
    ensures t.expected == Learned(k, e).answered && Follows(t, Learned(k, e).ends)
  {
    hide Follows;
    OpenAgain(s, k.ends, e, t);
    if t.expected.Some? { assert s.expected == t.expected || AnswersTurn(e, t.expected.value); }
    if k.answered.Some? { assert t.expected == k.answered; }
  }

  /** Every plain run comes out as the reference judges its events. */
  lemma {:induction false} PlainRunsAreJudged(events: seq<Event>)
    ensures RunOf(NoProof, events).outcome == Judged(events)
    ensures Judged(events).None? ==> Knows(RunOf(NoProof, events), KnownAfter(events))
    decreases |events|
  {
    hide Knows, Next, Decided, Learned;
    if events == [] {
      FreshKnows();
    } else {
      var n := |events| - 1;
      var front, e := events[..n], events[n];
      PlainRunsAreJudged(front);
      if Judged(front).None? {
        KnowsNext(RunOf(NoProof, front), KnownAfter(front), e);
      } else {
        OutcomeIsFinal(RunOf(NoProof, front), e);
      }
    }
  }

  lemma FreshKnows()
    ensures Knows(Fresh(NoProof), NOTHING_KNOWN)
  {
  }
}
