/**
 After turn/start is sent, its response, the turn/started notification and eligible command starts
 arrive in any order and any number. What the controller has become depends only on which of them
 arrived: `Agrees` says what, without saying in which order.
 */
module TurnCorrelation {
  import opened Collections
  import opened JsonGrammar
  import opened RemoteActionReceipt
  import opened RelayTurnAction
  import opened OwnedTask
  import CommandProof

  datatype Fact = Answered(turn: Text) | Began(turn: Text) | Ran(command: Command)

  /** The line a fact arrives as, for the claimed thread. */
  function LineOf(f: Fact, thread: Text): Line {
    match f
    case Answered(turn) =>
      AnswerLine(ServerAnswer(NumericId(3), None, Some(OtherObject), 2, None, false, Some(turn)))
    case Began(turn) => NotificationLine(TurnStarted(thread, Some(turn), true))
    case Ran(c) => NotificationLine(ItemStarted(thread, Some(c)))
  }

  function Learn(s: Task, facts: seq<Fact>, thread: Text, env: Env): Task
    decreases |facts|
  {
    if facts == [] then s
    else HandleLine(Learn(s, facts[..|facts| - 1], thread, env), LineOf(facts[|facts| - 1], thread), env)
  }

  /** What has arrived on the claimed thread, with the order forgotten; only responses are counted. */
  datatype Knowledge = Knowledge(thread: Text, answers: multiset<Text>, starts: set<Text>, commands: set<Command>)

  function With(k: Knowledge, f: Fact): Knowledge {
    match f
    case Answered(turn) => k.(answers := k.answers + multiset{turn})
    case Began(turn) => k.(starts := k.starts + {turn})
    case Ran(c) => k.(commands := k.commands + {c})
  }

  function WithAll(k: Knowledge, facts: seq<Fact>): Knowledge
    decreases |facts|
  {
    if facts == [] then k else With(WithAll(k, facts[..|facts| - 1]), facts[|facts| - 1])
  }

  // When the identifiers disagree.

  ghost predicate TurnsDiffer(k: Knowledge) {
    || |k.answers| > 1
    || (exists a, b :: a in k.starts && b in k.starts && a != b)
    || (exists a, b :: a in k.answers && b in k.starts && a != b)
  }

  ghost predicate CommandsDiffer(k: Knowledge) {
    || (exists c, d :: c in k.commands && d in k.commands && c != d)
    || (k.answers != multiset{} && exists c, t :: c in k.commands && t in k.starts && c.turnId != t)
  }

  ghost predicate Conflict(mode: Mode, k: Knowledge) {
    TurnsDiffer(k) || (NeedsCommand(mode) && CommandsDiffer(k))
  }

  /** Everything the mode's proof waits for is known. */
  predicate Complete(mode: Mode, k: Knowledge) {
    !mode.NoProof? && k.answers != multiset{} && k.starts != {} && (NeedsCommand(mode) ==> k.commands != {})
  }

  predicate StartBreaks(mode: Mode, env: Env) {
    match mode
    case NoProof => false
    case Loopback => !env.activates
    case LocalLongTask => false
    case ExternalStop => !env.activates || !env.writesStatus
  }

  ghost predicate Breaks(mode: Mode, k: Knowledge, env: Env) {
    Conflict(mode, k) || (Complete(mode, k) && StartBreaks(mode, env))
  }

  /** The relay refuses a notification it is shown. */
  predicate Refused(k: Knowledge, env: Env) { !env.ingests && (k.starts != {} || k.commands != {}) }

  // What the controller has become.

  ghost predicate Knows(s: Task, k: Knowledge) {
    && s.outcome.None? && s.terminal.None? && s.terminals == [] && s.pending == [] && s.thread == Some(k.thread)
    && (if k.answers == multiset{} then s.phase.StartingTurn? && s.expected.None?
        else s.phase.Running? && s.expected.Some? && s.expected.value in k.answers)
    && (if k.starts == {} then s.observed.None? else s.observed.Some? && s.observed.value in k.starts)
  }

  ghost predicate Holds(s: Task, k: Knowledge) {
    if !NeedsCommand(s.mode) || k.commands == {} then s.early.None? && s.tracked.None?
    else if k.answers != multiset{} && k.starts != {} then
      s.early.None? && s.tracked.Some? && s.tracked.value in k.commands
    else
      s.tracked.None? && s.early.Some? && s.early.value in k.commands
  }

  ghost predicate Proof(s: Task, k: Knowledge) {
    && s.started == Complete(s.mode, k) && !s.stopDispatched
    && s.activationArmed == (!s.mode.NoProof? && !s.started)
    && s.contextLive == (s.started && !s.mode.LocalLongTask?)
    && s.boundary == (if s.started then Some(NewBoundary(s)) else None)
    && s.timer == (if !s.started || s.mode.Loopback? then None
                   else if s.mode.ExternalStop? then Some(ProofTimeout) else Some(Observation))
  }

  ghost predicate Learned(s: Task, k: Knowledge) { Knows(s, k) && Holds(s, k) && Proof(s, k) }

  /** Apart from refusals by the relay. */
  ghost predicate AgreesSoFar(s: Task, k: Knowledge, env: Env) {
    if Breaks(s.mode, k, env) then s.outcome == Some(Failure) else Learned(s, k)
  }

  ghost predicate Agrees(s: Task, k: Knowledge, env: Env) {
    if Refused(k, env) then s.outcome == Some(Failure) else AgreesSoFar(s, k, env)
  }

  // One more fact.

  lemma FailureGrows(mode: Mode, k: Knowledge, f: Fact, env: Env)
    ensures Breaks(mode, k, env) ==> Breaks(mode, With(k, f), env)
    ensures Refused(k, env) ==> Refused(With(k, f), env)
  {
  }

  /** Before the proof has started. */
  ghost predicate Waiting(s: Task) {
    && s.outcome.None? && s.terminal.None? && s.terminals == [] && s.pending == [] && s.thread.Some?
    && s.tracked.None? && !s.started && !s.stopDispatched && !s.contextLive && s.boundary.None? && s.timer.None?
    && s.activationArmed == !s.mode.NoProof?
  }

  /** Exactly what starting the proof makes of a waiting state. */
  ghost predicate StartedFrom(s: Task, t: Task, command: Option<Command>) {
    && t == s.(started := true, activationArmed := false, contextLive := !s.mode.LocalLongTask?, tracked := command,
               early := None, boundary := Some(NewBoundary(s)), marks := t.marks, trace := t.trace,
               timer := if s.mode.Loopback? then None
                        else if s.mode.ExternalStop? then Some(ProofTimeout) else Some(Observation))
  }

  lemma ReconcileWaits(s: Task, env: Env)
    requires Waiting(s) && (s.phase.Running? <==> s.expected.Some?)
    requires s.expected.None? || s.observed.None?
    ensures Reconcile(s, env) == s
  {
    hide StartFromCommand;
    assert s.(terminals := []) == s;
    if s.expected.Some? { assert ArmActivation(s) == s; }
  }

  lemma ReconcileMismatch(s: Task, env: Env)
    requires Waiting(s) && s.expected.Some? && s.observed.Some?
    requires s.observed != s.expected
             || (NeedsCommand(s.mode) && s.early.Some? && Some(s.early.value.turnId) != s.expected)
    ensures Reconcile(s, env).outcome == Some(Failure) && Reconcile(s, env).mode == s.mode
  {
    hide StartFromCommand, AfterReconcile;
  }

  lemma ReconcileWithoutCommand(s: Task, env: Env)
    requires Waiting(s) && s.phase.Running? && TurnsAgree(s) && s.early.None? && !s.mode.Loopback?
    ensures Reconcile(s, env) == s
  {
    hide StartFromCommand;
    assert s.(terminals := []) == s && ArmActivation(s) == s;
  }

  lemma ReconcileLoopback(s: Task, env: Env)
    requires Waiting(s) && s.phase.Running? && TurnsAgree(s) && s.early.None? && s.mode.Loopback?
    ensures env.activates ==> StartedFrom(s, Reconcile(s, env), None)
    ensures !env.activates ==> Reconcile(s, env).outcome == Some(Failure) && Reconcile(s, env).mode == s.mode
  {
    hide StartFromCommand;
    assert s.(terminals := []) == s && ArmActivation(s) == s;
  }

  lemma StartBegins(s: Task, c: Command, env: Env)
    requires Waiting(s) && s.phase.Running? && s.expected == Some(c.turnId) == s.observed && NeedsCommand(s.mode)
    requires s.early.None? && !StartBreaks(s.mode, env)
    ensures StartedFrom(s, StartFromCommand(s, c, env), Some(c))
  {
  }

  lemma StartFails(s: Task, c: Command, env: Env)
    requires Waiting(s) && s.phase.Running? && s.expected == Some(c.turnId) == s.observed && s.mode.ExternalStop?
    requires StartBreaks(s.mode, env)
    ensures StartFromCommand(s, c, env).outcome == Some(Failure) && StartFromCommand(s, c, env).mode == s.mode
  {
    hide BeginProof;
    if env.activates { CommandProof.UnwrittenFails(s.(tracked := Some(c)), env); }
    else { CommandProof.UnactivatedFails(s.(tracked := Some(c)), env); }
  }

  lemma AfterStart(s: Task, env: Env)
    requires s.outcome.None? && s.started
    ensures AfterReconcile(s, env) == s
  {
  }

  lemma AfterFailure(s: Task, env: Env)
    requires s.outcome == Some(Failure) && s.mode.ExternalStop?
    ensures AfterReconcile(s, env).outcome == Some(Failure) && AfterReconcile(s, env).mode == s.mode
  {
    hide End;
    CommandProof.LateBeginStaysFailed(ArmActivation(s), env);
  }

  lemma ReconcileEarlyCommand(s: Task, c: Command, env: Env)
    requires Waiting(s) && s.phase.Running? && s.expected == Some(c.turnId) == s.observed && NeedsCommand(s.mode)
    requires s.early == Some(c)
    ensures !StartBreaks(s.mode, env) ==> StartedFrom(s, Reconcile(s, env), Some(c))
    ensures StartBreaks(s.mode, env) ==> Reconcile(s, env).outcome == Some(Failure) && Reconcile(s, env).mode == s.mode
  {
    hide StartFromCommand, AfterReconcile;
    var taken := s.(early := None);
    assert s.(terminals := []) == s;
    assert Reconcile(s, env) == AfterReconcile(StartFromCommand(taken, c, env), env);
    if StartBreaks(s.mode, env) {
      StartFails(taken, c, env);
      AfterFailure(StartFromCommand(taken, c, env), env);
    } else {
      StartBegins(taken, c, env);
      AfterStart(StartFromCommand(taken, c, env), env);
    }
  }

  /** A waiting state that has what `k` says, but has not yet compared the two turns. */
  ghost predicate Unreconciled(s: Task, k: Knowledge) {
    && Waiting(s) && Knows(s, k)
    && (TurnsDiffer(k) <==> s.expected.Some? && s.observed.Some? && s.expected != s.observed)
    && (NeedsCommand(s.mode) ==> forall c :: c in k.commands <==> s.early == Some(c))
    && (!NeedsCommand(s.mode) ==> s.early.None?)
  }

  lemma ReconcileAgrees(s: Task, k: Knowledge, env: Env)
    requires Unreconciled(s, k)
    ensures AgreesSoFar(Reconcile(s, env), k, env) && Reconcile(s, env).mode == s.mode
  {
    hide Reconcile;
    if s.expected.None? || s.observed.None? {
      ReconcileWaits(s, env);
      NotYetBroken(s, k, env);
    } else if s.observed != s.expected {
      ReconcileMismatch(s, env);
    } else if s.early.Some? {
      EarlyAgrees(s, k, env);
    } else if s.mode.Loopback? {
      ReconcileLoopback(s, env);
      SameTurns(s, k);
    } else {
      ReconcileWithoutCommand(s, env);
      SameTurns(s, k);
    }
  }

  lemma NotYetBroken(s: Task, k: Knowledge, env: Env)
    requires Unreconciled(s, k) && (s.expected.None? || s.observed.None?)
    ensures !Breaks(s.mode, k, env)
  {
  }

  lemma SameTurns(s: Task, k: Knowledge)
    requires Unreconciled(s, k) && TurnsAgree(s)
    ensures !TurnsDiffer(k) && (s.early.None? && NeedsCommand(s.mode) ==> k.commands == {})
    ensures forall t :: t in k.starts ==> Some(t) == s.expected
  {
  }

  lemma EarlyAgrees(s: Task, k: Knowledge, env: Env)
    requires Unreconciled(s, k) && TurnsAgree(s) && s.early.Some?
    ensures AgreesSoFar(Reconcile(s, env), k, env) && Reconcile(s, env).mode == s.mode
  {
    hide Reconcile;
    SameTurns(s, k);
    var c := s.early.value;
    assert c in k.commands;
    if Some(c.turnId) == s.expected {
      ReconcileEarlyCommand(s, c, env);
      assert !CommandsDiffer(k);
    } else {
      ReconcileMismatch(s, env);
      assert c.turnId != s.observed.value && s.observed.value in k.starts;
      assert CommandsDiffer(k);
    }
  }

  // One more fact.

  lemma AnsweredStep(s: Task, k: Knowledge, turn: Text, env: Env)
    requires Learned(s, k) && !Breaks(s.mode, k, env)
    ensures var t := HandleLine(s, LineOf(Answered(turn), s.thread.value), env);
            AgreesSoFar(t, With(k, Answered(turn)), env) && t.mode == s.mode
  {
    hide Reconcile, AgreesSoFar;
    var h := s.(trace := s.trace + [Heard(LineOf(Answered(turn), s.thread.value))]);
    if s.phase.StartingTurn? {
      AnsweredUnreconciled(h, k, turn);
      ReconcileAgrees(LearnTurn(h, turn), With(k, Answered(turn)), env);
    } else {
      SecondAnswer(h, k, turn, env);
    }
  }

  lemma AnsweredUnreconciled(s: Task, k: Knowledge, turn: Text)
    requires s.phase.StartingTurn? && Learned(s, k) && !Conflict(s.mode, k)
    ensures Unreconciled(LearnTurn(s, turn), With(k, Answered(turn)))
  {
  }

  lemma SecondAnswer(s: Task, k: Knowledge, turn: Text, env: Env)
    requires s.outcome.None? && k.answers != multiset{}
    ensures AgreesSoFar(Fail(s), With(k, Answered(turn)), env) && Fail(s).mode == s.mode
  {
    assert |With(k, Answered(turn)).answers| == |k.answers| + 1;
  }

  lemma BeganUnreconciled(s: Task, k: Knowledge, turn: Text)
    requires Learned(s, k) && !Conflict(s.mode, k) && !s.started && (s.observed.None? || s.observed == Some(turn))
    ensures Unreconciled(SeeTurn(s, turn), With(k, Began(turn)))
  {
    var k' := With(k, Began(turn));
    assert turn in k'.starts;
    if s.expected.Some? {
      OnlyElement(k.answers, s.expected.value);
      assert s.expected.value in k'.answers;
    }
  }

  lemma OnlyElement(m: multiset<Text>, x: Text)
    requires x in m && |m| <= 1
    ensures forall y :: y in m ==> y == x
  {
    assert |m - multiset{x}| == 0;
    assert m == multiset{x} + (m - multiset{x});
  }

  lemma StartedReconciles(s: Task, k: Knowledge, turn: Text, env: Env)
    requires Learned(s, k) && !Breaks(s.mode, k, env) && s.started && s.observed == Some(turn)
    ensures AgreesSoFar(Reconcile(SeeTurn(s, turn), env), With(k, Began(turn)), env)
    ensures Reconcile(SeeTurn(s, turn), env).mode == s.mode
  {
    hide StartFromCommand, BeginProof;
    assert With(k, Began(turn)) == k;
    assert SeeTurn(s, turn) == s && s.(terminals := []) == s;
    AfterStart(s, env);
  }

  /** The reconciled state when the relay takes the notification, a failure when it refuses it. */
  lemma IngestAgrees(s: Task, k: Knowledge, env: Env)
    requires AgreesSoFar(s, k, env)
    ensures env.ingests ==> Ingest(s, env) == s
    ensures !env.ingests ==> Ingest(s, env).outcome == Some(Failure) && Ingest(s, env).mode == s.mode
  {
  }

  lemma BeganStep(s: Task, k: Knowledge, turn: Text, env: Env)
    requires Learned(s, k) && !Breaks(s.mode, k, env)
    ensures var t := HandleLine(s, LineOf(Began(turn), s.thread.value), env);
            Agrees(t, With(k, Began(turn)), env) && t.mode == s.mode
  {
    hide Reconcile, AgreesSoFar, SeeTurn, Ingest;
    var h := s.(trace := s.trace + [Heard(LineOf(Began(turn), s.thread.value))]);
    if s.observed.Some? && s.observed != Some(turn) {
      OtherStart(h, k, turn, env);
    } else {
      if s.started { StartedReconciles(h, k, turn, env); }
      else {
        BeganUnreconciled(h, k, turn);
        ReconcileAgrees(SeeTurn(h, turn), With(k, Began(turn)), env);
        SeeTurnKeepsMode(h, turn);
      }
      IngestAgrees(Reconcile(SeeTurn(h, turn), env), With(k, Began(turn)), env);
    }
  }

  lemma SeeTurnKeepsMode(s: Task, turn: Text)
    ensures SeeTurn(s, turn).mode == s.mode
  {
  }

  lemma OtherStart(s: Task, k: Knowledge, turn: Text, env: Env)
    requires Learned(s, k) && s.observed.Some? && s.observed != Some(turn)
    ensures Agrees(Fail(s), With(k, Began(turn)), env) && Fail(s).mode == s.mode
  {
    assert s.observed.value in With(k, Began(turn)).starts && turn in With(k, Began(turn)).starts;
  }

  /** What a command start does, before the relay sees the notification. */
  lemma CommandAgrees(s: Task, k: Knowledge, c: Command, env: Env)
    requires Learned(s, k) && !Breaks(s.mode, k, env)
    ensures AgreesSoFar(CommandStarted(s, c, env), With(k, Ran(c)), env) && CommandStarted(s, c, env).mode == s.mode
  {
    hide StartFromCommand, Fail, AgreesSoFar;
    var k' := With(k, Ran(c));
    if !NeedsCommand(s.mode) {
      CommandIgnored(s, k, c, env);
    } else if k.commands != {} {
      SecondCommand(s, k, c, env);
    } else if k.answers != multiset{} && k.starts != {} {
      AgreedTurns(s, k);
      LateCommand(s, k, c, env);
    } else {
      EarlyCommand(s, k, c, env);
    }
  }

  lemma AgreedTurns(s: Task, k: Knowledge)
    requires Learned(s, k) && !TurnsDiffer(k) && k.answers != multiset{} && k.starts != {}
    ensures TurnsAgree(s) && forall t :: t in k.starts ==> Some(t) == s.expected
  {
  }

  lemma CommandIgnored(s: Task, k: Knowledge, c: Command, env: Env)
    requires Learned(s, k) && !Breaks(s.mode, k, env) && !NeedsCommand(s.mode)
    ensures AgreesSoFar(s, With(k, Ran(c)), env)
  {
  }

  lemma SecondCommand(s: Task, k: Knowledge, c: Command, env: Env)
    requires Learned(s, k) && !Breaks(s.mode, k, env) && NeedsCommand(s.mode) && k.commands != {}
    ensures AgreesSoFar(CommandStarted(s, c, env), With(k, Ran(c)), env) && CommandStarted(s, c, env).mode == s.mode
  {
    hide StartFromCommand;
    var k' := With(k, Ran(c));
    var held := if s.tracked.Some? then s.tracked.value else s.early.value;
    assert held in k.commands && held in k'.commands && c in k'.commands;
    if held == c { assert k' == k; } else { assert CommandsDiffer(k'); }
  }

  lemma LateCommand(s: Task, k: Knowledge, c: Command, env: Env)
    requires Learned(s, k) && !Breaks(s.mode, k, env) && NeedsCommand(s.mode) && k.commands == {}
    requires TurnsAgree(s) && k.answers != multiset{} && k.starts != {}
    requires forall t :: t in k.starts ==> Some(t) == s.expected
    ensures AgreesSoFar(CommandStarted(s, c, env), With(k, Ran(c)), env) && CommandStarted(s, c, env).mode == s.mode
  {
    hide StartFromCommand;
    var k', marked := With(k, Ran(c)), s.(marks := s.marks.(command := |s.trace| - 1));
    assert k'.commands == {c};
    if Some(c.turnId) != s.expected {
      assert s.observed.value in k'.starts && c in k'.commands;
      assert CommandsDiffer(k');
    } else {
      assert !CommandsDiffer(k');
      if StartBreaks(s.mode, env) { StartFails(marked, c, env); } else { StartBegins(marked, c, env); }
    }
  }

  lemma EarlyCommand(s: Task, k: Knowledge, c: Command, env: Env)
    requires Learned(s, k) && !Breaks(s.mode, k, env) && NeedsCommand(s.mode) && k.commands == {}
    requires k.answers == multiset{} || k.starts == {}
    ensures AgreesSoFar(CommandStarted(s, c, env), With(k, Ran(c)), env) && CommandStarted(s, c, env).mode == s.mode
  {
    hide StartFromCommand;
    assert With(k, Ran(c)).commands == {c};
  }

  lemma RanStep(s: Task, k: Knowledge, c: Command, env: Env)
    requires Learned(s, k) && !Breaks(s.mode, k, env)
    ensures var t := HandleLine(s, LineOf(Ran(c), s.thread.value), env);
            Agrees(t, With(k, Ran(c)), env) && t.mode == s.mode
  {
    hide CommandStarted, AgreesSoFar, Ingest;
    var h := s.(trace := s.trace + [Heard(LineOf(Ran(c), s.thread.value))]);
    CommandAgrees(h, k, c, env);
    IngestAgrees(CommandStarted(h, c, env), With(k, Ran(c)), env);
  }

  // Any number of facts, in any order.

  lemma FactStep(s: Task, k: Knowledge, f: Fact, env: Env)
    requires Agrees(s, k, env)
    ensures var t := HandleLine(s, LineOf(f, k.thread), env); Agrees(t, With(k, f), env) && t.mode == s.mode
  {
    hide Breaks, Refused, HandleLine, Conflict;
    FailureGrows(s.mode, k, f, env);
    if Refused(k, env) || Breaks(s.mode, k, env) {
      FailedStays(s, LineOf(f, k.thread), env);
    } else {
      OneFact(s, k, f, env);
    }
  }

  lemma FailedStays(s: Task, line: Line, env: Env)
    requires s.outcome.Some?
    ensures HandleLine(s, line, env) == s
  {
  }

  lemma OneFact(s: Task, k: Knowledge, f: Fact, env: Env)
    requires Learned(s, k) && !Breaks(s.mode, k, env) && !Refused(k, env)
    ensures var t := HandleLine(s, LineOf(f, k.thread), env); Agrees(t, With(k, f), env) && t.mode == s.mode
  {
    hide HandleLine, Breaks, AgreesSoFar;
    match f
    case Answered(turn) =>
      AnsweredStep(s, k, turn, env);
    case Began(turn) => BeganStep(s, k, turn, env);
    case Ran(c) => RanStep(s, k, c, env);
  }

  lemma {:induction false} FactsAgree(s: Task, k: Knowledge, facts: seq<Fact>, env: Env)
    requires Agrees(s, k, env)
    ensures var t := Learn(s, facts, k.thread, env); Agrees(t, WithAll(k, facts), env) && t.mode == s.mode
    ensures WithAll(k, facts).thread == k.thread
    decreases |facts|
  {
    hide Agrees, HandleLine;
    if facts != [] {
      var front, last := facts[..|facts| - 1], facts[|facts| - 1];
      FactsAgree(s, k, front, env);
      FactStep(Learn(s, front, k.thread, env), WithAll(k, front), last, env);
    }
  }

  /** The same outcome, and the same proof state while there is none. */
  predicate SameProof(s: Task, t: Task) {
    && s.outcome == t.outcome
    && (s.outcome.None? ==>
          && s.phase == t.phase && s.expected == t.expected && s.observed == t.observed
          && s.early == t.early && s.tracked == t.tracked && s.started == t.started
          && s.boundary == t.boundary && s.contextLive == t.contextLive
          && s.activationArmed == t.activationArmed && s.timer == t.timer)
  }

  lemma KnowledgeDecides(s: Task, t: Task, k: Knowledge, env: Env)
    requires Agrees(s, k, env) && Agrees(t, k, env) && s.mode == t.mode
    ensures SameProof(s, t)
  {
    if !Refused(k, env) && !Breaks(s.mode, k, env) {
      if s.expected.Some? { OnlyElement(k.answers, s.expected.value); }
    }
  }

  /** The state in which turn/start has just been sent. */
  predicate TurnStartJustSent(s: Task, thread: Text) {
    && s.outcome.None? && s.terminal.None? && s.terminals == [] && s.pending == [] && s.thread == Some(thread)
    && s.phase.StartingTurn? && s.expected.None? && s.early.None? && s.tracked.None?
    && !s.started && !s.stopDispatched && !s.contextLive && s.boundary.None? && s.timer.None?
    && s.activationArmed == !s.mode.NoProof?
  }

  function InitialKnowledge(s: Task, thread: Text): Knowledge {
    Knowledge(thread, multiset{}, if s.observed.Some? then {s.observed.value} else {}, {})
  }

  /**
   Two sequences of responses, turn starts and command starts with the same contents, starts and
   commands possibly repeated, lead to the same outcome and, while there is none, the same proof state.
   */
  lemma OrderDoesNotMatter(s: Task, f: seq<Fact>, g: seq<Fact>, thread: Text, env: Env)
    requires TurnStartJustSent(s, thread) && (s.observed.Some? ==> env.ingests)
    requires WithAll(InitialKnowledge(s, thread), f) == WithAll(InitialKnowledge(s, thread), g)
    ensures SameProof(Learn(s, f, thread, env), Learn(s, g, thread, env))
  {
    hide Agrees, Learn;
    var k := InitialKnowledge(s, thread);
    JustSentAgrees(s, thread, env);
    FactsAgree(s, k, f, env);
    FactsAgree(s, k, g, env);
    KnowledgeDecides(Learn(s, f, thread, env), Learn(s, g, thread, env), WithAll(k, f), env);
  }

  lemma JustSentAgrees(s: Task, thread: Text, env: Env)
    requires TurnStartJustSent(s, thread) && (s.observed.Some? ==> env.ingests)
    ensures Agrees(s, InitialKnowledge(s, thread), env)
  {
  }

  lemma WithCommutes(k: Knowledge, f: Fact, g: Fact)
    ensures With(With(k, f), g) == With(With(k, g), f)
  {
  }

  lemma {:induction false} WithLast(k: Knowledge, before: seq<Fact>, f: Fact, after: seq<Fact>)
    ensures WithAll(k, before + [f] + after) == With(WithAll(k, before + after), f)
    decreases |after|
  {
    if after == [] {
      assert before + [f] + after == before + [f] && before + after == before;
    } else {
      var front, last := after[..|after| - 1], after[|after| - 1];
      WithLast(k, before, f, front);
      assert (before + [f] + after)[..|before + [f] + after| - 1] == before + [f] + front;
      assert (before + after)[..|before + after| - 1] == before + front;
      WithCommutes(WithAll(k, before + front), f, last);
    }
  }

  lemma SameRest(front: seq<Fact>, before: seq<Fact>, f: Fact, after: seq<Fact>)
    requires multiset(front + [f]) == multiset(before + [f] + after)
    ensures multiset(front) == multiset(before + after)
  {
    assert multiset(front) == multiset(front + [f]) - multiset{f};
    assert multiset(before + after) == multiset(before + [f] + after) - multiset{f};
  }

  lemma {:induction false} PermutedKnowledge(k: Knowledge, f: seq<Fact>, g: seq<Fact>)
    requires multiset(f) == multiset(g)
    ensures WithAll(k, f) == WithAll(k, g)
    decreases |f|
  {
    if f == [] {
      assert |multiset(g)| == 0;
    } else {
      var front, last := f[..|f| - 1], f[|f| - 1];
      assert f == front + [last];
      assert last in multiset(f);
      var n :| 0 <= n < |g| && g[n] == last;
      var before, after := g[..n], g[n + 1..];
      assert g == before + [last] + after;
      SameRest(front, before, last, after);
      PermutedKnowledge(k, front, before + after);
      WithLast(k, before, last, after);
    }
  }

  /** Order independence: every interleaving of the same arrivals ends the same way. */
  lemma EveryInterleavingAgrees(s: Task, f: seq<Fact>, g: seq<Fact>, thread: Text, env: Env)
    requires TurnStartJustSent(s, thread) && (s.observed.Some? ==> env.ingests) && multiset(f) == multiset(g)
    ensures SameProof(Learn(s, f, thread, env), Learn(s, g, thread, env))
  {
    PermutedKnowledge(InitialKnowledge(s, thread), f, g);
    OrderDoesNotMatter(s, f, g, thread, env);
  }

  /**
   Any disagreement fails the run in every order, and nothing else does: with surroundings that work,
   the run fails exactly when two turn identifiers differ, the response came twice, two commands
   differ, or a command names another turn than the agreed one.
   */
  lemma FailsExactlyOnConflict(s: Task, facts: seq<Fact>, thread: Text, env: Env)
    requires TurnStartJustSent(s, thread) && env.ingests && env.activates && env.writesStatus
    ensures var k := WithAll(InitialKnowledge(s, thread), facts);
            && (Learn(s, facts, thread, env).outcome == Some(Failure) <==> Conflict(s.mode, k))
            && (!Conflict(s.mode, k) ==> Learn(s, facts, thread, env).started == Complete(s.mode, k))
  {
    hide Learn, Conflict;
    JustSentAgrees(s, thread, env);
    FactsAgree(s, InitialKnowledge(s, thread), facts, env);
  }
}
