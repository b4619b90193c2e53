/**
 What a successful run of a proof around a command must have seen and done, in order: the turn/start
 response and the turn/started notification naming one turn, one eligible command of that turn, one
 control context shown if the Stop comes from outside and none if the window's own end sends it,
 exactly one request written, the turn/interrupt of that turn, its exact empty result, the turn's
 interrupted end, and the child's clean exit.
 */
module CommandProof {
  import opened Collections
  import opened JsonGrammar
  import opened RemoteActionReceipt
  import opened RelayTurnAction
  import opened OwnedTask
  import opened OwnedTaskOutcomes
  import FileReplayStore

  // Reading the trace.

  predicate At(tr: seq<Note>, i: int, n: Note) { 0 <= i < |tr| && tr[i] == n }

  /** The response to turn/start, naming the turn. */
  predicate AnsweredAt(tr: seq<Note>, i: int, turn: Text) {
    && 0 <= i < |tr| && tr[i].Heard? && tr[i].line.AnswerLine?
    && tr[i].line.answer.id == NumericId(3) && tr[i].line.answer.error.None?
    && tr[i].line.answer.turnId == Some(turn)
  }

  predicate BeganAt(tr: seq<Note>, i: int, thread: Text, turn: Text) {
    At(tr, i, Heard(NotificationLine(TurnStarted(thread, Some(turn), true))))
  }

  predicate CommandAt(tr: seq<Note>, i: int, thread: Text, c: Command) {
    At(tr, i, Heard(NotificationLine(ItemStarted(thread, Some(c)))))
  }

  predicate ExactAnswerAt(tr: seq<Note>, i: int, id: Text) {
    && 0 <= i < |tr| && tr[i].Heard? && tr[i].line.AnswerLine? && tr[i].line.answer.id == TextId(id)
    && tr[i].line.answer.error.None? && tr[i].line.answer.result == Some(EmptyObject) && tr[i].line.answer.keys == 2
  }

  predicate InterruptedAt(tr: seq<Note>, i: int, thread: Text, turn: Text) {
    At(tr, i, Heard(NotificationLine(TurnEnded(thread, Some(turn), Some(Interrupted)))))
  }

  /** The command itself ended, or another eligible one started. */
  predicate Disturbs(n: Note, thread: Text, c: Command) {
    || n == Heard(NotificationLine(ItemCompleted(thread, Some(c.turnId), Some(c.itemId))))
    || (&& n.Heard? && n.line.NotificationLine? && n.line.notification.ItemStarted?
        && n.line.notification.threadId == thread && n.line.notification.command.Some?
        && n.line.notification.command.value != c)
  }

  ghost predicate Undisturbed(tr: seq<Note>, from: int, to: int, thread: Text, c: Command) {
    forall i :: 0 <= i < |tr| && from < i < to ==> !Disturbs(tr[i], thread, c)
  }

  ghost predicate NoContext(tr: seq<Note>) { forall i :: 0 <= i < |tr| ==> !tr[i].ContextWritten? }

  ghost predicate OnlyContext(tr: seq<Note>, at: int) {
    forall i :: 0 <= i < |tr| && tr[i].ContextWritten? ==> i == at
  }

  ghost predicate NoWrite(tr: seq<Note>) { forall i :: 0 <= i < |tr| ==> !tr[i].Wrote? }

  ghost predicate OnlyWrite(tr: seq<Note>, at: int) {
    forall i :: 0 <= i < |tr| && tr[i].Wrote? ==> i == at
  }

  predicate InterruptAt(tr: seq<Note>, i: int, thread: Text, turn: Text) {
    && 0 <= i < |tr| && tr[i].Wrote?
    && tr[i].request == Request(tr[i].request.id, TurnInterrupt, thread, turn, [])
  }

  // What holds while the run has no outcome; `seen` is how much of the trace has been handled.

  ghost predicate TurnKnown(s: Task) {
    && (s.expected.Some? <==> s.phase.Running?)
    && (s.expected.Some? ==> AnsweredAt(s.trace, s.marks.answered, s.expected.value))
    && (s.phase.CheckingTools? || s.phase.StartingTurn? || s.phase.Running? || s.observed.Some? ==> s.thread.Some?)
    && (s.observed.Some? ==> BeganAt(s.trace, s.marks.began, s.thread.value, s.observed.value))
  }

  ghost predicate CommandKnown(s: Task, seen: int) {
    && (s.early.Some? ==>
          && s.thread.Some? && s.tracked.None? && !(s.expected.Some? && s.observed.Some?)
          && (s.phase.StartingTurn? || s.phase.Running?)
          && CommandAt(s.trace, s.marks.command, s.thread.value, s.early.value)
          && Undisturbed(s.trace, s.marks.command, seen, s.thread.value, s.early.value))
    && (s.tracked.Some? ==>
          && s.thread.Some? && s.expected == Some(s.tracked.value.turnId) == s.observed
          && CommandAt(s.trace, s.marks.command, s.thread.value, s.tracked.value)
          && Undisturbed(s.trace, s.marks.command, if s.stopDispatched then s.marks.dispatch else seen,
                         s.thread.value, s.tracked.value))
  }

  ghost predicate ContextShown(s: Task) {
    && (s.started <==> s.tracked.Some?) && (s.started <==> s.boundary.Some?) && (s.started ==> s.terminals == [])
    && (s.contextLive ==> s.mode.ExternalStop? && s.started && s.terminal.None?)
    && (!s.started ==> NoContext(s.trace) && !s.stopDispatched)
    && (s.started ==> AllKnownBy(s.marks, |s.trace|) && ContextFits(s))
    && (s.timer == Some(Observation) ==> s.mode.LocalLongTask? && s.started && !s.stopDispatched)
  }

  /** The turn and the command had become known by then. */
  predicate AllKnownBy(m: Marks, i: int) { m.answered < i && m.began < i && m.command < i }

  /** One context for the command's turn where the Stop comes from outside, none otherwise. */
  ghost predicate ContextFits(s: Task)
    requires s.tracked.Some?
  {
    if s.mode.ExternalStop? then
      && At(s.trace, s.marks.context, ContextWritten(s.tracked.value.turnId)) && OnlyContext(s.trace, s.marks.context)
      && AllKnownBy(s.marks, s.marks.context)
    else
      NoContext(s.trace)
  }

  /** A continuation that cannot lead to acceptance. */
  predicate Hopeless(j: Job) {
    match j
    case Settle(_, delivery) => delivery.SendFailed?
    case ProofSettled(_, settlement) => !settlement.AcceptedBy?
  }

  predicate StopOf(a: PrivateAction, thread: Text, turn: Text) {
    a == PrivateAction(a.actionId, Stop, thread, turn, [])
  }

  /** A continuation that carries acceptance only after the exact response was seen. */
  predicate JobOk(j: Job, responseSeen: bool) {
    match j
    case Settle(a, delivery) =>
      a.kind.Stop?
      && (delivery.Delivered? ==> responseSeen && Classify(delivery.response, RequestFor(a)) == AcceptedResponse)
    case ProofSettled(_, settlement) => settlement.AcceptedBy? ==> responseSeen
  }

  ghost predicate NothingSent(s: Task) {
    NoWrite(s.trace) && s.pending == [] && !s.responseSeen && !s.accepted
  }

  ghost predicate InterruptSent(s: Task) {
    && s.tracked.Some? && s.thread.Some? && s.stopDispatched && s.marks.wrote == s.marks.dispatch + 1
    && InterruptAt(s.trace, s.marks.wrote, s.thread.value, s.tracked.value.turnId) && OnlyWrite(s.trace, s.marks.wrote)
    && (s.boundary.Some? && (s.boundary.value.stopPending || s.terminal.Some?))
    && (forall a :: a in s.pending ==>
          StopOf(a, s.thread.value, s.tracked.value.turnId) && a.actionId == s.trace[s.marks.wrote].request.id)
    && |s.pending| <= 1 && (s.responseSeen ==> s.pending == [])
    && (forall j :: j in s.jobs ==> JobOk(j, s.responseSeen))
    && (s.responseSeen ==>
          s.marks.wrote < s.marks.response
          && ExactAnswerAt(s.trace, s.marks.response, s.trace[s.marks.wrote].request.id))
    && (s.accepted ==> s.responseSeen)
  }

  ghost predicate DispatchKnown(s: Task) {
    && (s.admitted.Some? ==> s.admitted.value.kind.Stop?)
    && (!s.stopDispatched ==>
          NothingSent(s) && s.jobs == [] && (s.boundary.Some? ==> s.boundary.value == NewBoundary(s)))
    && (s.stopDispatched ==>
          && At(s.trace, s.marks.dispatch, Dispatched) && s.started && AllKnownBy(s.marks, s.marks.dispatch)
          && (s.mode.ExternalStop? ==> s.marks.context < s.marks.dispatch)
          && (InterruptSent(s) || (NothingSent(s) && |s.jobs| == 1 && Hopeless(s.jobs[0]))))
  }

  ghost predicate EndKnown(s: Task) {
    && (s.terminal.Some? ==>
          && s.terminal == Some(Interrupted) && s.responseSeen && s.tracked.Some? && s.thread.Some?
          && InterruptedAt(s.trace, s.marks.ended, s.thread.value, s.tracked.value.turnId)
          && s.marks.response < s.marks.ended)
    && (s.confirmed ==> s.accepted && s.terminal.Some?)
  }

  ghost predicate Open(s: Task, seen: int) {
    && s.outcome.None? && (s.expected.Some? ==> s.terminals == [])
    && TurnKnown(s) && CommandKnown(s, seen) && ContextShown(s) && DispatchKnown(s) && EndKnown(s)
  }

  /** The whole success story, read off the trace. */
  ghost predicate Proven(s: Task, status: Status) {
    && status == Interrupted && s.thread.Some? && s.tracked.Some?
    && var tr, m, thread, c := s.trace, s.marks, s.thread.value, s.tracked.value;
       && AnsweredAt(tr, m.answered, c.turnId) && BeganAt(tr, m.began, thread, c.turnId)
       && CommandAt(tr, m.command, thread, c) && Undisturbed(tr, m.command, m.dispatch, thread, c)
       && ContextFits(s) && (s.mode.ExternalStop? ==> m.context < m.dispatch)
       && At(tr, m.dispatch, Dispatched) && AllKnownBy(m, m.dispatch)
       && InterruptAt(tr, m.wrote, thread, c.turnId) && OnlyWrite(tr, m.wrote)
       && ExactAnswerAt(tr, m.response, tr[m.wrote].request.id)
       && InterruptedAt(tr, m.ended, thread, c.turnId)
       && At(tr, |tr| - 1, ChildClosed(0))
       && m.wrote == m.dispatch + 1 && m.wrote < m.response < m.ended < |tr| - 1
  }

  ghost predicate Inv(s: Task) {
    && NeedsCommand(s.mode)
    && (s.outcome.None? ==> Open(s, |s.trace|))
    && (s.outcome.Some? && s.outcome.value.Success? ==> Proven(s, s.outcome.value.status) && Ended(s))
  }

  // One step keeps it: pieces.

  /** Still open with the whole trace handled, or failed. */
  ghost predicate Good(s: Task) {
    && NeedsCommand(s.mode)
    && (s.outcome.None? ==> Open(s, |s.trace|))
    && (s.outcome.Some? ==> s.outcome == Some(Failure))
  }

  lemma FailIsGood(s: Task)
    requires NeedsCommand(s.mode) && (s.outcome.None? || s.outcome == Some(Failure))
    ensures Good(Fail(s)) && Fail(s).outcome == Some(Failure)
  {
  }

  lemma HeardOpen(s: Task, line: Line)
    requires Open(s, |s.trace|)
    ensures Open(s.(trace := s.trace + [Heard(line)]), |s.trace|)
  {
    hide TurnKnown, CommandKnown, ContextShown, DispatchKnown, EndKnown;
    HeardKeepsKnown(s, line);
    HeardKeepsDispatch(s, line);
  }

  lemma HeardKeepsKnown(s: Task, line: Line)
    requires Open(s, |s.trace|)
    ensures var t := s.(trace := s.trace + [Heard(line)]); TurnKnown(t) && CommandKnown(t, |s.trace|) && ContextShown(t)
  {
    hide InterruptSent, NothingSent, EndKnown, Undisturbed, NoContext, OnlyContext;
    assert forall i :: 0 <= i < |s.trace| ==> (s.trace + [Heard(line)])[i] == s.trace[i];
    HeardIsQuiet(s.trace, line);
  }

  /** A line disturbs nothing before it, and is no context. */
  lemma HeardIsQuiet(tr: seq<Note>, line: Line)
    ensures forall from, to, thread, c ::
              to <= |tr| && Undisturbed(tr, from, to, thread, c) ==>
                Undisturbed(tr + [Heard(line)], from, to, thread, c)
    ensures NoContext(tr) ==> NoContext(tr + [Heard(line)])
    ensures forall at :: OnlyContext(tr, at) ==> OnlyContext(tr + [Heard(line)], at)
  {
    assert forall i :: 0 <= i < |tr| ==> (tr + [Heard(line)])[i] == tr[i];
  }

  lemma HeardKeepsDispatch(s: Task, line: Line)
    requires Open(s, |s.trace|)
    ensures var t := s.(trace := s.trace + [Heard(line)]); DispatchKnown(t) && EndKnown(t)
  {
    hide TurnKnown, CommandKnown;
    assert forall i :: 0 <= i < |s.trace| ==> (s.trace + [Heard(line)])[i] == s.trace[i];
  }

  /** The command whose peace still matters. */
  function Watched(s: Task): Option<Command> {
    if s.stopDispatched then None else if s.tracked.Some? then s.tracked else s.early
  }

  /** The last note does not disturb the command being watched. */
  predicate Calm(s: Task) {
    s.trace != []
    && (Watched(s).Some? && s.thread.Some? ==>
          !Disturbs(s.trace[|s.trace| - 1], s.thread.value, Watched(s).value))
  }

  lemma CalmCatchesUp(s: Task)
    requires Open(s, |s.trace| - 1) && Calm(s)
    ensures Open(s, |s.trace|)
  {
  }

  /** Changes nothing that the invariant reads. */
  predicate SameStory(s: Task, t: Task) {
    t == s.(activationArmed := t.activationArmed, timer := t.timer, terminals := t.terminals)
    && (t.terminals == s.terminals || t.terminals == []) && (t.timer == s.timer || t.timer != Some(Observation))
  }

  lemma SameStoryOpen(s: Task, t: Task, seen: int)
    requires Open(s, seen) && SameStory(s, t)
    ensures Open(t, seen)
  {
  }

  // Starting the proof.

  ghost predicate Startable(s: Task, c: Command) {
    && NeedsCommand(s.mode) && Open(s, |s.trace|) && !s.started && s.early.None?
    && s.thread.Some? && s.expected == Some(c.turnId) == s.observed && s.terminals == []
    && CommandAt(s.trace, s.marks.command, s.thread.value, c)
    && Undisturbed(s.trace, s.marks.command, |s.trace|, s.thread.value, c)
  }

  lemma BeginProofGood(s: Task, c: Command, env: Env)
    requires Startable(s, c) && s.mode.ExternalStop? && env.activates && env.writesStatus
    ensures Good(BeginProof(s.(tracked := Some(c)), env.activates, env))
    ensures BeginProof(s.(tracked := Some(c)), env.activates, env).started
  {
    var t := BeginProof(s.(tracked := Some(c)), env.activates, env);
    assert t.trace == s.trace + [ContextWritten(c.turnId)];
    assert forall i :: 0 <= i < |s.trace| ==> t.trace[i] == s.trace[i];
  }

  lemma StartGood(s: Task, c: Command, env: Env)
    requires Startable(s, c)
    ensures Good(StartFromCommand(s, c, env))
    ensures StartFromCommand(s, c, env).outcome.None? ==> StartFromCommand(s, c, env).started
  {
    hide Open;
    assert s.terminal.None? && s.phase.Running? && s.tracked.None? && s.outcome.None? by { NotStarted(s); }
    if s.mode.LocalLongTask? { LocalStartGood(s, c, env); }
    else if env.activates && env.writesStatus { BeginProofGood(s, c, env); }
    else { BrokenStartFails(s, c, env); }
  }

  /** The long-task proof starts its observation window, and shows no context. */
  lemma LocalStartGood(s: Task, c: Command, env: Env)
    requires Startable(s, c) && s.mode.LocalLongTask?
    ensures Good(StartFromCommand(s, c, env)) && StartFromCommand(s, c, env).started
  {
    hide BeginProof;
  }

  lemma NotStarted(s: Task)
    requires Open(s, |s.trace|) && !s.started
    ensures s.terminal.None? && s.tracked.None? && s.outcome.None? && !s.responseSeen
    ensures s.expected.Some? ==> s.phase.Running?
  {
  }

  lemma BrokenStartFails(s: Task, c: Command, env: Env)
    requires s.mode.ExternalStop? && s.outcome.None? && !(env.activates && env.writesStatus)
    requires s.phase.Running? && s.terminal.None? && s.tracked.None? && !s.started
    requires s.expected == Some(c.turnId) == s.observed
    ensures StartFromCommand(s, c, env).outcome == Some(Failure) && StartFromCommand(s, c, env).mode == s.mode
  {
    hide BeginProof;
    if env.activates { UnwrittenFails(s.(tracked := Some(c)), env); }
    else { UnactivatedFails(s.(tracked := Some(c)), env); }
  }

  lemma UnactivatedFails(s: Task, env: Env)
    requires s.mode.ExternalStop? && s.outcome.None? && s.phase.Running? && s.tracked.Some? && !s.started
             && TurnsAgree(s)
    ensures BeginProof(s, false, env).outcome == Some(Failure) && BeginProof(s, false, env).mode == s.mode
  {
  }

  lemma UnwrittenFails(s: Task, env: Env)
    requires s.mode.ExternalStop? && s.outcome.None? && s.phase.Running? && s.tracked.Some? && !s.started
             && TurnsAgree(s)
    requires !env.writesStatus
    ensures BeginProof(s, true, env).outcome == Some(Failure) && BeginProof(s, true, env).mode == s.mode
  {
  }

  lemma AfterReconcileGood(s: Task, env: Env)
    requires Good(s) && (s.outcome.None? ==> s.started || s.tracked.None?)
    ensures Good(AfterReconcile(s, env))
  {
    hide Open, BeginProof;
    if s.outcome.None? {
      assert SameStory(s, ArmActivation(s));
      SameStoryOpen(s, ArmActivation(s), |s.trace|);
      NothingBegins(ArmActivation(s), env.activates, env);
    } else {
      LateBeginStaysFailed(ArmActivation(s), env);
    }
  }

  lemma NothingBegins(s: Task, activates: bool, env: Env)
    requires NeedsCommand(s.mode) && (s.started || s.tracked.None?)
    ensures BeginProof(s, activates, env) == s
  {
  }

  lemma LateBeginStaysFailed(s: Task, env: Env)
    requires NeedsCommand(s.mode) && s.outcome == Some(Failure)
    ensures BeginProof(s, env.reactivates, env).outcome == s.outcome
    ensures BeginProof(s, env.reactivates, env).mode == s.mode
  {
    hide End;
  }

  /** Open but for an early command that the identifiers just learned may have made startable. */
  ghost predicate Reconcilable(s: Task) {
    && s.outcome.None?
    && TurnKnown(s) && ContextShown(s) && DispatchKnown(s) && EndKnown(s)
    && CommandKnown(s.(early := None), |s.trace|)
    && (s.early.Some? ==> EarlyKnown(s, s.early.value))
  }

  ghost predicate EarlyKnown(s: Task, c: Command) {
    && s.thread.Some? && s.tracked.None? && (s.phase.StartingTurn? || s.phase.Running?)
    && CommandAt(s.trace, s.marks.command, s.thread.value, c)
    && Undisturbed(s.trace, s.marks.command, |s.trace|, s.thread.value, c)
  }

  lemma NothingEarlyOpen(s: Task, t: Task)
    requires Reconcilable(s) && SameStory(s, t)
    requires s.early.Some? ==> !(s.expected.Some? && s.observed.Some?)
    requires t.expected.Some? ==> t.terminals == []
    ensures Open(t, |t.trace|)
  {
  }

  lemma EarlyTerminalFails(s: Task, status: Status, env: Env)
    requires NeedsCommand(s.mode) && Reconcilable(s) && s.terminals != []
    ensures AcceptTerminal(s.(terminals := []), status, env).outcome == Some(Failure)
    ensures AcceptTerminal(s.(terminals := []), status, env).mode == s.mode
  {
    assert !s.started && s.terminal.None?;
  }

  lemma TakeEarlyGood(s: Task, c: Command, env: Env)
    requires NeedsCommand(s.mode) && Reconcilable(s) && s.early == Some(c) && s.expected.Some? && s.observed.Some?
    ensures Good(TakeEarly(s.(terminals := []), c, env))
  {
    hide StartFromCommand, AfterReconcile, Open, Fail;
    var taken := s.(terminals := [], early := None);
    assert s.outcome.None?;
    if s.expected == Some(c.turnId) == s.observed {
      TakenIsStartable(s, c);
      StartGood(taken, c, env);
      AfterReconcileGood(StartFromCommand(taken, c, env), env);
    } else {
      FailIsGood(taken);
    }
  }

  lemma TakenIsStartable(s: Task, c: Command)
    requires NeedsCommand(s.mode) && Reconcilable(s) && s.early == Some(c)
    requires s.expected == Some(c.turnId) == s.observed
    ensures Startable(s.(terminals := [], early := None), c)
  {
  }

  lemma DrainGood(s: Task, env: Env)
    requires NeedsCommand(s.mode) && Reconcilable(s) && s.expected.Some?
    ensures Good(Drain(s, s.expected.value, env))
  {
    hide Open, Reconcilable, AfterReconcile, TakeEarly, AcceptTerminal, Fail, Good;
    var drained := s.(terminals := []);
    if TerminalFor(s.terminals, s.expected.value).Some? {
      var status := TerminalFor(s.terminals, s.expected.value).value.status;
      EarlyTerminalFails(s, status, env);
      FailedIsGood(AcceptTerminal(drained, status, env));
    } else if s.early.Some? && s.observed.Some? {
      TakeEarlyGood(s, s.early.value, env);
    } else {
      NothingEarlyOpen(s, drained);
      NothingTracked(drained);
      OpenIsGood(drained);
      AfterReconcileGood(drained, env);
    }
  }

  lemma NothingTracked(s: Task)
    requires Open(s, |s.trace|)
    ensures s.outcome.None? && (s.started || s.tracked.None?)
  {
  }

  lemma ReconcileGood(s: Task, env: Env)
    requires NeedsCommand(s.mode) && Reconcilable(s)
    ensures Good(Reconcile(s, env))
  {
    hide Open, Reconcilable, Drain, Fail, Good;
    assert s.outcome.None? by { ReconcilableIsOpenEnded(s); }
    if s.expected.Some? && s.observed.Some? && s.observed != s.expected {
      FailIsGood(s);
    } else if s.expected.None? {
      NothingEarlyOpen(s, s);
      OpenIsGood(s);
    } else {
      DrainGood(s, env);
    }
  }

  lemma ReconcilableIsOpenEnded(s: Task)
    requires Reconcilable(s)
    ensures s.outcome.None?
  {
  }

  lemma OpenIsGood(s: Task)
    requires NeedsCommand(s.mode) && Open(s, |s.trace|)
    ensures Good(s)
  {
  }

  lemma FailedIsGood(s: Task)
    requires NeedsCommand(s.mode) && s.outcome == Some(Failure)
    ensures Good(s)
  {
  }

  // Lines.

  lemma ActionAnswerGood(s: Task, a: ServerAnswer, n: nat)
    requires NeedsCommand(s.mode) && Open(s, |s.trace|) && n < |s.pending|
    requires s.trace != [] && s.trace[|s.trace| - 1] == Heard(AnswerLine(a)) && a.id == TextId(s.pending[n].actionId)
    ensures Good(HandleActionAnswer(s, a, n))
  {
    hide TurnKnown, CommandKnown, ContextShown, Fail;
    var action := s.pending[n];
    assert action in s.pending && InterruptSent(s);
    if !ExactEmpty(a) {
      FailIsGood(s);
    } else {
      var t := HandleActionAnswer(s, a, n);
      ActionAnswered(s, t);
      assert InterruptSent(t) by {
        assert s.marks.wrote < |s.trace| - 1;
        forall j | j in t.jobs ensures JobOk(j, true) {
          if j in s.jobs { assert JobOk(j, s.responseSeen); }
        }
      }
    }
  }

  lemma ActionAnswered(s: Task, t: Task)
    requires Open(s, |s.trace|)
    requires t == s.(responseSeen := t.responseSeen, marks := s.marks.(response := t.marks.response),
                     pending := t.pending, jobs := t.jobs)
    ensures TurnKnown(t) && CommandKnown(t, |t.trace|) && ContextShown(t)
  {
  }

  lemma ProtocolAnswerGood(s: Task, a: ServerAnswer, env: Env)
    requires NeedsCommand(s.mode) && Open(s, |s.trace|) && a.error.None?
    requires a.id == NumericId(0) || a.id == NumericId(1) || a.id == NumericId(2)
    ensures Good(HandleAnswer(s, a, env))
  {
    hide Reconcile, Fail;
    FailIsGood(s);
    assert forall i, n :: 0 <= i < |s.trace| ==> (s.trace + [n])[i] == s.trace[i];
  }

  lemma TurnAnswerReconcilable(s: Task, a: ServerAnswer)
    requires NeedsCommand(s.mode) && Open(s, |s.trace|) && s.phase.StartingTurn? && s.thread.Some?
    requires s.trace != [] && s.trace[|s.trace| - 1] == Heard(AnswerLine(a))
    requires a.error.None? && a.id == NumericId(3) && a.turnId.Some?
    ensures Reconcilable(LearnTurn(s, a.turnId.value)) && LearnTurn(s, a.turnId.value).mode == s.mode
  {
  }

  lemma AnswerGood(s: Task, a: ServerAnswer, env: Env)
    requires NeedsCommand(s.mode) && Open(s, |s.trace|)
    requires s.trace != [] && s.trace[|s.trace| - 1] == Heard(AnswerLine(a))
    ensures Good(HandleAnswer(s, a, env))
  {
    hide Open, Reconcile, Reconcilable, Fail, HandleActionAnswer, Good, ClaimThread, ArmActivation, LearnTurn;
    OpenHasNoOutcome(s);
    FailIsGood(s);
    var waiting := if a.id.TextId? then IndexOf(s.pending, a.id.text) else None;
    if waiting.Some? {
      ActionAnswerGood(s, a, waiting.value);
    } else if a.error.None? {
      if a.id == NumericId(3) && s.phase.StartingTurn? && s.thread.Some? && a.turnId.Some? {
        TurnAnswerReconcilable(s, a);
        ReconcileGood(LearnTurn(s, a.turnId.value), env);
      } else if a.id == NumericId(0) || a.id == NumericId(1) || a.id == NumericId(2) {
        ProtocolAnswerGood(s, a, env);
      }
    }
  }

  lemma OpenHasNoOutcome(s: Task)
    requires exists seen :: Open(s, seen)
    ensures s.outcome.None?
  {
  }

  /** The state while a notification is handled: its note is the last, and not yet accounted for. */
  ghost predicate Handling(s: Task, n: Notification) {
    && NeedsCommand(s.mode) && Open(s, |s.trace| - 1) && s.terminal.None?
    && s.trace != [] && s.trace[|s.trace| - 1] == Heard(NotificationLine(n))
  }

  lemma HandlingIsOpen(s: Task, n: Notification)
    requires Handling(s, n)
    requires !n.ItemStarted? && !n.ItemCompleted?
    ensures Open(s, |s.trace|)
  {
    CalmCatchesUp(s);
  }

  lemma TurnStartedReconcilable(s: Task, turnId: Option<Text>)
    requires Handling(s, TurnStarted(if s.thread.Some? then s.thread.value else [], turnId, true)) && s.thread.Some?
    requires turnId.Some? && (s.observed.Some? ==> s.observed == turnId)
    ensures Reconcilable(SeeTurn(s, turnId.value)) && SeeTurn(s, turnId.value).mode == s.mode
  {
    HandlingIsOpen(s, TurnStarted(s.thread.value, turnId, true));
  }

  lemma IngestGood(s: Task, env: Env)
    requires Good(s)
    ensures Good(Ingest(s, env))
  {
    hide Open;
    FailIsGood(s);
  }

  lemma TurnStartedGood(s: Task, turnId: Option<Text>, inProgress: bool, env: Env)
    requires s.thread.Some? && Handling(s, TurnStarted(s.thread.value, turnId, inProgress))
    ensures Good(HandleTurnStarted(s, turnId, inProgress, env))
  {
    hide Handling, Reconcile, Reconcilable, Good, SeeTurn, Fail, Ingest;
    HandlingHasNoOutcome(s, TurnStarted(s.thread.value, turnId, inProgress));
    FailIsGood(s);
    if turnId.Some? && inProgress && (s.observed.Some? ==> s.observed == turnId) {
      TurnStartedReconcilable(s, turnId);
      ReconcileGood(SeeTurn(s, turnId.value), env);
      IngestGood(Reconcile(SeeTurn(s, turnId.value), env), env);
    }
  }

  lemma HandlingHasNoOutcome(s: Task, n: Notification)
    requires Handling(s, n)
    ensures s.outcome.None? && NeedsCommand(s.mode)
  {
  }

  // Command starts.

  lemma EarlyCommandOpen(s: Task, c: Command)
    requires s.thread.Some? && Handling(s, ItemStarted(s.thread.value, Some(c)))
    requires s.tracked.None? && s.early.None? && (s.phase.StartingTurn? || s.phase.Running?)
    requires !(s.expected.Some? && s.observed.Some?)
    ensures Open(NoteEarly(s, c), |NoteEarly(s, c).trace|) && NoteEarly(s, c).mode == s.mode
  {
  }

  lemma CommandStartable(s: Task, c: Command)
    requires s.thread.Some? && Handling(s, ItemStarted(s.thread.value, Some(c)))
    requires s.tracked.None? && s.expected == Some(c.turnId) == s.observed
    ensures Startable(s.(marks := s.marks.(command := |s.trace| - 1)), c)
  {
  }

  lemma CommandStartedGood(s: Task, c: Command, env: Env)
    requires s.thread.Some? && Handling(s, ItemStarted(s.thread.value, Some(c)))
    ensures Good(CommandStarted(s, c, env))
  {
    hide Fail, StartFromCommand, Good, NoteEarly;
    FailIsGood(s);
    if s.tracked.Some? {
      if s.tracked == Some(c) || s.stopDispatched {
        CalmCatchesUp(s);
        OpenIsGood(s);
      }
    } else if s.phase.Running? && s.expected.Some? && s.observed.Some? {
      if Some(c.turnId) == s.expected == s.observed {
        CommandStartable(s, c);
        StartGood(s.(marks := s.marks.(command := |s.trace| - 1)), c, env);
      }
    } else if s.phase.StartingTurn? || s.phase.Running? {
      if s.early.None? {
        EarlyCommandOpen(s, c);
        OpenIsGood(NoteEarly(s, c));
      } else if s.early == Some(c) {
        CalmCatchesUp(s);
        OpenIsGood(s);
      }
    } else {
      CalmCatchesUp(s);
      OpenIsGood(s);
    }
  }

  lemma ItemCompletedGood(s: Task, threadId: Text, turnId: Option<Text>, itemId: Option<Text>, env: Env)
    requires Handling(s, ItemCompleted(threadId, turnId, itemId))
    ensures Good(HandleItemCompleted(s, threadId, turnId, itemId, env))
  {
    hide Fail, Good;
    FailIsGood(s);
    var watched := WatchedCommand(s);
    assert watched == Watched(s);
    if !(watched.Some? && Some(threadId) == s.thread && turnId == Some(watched.value.turnId)
         && itemId == Some(watched.value.itemId))
    {
      CalmCatchesUp(s);
      OpenIsGood(s);
      IngestGood(s, env);
    }
  }

  // The turn's end.

  lemma ConfirmGood(s: Task)
    requires NeedsCommand(s.mode) && Open(s, |s.trace|)
    ensures Good(MaybeConfirm(s)) && MaybeConfirm(s).outcome.None?
  {
    hide Fail;
  }

  /** The turn's interrupted end, after the exact response. */
  function Interrupt(s: Task): Task {
    Revoke(s.(terminal := Some(Interrupted), marks := s.marks.(ended := |s.trace| - 1)))
  }

  lemma InterruptOpen(s: Task)
    requires s.expected.Some? && s.thread.Some? && Open(s, |s.trace|) && s.responseSeen
    requires Handling(s, TurnEnded(s.thread.value, s.expected, Some(Interrupted)))
    ensures Open(Interrupt(s), |Interrupt(s).trace|) && Interrupt(s).mode == s.mode && s.started
  {
    hide TurnKnown, CommandKnown, Fail;
    assert InterruptSent(s) && s.started by { SeenMeansSent(s); }
    assert s.marks.response < |s.trace| - 1;
    EndedKeepsRest(s, Interrupt(s));
    assert InterruptSent(Interrupt(s));
  }

  lemma FinishGood(s: Task, status: Status)
    requires s.expected.Some? && s.thread.Some? && Open(s, |s.trace|)
    requires Handling(s, TurnEnded(s.thread.value, s.expected, Some(status)))
    ensures Good(FinishTerminal(s, status))
  {
    hide Open, Good, Fail, MaybeConfirm, Revoke;
    if status == Interrupted && s.responseSeen {
      InterruptOpen(s);
      ConfirmGood(Interrupt(s));
    } else {
      OtherEndFails(s, status);
      FailedIsGood(FinishTerminal(s, status));
    }
  }

  lemma OtherEndFails(s: Task, status: Status)
    requires NeedsCommand(s.mode) && Open(s, |s.trace|) && s.terminal.None?
             && !(status == Interrupted && s.responseSeen)
    ensures FinishTerminal(s, status).outcome == Some(Failure) && FinishTerminal(s, status).mode == s.mode
  {
    hide TurnKnown, CommandKnown, ContextShown, DispatchKnown;
  }

  lemma SeenMeansSent(s: Task)
    requires Open(s, |s.trace|) && s.responseSeen
    ensures InterruptSent(s) && s.started && s.marks.response < |s.trace|
  {
  }

  lemma EndedKeepsRest(s: Task, t: Task)
    requires Open(s, |s.trace|)
    requires t == s.(terminal := t.terminal, marks := s.marks.(ended := t.marks.ended), contextLive := false,
                     boundary := t.boundary, confirmed := t.confirmed, timer := t.timer)
    ensures TurnKnown(t) && CommandKnown(t, |t.trace|)
  {
  }

  lemma TurnEndedGood(s: Task, turnId: Option<Text>, status: Option<Status>, env: Env)
    requires s.thread.Some? && Handling(s, TurnEnded(s.thread.value, turnId, status))
    ensures Good(HandleTurnEnded(s, turnId, status, env))
  {
    hide Fail, FinishTerminal, Good;
    FailIsGood(s);
    HandlingIsOpen(s, TurnEnded(s.thread.value, turnId, status));
    if turnId.Some? && status.Some? {
      if s.expected.None? {
        if |s.terminals| < MAX_EARLY_TERMINALS {
          BufferedOpen(s, Terminal(turnId.value, status.value));
          OpenIsGood(s.(terminals := s.terminals + [Terminal(turnId.value, status.value)]));
        }
      } else if turnId == s.expected {
        FinishGood(s, status.value);
      } else {
        OpenIsGood(s);
      }
    }
  }

  lemma BufferedOpen(s: Task, t: Terminal)
    requires Open(s, |s.trace|) && s.expected.None?
    ensures Open(s.(terminals := s.terminals + [t]), |s.trace|)
  {
  }

  // Notifications and lines.

  lemma NotificationGood(s: Task, n: Notification, env: Env)
    requires Handling(s, n)
    ensures Good(HandleNotification(s, n, env))
  {
    hide Handling, Good, Fail, ClaimThread, HandleTurnStarted, CommandStarted;
    hide HandleItemCompleted, HandleTurnEnded, Ingest;
    HandlingHasNoOutcome(s, n);
    FailIsGood(s);
    if n.ThreadStarted? {
      HandlingIsOpen(s, n);
      ThreadStartedGood(s, n, env);
    } else if s.thread.None? {
      UnclaimedGood(s, n);
    } else {
      match n
      case TurnStarted(threadId, turnId, inProgress) =>
        HandlingIsOpen(s, n);
        if Some(threadId) == s.thread { TurnStartedGood(s, turnId, inProgress, env); } else { OtherGood(s, env); }
      case ItemStarted(threadId, command) =>
        if Some(threadId) == s.thread && command.Some? {
          CommandStartedGood(s, command.value, env);
          IngestGood(CommandStarted(s, command.value, env), env);
        } else {
          ForeignItemOpen(s, n);
          OtherGood(s, env);
        }
      case ItemCompleted(threadId, turnId, itemId) => ItemCompletedGood(s, threadId, turnId, itemId, env);
      case TurnEnded(threadId, turnId, status) =>
        HandlingIsOpen(s, n);
        if Some(threadId) == s.thread { TurnEndedGood(s, turnId, status, env); } else { OtherGood(s, env); }
      case _ =>
        HandlingIsOpen(s, n);
        OtherGood(s, env);
    }
  }

  lemma OtherGood(s: Task, env: Env)
    requires NeedsCommand(s.mode) && Open(s, |s.trace|)
    ensures Good(Ingest(s, env)) && Good(s)
  {
    hide Open;
    OpenIsGood(s);
    IngestGood(s, env);
  }

  lemma ForeignItemOpen(s: Task, n: Notification)
    requires Handling(s, n) && n.ItemStarted? && (Some(n.threadId) != s.thread || n.command.None?)
    ensures NeedsCommand(s.mode) && Open(s, |s.trace|)
  {
    CalmCatchesUp(s);
  }

  lemma UnclaimedGood(s: Task, n: Notification)
    requires Handling(s, n) && s.thread.None?
    ensures Good(s)
  {
    CalmCatchesUp(s);
  }

  lemma ThreadStartedGood(s: Task, n: Notification, env: Env)
    requires n.ThreadStarted? && NeedsCommand(s.mode) && Open(s, |s.trace|)
    ensures Good(HandleNotification(s, n, env))
  {
    hide Good, Fail, Ingest, Open;
    OpenHasNoOutcome(s);
    FailIsGood(s);
    OpenIsGood(s);
    IngestGood(s, env);
    if s.phase.StartingThread? && n.thread.Some? && (s.thread.Some? ==> s.thread == n.thread) {
      ClaimOpen(s, n.thread);
      OpenIsGood(s.(thread := n.thread));
      IngestGood(s.(thread := n.thread), env);
    }
  }

  lemma ClaimOpen(s: Task, thread: Option<Text>)
    requires Open(s, |s.trace|) && thread.Some? && (s.thread.Some? ==> s.thread == thread)
    ensures Open(s.(thread := thread), |s.trace|)
  {
  }

  lemma LineGood(s: Task, line: Line, env: Env)
    requires NeedsCommand(s.mode) && Open(s, |s.trace|)
    ensures Good(HandleLine(s, line, env))
  {
    hide Good, Open, HandleAnswer, HandleNotification, Fail;
    var heard := s.(trace := s.trace + [Heard(line)]);
    HeardOpen(s, line);
    OpenHasNoOutcome(s);
    FailIsGood(heard);
    match line
    case AnswerLine(answer) =>
      HeardAnswerOpen(s, line);
      AnswerGood(heard, answer, env);
    case RequestLine => HeardAfterEnd(s, line);
    case NotificationLine(n) =>
      if s.terminal.Some? { HeardAfterEnd(s, line); } else { NotificationGood(heard, n, env); }
    case MalformedLine =>
  }

  lemma HeardAnswerOpen(s: Task, line: Line)
    requires Open(s, |s.trace|) && line.AnswerLine?
    ensures var heard := s.(trace := s.trace + [Heard(line)]); Open(heard, |heard.trace|)
  {
    HeardOpen(s, line);
    CalmCatchesUp(s.(trace := s.trace + [Heard(line)]));
  }

  /** Once the turn has ended, nothing disturbs: the Stop was dispatched before. */
  lemma HeardAfterEnd(s: Task, line: Line)
    requires NeedsCommand(s.mode) && Open(s, |s.trace|)
    ensures s.terminal.Some? ==> Good(s.(trace := s.trace + [Heard(line)]))
  {
    HeardOpen(s, line);
    if s.terminal.Some? { CalmCatchesUp(s.(trace := s.trace + [Heard(line)])); }
  }

  // Dispatches.

  /** The state after a proof dispatch, but for the boundary, the queue and what was written. */
  lemma DispatchedOpen(s: Task)
    requires Open(s, |s.trace|) && s.started && s.timer != Some(Observation)
    ensures var t := MarkDispatch(s); TurnKnown(t) && CommandKnown(t, |t.trace|) && ContextShown(t) && EndKnown(t)
  {
    assert forall i :: 0 <= i < |s.trace| ==> (s.trace + [Dispatched])[i] == s.trace[i];
  }

  /** The proof runs and its turn has not ended. */
  predicate Dispatchable(s: Task) { s.started && s.terminal.None? && s.timer != Some(Observation) }

  lemma RefusedOpen(s: Task, b: Boundary, job: Job)
    requires Open(s, |s.trace|) && s.started && s.timer != Some(Observation) && !s.stopDispatched && Hopeless(job)
    ensures var t := MarkDispatch(s).(boundary := Some(b), jobs := [job]); Open(t, |t.trace|)
  {
    DispatchedOpen(s);
    assert forall i :: 0 <= i < |s.trace| ==> (s.trace + [Dispatched])[i] == s.trace[i];
  }

  /** The state after the interrupt was written. */
  function Written(s: Task, b: Boundary, a: PrivateAction): Task {
    var t := MarkDispatch(s);
    t.(boundary := Some(b), pending := [a], marks := t.marks.(wrote := |t.trace|),
       trace := t.trace + [Wrote(RequestFor(a))])
  }

  lemma WrittenOpen(s: Task, b: Boundary, a: PrivateAction)
    requires Open(s, |s.trace|) && Dispatchable(s) && !s.stopDispatched && b.stopPending
    requires s.thread.Some? && s.tracked.Some? && StopOf(a, s.thread.value, s.tracked.value.turnId)
    ensures Open(Written(s, b, a), |Written(s, b, a).trace|)
  {
    hide MarkDispatch;
    var t, u := MarkDispatch(s), Written(s, b, a);
    DispatchedOpen(s);
    MarkKeeps(s);
    assert forall i :: 0 <= i < |t.trace| ==> u.trace[i] == t.trace[i];
    assert u.marks == t.marks.(wrote := |t.trace|);
    assert InterruptSent(u);
  }

  lemma MarkKeeps(s: Task)
    ensures var t := MarkDispatch(s);
            && t == s.(stopDispatched := true, trace := s.trace + [Dispatched], marks := t.marks)
            && (!s.stopDispatched ==> t.marks == s.marks.(dispatch := |s.trace|))
            && (s.stopDispatched ==> t.marks == s.marks)
  {
  }

  /** The boundary refuses, or sends the very action and latches the Stop. */
  lemma BoundaryBegins(b: Boundary, candidate: Option<PrivateAction>, active: ActiveTurn)
    requires candidate.Some? ==> candidate.value.kind.Stop?
    ensures var (b', begun) := AfterBegin(b, candidate, active);
            && (begun.Resolved? ==> begun.settlement.RefusedFor?)
            && (begun.Sent?
                ==> candidate == Some(begun.action) && begun.request == RequestFor(begun.action) && b'.stopPending)
            && (b.stopPending ==> begun.Resolved?) && (b.stopPending && !active.NoTurn? ==> b'.stopPending)
  {
  }

  /** The first dispatch of a Stop: the interrupt is written, or nothing ever can be. */
  lemma FirstDispatchGood(s: Task, a: PrivateAction, env: Env)
    requires NeedsCommand(s.mode) && Open(s, |s.trace|) && Dispatchable(s) && !s.stopDispatched
    requires s.thread.Some? && s.tracked.Some? && StopOf(a, s.thread.value, s.tracked.value.turnId)
    ensures Good(BeginProofDispatch(s, a, env))
  {
    hide Open, Good, AfterBegin, TurnNow, MarkDispatch, FollowUp;
    MarkKeeps(s);
    LiveMeansReady(s);
    var candidate, turn := if env.wellFormed then Some(a) else None, TurnNow(MarkDispatch(s), env);
    BoundaryBegins(s.boundary.value, candidate, turn);
    FirstBegunGood(s, a, AfterBegin(s.boundary.value, candidate, turn), env.writesRequest);
  }

  lemma FirstBegunGood(s: Task, a: PrivateAction, begin: (Boundary, Begun), writable: bool)
    requires NeedsCommand(s.mode) && Open(s, |s.trace|) && Dispatchable(s) && !s.stopDispatched
    requires s.thread.Some? && s.tracked.Some? && StopOf(a, s.thread.value, s.tracked.value.turnId)
    requires begin.1.Resolved? ==> begin.1.settlement.RefusedFor?
    requires begin.1.Sent? ==> begin.1 == Sent(a, RequestFor(a)) && begin.0.stopPending
    ensures Good(FollowUp(MarkDispatch(s).(boundary := Some(begin.0)), a.actionId, begin.1, writable))
  {
    hide Open, Good, MarkDispatch, SendRequest;
    MarkKeeps(s);
    LiveMeansReady(s);
    if begin.1.Resolved? {
      var refused := ProofSettled(a.actionId, begin.1.settlement);
      RefusedOpen(s, begin.0, refused);
      assert s.jobs + [refused] == [refused];
      OpenIsGood(MarkDispatch(s).(boundary := Some(begin.0), jobs := [refused]));
    } else {
      SendingGood(s, begin.0, a, writable);
    }
  }

  lemma SendingGood(s: Task, b: Boundary, a: PrivateAction, writable: bool)
    requires NeedsCommand(s.mode) && Open(s, |s.trace|) && Dispatchable(s) && !s.stopDispatched && b.stopPending
    requires s.thread.Some? && s.tracked.Some? && StopOf(a, s.thread.value, s.tracked.value.turnId)
    ensures Good(SendRequest(MarkDispatch(s).(boundary := Some(b)), a, RequestFor(a), writable))
  {
    hide Open, Good, MarkDispatch, Written;
    MarkKeeps(s);
    LiveMeansReady(s);
    var u := SendRequest(MarkDispatch(s).(boundary := Some(b)), a, RequestFor(a), writable);
    if writable {
      WrittenOpen(s, b, a);
      WrittenIs(s, b, a);
      assert u == Written(s, b, a);
    } else {
      RefusedOpen(s, b, Settle(a, SendFailed));
      assert u == MarkDispatch(s).(boundary := Some(b), jobs := [Settle(a, SendFailed)]);
    }
    OpenIsGood(u);
  }

  lemma WrittenIs(s: Task, b: Boundary, a: PrivateAction)
    ensures var t := MarkDispatch(s);
            Written(s, b, a) == t.(boundary := Some(b), pending := [a], marks := t.marks.(wrote := |t.trace|),
                                   trace := t.trace + [Wrote(RequestFor(a))])
  {
  }

  lemma LiveMeansReady(s: Task)
    requires Open(s, |s.trace|) && Dispatchable(s)
    ensures s.outcome.None? && s.started && s.boundary.Some? && s.terminal.None? && s.phase.Running?
    ensures s.thread.Some? && s.tracked.Some? && s.expected == Some(s.tracked.value.turnId) == s.observed
    ensures !s.stopDispatched ==> s.pending == [] && s.jobs == []
  {
  }

  /** Any later dispatch is refused by the boundary: a Stop is pending. */
  lemma LaterDispatchGood(s: Task, a: PrivateAction, env: Env)
    requires NeedsCommand(s.mode) && Open(s, |s.trace|) && Dispatchable(s) && s.stopDispatched && s.jobs == []
             && a.kind.Stop?
    ensures Good(BeginProofDispatch(s, a, env))
  {
    hide Open, Good, AfterBegin, MarkDispatch, TurnNow, FollowUp;
    MarkKeeps(s);
    LiveMeansReady(s);
    PendingStop(s);
    TurnIsThere(s, env);
    var candidate, turn := if env.wellFormed then Some(a) else None, TurnNow(MarkDispatch(s), env);
    BoundaryBegins(s.boundary.value, candidate, turn);
    LaterBegunGood(s, a, AfterBegin(s.boundary.value, candidate, turn), env.writesRequest);
  }

  lemma TurnIsThere(s: Task, env: Env)
    requires s.terminal.None? && s.expected.Some? && s.expected == s.observed
    ensures !TurnNow(MarkDispatch(s), env).NoTurn?
  {
  }

  lemma LaterBegunGood(s: Task, a: PrivateAction, begin: (Boundary, Begun), writable: bool)
    requires NeedsCommand(s.mode) && Open(s, |s.trace|) && Dispatchable(s) && s.stopDispatched && s.jobs == []
    requires InterruptSent(s) && begin.1.Resolved? && begin.1.settlement.RefusedFor? && begin.0.stopPending
    ensures Good(FollowUp(MarkDispatch(s).(boundary := Some(begin.0)), a.actionId, begin.1, writable))
  {
    hide Open, Good, MarkDispatch, InterruptSent;
    MarkKeeps(s);
    var refused := ProofSettled(a.actionId, begin.1.settlement);
    LaterOpen(s, begin.0, refused);
    assert s.jobs + [refused] == [refused];
    OpenIsGood(MarkDispatch(s).(boundary := Some(begin.0), jobs := [refused]));
  }

  lemma PendingStop(s: Task)
    requires Open(s, |s.trace|) && Dispatchable(s) && s.stopDispatched && s.jobs == []
    ensures s.boundary.Some? && s.boundary.value.stopPending && InterruptSent(s)
  {
  }

  lemma LaterOpen(s: Task, b: Boundary, job: Job)
    requires Open(s, |s.trace|) && InterruptSent(s) && s.stopDispatched && s.jobs == [] && b.stopPending
             && Hopeless(job)
    requires job.ProofSettled?
    ensures var t := MarkDispatch(s).(boundary := Some(b), jobs := [job]); Open(t, |t.trace|)
  {
    DispatchedOpen(s);
    assert forall i :: 0 <= i < |s.trace| ==> (s.trace + [Dispatched])[i] == s.trace[i];
    assert InterruptSent(MarkDispatch(s).(boundary := Some(b), jobs := [job]));
  }

  lemma DispatchActionGood(s: Task, action: FileReplayStore.Action, env: Env)
    requires NeedsCommand(s.mode) && Open(s, |s.trace|) && s.jobs == []
    ensures Good(DispatchAction(s, action, env))
  {
    hide Open, Good, DispatchBound, Bind;
    OpenIsGood(s);
    if s.contextLive {
      LiveIsDispatchable(s);
      BoundGood(s, action, Bind(action, s.thread.value, s.expected.value), env);
    }
  }

  lemma LiveIsDispatchable(s: Task)
    requires Open(s, |s.trace|) && s.contextLive
    ensures Dispatchable(s.(timer := None)) && s.mode.ExternalStop? && s.boundary.Some?
    ensures s.thread.Some? && s.tracked.Some? && s.expected == Some(s.tracked.value.turnId)
  {
  }

  lemma BoundGood(s: Task, action: FileReplayStore.Action, a: PrivateAction, env: Env)
    requires s.mode.ExternalStop? && Open(s, |s.trace|) && s.jobs == [] && s.contextLive && s.boundary.Some?
    requires s.thread.Some? && s.tracked.Some? && a == Bind(action, s.thread.value, s.tracked.value.turnId)
    ensures Good(DispatchBound(s, action, a, env))
  {
    hide Open, Good, BeginProofDispatch, BeginDispatch;
    OpenIsGood(s);
    if s.admitted == Some(action) {
      var quiet := s.(timer := None);
      SameStoryOpen(s, quiet, |s.trace|);
      LiveIsDispatchable(s);
      AdmittedIsStop(s);
      if s.stopDispatched { LaterDispatchGood(quiet, a, env); } else { FirstDispatchGood(quiet, a, env); }
    }
  }

  lemma AdmittedIsStop(s: Task)
    requires Open(s, |s.trace|) && s.admitted.Some?
    ensures s.admitted.value.kind.Stop?
  {
  }

  // Continuations.

  lemma AcceptGood(s: Task)
    requires NeedsCommand(s.mode) && Open(s, |s.trace|) && InterruptSent(s) && s.responseSeen
    ensures Good(Accept(s))
  {
    var t := s.(accepted := true, timer := if s.terminal.None? then Some(Confirmation) else s.timer);
    assert InterruptSent(t);
    ConfirmGood(t);
  }

  /** The queue without its head, in a run that has sent its interrupt. */
  lemma PoppedOpen(s: Task)
    requires Open(s, |s.trace|) && InterruptSent(s) && s.jobs != []
    ensures Open(s.(jobs := s.jobs[1..]), |s.trace|) && InterruptSent(s.(jobs := s.jobs[1..]))
  {
    var t := s.(jobs := s.jobs[1..]);
    assert forall j :: j in t.jobs ==> j in s.jobs;
    assert InterruptSent(t);
  }

  lemma ProofJobGood(s: Task)
    requires NeedsCommand(s.mode) && Open(s, |s.trace|) && s.jobs != [] && s.jobs[0].ProofSettled?
    ensures Good(RunHead(s))
  {
    hide Accept, Fail, Open, InterruptSent;
    var popped := s.(jobs := s.jobs[1..]);
    OpenHasNoOutcome(s);
    FailIsGood(popped);
    if s.jobs[0].settlement.AcceptedBy? {
      AcceptanceMeansSeen(s);
      PoppedOpen(s);
      AcceptGood(popped);
    }
  }

  lemma AcceptanceMeansSeen(s: Task)
    requires Open(s, |s.trace|) && s.jobs != [] && s.jobs[0].ProofSettled? && s.jobs[0].settlement.AcceptedBy?
    ensures InterruptSent(s) && s.responseSeen
  {
    if InterruptSent(s) { assert JobOk(s.jobs[0], s.responseSeen); }
  }

  lemma SettleHopeless(s: Task)
    requires NeedsCommand(s.mode) && Open(s, |s.trace|) && s.jobs != [] && s.jobs[0].Settle? && !InterruptSent(s)
    ensures Good(RunHead(s))
  {
    var t := RunHead(s);
    assert s.jobs == [s.jobs[0]];
    assert t == s.(boundary := t.boundary, jobs := [ProofSettled(s.jobs[0].action.actionId, OutcomeUnknownError)]);
  }

  lemma SettleSent(s: Task)
    requires NeedsCommand(s.mode) && Open(s, |s.trace|) && s.jobs != [] && s.jobs[0].Settle? && InterruptSent(s)
    ensures Good(RunHead(s))
  {
    hide TurnKnown, CommandKnown;
    var t := RunHead(s);
    var action, delivery := s.jobs[0].action, s.jobs[0].delivery;
    assert JobOk(s.jobs[0], s.responseSeen);
    var job := ProofSettled(action.actionId, SettlementOf(action, delivery));
    assert t == s.(boundary := t.boundary, jobs := s.jobs[1..] + [job]);
    SettledKeepsRest(s, t);
    assert !SettlementOf(action, delivery).RefusedFor?;
    assert forall j :: j in t.jobs ==> j in s.jobs || j == job;
    assert InterruptSent(t);
  }

  lemma SettledKeepsRest(s: Task, t: Task)
    requires Open(s, |s.trace|) && t == s.(boundary := t.boundary, jobs := t.jobs)
    ensures TurnKnown(t) && CommandKnown(t, |t.trace|)
  {
  }

  lemma RunHeadGood(s: Task)
    requires NeedsCommand(s.mode) && Open(s, |s.trace|)
    ensures Good(RunHead(s))
  {
    hide Open, Good, InterruptSent;
    OpenIsGood(s);
    if s.jobs != [] {
      if s.jobs[0].ProofSettled? { ProofJobGood(s); }
      else if InterruptSent(s) { SettleSent(s); }
      else { SettleHopeless(s); }
    }
  }

  lemma LoseResponseGood(s: Task, id: Text)
    requires NeedsCommand(s.mode) && Open(s, |s.trace|)
    ensures Good(LoseResponse(s, id))
  {
    hide TurnKnown, CommandKnown;
    var n := IndexOf(s.pending, id);
    if n.Some? {
      assert s.pending[n.value] in s.pending && InterruptSent(s);
      var t := LoseResponse(s, id);
      LostKeepsRest(s, t);
      assert forall j :: j in t.jobs ==> j in s.jobs || j == Settle(s.pending[n.value], SendFailed);
      assert InterruptSent(t);
    }
  }

  lemma LostKeepsRest(s: Task, t: Task)
    requires Open(s, |s.trace|) && t == s.(pending := t.pending, jobs := t.jobs)
    ensures TurnKnown(t) && CommandKnown(t, |t.trace|)
  {
  }

  lemma AdmitGood(s: Task, action: FileReplayStore.Action)
    requires NeedsCommand(s.mode) && Open(s, |s.trace|)
    ensures Good(AdmitAction(s, action))
  {
    hide Fail, TurnKnown, CommandKnown, ContextShown, InterruptSent, NothingSent;
    FailIsGood(s);
    var t := AdmitAction(s, action);
    if s.admitted.None? && action.kind.Stop? { AdmittedKeepsRest(s, t); }
  }

  lemma AdmittedKeepsRest(s: Task, t: Task)
    requires Open(s, |s.trace|) && t == s.(admitted := t.admitted)
    ensures TurnKnown(t) && CommandKnown(t, |t.trace|) && ContextShown(t)
    ensures (InterruptSent(s) ==> InterruptSent(t)) && (NothingSent(s) ==> NothingSent(t))
  {
  }

  lemma TimerGood(s: Task, env: Env)
    requires NeedsCommand(s.mode) && Open(s, |s.trace|) && s.jobs == []
    ensures Good(ProofTimerFires(s, env))
  {
    hide Fail, Open, BeginProofDispatch, Good;
    OpenIsGood(s);
    OpenHasNoOutcome(s);
    FailIsGood(s.(timer := None));
    if s.timer == Some(Observation) {
      var quiet := s.(timer := None);
      SameStoryOpen(s, quiet, |s.trace|);
      Observing(s);
      OpenIsGood(quiet);
      FirstDispatchGood(quiet, PrivateAction(LOCAL_PROOF_ACTION_ID, Stop, s.thread.value, s.expected.value, []), env);
    }
  }

  /** The observation window of the long-task proof is open: everything is known, nothing dispatched. */
  lemma Observing(s: Task)
    requires Open(s, |s.trace|) && s.timer == Some(Observation)
    ensures Dispatchable(s.(timer := None)) && !s.stopDispatched && s.boundary.Some?
    ensures s.thread.Some? && s.tracked.Some? && s.expected == Some(s.tracked.value.turnId)
  {
  }

  // The end of the run.

  /** A run that closes without failing has the whole story behind it. */
  lemma ClosedProves(s: Task, code: int, disconnects: bool)
    requires NeedsCommand(s.mode) && Open(s, |s.trace|)
    ensures Inv(Closed(s, code, disconnects))
  {
    hide Open, Proven, End, Inv;
    OpenHasNoOutcome(s);
    var closed := s.(trace := s.trace + [ChildClosed(code)]);
    EndFails(closed);
    if code == 0 && s.terminal.Some? && s.confirmed {
      ClosedStory(s);
      EndProves(closed);
    }
  }

  lemma EndFails(s: Task)
    requires NeedsCommand(s.mode)
    ensures Inv(End(s, Failure))
  {
    hide LostJobs, Revoke, Open, Proven;
    RevokeKeepsMode(s);
  }

  lemma EndProves(s: Task)
    requires NeedsCommand(s.mode) && Proven(s, Interrupted) && s.terminal.Some?
    ensures Inv(End(s, Success(Interrupted)))
  {
    hide LostJobs, Open, Proven;
    EndKeepsStory(s, Success(Interrupted), Interrupted);
  }

  lemma ClosedStory(s: Task)
    requires NeedsCommand(s.mode) && Open(s, |s.trace|) && s.confirmed
    ensures s.terminal == Some(Interrupted) && Proven(s.(trace := s.trace + [ChildClosed(0)]), Interrupted)
  {
    hide Undisturbed;
    var t := s.(trace := s.trace + [ChildClosed(0)]);
    assert InterruptSent(s);
    assert forall i :: 0 <= i < |s.trace| ==> t.trace[i] == s.trace[i];
    ClosedUndisturbed(s);
  }

  lemma ClosedUndisturbed(s: Task)
    requires s.thread.Some? && s.tracked.Some? && s.marks.dispatch < |s.trace|
    requires Undisturbed(s.trace, s.marks.command, s.marks.dispatch, s.thread.value, s.tracked.value)
    ensures Undisturbed(s.trace + [ChildClosed(0)], s.marks.command, s.marks.dispatch, s.thread.value, s.tracked.value)
  {
  }

  lemma EndKeepsStory(s: Task, outcome: Outcome, status: Status)
    requires Proven(s, status)
    ensures Proven(End(s, outcome), status)
  {
    hide LostJobs;
  }

  lemma GoodIsInv(s: Task)
    requires Good(s)
    ensures Inv(s)
  {
  }

  lemma OpenNext(s: Task, e: Event)
    requires NeedsCommand(s.mode) && Open(s, |s.trace|)
    ensures Inv(Next(s, e))
  {
    hide Open, Good, Inv, HandleLine, RunHead, AdmitAction, DispatchAction, ProofTimerFires, LoseResponse, Closed, Fail;
    OpenIsGood(s);
    OpenHasNoOutcome(s);
    FailIsGood(s);
    FailIsGood(s.(activationArmed := false));
    if !(Waits(e) && s.jobs != []) {
      match e
      case LineRead(line, env) => LineGood(s, line, env);
      case RunJob => RunHeadGood(s);
      case Admit(action) => AdmitGood(s, action);
      case Dispatch(action, env) => DispatchActionGood(s, action, env);
      case ProofTimer(env) => TimerGood(s, env);
      case ResponseLost(id) => LoseResponseGood(s, id);
      case Close(code, disconnects) => ClosedProves(s, code, disconnects);
      case _ =>
    }
    if !e.Close? || (s.jobs != []) { GoodIsInv(Next(s, e)); }
  }

  /** An ended run writes nothing more and keeps its story. */
  predicate Ended(s: Task) { s.outcome.Some? && !s.contextLive && s.terminal.Some? && s.timer != Some(Observation) }

  /** Nothing the story is told with has changed. */
  predicate SameTale(s: Task, t: Task) {
    && t.mode == s.mode && t.outcome == s.outcome && t.trace == s.trace && t.marks == s.marks
    && t.thread == s.thread && t.tracked == s.tracked
  }

  lemma EndedJob(s: Task)
    requires NeedsCommand(s.mode) && Ended(s)
    ensures Ended(RunHead(s)) && SameTale(s, RunHead(s))
  {
    hide AfterSettle, SettlementOf, Fail, MaybeConfirm;
    if s.jobs != [] {
      var popped := s.(jobs := s.jobs[1..]);
      SettledIdles(popped);
      SettledIdles(popped.(accepted := true, timer := if s.terminal.None? then Some(Confirmation) else s.timer));
    }
  }

  lemma SettledIdles(s: Task)
    requires Settled(s)
    ensures Fail(s) == s && MaybeConfirm(s) == s
  {
  }

  lemma EndedNext(s: Task, e: Event)
    requires NeedsCommand(s.mode) && Ended(s)
    ensures Ended(Next(s, e)) && SameTale(s, Next(s, e))
  {
    hide RunHead, End, BeginProofDispatch, BeginDispatch, HandleAnswer, HandleNotification;
    EndedJob(s);
  }

  lemma {:induction false} EveryRunKeepsInv(mode: Mode, events: seq<Event>)
    requires NeedsCommand(mode)
    ensures Inv(RunOf(mode, events)) && RunOf(mode, events).mode == mode
    decreases |events|
  {
    hide Open, Proven, Ended, Next;
    EveryRunIsSound(mode, events);
    if events == [] {
      FreshIsOpen(mode);
    } else {
      var s, e := RunOf(mode, events[..|events| - 1]), events[|events| - 1];
      EveryRunKeepsInv(mode, events[..|events| - 1]);
      if s.outcome.None? {
        OpenNext(s, e);
      } else {
        OutcomeIsFinal(s, e);
        if s.outcome.value.Success? {
          EndedNext(s, e);
          StoryLasts(s, Next(s, e), s.outcome.value.status);
        }
      }
    }
  }

  lemma FreshIsOpen(mode: Mode)
    requires NeedsCommand(mode)
    ensures Inv(Fresh(mode))
  {
  }

  lemma StoryLasts(s: Task, t: Task, status: Status)
    requires Proven(s, status) && SameTale(s, t)
    ensures Proven(t, status)
  {
  }

  /**
   A run that resolves successfully, whatever the lines, dispatches, timers and continuations and
   however they interleave, contains the whole story in order and nothing that contradicts it.
   */
  lemma SuccessHasTheWholeStory(mode: Mode, events: seq<Event>, status: Status)
    requires NeedsCommand(mode) && RunOf(mode, events).outcome == Some(Success(status))
    ensures Proven(RunOf(mode, events), status) && RunOf(mode, events).mode == mode
    ensures forall n :: n in RunOf(mode, events).trace && n.Wrote? ==> n.request.rpc == TurnInterrupt
  {
    EveryRunKeepsInv(mode, events);
  }

  lemma ProvenIsInterrupted(s: Task, status: Status)
    requires Proven(s, status)
    ensures status == Interrupted
  {
  }
}
