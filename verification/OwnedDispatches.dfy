/** What a remote action that reaches the controller comes to: exactly when it is written to the App Server. */
module OwnedDispatches {
  import opened Collections
  import opened JsonGrammar
  import opened RemoteActionReceipt
  import opened RemoteActionReceiptJson
  import opened RelayTurnAction
  import Runs = RelayTurnActionRuns
  import opened OwnedTask
  import FileReplayStore

  /** The dispatch handle is live for this action; a proof takes only the one it has admitted. */
  predicate Handled(s: Task, action: FileReplayStore.Action) {
    && s.contextLive && s.thread.Some? && s.expected.Some? && s.boundary.Some?
    && (s.mode.ExternalStop? ==> s.admitted == Some(action))
  }

  /** The action bound to the run's own thread and turn. */
  function Bound(s: Task, action: FileReplayStore.Action): PrivateAction
    requires s.thread.Some? && s.expected.Some?
  {
    PrivateAction(action.actionId, action.kind, s.thread.value, s.expected.value,
                  if action.kind == Reply then action.text else [])
  }

  /** Its turn is the running one of both sides, and nothing else is on its way. */
  predicate Writable(s: Task, actionId: Text, env: Env)
    requires s.thread.Some? && s.boundary.Some?
  {
    var b := s.boundary.value;
    && env.wellFormed && env.turnWellFormed && env.writesRequest
    && s.outcome.None? && s.terminal.None? && s.phase.Running? && s.observed == s.expected
    && b.threadId == s.thread.value && actionId !in b.order && !b.stopPending && !b.inFlight
    && forall p :: p in s.pending ==> p.actionId != actionId
  }

  lemma TurnNowIs(s: Task, a: PrivateAction, env: Env)
    requires s.expected == Some(a.expectedTurnId)
    ensures TurnNow(s, env).Turn? <==> s.terminal.None? && s.observed == s.expected && env.turnWellFormed
    ensures TurnNow(s, env).Turn? ==> TurnNow(s, env) == Turn(a.expectedTurnId)
  {
  }

  /** What the boundary sends of it. */
  lemma BoundarySends(s: Task, a: PrivateAction, env: Env)
    requires s.boundary.Some? && s.thread == Some(a.threadId) && s.expected == Some(a.expectedTurnId)
    ensures var b, begun := s.boundary.value,
                            AfterBegin(s.boundary.value, if env.wellFormed then Some(a) else None, TurnNow(s, env)).1;
            if && env.wellFormed && env.turnWellFormed && s.terminal.None? && s.observed == s.expected
               && b.threadId == a.threadId && a.actionId !in b.order && !b.stopPending && !b.inFlight
            then begun.Sent? && begun.action == a && Runs.Carries(begun.request, a)
            else begun.Resolved?
  {
    hide TurnNow;
    TurnNowIs(s, a, env);
  }

  /** What is written of what was sent. */
  lemma SendingWrites(s: Task, a: PrivateAction, request: Request, writable: bool)
    requires request.id == a.actionId
    ensures var t := SendRequest(s, a, request, writable);
            if && writable && s.outcome.None? && s.terminal.None? && s.phase.Running?
               && forall p :: p in s.pending ==> p.actionId != a.actionId
            then t.trace == s.trace + [Wrote(request)] && t.pending == s.pending + [a]
            else t.trace == s.trace && t.pending == s.pending
  {
  }

  /** The trace grows by the request of the action, and the action waits for its answer. */
  predicate WritesOnce(s: Task, t: Task, a: PrivateAction) {
    && |t.trace| == |s.trace| + 1 && t.trace[..|s.trace|] == s.trace
    && t.trace[|s.trace|].Wrote? && Runs.Carries(t.trace[|s.trace|].request, a) && t.pending == s.pending + [a]
  }

  lemma BeginningWrites(s: Task, a: PrivateAction, env: Env)
    requires s.boundary.Some? && s.thread == Some(a.threadId) && s.expected == Some(a.expectedTurnId)
    ensures var t := BeginDispatch(s, a, env);
            if Writable(s, a.actionId, env) then WritesOnce(s, t, a) else t.trace == s.trace && t.pending == s.pending
  {
    hide AfterBegin, FollowUp, TurnNow, Runs.Carries, WritesOnce;
    BoundarySends(s, a, env);
    FollowingWrites(s, a, AfterBegin(s.boundary.value, if env.wellFormed then Some(a) else None, TurnNow(s, env)), env);
  }

  lemma FollowingWrites(s: Task, a: PrivateAction, begin: (Boundary, Begun), env: Env)
    requires begin.1.Sent? ==> begin.1.action == a && Runs.Carries(begin.1.request, a)
    ensures var t := FollowUp(s.(boundary := Some(begin.0)), a.actionId, begin.1, env.writesRequest);
            if && begin.1.Sent? && env.writesRequest && s.outcome.None? && s.terminal.None? && s.phase.Running?
               && forall p :: p in s.pending ==> p.actionId != a.actionId
            then WritesOnce(s, t, a) else t.trace == s.trace && t.pending == s.pending
  {
    hide SendRequest, Runs.Carries;
    if begin.1.Sent? {
      CarriesId(begin.1.request, a);
      SendingWrites(s.(boundary := Some(begin.0)), a, begin.1.request, env.writesRequest);
    }
  }

  lemma CarriesId(request: Request, a: PrivateAction)
    requires Runs.Carries(request, a)
    ensures request.id == a.actionId
  {
  }

  /** The trace before anything is written. */
  function Noted(s: Task): seq<Note> { if s.mode.ExternalStop? then s.trace + [Dispatched] else s.trace }

  /**
   A dispatched action is written exactly when it is handled and writable, then once, as the request that
   carries it bound to the run's thread and turn; otherwise nothing is written and nothing waits for an answer.
   */
  lemma DispatchWritesExactly(s: Task, action: FileReplayStore.Action, env: Env)
    ensures var t := Next(s, Dispatch(action, env));
            if s.jobs != [] || !Handled(s, action) then t == s
            else if Writable(s, action.actionId, env) then
              var n := |Noted(s)|;
              && |t.trace| == n + 1 && t.trace[..n] == Noted(s) && t.trace[n].Wrote?
              && Runs.Carries(t.trace[n].request, Bound(s, action)) && t.pending == s.pending + [Bound(s, action)]
            else t.trace == Noted(s) && t.pending == s.pending
  {
    hide BeginDispatch, Runs.Carries;
    if s.jobs == [] && Handled(s, action) {
      BeginningWrites(if s.mode.ExternalStop? then MarkDispatch(s.(timer := None)) else s, Bound(s, action), env);
    }
  }

  /** A response that will not come settles its request as failed, and only that one. */
  lemma LostResponseSettles(s: Task, id: Text, n: nat)
    requires s.jobs == [] && n < |s.pending| && s.pending[n].actionId == id
    requires forall m :: 0 <= m < n ==> s.pending[m].actionId != id
    ensures var t := Next(s, ResponseLost(id));
            && t.jobs == [Settle(s.pending[n], SendFailed)] && t.pending == s.pending[..n] + s.pending[n + 1..]
            && t.outcome == s.outcome
  {
    hide IndexOf;
    FirstWaiting(s.pending, id, n);
  }

  lemma {:induction false} FirstWaiting(pending: seq<PrivateAction>, id: Text, n: nat)
    requires n < |pending| && pending[n].actionId == id && forall m :: 0 <= m < n ==> pending[m].actionId != id
    ensures IndexOf(pending, id) == Some(n)
    decreases n
  {
    if n > 0 { FirstWaiting(pending[1..], id, n - 1); }
  }

  /** The Stop of the local long-task proof. */
  function OwnStop(s: Task): PrivateAction
    requires s.thread.Some? && s.expected.Some?
  {
    PrivateAction(Units("local-long-task-stop"), Stop, s.thread.value, s.expected.value, [])
  }

  /**
   A proof timer fails a run that is still open. Only the end of the observation of a local long task does
   not: if that can be said on the output, the proof's own Stop is dispatched, and written exactly if it is
   writable.
   */
  lemma TimerIsDecided(s: Task, env: Env)
    requires s.jobs == [] && s.timer.Some?
    ensures var t := Next(s, ProofTimer(env));
            if s.timer.value.Observation? && (s.terminal.Some? || s.outcome.Some?) then t == s.(timer := None)
            else if !s.timer.value.Observation? || !env.writesStatus then
              t.timer.None? && t.outcome == if s.outcome.Some? then s.outcome else Some(Failure)
            else if s.thread.None? || s.expected.None? || s.boundary.None? then t == s.(timer := None)
            else
              && t.timer.None? && t.stopDispatched && t.outcome == s.outcome
              && (if Writable(s, Units("local-long-task-stop"), env)
                  then WritesOnce(s.(trace := s.trace + [Dispatched]), t, OwnStop(s))
                  else t.trace == s.trace + [Dispatched] && t.pending == s.pending)
  {
    hide BeginProofDispatch, Fail, WritesOnce, Writable;
    FailEnds(s.(timer := None));
    if s.thread.Some? && s.expected.Some? && s.boundary.Some? { OwnStopDispatched(s, env); }
  }

  lemma FailEnds(s: Task)
    requires s.timer.None?
    ensures Fail(s).timer.None? && Fail(s).outcome == if s.outcome.Some? then s.outcome else Some(Failure)
  {
    hide LostJobs;
  }

  lemma OwnStopDispatched(s: Task, env: Env)
    requires s.thread.Some? && s.expected.Some? && s.boundary.Some?
    ensures var t := BeginProofDispatch(s.(timer := None), OwnStop(s), env);
            && t.timer.None? && t.stopDispatched && t.outcome == s.outcome
            && (if Writable(s, Units("local-long-task-stop"), env)
                then WritesOnce(s.(trace := s.trace + [Dispatched]), t, OwnStop(s))
                else t.trace == s.trace + [Dispatched] && t.pending == s.pending)
  {
    hide BeginDispatch, WritesOnce;
    var marked := MarkDispatch(s.(timer := None));
    BeginningWrites(marked, OwnStop(s), env);
    BeginChanges(marked, OwnStop(s), env);
    SameWrites(s, marked, BeginDispatch(marked, OwnStop(s), env), OwnStop(s));
  }

  lemma SameWrites(s: Task, marked: Task, t: Task, a: PrivateAction)
    requires marked.trace == s.trace + [Dispatched] && marked.pending == s.pending
    ensures WritesOnce(s.(trace := s.trace + [Dispatched]), t, a) <==> WritesOnce(marked, t, a)
  {
  }
}
