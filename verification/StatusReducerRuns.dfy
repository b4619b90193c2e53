/**
 What holds of every task in every run of the status reducer: the tombstones are the last 64
 completed turns, a completed turn is inert, and the life cycle is safe.
 */
module StatusReducerRuns {
  import opened Collections
  import opened JsonGrammar
  import opened RemoteActionReceipt
  import opened StatusReducer

  // Tasks are independent.

  /** Every task is stored under its own identifier and listed once. */
  ghost predicate Ordered(r: Reducer) {
    && Distinct(r.order)
    && (forall id :: id in r.tasks <==> id in r.order)
    && (forall id :: id in r.tasks ==> r.tasks[id].threadId == id)
  }

  /** What an event does to one task, whatever the other tasks are. */
  function StepOf(r: Reducer, staleAfter: int, e: Event, id: Text): Step {
    match e
    case Ingested(m, at) =>
      if Reaches(r, m) && ThreadOf(r, m) == Some(id) then StepFor(TaskOf(r, id), m, at) else Quiet(TaskOf(r, id))
    case Swept(at) => SweepTask(TaskOf(r, id), staleAfter, at)
    case Lost(at) => LoseTask(TaskOf(r, id), at)
  }

  lemma StepKeepsThread(t: Task, m: Message, at: int)
    ensures StepFor(t, m, at).task.threadId == t.threadId
  {
  }

  lemma PutOrdered(r: Reducer, t: Task)
    requires Ordered(r)
    ensures Ordered(Put(r, t))
    ensures forall id :: TaskOf(Put(r, t), id) == if id == t.threadId then t else TaskOf(r, id)
    ensures t.threadId in r.tasks ==> Put(r, t).order == r.order
  {
  }

  lemma {:induction false} SweepEach(r: Reducer, staleAfter: int, at: int, among: seq<Text>)
    requires Ordered(r) && Distinct(among) && forall id :: id in among ==> id in r.tasks
    ensures var c := Sweep(r, staleAfter, at, among);
            && Ordered(c.reducer) && c.reducer.order == r.order && c.reducer.tasks.Keys == r.tasks.Keys
            && forall id :: id in r.tasks ==>
                 c.reducer.tasks[id] == if id in among then SweepTask(r.tasks[id], staleAfter, at).task else r.tasks[id]
  {
    hide Transition;
    if among != [] {
      var front, last := among[..|among| - 1], among[|among| - 1];
      assert among == front + [last];
      SweepEach(r, staleAfter, at, front);
      SweepKeepsThread(r.tasks[last], staleAfter, at);
      PutOrdered(Sweep(r, staleAfter, at, front).reducer, SweepTask(r.tasks[last], staleAfter, at).task);
    }
  }

  lemma SweepKeepsThread(t: Task, staleAfter: int, at: int)
    ensures SweepTask(t, staleAfter, at).task.threadId == t.threadId
    ensures LoseTask(t, at).task.threadId == t.threadId
  {
  }

  lemma {:induction false} LoseEach(r: Reducer, at: int, among: seq<Text>)
    requires Ordered(r) && Distinct(among) && forall id :: id in among ==> id in r.tasks
    ensures var c := Lose(r, at, among);
            && Ordered(c.reducer) && c.reducer.order == r.order && c.reducer.tasks.Keys == r.tasks.Keys
            && forall id :: id in r.tasks ==>
                 c.reducer.tasks[id] == if id in among then LoseTask(r.tasks[id], at).task else r.tasks[id]
  {
    hide Transition;
    if among != [] {
      var front, last := among[..|among| - 1], among[|among| - 1];
      assert among == front + [last];
      LoseEach(r, at, front);
      SweepKeepsThread(r.tasks[last], 0, at);
      PutOrdered(Lose(r, at, front).reducer, LoseTask(r.tasks[last], at).task);
    }
  }

  lemma TaskOfOwn(r: Reducer, id: Text)
    requires Ordered(r)
    ensures TaskOf(r, id).threadId == id
  {
  }

  /** A message, a sweep or a disconnection changes each task by its own step and no other. */
  lemma EachTaskSteps(r: Reducer, staleAfter: int, e: Event, id: Text)
    requires Ordered(r)
    ensures Ordered(Next(r, staleAfter, e).reducer)
    ensures TaskOf(Next(r, staleAfter, e).reducer, id) == StepOf(r, staleAfter, e, id).task
  {
    hide StepFor, SweepTask, LoseTask, Put;
    match e
    case Ingested(m, at) =>
      if Reaches(r, m) {
        var thread := ThreadOf(r, m).value;
        TaskOfOwn(r, thread);
        StepKeepsThread(TaskOf(r, thread), m, at);
        PutOrdered(r, StepFor(TaskOf(r, thread), m, at).task);
      }
    case Swept(at) =>
      SweepEach(r, staleAfter, at, r.order);
      UnknownTaskIsQuiet(id, staleAfter, at);
    case Lost(at) =>
      LoseEach(r, at, r.order);
      UnknownTaskIsQuiet(id, staleAfter, at);
  }

  lemma UnknownTaskIsQuiet(id: Text, staleAfter: int, at: int)
    ensures SweepTask(NewTask(id), staleAfter, at) == Quiet(NewTask(id)) == LoseTask(NewTask(id), at)
  {
  }

  lemma {:induction false} EveryRunIsOrdered(staleAfter: int, events: seq<Event>)
    ensures Ordered(RunOf(staleAfter, events))
    decreases |events|
  {
    if events != [] {
      EveryRunIsOrdered(staleAfter, events[..|events| - 1]);
      EachTaskSteps(RunOf(staleAfter, events[..|events| - 1]), staleAfter, events[|events| - 1], []);
    }
  }

  // What every task keeps.

  ghost predicate TaskOk(t: Task) {
    && (t.turnId.Some? ==> (t.turnId.value in t.tombstones <==> t.terminalStatus.Some?))
    && (t.terminalStatus.Some? ==> t.turnId.Some?)
    && |t.tombstones| <= MAX_TERMINAL_TURN_TOMBSTONES && Distinct(t.tombstones)
    && (t.state == Some(Ready) ==> t.terminalStatus == Some(Completed))
    && (IsActive(t.state) || t.state == Some(Stale) ==> t.terminalStatus.None?)
    && (t.state.Some? ==> t.stateSince.Some? && t.observedAt.Some? && t.lastSignal.Some?)
    && (forall id :: id in t.pending && t.pending[id].turnId.Some? ==> t.pending[id].turnId.value !in t.tombstones)
  }

  lemma EntombedOk(tombstones: seq<Text>, turnId: Text)
    requires Distinct(tombstones) && |tombstones| <= MAX_TERMINAL_TURN_TOMBSTONES && turnId !in tombstones
    ensures Distinct(Entombed(tombstones, turnId)) && |Entombed(tombstones, turnId)| <= MAX_TERMINAL_TURN_TOMBSTONES
    ensures turnId in Entombed(tombstones, turnId)
  {
    assert (tombstones + [turnId])[|tombstones|] == turnId;
    assert Entombed(tombstones, turnId)[|Entombed(tombstones, turnId)| - 1] == turnId;
  }

  lemma CompletionOk(t: Task, turnId: Text, outcome: Option<TurnStatus>, at: int)
    requires TaskOk(t)
    ensures TaskOk(CompleteTurn(t, turnId, outcome, at).task)
  {
    hide Entombed;
    if Completes(t, turnId, outcome) { EntombedOk(t.tombstones, turnId); }
  }

  lemma StepOk(t: Task, m: Message, at: int)
    requires TaskOk(t)
    ensures TaskOk(StepFor(t, m, at).task)
  {
    hide TaskOk, MakeRequest, Refresh, StartThread, RenameThread, StartTurn, CompleteTurn, ApplyStatus, Disconnect;
    hide ResolveRequest;
    match m
    case RequestMade(kind, _, turn, request, _) => SignalsOk(t, kind, turn, request, at);
    case TurnActivity(_, turn) => if turn.Some? { ActivityOk(t, turn.value, at); }
    case ThreadStarted(_, title, status) => ThreadOk(t, title, status, at);
    case ThreadRenamed(_, title) => ThreadOk(t, title, None, at);
    case TurnStarted(_, turn) => if turn.Some? { ActivityOk(t, turn.value, at); }
    case TurnCompleted(_, turn, outcome) => if turn.Some? { CompletionOk(t, turn.value, outcome, at); }
    case StatusChanged(_, status) => if status.Some? { StatusOk(t, status.value, at, StatusSignal); }
    case RequestResolved(_, request) => SignalsOk(t, InputRequest, None, request, at);
    case ThreadClosed(_) => DisconnectOk(t, at);
    case OtherMessage =>
  }

  lemma SignalsOk(t: Task, kind: RequestKind, turn: Option<Text>, request: Option<Text>, at: int)
    requires TaskOk(t)
    ensures TaskOk(MakeRequest(t, kind, turn, request, at).task) && TaskOk(ResolveRequest(t, request).task)
  {
    hide Distinct;
  }

  lemma ActivityOk(t: Task, turn: Text, at: int)
    requires TaskOk(t)
    ensures TaskOk(Refresh(t, turn, at).task) && TaskOk(StartTurn(t, turn, at).task)
  {
    hide Distinct;
  }

  lemma ThreadOk(t: Task, title: Option<Text>, status: Option<ThreadStatus>, at: int)
    requires TaskOk(t)
    ensures TaskOk(StartThread(t, title, status, at).task) && TaskOk(RenameThread(t, title, at).task)
  {
    hide Distinct, MatchingRequests;
  }

  lemma StatusOk(t: Task, status: ThreadStatus, at: int, source: Signal)
    requires TaskOk(t)
    ensures TaskOk(ApplyStatus(t, status, at, source).task)
  {
    hide Distinct, MatchingRequests;
  }

  lemma DisconnectOk(t: Task, at: int)
    requires TaskOk(t)
    ensures TaskOk(Disconnect(t, at, ThreadClosedSignal).task)
  {
    hide Distinct;
  }

  lemma TimerOk(t: Task, staleAfter: int, at: int)
    requires TaskOk(t)
    ensures TaskOk(SweepTask(t, staleAfter, at).task) && TaskOk(LoseTask(t, at).task)
  {
  }

  /**
   In every run: a task's current turn is a tombstone exactly when it has a terminal status, ready
   means completed, a live state has no terminal status, and no pending request belongs to a tombstoned turn.
   */
  lemma {:induction false} EveryTaskIsOk(staleAfter: int, events: seq<Event>, id: Text)
    ensures TaskOk(TaskOf(RunOf(staleAfter, events), id))
    decreases |events|
  {
    hide TaskOk, StepFor, SweepTask, LoseTask;
    if events == [] {
      NewTaskOk(id);
    } else {
      var r, e := RunOf(staleAfter, events[..|events| - 1]), events[|events| - 1];
      EveryTaskIsOk(staleAfter, events[..|events| - 1], id);
      EveryRunIsOrdered(staleAfter, events[..|events| - 1]);
      EachTaskSteps(r, staleAfter, e, id);
      match e
      case Ingested(m, at) => StepOk(TaskOf(r, id), m, at);
      case Swept(at) => TimerOk(TaskOf(r, id), staleAfter, at);
      case Lost(at) => TimerOk(TaskOf(r, id), staleAfter, at);
    }
  }

  lemma NewTaskOk(id: Text)
    ensures TaskOk(NewTask(id))
  {
  }

  // Tombstones.

  /** The turn an event completes for a task, if it does. */
  function CompletedBy(r: Reducer, e: Event, id: Text): seq<Text> {
    if e.Ingested? && e.message.TurnCompleted? && Reaches(r, e.message) && ThreadOf(r, e.message) == Some(id)
       && Completes(TaskOf(r, id), e.message.turn.value, e.message.outcome)
    then [e.message.turn.value]
    else []
  }

  /** All turns ever completed for a task, in order. */
  function Completions(staleAfter: int, events: seq<Event>, id: Text): seq<Text>
    decreases |events|
  {
    if events == [] then []
    else
      var front := events[..|events| - 1];
      Completions(staleAfter, front, id) + CompletedBy(RunOf(staleAfter, front), events[|events| - 1], id)
  }

  lemma EntombedIsLast(history: seq<Text>, turnId: Text)
    ensures Entombed(LastOf(history, MAX_TERMINAL_TURN_TOMBSTONES), turnId)
            == LastOf(history + [turnId], MAX_TERMINAL_TURN_TOMBSTONES)
  {
  }

  lemma StepTombstones(r: Reducer, staleAfter: int, e: Event, id: Text)
    ensures var before, done := TaskOf(r, id).tombstones, CompletedBy(r, e, id);
            StepOf(r, staleAfter, e, id).task.tombstones == if done == [] then before else Entombed(before, done[0])
  {
    hide Entombed, MatchingRequests;
  }

  /** Each task's tombstones are exactly its most recent 64 completed turns, in completion order. */
  lemma {:induction false} TombstonesAreTheLast64(staleAfter: int, events: seq<Event>, id: Text)
    ensures TaskOf(RunOf(staleAfter, events), id).tombstones
            == LastOf(Completions(staleAfter, events, id), MAX_TERMINAL_TURN_TOMBSTONES)
    decreases |events|
  {
    hide StepOf, CompletedBy;
    if events != [] {
      var front, e := events[..|events| - 1], events[|events| - 1];
      var r := RunOf(staleAfter, front);
      TombstonesAreTheLast64(staleAfter, front, id);
      EveryRunIsOrdered(staleAfter, front);
      EachTaskSteps(r, staleAfter, e, id);
      StepTombstones(r, staleAfter, e, id);
      CompletedOneAtMost(r, e, id);
      if CompletedBy(r, e, id) != [] {
        EntombedIsLast(Completions(staleAfter, front, id), CompletedBy(r, e, id)[0]);
      }
    }
  }

  lemma CompletedOneAtMost(r: Reducer, e: Event, id: Text)
    ensures CompletedBy(r, e, id) == [] || CompletedBy(r, e, id) == [CompletedBy(r, e, id)[0]]
  {
  }

  /** A message that names a turn as its own. */
  predicate About(m: Message, turnId: Text) {
    match m
    case RequestMade(_, _, turn, _, _) => turn == Some(turnId)
    case TurnActivity(_, turn) => turn == Some(turnId)
    case TurnStarted(_, turn) => turn == Some(turnId)
    case TurnCompleted(_, turn, _) => turn == Some(turnId)
    case _ => false
  }

  /** A tombstoned turn cannot start, complete, refresh or recover the task, nor register a request. */
  lemma TombstonedIsInert(t: Task, m: Message, turnId: Text, at: int)
    requires turnId in t.tombstones && About(m, turnId)
    ensures StepFor(t, m, at) == Quiet(t)
  {
  }

  /**
   A completed turn stays inert in every run until 64 other turns have completed on its thread: a
   message about it leaves the task as it is and emits nothing.
   */
  lemma CompletedTurnsStayInert(staleAfter: int, events: seq<Event>, id: Text, n: nat, m: Message, at: int)
    requires var done := Completions(staleAfter, events, id);
             n < |done| && |done| - n <= MAX_TERMINAL_TURN_TOMBSTONES && About(m, done[n])
    requires ThreadOf(RunOf(staleAfter, events), m) == Some(id)
    ensures var r := RunOf(staleAfter, events);
            TaskOf(Ingest(r, m, at).reducer, id) == TaskOf(r, id) && Ingest(r, m, at).records == []
  {
    hide StepFor, Reaches, ThreadOf, Put, TaskOf;
    var r := RunOf(staleAfter, events);
    RecentIsTombstoned(staleAfter, events, id, n);
    TombstonedIsInert(TaskOf(r, id), m, Completions(staleAfter, events, id)[n], at);
    EveryRunIsOrdered(staleAfter, events);
    EachTaskSteps(r, staleAfter, Ingested(m, at), id);
  }

  lemma RecentIsTombstoned(staleAfter: int, events: seq<Event>, id: Text, n: nat)
    requires var done := Completions(staleAfter, events, id);
             n < |done| && |done| - n <= MAX_TERMINAL_TURN_TOMBSTONES
    ensures Completions(staleAfter, events, id)[n] in TaskOf(RunOf(staleAfter, events), id).tombstones
  {
    hide Completions, RunOf, TaskOf;
    var done := Completions(staleAfter, events, id);
    TombstonesAreTheLast64(staleAfter, events, id);
    var last := LastOf(done, MAX_TERMINAL_TURN_TOMBSTONES);
    assert last[n - (|done| - |last|)] == done[n];
  }

  // What puts a task in its state.

  /** What gave a task its state: the status, the turn, the timer or the disconnection behind it. */
  datatype Cause =
    | Nothing
    | Flagged(onApproval: bool, onInput: bool)
    | Began
    | Finished(outcome: TurnStatus)
    | Broken
    | Recovered
    | WentQuiet
    | CutOff

  /** The state each cause stands for. */
  function StateBy(cause: Cause): Option<State> {
    match cause
    case Nothing => None
    case Flagged(onApproval, onInput) =>
      Some(if onApproval then WaitingForApproval else if onInput then WaitingForInput else Running)
    case Began => Some(Running)
    case Finished(outcome) => Some(if outcome == Completed then Ready else Blocked)
    case Broken => Some(Blocked)
    case Recovered => Some(Running)
    case WentQuiet => Some(Stale)
    case CutOff => Some(Disconnected)
  }

  /** A task that a disconnection cuts off: it runs, waits or has gone stale. */
  predicate Live(t: Task) {
    t.state in {Some(Running), Some(WaitingForApproval), Some(WaitingForInput), Some(Stale)}
  }

  /** The message is about this thread: it names it, or it is the end of the first thread with that turn. */
  ghost predicate Concerns(r: Reducer, m: Message, id: Text) {
    && !m.OtherMessage?
    && (m.thread == Some(id)
        || (m.TurnCompleted? && m.thread.None? && m.turn.Some?
            && exists n :: 0 <= n < |r.order| && r.order[n] == id && Runs(r, id, m.turn)
                           && forall k :: 0 <= k < n ==> !Runs(r, r.order[k], m.turn)))
  }

  predicate Runs(r: Reducer, id: Text, turn: Option<Text>) { id in r.tasks && r.tasks[id].turnId == turn }

  /** The cause a message is for a task, read off the message and what the task knew of its turns. */
  function MessageCause(t: Task, m: Message): Cause {
    match m
    case TurnStarted(_, Some(turn)) => if turn in t.tombstones then Nothing else Began
    case TurnCompleted(_, Some(turn), Some(outcome)) =>
      if turn in t.tombstones || (t.turnId.Some? && t.turnId != Some(turn)) then Nothing else Finished(outcome)
    case TurnActivity(_, Some(turn)) =>
      if t.state == Some(Stale) && t.turnId == Some(turn) && turn !in t.tombstones then Recovered else Nothing
    case StatusChanged(_, Some(Active(onApproval, onInput))) => Flagged(onApproval, onInput)
    case ThreadStarted(_, _, Some(Active(onApproval, onInput))) => Flagged(onApproval, onInput)
    case StatusChanged(_, Some(SystemError)) => Broken
    case ThreadStarted(_, _, Some(SystemError)) => Broken
    case StatusChanged(_, Some(NotLoaded)) => if Live(t) then CutOff else Nothing
    case ThreadClosed(_) => if Live(t) then CutOff else Nothing
    case _ => Nothing
  }

  /** The cause an event is for a task. */
  ghost function CauseOf(r: Reducer, staleAfter: int, e: Event, id: Text): Cause {
    var t := TaskOf(r, id);
    match e
    case Ingested(m, _) => if Concerns(r, m, id) then MessageCause(t, m) else Nothing
    case Swept(at) =>
      if t.state == Some(Running) && t.lastSignal.Some? && at >= t.lastSignal.value + staleAfter then WentQuiet
          else Nothing
    case Lost(_) => if Live(t) then CutOff else Nothing
  }

  ghost function LatestCause(staleAfter: int, events: seq<Event>, id: Text): Cause
    decreases |events|
  {
    if events == [] then Nothing
    else
      var front := events[..|events| - 1];
      var cause := CauseOf(RunOf(staleAfter, front), staleAfter, events[|events| - 1], id);
      if cause == Nothing then LatestCause(staleAfter, front, id) else cause
  }

  lemma {:induction false} FirstThreadWith(r: Reducer, turn: Text, among: seq<Text>, id: Text)
    ensures ThreadForTurn(r, turn, among) == Some(id) <==>
              exists n :: 0 <= n < |among| && among[n] == id && Runs(r, id, Some(turn))
                          && forall k :: 0 <= k < n ==> !Runs(r, among[k], Some(turn))
    decreases |among|
  {
    if among != [] {
      FirstThreadWith(r, turn, among[1..], id);
      if ThreadForTurn(r, turn, among[1..]) == Some(id) && !Runs(r, among[0], Some(turn)) {
        var n :| 0 <= n < |among[1..]| && among[1..][n] == id && Runs(r, id, Some(turn))
                 && forall k :: 0 <= k < n ==> !Runs(r, among[1..][k], Some(turn));
        assert among[n + 1] == id;
        assert forall k :: 0 <= k < n + 1 ==> among[k] == if k == 0 then among[0] else among[1..][k - 1];
      }
      if n :| 0 <= n < |among| && among[n] == id && Runs(r, id, Some(turn))
              && forall k :: 0 <= k < n ==> !Runs(r, among[k], Some(turn))
      {
        if n > 0 {
          assert among[1..][n - 1] == id && !Runs(r, among[0], Some(turn));
          assert forall k :: 0 <= k < n - 1 ==> among[1..][k] == among[k + 1];
        }
      }
    }
  }

  lemma ConcernsExactly(r: Reducer, m: Message, id: Text)
    ensures Concerns(r, m, id) <==> ThreadOf(r, m) == Some(id)
  {
    hide ThreadForTurn, Runs;
    if m.TurnCompleted? && m.turn.Some? { FirstThreadWith(r, m.turn.value, r.order, id); }
  }

  /** A message that does not get as far as its task would be no cause for it. */
  lemma UnreachedIsNoCause(r: Reducer, m: Message, id: Text)
    requires ThreadOf(r, m) == Some(id) && !Reaches(r, m)
    ensures MessageCause(TaskOf(r, id), m) == Nothing
  {
  }

  /**
   A message with a cause gives the task that cause's state, any other leaves its state alone. A record
   is emitted for every cause, and for a new name of a task whose state is known.
   */
  lemma MessageState(t: Task, m: Message, at: int)
    ensures var cause, step := MessageCause(t, m), StepFor(t, m, at);
            && step.task.state == (if cause == Nothing then t.state else StateBy(cause))
            && (step.emitted <==> cause != Nothing || (m.ThreadRenamed? && t.state.Some?))
  {
    hide Entombed, MatchingRequests;
  }

  lemma TimerState(t: Task, staleAfter: int, at: int)
    requires t.state.Some? ==> t.lastSignal.Some?
    ensures SweepTask(t, staleAfter, at).task.state
            == if t.state == Some(Running) && t.lastSignal.Some? && at >= t.lastSignal.value + staleAfter
               then Some(Stale) else t.state
    ensures LoseTask(t, at).task.state == if Live(t) then Some(Disconnected) else t.state
  {
  }

  lemma StepCause(r: Reducer, staleAfter: int, e: Event, id: Text)
    requires TaskOf(r, id).state.Some? ==> TaskOf(r, id).lastSignal.Some?
    ensures var cause := CauseOf(r, staleAfter, e, id);
            StepOf(r, staleAfter, e, id).task.state == if cause == Nothing then TaskOf(r, id).state else StateBy(cause)
  {
    hide StepFor, Reaches, ThreadOf, TaskOf, MessageCause, SweepTask, LoseTask, Concerns, Live;
    match e
    case Ingested(m, at) =>
      MessageState(TaskOf(r, id), m, at);
      ConcernsExactly(r, m, id);
      if ThreadOf(r, m) == Some(id) && !Reaches(r, m) { UnreachedIsNoCause(r, m, id); }
    case Swept(at) => TimerState(TaskOf(r, id), staleAfter, at);
    case Lost(at) => TimerState(TaskOf(r, id), staleAfter, at);
  }

  lemma {:induction false} StateIsItsCause(staleAfter: int, events: seq<Event>, id: Text)
    ensures TaskOf(RunOf(staleAfter, events), id).state == StateBy(LatestCause(staleAfter, events, id))
    decreases |events|
  {
    hide StepOf, CauseOf, StateBy;
    if events == [] {
      NoCauseNoState(id);
    } else {
      var front, e := events[..|events| - 1], events[|events| - 1];
      var r := RunOf(staleAfter, front);
      StateIsItsCause(staleAfter, front, id);
      EveryRunIsOrdered(staleAfter, front);
      EachTaskSteps(r, staleAfter, e, id);
      EveryTaskIsOk(staleAfter, front, id);
      StepCause(r, staleAfter, e, id);
    }
  }

  lemma NoCauseNoState(id: Text)
    ensures NewTask(id).state == StateBy(Nothing)
  {
  }

  /**
   In every run a task is in each of the seven states exactly when its latest cause is one of that
   state's: a completed turn makes it ready; a failed or interrupted turn or a system error blocked; an
   active status, by its flags, waiting for approval, waiting for input or running; a turn's start or
   the recovery of a stale turn running; a full quiet window of a running task stale; a disconnection of
   a live task disconnected. With no cause so far it has no state.
   */
  lemma StateComesFromItsCause(staleAfter: int, events: seq<Event>, id: Text)
    ensures var state, cause := TaskOf(RunOf(staleAfter, events), id).state, LatestCause(staleAfter, events, id);
            && (state == None <==> cause == Nothing)
            && (state == Some(Ready) <==> cause == Finished(Completed))
            && (state == Some(Blocked) <==> cause in {Finished(Failed), Finished(Interrupted), Broken})
            && (state == Some(WaitingForApproval) <==> cause.Flagged? && cause.onApproval)
            && (state == Some(WaitingForInput) <==> cause.Flagged? && !cause.onApproval && cause.onInput)
            && (state == Some(Running) <==> cause in {Flagged(false, false), Began, Recovered})
            && (state == Some(Stale) <==> cause == WentQuiet)
            && (state == Some(Disconnected) <==> cause == CutOff)
  {
    StateIsItsCause(staleAfter, events, id);
  }

  /**
   Attention is required exactly when the latest event that set the state was an active status with
   a wait flag; renames, quiet sweeps and closings of ended tasks in between change nothing.
   */
  lemma AttentionComesFromFlags(staleAfter: int, events: seq<Event>, id: Text)
    ensures var state, cause := TaskOf(RunOf(staleAfter, events), id).state, LatestCause(staleAfter, events, id);
            state.Some? && NeedsAttention(state.value) <==> cause.Flagged? && (cause.onApproval || cause.onInput)
  {
    StateIsItsCause(staleAfter, events, id);
  }

  // What a task remembers of its messages, field by field.

  /** A message is ignored when it is about no thread, or lacks what it is about. */
  lemma ReachesExactly(r: Reducer, m: Message, id: Text)
    requires Concerns(r, m, id)
    ensures !Reaches(r, m) <==>
              || (m.RequestMade? && m.kind.InputRequest? && !m.blocking)
              || ((m.TurnActivity? || m.TurnStarted? || m.TurnCompleted?) && m.turn.None?)
              || (m.StatusChanged? && m.status.None?)
              || ((m.TurnActivity? || m.RequestResolved?) && id !in r.tasks)
  {
    ConcernsExactly(r, m, id);
  }

  /** The turn a task is on: the last it began or finished, until a status without a turn follows its end. */
  function TurnAfter(t: Task, m: Message): Option<Text> {
    match MessageCause(t, m)
    case Began => m.turn
    case Finished(_) => m.turn
    case Flagged(_, _) => if t.terminalStatus.Some? then None else t.turnId
    case _ => t.turnId
  }

  lemma TurnFields(t: Task, m: Message, at: int)
    requires |t.tombstones| <= 64
    ensures var u, cause := StepFor(t, m, at).task, MessageCause(t, m);
            && u.threadId == t.threadId && u.turnId == TurnAfter(t, m)
            && u.terminalStatus == (match cause
                                    case Finished(outcome) => Some(outcome)
                                    case Began => None
                                    case Flagged(_, _) => None
                                    case _ => t.terminalStatus)
            && u.tombstones == (if cause.Finished? then LastOf(t.tombstones + [m.turn.value], 64) else t.tombstones)
            && u.title == (if m.ThreadStarted? || m.ThreadRenamed? then m.title else t.title)
  {
    hide MatchingRequests;
  }

  /** When the task was last observed, when it came into its state, and when it last gave a signal. */
  lemma TimeFields(t: Task, m: Message, at: int)
    ensures var step := StepFor(t, m, at);
            && step.task.observedAt == (if step.emitted then Some(at) else t.observedAt)
            && step.task.stateSince == (if !step.emitted || (step.task.state == t.state && t.stateSince.Some?)
                                        then t.stateSince else Some(at))
            && step.task.lastSignal == (if !Signals(t, m) then t.lastSignal
                                        else if m.TurnActivity? && t.state == Some(Running) && t.lastSignal.Some?
                                                && t.lastSignal.value > at
                                        then t.lastSignal else Some(at))
  {
    hide Entombed, MatchingRequests;
  }

  /** A request is pending from its first message until it is resolved or a turn completes. */
  lemma PendingFields(t: Task, m: Message, at: int)
    ensures var pending := StepFor(t, m, at).task.pending;
            if MessageCause(t, m).Finished? then pending == map[]
            else if m.RequestMade? && Signals(t, m) then
              pending == t.pending[m.request.value := PendingRequest(m.kind, m.turn, at)]
            else if m.RequestResolved? && m.request.Some? then pending == t.pending - {m.request.value}
            else pending == t.pending
  {
    hide Entombed, MatchingRequests;
  }

  /** The signal a message is, for the record of what it caused. */
  function SignalOf(m: Message): Signal
    requires m.ThreadStarted? || m.ThreadRenamed? || m.TurnStarted? || m.TurnCompleted? || m.StatusChanged?
             || m.ThreadClosed?
  {
    match m
    case ThreadStarted(_, _, _) => ThreadStartedSignal
    case ThreadRenamed(_, _) => ThreadNameSignal
    case TurnStarted(_, _) => TurnStartedSignal
    case TurnCompleted(_, _, _) => TurnCompletedSignal
    case StatusChanged(_, _) => StatusSignal
    case ThreadClosed(_) => ThreadClosedSignal
  }

  /**
   A record names the message behind it; for a flagged status it also counts the pending requests of its
   kind that are the current turn's or nobody's.
   */
  lemma SourceFields(t: Task, m: Message, at: int)
    ensures var step, cause := StepFor(t, m, at), MessageCause(t, m);
            && (!step.emitted ==> step.task.source == t.source)
            && (cause == Recovered ==> step.task.source == Some(MatchingActivity))
            && (step.emitted && cause.Flagged? ==>
                  step.task.source == Some(FromStatus(SignalOf(m), |Counted(t, cause, TurnAfter(t, m))|)))
            && (step.emitted && !cause.Flagged? && cause != Recovered ==>
                  step.task.source == Some(FromServer(SignalOf(m))))
  {
    hide Entombed;
    if MessageCause(t, m).Flagged? {
      var live := if t.terminalStatus.Some? then t.(turnId := None, terminalStatus := None) else t;
      var state := StateBy(MessageCause(t, m)).value;
      var named := if m.ThreadStarted? then live.(title := m.title, lastSignal := Some(at)) else live;
      MatchesAreCounted(live, MessageCause(t, m), state);
      MatchesAreCounted(named, MessageCause(t, m), state);
    }
  }

  /** The requests a flagged status accounts for. */
  function Counted(t: Task, cause: Cause, turn: Option<Text>): set<Text>
    requires cause.Flagged?
  {
    set id | id in t.pending
             && (if t.pending[id].kind.ApprovalRequest? then cause.onApproval else !cause.onApproval && cause.onInput)
             && (t.pending[id].turnId == None || turn == None || t.pending[id].turnId == turn)
  }

  lemma MatchesAreCounted(t: Task, cause: Cause, state: State)
    requires cause.Flagged? && StateBy(cause) == Some(state)
    ensures MatchingRequests(t, state) == |Counted(t, cause, t.turnId)|
  {
    assert (set id | id in t.pending && Matches(t.pending[id], state, t.turnId)) == Counted(t, cause, t.turnId);
  }

  /** A sweep or a disconnection changes nothing but the state, its times and its source. */
  lemma TimerFields(t: Task, staleAfter: int, at: int)
    ensures var swept := SweepTask(t, staleAfter, at);
            && swept.task == (if swept.emitted
                              then t.(state := Some(Stale), stateSince := Some(at), observedAt := Some(at),
                                      lastSignal := Some(at), source := Some(StaleTimeout))
                              else t)
    ensures var lost := LoseTask(t, at);
            && lost.task == (if lost.emitted
                             then t.(state := Some(Disconnected), stateSince := Some(at), observedAt := Some(at),
                                     lastSignal := Some(at), source := Some(StreamClosed))
                             else t)
            && (lost.emitted <==> Live(t))
  {
  }

  // What a record says of all tasks.

  /** The threads in a state. */
  function InState(r: Reducer, s: State): set<Text> { set id | id in r.tasks && r.tasks[id].state == Some(s) }

  /** The threads whose state is known. */
  function WithState(r: Reducer): set<Text> { set id | id in r.tasks && r.tasks[id].state.Some? }

  /** The same, of the listed threads only. */
  function InStateAmong(r: Reducer, order: seq<Text>, s: State): set<Text> {
    set id | id in order && id in r.tasks && r.tasks[id].state == Some(s)
  }

  function WithStateAmong(r: Reducer, order: seq<Text>): set<Text> {
    set id | id in order && id in r.tasks && r.tasks[id].state.Some?
  }

  lemma {:induction false} CountedStates(r: Reducer, order: seq<Text>, s: State)
    requires Distinct(order) && forall id :: id in order ==> id in r.tasks
    ensures multiset(StatesOf(r, order))[s] == |InStateAmong(r, order, s)|
    ensures |StatesOf(r, order)| == |WithStateAmong(r, order)|
    decreases |order|
  {
    hide StatesOf;
    if order == [] {
      assert StatesOf(r, order) == [] by { NoStates(r); }
    } else {
      var front, last := order[..|order| - 1], order[|order| - 1];
      assert order == front + [last] && last !in front;
      CountedStates(r, front, s);
      LastState(r, order);
      var tail := if r.tasks[last].state.Some? then [r.tasks[last].state.value] else [];
      assert multiset(StatesOf(r, front) + tail) == multiset(StatesOf(r, front)) + multiset(tail);
      OneMoreThread(r, front, last, s);
    }
  }

  lemma NoStates(r: Reducer)
    ensures StatesOf(r, []) == []
  {
  }

  lemma LastState(r: Reducer, order: seq<Text>)
    requires order != [] && order[|order| - 1] in r.tasks
    ensures var front, state := order[..|order| - 1], r.tasks[order[|order| - 1]].state;
            StatesOf(r, order) == StatesOf(r, front) + if state.Some? then [state.value] else []
  {
  }

  lemma OneMoreThread(r: Reducer, front: seq<Text>, last: Text, s: State)
    requires last in r.tasks && last !in front
    ensures |InStateAmong(r, front + [last], s)|
            == |InStateAmong(r, front, s)| + if r.tasks[last].state == Some(s) then 1 else 0
    ensures |WithStateAmong(r, front + [last])|
            == |WithStateAmong(r, front)| + if r.tasks[last].state.Some? then 1 else 0
  {
    hide InStateAmong, WithStateAmong;
    InStateGrows(r, front, last, s);
    WithStateGrows(r, front, last);
  }

  lemma InStateGrows(r: Reducer, front: seq<Text>, last: Text, s: State)
    requires last in r.tasks
    ensures InStateAmong(r, front + [last], s)
            == InStateAmong(r, front, s) + if r.tasks[last].state == Some(s) then {last} else {}
    ensures last in InStateAmong(r, front, s) ==> last in front
  {
  }

  lemma WithStateGrows(r: Reducer, front: seq<Text>, last: Text)
    requires last in r.tasks
    ensures WithStateAmong(r, front + [last])
            == WithStateAmong(r, front) + if r.tasks[last].state.Some? then {last} else {}
    ensures last in WithStateAmong(r, front) ==> last in front
  {
  }

  /** The most pressing of the states any thread is in, in the order they press. */
  function MostPressing(r: Reducer): Option<State> {
    if InState(r, WaitingForApproval) != {} then Some(WaitingForApproval)
    else if InState(r, WaitingForInput) != {} then Some(WaitingForInput)
    else if InState(r, Blocked) != {} then Some(Blocked)
    else if InState(r, Ready) != {} then Some(Ready)
    else if InState(r, Running) != {} then Some(Running)
    else if InState(r, Stale) != {} then Some(Stale)
    else if InState(r, Disconnected) != {} then Some(Disconnected)
    else None
  }

  /**
   The aggregate of a record is about the threads themselves: how many are in each state, how many have
   one, how many wait for the user, and the most pressing state any of them is in.
   */
  lemma AggregateCountsThreads(r: Reducer, t: Task)
    requires Ordered(r)
    ensures var a := RecordOf(r, t).aggregate;
            && (forall s: State :: s in a.counts && a.counts[s] == |InState(r, s)|)
            && a.total == |WithState(r)|
            && a.attention == |InState(r, WaitingForApproval)| + |InState(r, WaitingForInput)|
            && a.priority == MostPressing(r)
  {
    hide FirstWith, STATES, StatesOf, InState, WithState, MostPressing;
    var states := multiset(StatesOf(r, r.order));
    ListedThreads(r);
    forall s: State ensures states[s] == |InState(r, s)| && s in STATES {
      CountedStates(r, r.order, s);
      EveryStateListed(s);
    }
    CountedStates(r, r.order, Running);
    PressingFirst(states, r);
  }

  lemma ListedThreads(r: Reducer)
    requires Ordered(r)
    ensures forall s :: InStateAmong(r, r.order, s) == InState(r, s)
    ensures WithStateAmong(r, r.order) == WithState(r)
  {
  }

  lemma PressingFirst(states: multiset<State>, r: Reducer)
    requires forall s: State :: states[s] == |InState(r, s)|
    ensures FirstWith(states, PRIORITY) == MostPressing(r)
  {
    hide InState, FirstWith;
    var p1 := [WaitingForInput, Blocked, Ready, Running, Stale, Disconnected];
    var p2 := [Blocked, Ready, Running, Stale, Disconnected];
    var p3 := [Ready, Running, Stale, Disconnected];
    var p4 := [Running, Stale, Disconnected];
    assert PRIORITY == [WaitingForApproval] + p1 && p1 == [WaitingForInput] + p2 && p2 == [Blocked] + p3;
    assert p3 == [Ready] + p4 && p4 == [Running] + [Stale, Disconnected];
    assert [Stale, Disconnected] == [Stale] + [Disconnected] && [Disconnected] == [Disconnected] + [];
    FirstOfMany(states, WaitingForApproval, p1);
    FirstOfMany(states, WaitingForInput, p2);
    FirstOfMany(states, Blocked, p3);
    FirstOfMany(states, Ready, p4);
    FirstOfMany(states, Running, [Stale, Disconnected]);
    FirstOfMany(states, Stale, [Disconnected]);
    FirstOfMany(states, Disconnected, []);
    assert forall s :: |InState(r, s)| == 0 <==> InState(r, s) == {};
  }

  lemma FirstOfMany(states: multiset<State>, s: State, rest: seq<State>)
    ensures FirstWith(states, [s] + rest) == if states[s] > 0 then Some(s) else FirstWith(states, rest)
    ensures FirstWith(states, []) == None
  {
    assert ([s] + rest)[1..] == rest;
  }

  // Timers and disconnections.

  /** A sweep changes nothing but running tasks that were quiet for the whole window. */
  lemma SweepsOnlyStale(r: Reducer, staleAfter: int, at: int, id: Text)
    requires Ordered(r)
    ensures var before, after := TaskOf(r, id), TaskOf(Sweep(r, staleAfter, at, r.order).reducer, id);
            if GoesStale(before, staleAfter, at) then before.state == Some(Running) && after.state == Some(Stale)
            else after == before
  {
    EachTaskSteps(r, staleAfter, Swept(at), id);
  }

  predicate IsDisconnection(r: Reducer, e: Event, id: Text) {
    || e.Lost?
    || (e.Ingested? && e.message in {ThreadClosed(Some(id)), StatusChanged(Some(id), Some(NotLoaded))})
  }

  /** A disconnection cuts off exactly the live tasks, and never overwrites an ended one. */
  lemma DisconnectionsSpareEndedTasks(r: Reducer, staleAfter: int, e: Event, id: Text)
    requires Ordered(r) && IsDisconnection(r, e, id)
    ensures var before, after := TaskOf(r, id), TaskOf(Next(r, staleAfter, e).reducer, id);
            && after.state == (if Live(before) then Some(Disconnected) else before.state)
            && (before.state == Some(Ready) || before.state == Some(Blocked) ==> after.state == before.state)
  {
    hide TaskOf, Next;
    EachTaskSteps(r, staleAfter, e, id);
  }

  // Staleness.

  function TimeOf(e: Event): int { e.at }

  ghost predicate Nondecreasing(events: seq<Event>) {
    forall i, j :: 0 <= i < j < |events| ==> TimeOf(events[i]) <= TimeOf(events[j])
  }

  /** Whether a message counts as a signal from the task. */
  predicate Signals(t: Task, m: Message) {
    match m
    case RequestMade(_, _, turn, request, _) => request.Some? && !(turn.Some? && turn.value in t.tombstones)
    case TurnActivity(_, turn) =>
      turn.Some? && t.turnId == turn && turn.value !in t.tombstones
      && (t.state == Some(Running) || t.state == Some(Stale))
    case TurnStarted(_, turn) => turn.Some? && turn.value !in t.tombstones
    case TurnCompleted(_, turn, outcome) => turn.Some? && Completes(t, turn.value, outcome)
    case StatusChanged(_, status) => status.Some?
    case ThreadStarted(_, _, _) => true
    case ThreadRenamed(_, _) => true
    case ThreadClosed(_) => true
    case _ => false
  }

  predicate SignalledBy(r: Reducer, e: Event, id: Text) {
    e.Ingested? && Reaches(r, e.message) && ThreadOf(r, e.message) == Some(id) && Signals(TaskOf(r, id), e.message)
  }

  /** The last signal is no earlier than `time`. */
  predicate SignalSince(t: Task, time: int) { t.lastSignal.Some? && time <= t.lastSignal.value }

  lemma StepSignals(r: Reducer, staleAfter: int, e: Event, id: Text)
    ensures SignalledBy(r, e, id) ==> SignalSince(StepOf(r, staleAfter, e, id).task, TimeOf(e))
    ensures forall time :: time <= TimeOf(e) ==>
              SignalSince(TaskOf(r, id), time) ==> SignalSince(StepOf(r, staleAfter, e, id).task, time)
  {
    hide Entombed, MatchingRequests;
  }

  /** With nondecreasing times, no signal a task ever gave is later than its last signal. */
  lemma {:induction false} SignalsAreCovered(staleAfter: int, events: seq<Event>, id: Text, n: nat)
    requires Nondecreasing(events) && n < |events|
    requires SignalledBy(RunOf(staleAfter, events[..n]), events[n], id)
    ensures SignalSince(TaskOf(RunOf(staleAfter, events), id), TimeOf(events[n]))
    decreases |events|
  {
    hide StepOf, SignalledBy, Next;
    var front, e := events[..|events| - 1], events[|events| - 1];
    EveryRunIsOrdered(staleAfter, front);
    EachTaskSteps(RunOf(staleAfter, front), staleAfter, e, id);
    StepSignals(RunOf(staleAfter, front), staleAfter, e, id);
    if n < |events| - 1 {
      assert front[..n] == events[..n] && front[n] == events[n];
      SignalsAreCovered(staleAfter, front, id, n);
    }
  }

  /**
   With nondecreasing times a task goes stale only by a sweep, only from running, and only when every
   signal it ever gave is at least a full window old.
   */
  lemma StaleMeansQuiet(staleAfter: int, events: seq<Event>, e: Event, id: Text)
    requires Nondecreasing(events)
    requires TaskOf(RunOf(staleAfter, events), id).state != Some(Stale)
    requires TaskOf(RunOf(staleAfter, events + [e]), id).state == Some(Stale)
    ensures e.Swept? && TaskOf(RunOf(staleAfter, events), id).state == Some(Running)
    ensures forall n :: 0 <= n < |events| && SignalledBy(RunOf(staleAfter, events[..n]), events[n], id) ==>
              TimeOf(events[n]) + staleAfter <= TimeOf(e)
  {
    hide SignalledBy, Nondecreasing;
    var r := RunOf(staleAfter, events);
    assert (events + [e])[..|events|] == events;
    EveryRunIsOrdered(staleAfter, events);
    EachTaskSteps(r, staleAfter, e, id);
    OnlySweepsStale(r, staleAfter, e, id);
    EveryTaskIsOk(staleAfter, events, id);
    forall n | 0 <= n < |events| && SignalledBy(RunOf(staleAfter, events[..n]), events[n], id)
      ensures TimeOf(events[n]) + staleAfter <= TimeOf(e)
    {
      SignalsAreCovered(staleAfter, events, id, n);
    }
  }

  lemma OnlySweepsStale(r: Reducer, staleAfter: int, e: Event, id: Text)
    requires TaskOf(r, id).state != Some(Stale) && StepOf(r, staleAfter, e, id).task.state == Some(Stale)
    ensures e.Swept? && GoesStale(TaskOf(r, id), staleAfter, e.at)
  {
    hide Entombed, MatchingRequests, Completes;
  }
}
