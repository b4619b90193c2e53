/**
 The reducer as the object it is: methods that look a task up, change it and store it back, and an
 aggregate counted by a loop over all tasks. Each method is proved against the step functions.
 */
module StatusReducerObject {
  import opened Collections
  import opened JsonGrammar
  import opened RemoteActionReceipt
  import opened S = StatusReducer
  import opened StatusReducerRuns

  // Counting.

  function SumOver(states: multiset<State>, among: seq<State>): nat {
    if among == [] then 0 else states[among[0]] + SumOver(states, among[1..])
  }

  lemma {:induction false} SumOverAdd(states: multiset<State>, x: State, among: seq<State>)
    requires forall i, j :: 0 <= i < j < |among| ==> among[i] != among[j]
    ensures SumOver(states + multiset{x}, among) == SumOver(states, among) + if x in among then 1 else 0
  {
    if among != [] {
      SumOverAdd(states, x, among[1..]);
      assert x in among <==> x == among[0] || x in among[1..];
    }
  }

  lemma {:induction false} SumOverNothing(among: seq<State>)
    ensures SumOver(multiset{}, among) == 0
  {
    if among != [] { SumOverNothing(among[1..]); }
  }

  /** The counts of all states sum to the total. */
  lemma {:induction false} CountsSumToTotal(states: multiset<State>)
    ensures SumOver(states, STATES) == |states|
    decreases |states|
  {
    if |states| == 0 {
      assert states == multiset{};
      SumOverNothing(STATES);
    } else {
      var s :| s in states;
      var rest := states - multiset{s};
      assert states == rest + multiset{s};
      CountsSumToTotal(rest);
      SumOverAdd(rest, s, STATES);
      EveryStateListed(s);
    }
  }

  lemma CountsAdd(states: multiset<State>, x: State)
    ensures x in CountsOf(states) && CountsOf(states + multiset{x}) == CountsOf(states)[x := states[x] + 1]
    ensures CountsOf(states)[x] == states[x]
  {
    EveryStateListed(x);
  }

  lemma PutTwice(r: Reducer, t: Task, u: Task)
    requires t.threadId == u.threadId
    ensures Put(Put(r, t), u) == Put(r, u)
  {
    assert r.tasks[t.threadId := t][u.threadId := u] == r.tasks[u.threadId := u];
  }

  lemma SweepNext(r: Reducer, staleAfter: int, at: int, order: seq<Text>, i: nat)
    requires i < |order|
    ensures var before := S.Sweep(r, staleAfter, at, order[..i]);
            var c := Apply(before.reducer, SweepTask(TaskOf(before.reducer, order[i]), staleAfter, at));
            S.Sweep(r, staleAfter, at, order[..i + 1]) == Change(c.reducer, before.records + c.records)
  {
    assert order[..i + 1][..i] == order[..i];
  }

  lemma LoseNext(r: Reducer, at: int, order: seq<Text>, i: nat)
    requires i < |order|
    ensures var before := S.Lose(r, at, order[..i]);
            var c := Apply(before.reducer, LoseTask(TaskOf(before.reducer, order[i]), at));
            S.Lose(r, at, order[..i + 1]) == Change(c.reducer, before.records + c.records)
  {
    assert order[..i + 1][..i] == order[..i];
  }

  lemma NothingYet(r: Reducer, staleAfter: int, at: int)
    ensures S.Sweep(r, staleAfter, at, []) == Change(r, []) == S.Lose(r, at, [])
  {
  }

  /** A task that steps quietly, and one that enters a state. */
  lemma StepApplies(r: Reducer, t: Task, state: State, at: int, source: Source)
    requires t.threadId in r.tasks && r.tasks[t.threadId] == t
    ensures Apply(r, Quiet(t)) == Change(r, [])
    ensures var entered := Transition(t, state, at, source);
            Apply(r, entered) == Change(Put(r, entered.task), [S.RecordOf(Put(r, entered.task), entered.task)])
  {
    PutSame(r, t);
  }

  lemma PutSame(r: Reducer, t: Task)
    requires t.threadId in r.tasks && r.tasks[t.threadId] == t
    ensures Put(r, t) == r
  {
    assert r.tasks[t.threadId := t] == r.tasks;
  }

  lemma CompletionReaches(
    r: Reducer, thread: Option<Text>, turnId: Text, outcome: Option<TurnStatus>, at: int, id: Option<Text>)
    requires id == if thread.Some? then thread else ThreadForTurn(r, turnId, r.order)
    ensures S.Ingest(r, TurnCompleted(thread, Some(turnId), outcome), at)
            == if id.None? then Change(r, []) else Apply(r, CompleteTurn(TaskOf(r, id.value), turnId, outcome, at))
  {
    hide CompleteTurn, Apply, TaskOf, ThreadForTurn;
  }

  lemma ThreadStartReaches(r: Reducer, id: Text, title: Option<Text>, status: Option<ThreadStatus>, at: int)
    ensures S.Ingest(r, ThreadStarted(Some(id), title, status), at)
            == Apply(r, StartThread(TaskOf(r, id), title, status, at))
  {
    hide StartThread, Apply, TaskOf;
  }

  lemma RenameReaches(r: Reducer, id: Text, title: Option<Text>, at: int)
    ensures S.Ingest(r, ThreadRenamed(Some(id), title), at) == Apply(r, RenameThread(TaskOf(r, id), title, at))
  {
    hide RenameThread, Apply, TaskOf;
  }

  lemma OthersIgnored(r: Reducer, at: int)
    ensures S.Ingest(r, OtherMessage, at) == Change(r, [])
  {
  }

  class StatusReducer {
    const staleAfterMs: int
    var tasks: map<Text, Task>
    var order: seq<Text>

    ghost function State(): Reducer
      reads this
    {
      Reducer(tasks, order)
    }

    ghost predicate Valid()
      reads this
    {
      Ordered(State())
    }

    constructor (staleAfterMs: int)
      requires staleAfterMs > 0
      ensures Valid() && State() == EMPTY_REDUCER && this.staleAfterMs == staleAfterMs
    {
      this.staleAfterMs := staleAfterMs;
      tasks, order := map[], [];
    }

    // Looking up and storing.

    /** The task of a thread, created when it is first heard of. */
    method TaskFor(threadId: Text) returns (task: Task)
      requires Valid()
      modifies this
      ensures Valid() && State() == Put(old(State()), task)
      ensures task == TaskOf(old(State()), threadId) && task.threadId == threadId
      ensures threadId in tasks && (threadId in old(tasks) ==> State() == old(State()))
    {
      if threadId !in tasks {
        tasks, order := tasks[threadId := NewTask(threadId)], order + [threadId];
      } else {
        assert tasks[threadId := tasks[threadId]] == tasks;
      }
      task := tasks[threadId];
      PutOrdered(old(State()), task);
    }

    method Store(task: Task)
      requires Valid() && task.threadId in tasks
      modifies this`tasks
      ensures Valid() && State() == Put(old(State()), task)
    {
      tasks := tasks[task.threadId := task];
      PutOrdered(old(State()), task);
    }

    method ThreadIdForTurn(turnId: Text) returns (threadId: Option<Text>)
      requires Valid()
      ensures threadId == ThreadForTurn(State(), turnId, order)
    {
      var i := 0;
      assert order[0..] == order;
      while i < |order|
        invariant 0 <= i <= |order|
        invariant ThreadForTurn(State(), turnId, order[i..]) == ThreadForTurn(State(), turnId, order)
      {
        assert order[i..][1..] == order[i + 1..];
        if tasks[order[i]].turnId == Some(turnId) { return Some(order[i]); }
        i := i + 1;
      }
      return None;
    }

    // Records.

    method CountStates() returns (counts: map<State, nat>)
      requires Valid()
      ensures counts == CountsOf(multiset(StatesOf(State(), order)))
    {
      hide CountsOf, StatesOf;
      counts := map s | s in STATES :: 0;
      NoCounts();
      var i := 0;
      assert order[..0] == [];
      while i < |order|
        invariant 0 <= i <= |order|
        invariant counts == CountsOf(multiset(StatesOf(State(), order[..i])))
      {
        var state := tasks[order[i]].state;
        StatesOfNext(State(), order, i);
        if state.Some? {
          CountsAdd(multiset(StatesOf(State(), order[..i])), state.value);
          counts := counts[state.value := counts[state.value] + 1];
        }
        i := i + 1;
      }
      assert order[..i] == order;
    }

    method Total(counts: map<State, nat>, ghost states: multiset<State>) returns (total: nat)
      requires counts == CountsOf(states)
      ensures total == |states|
    {
      total := 0;
      var i := 0;
      assert STATES[0..] == STATES;
      while i < |STATES|
        invariant 0 <= i <= |STATES|
        invariant total + SumOver(states, STATES[i..]) == SumOver(states, STATES)
      {
        assert STATES[i..][1..] == STATES[i + 1..];
        assert STATES[i] in STATES;
        total := total + counts[STATES[i]];
        i := i + 1;
      }
      CountsSumToTotal(states);
    }

    method Priority(counts: map<State, nat>, ghost states: multiset<State>) returns (priority: Option<State>)
      requires counts == CountsOf(states)
      ensures priority == FirstWith(states, PRIORITY)
    {
      var i := 0;
      assert PRIORITY[0..] == PRIORITY;
      while i < |PRIORITY|
        invariant 0 <= i <= |PRIORITY|
        invariant FirstWith(states, PRIORITY[i..]) == FirstWith(states, PRIORITY)
      {
        assert PRIORITY[i..][1..] == PRIORITY[i + 1..];
        CountsAdd(states, PRIORITY[i]);
        if counts[PRIORITY[i]] > 0 { return Some(PRIORITY[i]); }
        i := i + 1;
      }
      return None;
    }

    /** The aggregate as the code computes it is the aggregate of the multiset of states. */
    method CurrentAggregate() returns (aggregate: Aggregate)
      requires Valid()
      ensures aggregate == AggregateOf(multiset(StatesOf(State(), order)))
    {
      hide CountsOf, StatesOf;
      ghost var states := multiset(StatesOf(State(), order));
      var counts := CountStates();
      var total := Total(counts, states);
      var priority := Priority(counts, states);
      CountsAdd(states, WaitingForApproval);
      CountsAdd(states, WaitingForInput);
      aggregate := Aggregate(total, counts[WaitingForApproval] + counts[WaitingForInput], priority, counts);
    }

    method CurrentRecord(task: Task) returns (record: Record)
      requires Valid()
      ensures record == S.RecordOf(State(), task)
    {
      var aggregate := CurrentAggregate();
      record := Record(task.threadId, task.turnId, task.observedAt, task.stateSince, task.state,
                       task.state.Some? && NeedsAttention(task.state.value), task.title, task.source, aggregate);
    }

    /** Change a stored task's state and emit its record. */
    method Enter(task: Task, state: State, at: int, source: Source) returns (record: Record)
      requires Valid() && task.threadId in tasks
      modifies this`tasks
      ensures Valid() && State() == Put(old(State()), Transition(task, state, at, source).task)
      ensures record == S.RecordOf(State(), Transition(task, state, at, source).task)
    {
      var changed := task;
      if task.state != Some(state) || task.stateSince.None? { changed := changed.(stateSince := Some(at)); }
      changed := changed.(state := Some(state), observedAt := Some(at), lastSignal := Some(at), source := Some(source));
      Store(changed);
      record := CurrentRecord(changed);
    }

    // Observers.

    method ObservePendingRequest(kind: RequestKind, thread: Option<Text>, turn: Option<Text>, request: Option<Text>,
                                 blocking: bool, at: int)
      requires Valid()
      modifies this
      ensures Valid()
              && Change(State(), []) == S.Ingest(old(State()), RequestMade(kind, thread, turn, request, blocking), at)
    {
      if thread.None? || (kind.InputRequest? && !blocking) { return; }
      var task := TaskFor(thread.value);
      if (turn.Some? && turn.value in task.tombstones) || request.None? { return; }
      PutTwice(old(State()), task, MakeRequest(task, kind, turn, request, at).task);
      Store(task.(pending := task.pending[request.value := PendingRequest(kind, turn, at)], lastSignal := Some(at)));
    }

    method ObserveResolvedRequest(thread: Option<Text>, request: Option<Text>)
      requires Valid()
      modifies this
      ensures Valid()
              && forall at :: Change(State(), []) == S.Ingest(old(State()), RequestResolved(thread, request), at)
    {
      if thread.None? || thread.value !in tasks { return; }
      var task := TaskFor(thread.value);
      if request.None? { return; }
      PutTwice(old(State()), task, ResolveRequest(task, request).task);
      Store(task.(pending := task.pending - {request.value}));
    }

    method ObserveTurnActivity(thread: Option<Text>, turn: Option<Text>, at: int) returns (records: seq<Record>)
      requires Valid()
      modifies this
      ensures Valid() && Change(State(), records) == S.Ingest(old(State()), TurnActivity(thread, turn), at)
    {
      records := [];
      if thread.None? || turn.None? || thread.value !in tasks { return; }
      var task := TaskFor(thread.value);
      if task.state != Some(Running) && task.state != Some(Stale) { return; }
      if turn.value in task.tombstones || task.turnId != turn { return; }
      PutTwice(old(State()), task, Refresh(task, turn.value, at).task);
      if task.state == Some(Stale) {
        var record := Enter(task, Running, at, MatchingActivity);
        return [record];
      }
      var latest := if task.lastSignal.Some? && task.lastSignal.value > at then task.lastSignal.value else at;
      Store(task.(lastSignal := Some(latest)));
    }

    method ApplyThreadStatus(task: Task, status: ThreadStatus, at: int, signal: Signal) returns (records: seq<Record>)
      requires Valid() && task.threadId in tasks
      modifies this`tasks
      ensures Valid() && Change(State(), records) == Apply(old(State()), S.ApplyStatus(task, status, at, signal))
    {
      records := [];
      match status
      case Active(onApproval, onInput) =>
        var live := task;
        if task.terminalStatus.Some? { live := live.(turnId := None, terminalStatus := None); }
        var state := if onApproval then WaitingForApproval else if onInput then WaitingForInput else Running;
        var record := Enter(live, state, at, FromStatus(signal, MatchingRequests(live, state)));
        return [record];
      case SystemError =>
        var record := Enter(task, Blocked, at, FromServer(signal));
        return [record];
      case NotLoaded => records := DisconnectIfActive(task, at, signal);
      case OtherStatus => Store(task.(lastSignal := Some(at)));
    }

    method DisconnectIfActive(task: Task, at: int, signal: Signal) returns (records: seq<Record>)
      requires Valid() && task.threadId in tasks
      modifies this`tasks
      ensures Valid() && Change(State(), records) == Apply(old(State()), S.Disconnect(task, at, signal))
    {
      var signalled := task.(lastSignal := Some(at));
      Store(signalled);
      PutTwice(old(State()), signalled, S.Disconnect(task, at, signal).task);
      if !IsActive(task.state) && task.state != Some(Stale) { return []; }
      var record := Enter(signalled, Disconnected, at, FromServer(signal));
      return [record];
    }

    method ObserveThreadStarted(thread: Option<Text>, title: Option<Text>, status: Option<ThreadStatus>, at: int)
      returns (records: seq<Record>)
      requires Valid()
      modifies this
      ensures Valid() && Change(State(), records) == S.Ingest(old(State()), ThreadStarted(thread, title, status), at)
    {
      if thread.None? { return []; }
      ThreadStartReaches(State(), thread.value, title, status, at);
      hide S.Ingest, S.ApplyStatus;
      var task := TaskFor(thread.value);
      var named := task.(title := title, lastSignal := Some(at));
      Store(named);
      PutTwice(old(State()), task, named);
      StepKeepsThread(task, ThreadStarted(thread, title, status), at);
      PutTwice(old(State()), named, StartThread(task, title, status, at).task);
      if status.Some? && (status.value.Active? || status.value.SystemError?) {
        records := ApplyThreadStatus(named, status.value, at, ThreadStartedSignal);
      } else {
        return [];
      }
    }

    method ObserveThreadName(thread: Option<Text>, title: Option<Text>, at: int) returns (records: seq<Record>)
      requires Valid()
      modifies this
      ensures Valid() && Change(State(), records) == S.Ingest(old(State()), ThreadRenamed(thread, title), at)
    {
      if thread.None? { return []; }
      RenameReaches(State(), thread.value, title, at);
      hide S.Ingest;
      var task := TaskFor(thread.value);
      var named := task.(title := title, lastSignal := Some(at));
      Store(named);
      PutTwice(old(State()), task, named);
      PutTwice(old(State()), named, RenameThread(task, title, at).task);
      if task.state.None? { return []; }
      var record := Enter(named, task.state.value, at, FromServer(ThreadNameSignal));
      return [record];
    }

    method ObserveTurnStarted(thread: Option<Text>, turn: Option<Text>, at: int) returns (records: seq<Record>)
      requires Valid()
      modifies this
      ensures Valid() && Change(State(), records) == S.Ingest(old(State()), TurnStarted(thread, turn), at)
    {
      if thread.None? || turn.None? { return []; }
      var task := TaskFor(thread.value);
      if turn.value in task.tombstones { return []; }
      PutTwice(old(State()), task, StartTurn(task, turn.value, at).task);
      var record := Enter(task.(turnId := turn, terminalStatus := None), Running, at, FromServer(TurnStartedSignal));
      return [record];
    }

    method ObserveTurnCompleted(thread: Option<Text>, turn: Option<Text>, outcome: Option<TurnStatus>, at: int)
      returns (records: seq<Record>)
      requires Valid()
      modifies this
      ensures Valid() && Change(State(), records) == S.Ingest(old(State()), TurnCompleted(thread, turn, outcome), at)
    {
      if turn.None? { return []; }
      var threadId := thread;
      if threadId.None? { threadId := ThreadIdForTurn(turn.value); }
      CompletionReaches(State(), thread, turn.value, outcome, at, threadId);
      if threadId.None? { return []; }
      hide S.Ingest, CompleteTurn;
      var task := TaskFor(threadId.value);
      StepKeepsThread(task, TurnCompleted(thread, turn, outcome), at);
      PutTwice(old(State()), task, CompleteTurn(task, turn.value, outcome, at).task);
      records := FinishTurn(task, turn.value, outcome, at);
    }

    method FinishTurn(task: Task, turnId: Text, outcome: Option<TurnStatus>, at: int) returns (records: seq<Record>)
      requires Valid() && task.threadId in tasks && tasks[task.threadId] == task
      modifies this`tasks
      ensures Valid() && Change(State(), records) == Apply(old(State()), CompleteTurn(task, turnId, outcome, at))
    {
      PutSame(State(), task);
      if turnId in task.tombstones { return []; }
      if task.turnId.Some? && task.turnId != Some(turnId) { return []; }
      if outcome.None? { return []; }
      var tombstones := task.tombstones + [turnId];
      if |tombstones| > MAX_TERMINAL_TURN_TOMBSTONES { tombstones := tombstones[1..]; }
      var done := task.(turnId := Some(turnId), terminalStatus := outcome, tombstones := tombstones, pending := map[]);
      var state := if outcome.value.Completed? then Ready else Blocked;
      var record := Enter(done, state, at, FromServer(TurnCompletedSignal));
      return [record];
    }

    method ObserveThreadClosed(thread: Option<Text>, at: int) returns (records: seq<Record>)
      requires Valid()
      modifies this
      ensures Valid() && Change(State(), records) == S.Ingest(old(State()), ThreadClosed(thread), at)
    {
      if thread.None? { return []; }
      hide S.Disconnect;
      var task := TaskFor(thread.value);
      StepKeepsThread(task, ThreadClosed(thread), at);
      PutTwice(old(State()), task, S.Disconnect(task, at, ThreadClosedSignal).task);
      records := DisconnectIfActive(task, at, ThreadClosedSignal);
    }

    method ObserveThreadStatus(thread: Option<Text>, status: Option<ThreadStatus>,
                               at: int) returns (records: seq<Record>)
      requires Valid()
      modifies this
      ensures Valid() && Change(State(), records) == S.Ingest(old(State()), StatusChanged(thread, status), at)
    {
      if thread.None? || status.None? { return []; }
      var task := TaskFor(thread.value);
      StepKeepsThread(task, StatusChanged(thread, status), at);
      PutTwice(old(State()), task, S.ApplyStatus(task, status.value, at, StatusSignal).task);
      records := ApplyThreadStatus(task, status.value, at, StatusSignal);
    }

    // The three entry points.

    method Ingest(message: Message, at: int) returns (records: seq<Record>)
      requires Valid()
      modifies this
      ensures Valid() && Change(State(), records) == S.Ingest(old(State()), message, at)
    {
      hide S.Ingest;
      records := [];
      match message
      case RequestMade(kind, thread, turn, request, blocking) =>
        ObservePendingRequest(kind, thread, turn, request, blocking, at);
      case TurnActivity(thread, turn) => records := ObserveTurnActivity(thread, turn, at);
      case ThreadStarted(thread, title, status) => records := ObserveThreadStarted(thread, title, status, at);
      case ThreadRenamed(thread, title) => records := ObserveThreadName(thread, title, at);
      case TurnStarted(thread, turn) => records := ObserveTurnStarted(thread, turn, at);
      case TurnCompleted(thread, turn, outcome) => records := ObserveTurnCompleted(thread, turn, outcome, at);
      case StatusChanged(thread, status) => records := ObserveThreadStatus(thread, status, at);
      case RequestResolved(thread, request) => ObserveResolvedRequest(thread, request);
      case ThreadClosed(thread) => records := ObserveThreadClosed(thread, at);
      case OtherMessage => OthersIgnored(State(), at);
    }

    method Sweep(at: int) returns (records: seq<Record>)
      requires Valid()
      modifies this
      ensures Valid() && Change(State(), records) == S.Sweep(old(State()), staleAfterMs, at, old(order))
    {
      hide Transition, GoesStale, Apply, Put, S.RecordOf, S.Sweep;
      records := [];
      var i := 0;
      NothingYet(State(), staleAfterMs, at);
      while i < |order|
        invariant 0 <= i <= |order| && order == old(order)
        invariant Valid()
        invariant Change(State(), records) == S.Sweep(old(State()), staleAfterMs, at, order[..i])
      {
        var task := tasks[order[i]];
        SweepNext(old(State()), staleAfterMs, at, order, i);
        StepApplies(State(), task, Stale, at, StaleTimeout);
        if GoesStale(task, staleAfterMs, at) {
          var record := Enter(task, Stale, at, StaleTimeout);
          records := records + [record];
        }
        i := i + 1;
      }
      assert order[..i] == order;
    }

    method MarkDisconnected(at: int) returns (records: seq<Record>)
      requires Valid()
      modifies this
      ensures Valid() && Change(State(), records) == S.Lose(old(State()), at, old(order))
    {
      hide Transition, Apply, Put, S.RecordOf, S.Lose;
      records := [];
      var i := 0;
      NothingYet(State(), 0, at);
      while i < |order|
        invariant 0 <= i <= |order| && order == old(order)
        invariant Valid()
        invariant Change(State(), records) == S.Lose(old(State()), at, order[..i])
      {
        var task := tasks[order[i]];
        LoseNext(old(State()), at, order, i);
        StepApplies(State(), task, Disconnected, at, StreamClosed);
        if IsActive(task.state) || task.state == Some(Stale) {
          var record := Enter(task, Disconnected, at, StreamClosed);
          records := records + [record];
        }
        i := i + 1;
      }
      assert order[..i] == order;
    }
  }

  lemma NoCounts()
    ensures (map s | s in STATES :: 0) == CountsOf(multiset{})
    ensures forall r :: StatesOf(r, []) == []
  {
  }

  lemma StatesOfNext(r: Reducer, order: seq<Text>, i: nat)
    requires i < |order| && order[i] in r.tasks
    ensures var state := r.tasks[order[i]].state;
            multiset(StatesOf(r, order[..i + 1]))
            == if state.Some? then multiset(StatesOf(r, order[..i])) + multiset{state.value}
                else multiset(StatesOf(r, order[..i]))
  {
    assert order[..i + 1][..i] == order[..i];
  }
}
