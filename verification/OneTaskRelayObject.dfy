/** The relay as the object it is, around the reducer object, proved against the relay's step functions. */
module OneTaskRelayObject {
  import opened Collections
  import opened JsonGrammar
  import opened RemoteActionReceipt
  import opened S = StatusReducer
  import StatusReducerObject
  import opened LiveActivityPayload
  import opened R = OneTaskRelay

  class OneTaskRelay {
    const threadId: Text
    const staleAfterSeconds: int
    const reducer: StatusReducerObject.StatusReducer
    var sequence: int
    var lastObservedAtMs: Option<int>

    ghost function State(): Relay
      reads this, reducer
    {
      Relay(threadId, reducer.staleAfterMs, staleAfterSeconds, reducer.State(), sequence, lastObservedAtMs)
    }

    ghost predicate Valid()
      reads this, reducer
    {
      reducer.Valid()
    }

    constructor (threadId: Text, staleAfterMs: int)
      requires staleAfterMs > 0
      ensures Valid() && State() == FreshRelay(threadId, staleAfterMs) && fresh(reducer)
    {
      this.threadId := threadId;
      var up := (staleAfterMs + 999) / 1000;
      staleAfterSeconds := if up > 1 then up else 1;
      reducer := new StatusReducerObject.StatusReducer(staleAfterMs);
      sequence, lastObservedAtMs := 0, None;
    }

    method IsBackwards(at: int) returns (backwards: bool)
      requires Valid()
      ensures backwards == GoesBack(State(), at)
    {
      backwards := lastObservedAtMs.Some? && at < lastObservedAtMs.value;
    }

    method EmitRecord(record: Record) returns (payloads: seq<Payload>, outcome: Outcome)
      requires Valid()
      modifies this`sequence
      ensures Valid() && Sent(State(), payloads, outcome) == Emit(old(State()), record)
    {
      if record.threadId != threadId || record.title.Some? || record.aggregate.total != 1 {
        return [], PrivacyViolated;
      }
      var next := sequence + 1;
      var payload := Build(record, next, staleAfterSeconds);
      if payload.None? { return [], EmissionRefused; }
      sequence := next;
      return [payload.value], Returned;
    }

    method EmitRecords(records: seq<Record>) returns (payloads: seq<Payload>, outcome: Outcome)
      requires Valid()
      modifies this`sequence
      ensures Valid() && Sent(State(), payloads, outcome) == EmitAll(old(State()), records)
    {
      hide Emit;
      payloads, outcome := [], Returned;
      var i := 0;
      assert records[0..] == records;
      while i < |records|
        invariant 0 <= i <= |records| && Valid() && outcome == Returned
        invariant var rest := EmitAll(State(), records[i..]);
                  EmitAll(old(State()), records) == Sent(rest.relay, payloads + rest.payloads, rest.outcome)
      {
        assert records[i..][1..] == records[i + 1..];
        ghost var before := State();
        var more, ended := EmitRecord(records[i]);
        RefusedSendsNothing(before, records[i]);
        payloads := payloads + more;
        if ended != Returned { return payloads, ended; }
        i := i + 1;
      }
    }

    method Sweep(at: int) returns (payloads: seq<Payload>, outcome: Outcome)
      requires Valid()
      modifies this, reducer
      ensures Valid() && Sent(State(), payloads, outcome) == SweepRelay(old(State()), at)
    {
      var backwards := IsBackwards(at);
      if backwards { return [], TimeWentBack; }
      var records := reducer.Sweep(at);
      lastObservedAtMs := Some(at);
      payloads, outcome := EmitRecords(records);
    }

    method MarkDisconnected(at: int) returns (payloads: seq<Payload>, outcome: Outcome)
      requires Valid()
      modifies this, reducer
      ensures Valid() && Sent(State(), payloads, outcome) == DisconnectRelay(old(State()), at)
    {
      var backwards := IsBackwards(at);
      if backwards { return [], TimeWentBack; }
      var records := reducer.MarkDisconnected(at);
      lastObservedAtMs := Some(at);
      payloads, outcome := EmitRecords(records);
    }

    method Ingest(raw: Raw, at: int) returns (payloads: seq<Payload>, outcome: Outcome)
      requires Valid()
      modifies this, reducer
      ensures Valid() && Sent(State(), payloads, outcome) == Receive(old(State()), raw, at)
    {
      hide S.Ingest, EmitAll, Emit, Build;
      var message := Project(raw, threadId);
      if message.None? { return [], Returned; }
      var backwards := IsBackwards(at);
      if backwards { return [], TimeWentBack; }
      var records := reducer.Ingest(message.value, at);
      lastObservedAtMs := Some(at);
      payloads, outcome := EmitRecords(records);
      if outcome != Returned || !message.value.TurnActivity? || payloads != [] { return; }
      if threadId !in reducer.tasks { return; }
      var task := reducer.tasks[threadId];
      if task.state != Some(Running) || task.turnId != message.value.turn { return; }
      var record := reducer.CurrentRecord(task);
      payloads, outcome := EmitRecord(record.(observedAt := Some(at), source := Some(MatchingActivity)));
    }
  }

  lemma RefusedSendsNothing(r: Relay, record: Record)
    ensures Emit(r, record).outcome != Returned ==> Emit(r, record).payloads == []
  {
  }
}
