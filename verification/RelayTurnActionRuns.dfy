/**
 Whole runs of the turn-action boundary: dispatches, late settlements and latch clears in any order.
 `SerializedRuns` states what every run keeps; the log is what an observer of the boundary sees.
 */
module RelayTurnActionRuns {
  import opened Collections
  import opened JsonGrammar
  import opened RemoteActionReceipt
  import opened RelayTurnAction

  datatype Event =
    | Dispatch(candidate: Option<PrivateAction>, active: ActiveTurn)
    | Arrive(slot: nat, delivery: Delivery)
    | Clear

  datatype Note = Sends(action: PrivateAction) | Clears | StopRejected(actionId: Text)

  /** The boundary, the actions whose requests are outstanding, and the log so far. */
  datatype Run = Run(boundary: Boundary, outstanding: seq<PrivateAction>, log: seq<Note>)

  function Start(threadId: Text): Run { Run(Boundary(threadId, false, false, []), [], []) }

  function Step(r: Run, e: Event): Run {
    match e
    case Dispatch(candidate, active) =>
      var (b, begun) := AfterBegin(r.boundary, candidate, active);
      if begun.Sent? then Run(b, r.outstanding + [begun.action], r.log + [Sends(begun.action)])
      else if candidate.Some? && active.NoTurn? then Run(b, r.outstanding, r.log + [Clears])
      else Run(b, r.outstanding, r.log)
    case Arrive(slot, delivery) =>
      if slot >= |r.outstanding| then r
      else
        var a := r.outstanding[slot];
        var rest := r.outstanding[..slot] + r.outstanding[slot + 1..];
        Run(AfterSettle(r.boundary, a, delivery), rest,
            if a.kind == Stop && SettlementOf(a, delivery).RefusedFor? then r.log + [StopRejected(a.actionId)]
            else r.log)
    case Clear => Run(r.boundary.(stopPending := false), r.outstanding, r.log + [Clears])
  }

  function RunFrom(r: Run, events: seq<Event>): Run
    decreases |events|
  {
    if events == [] then r else Step(RunFrom(r, events[..|events| - 1]), events[|events| - 1])
  }

  function SentIds(log: seq<Note>): seq<Text> {
    if log == [] then []
    else
      var last := log[|log| - 1];
      SentIds(log[..|log| - 1]) + if last.Sends? then [last.action.actionId] else []
  }

  /** Something after position `i` lifted the Stop sent there: a clear, or that Stop's own rejection. */
  ghost predicate Released(log: seq<Note>, i: int)
    requires 0 <= i < |log| && log[i].Sends?
  {
    exists m :: i < m < |log| && (log[m] == Clears || log[m] == StopRejected(log[i].action.actionId))
  }

  predicate StopAt(log: seq<Note>, i: int) { 0 <= i < |log| && log[i].Sends? && log[i].action.kind == Stop }

  predicate LastSend(log: seq<Note>, i: int) {
    0 <= i < |log| && log[i].Sends? && forall j :: i < j < |log| ==> !log[j].Sends?
  }

  ghost predicate Inv(r: Run) {
    && |r.outstanding| <= 1
    && (r.boundary.inFlight <==> r.outstanding != [])
    && r.boundary.order == LastOf(SentIds(r.log), MAX_REMEMBERED_ACTION_IDS)
    && SpacedApart(SentIds(r.log), MAX_REMEMBERED_ACTION_IDS)
    && (r.outstanding != [] ==>
          exists i :: LastSend(r.log, i) && r.log[i].action == r.outstanding[0])
    && (forall i :: StopAt(r.log, i) && !Released(r.log, i) ==> r.boundary.stopPending && LastSend(r.log, i))
    && StopsBlock(r.log)
  }

  /** No identifier comes back within `n` places. */
  predicate SpacedApart(ids: seq<Text>, n: nat) {
    forall i, j :: 0 <= i < j < |ids| && j - i <= n ==> ids[i] != ids[j]
  }

  /** Between a Stop and any later request there is a clear or that Stop's rejection. */
  ghost predicate StopsBlock(log: seq<Note>) {
    forall i, j :: StopAt(log, i) && i < j < |log| && log[j].Sends? ==> Released(log[..j], i)
  }

  lemma ReleasedGrows(log: seq<Note>, i: int, note: Note)
    requires 0 <= i < |log| && log[i].Sends?
    ensures Released(log, i) ==> Released(log + [note], i)
    ensures note == Clears || note == StopRejected(log[i].action.actionId) ==> Released(log + [note], i)
  {
    var longer := log + [note];
    if Released(log, i) {
      var m :| i < m < |log| && (log[m] == Clears || log[m] == StopRejected(log[i].action.actionId));
      assert longer[m] == log[m];
    }
    assert longer[|log|] == note;
  }

  lemma StopsBlockGrows(log: seq<Note>, note: Note)
    requires StopsBlock(log)
    requires note.Sends? ==> forall i :: StopAt(log, i) ==> Released(log, i)
    ensures StopsBlock(log + [note])
  {
    var longer := log + [note];
    forall i, j | StopAt(longer, i) && i < j < |longer| && longer[j].Sends? ensures Released(longer[..j], i) {
      assert StopAt(log, i);
      if j < |log| { assert longer[..j] == log[..j]; } else { assert longer[..j] == log; }
    }
  }

  lemma SentIdsGrow(log: seq<Note>, note: Note)
    ensures SentIds(log + [note]) == SentIds(log) + if note.Sends? then [note.action.actionId] else []
  {
    assert (log + [note])[..|log|] == log;
  }

  lemma RememberedIsLast(ids: seq<Text>, id: Text)
    requires SpacedApart(ids, MAX_REMEMBERED_ACTION_IDS)
    requires id !in LastOf(ids, MAX_REMEMBERED_ACTION_IDS)
    ensures Remembered(LastOf(ids, MAX_REMEMBERED_ACTION_IDS), id)
            == LastOf(ids + [id], MAX_REMEMBERED_ACTION_IDS)
    ensures SpacedApart(ids + [id], MAX_REMEMBERED_ACTION_IDS)
  {
    var n := MAX_REMEMBERED_ACTION_IDS;
    var longer := ids + [id];
    forall i, j | 0 <= i < j < |longer| && j - i <= n ensures longer[i] != longer[j] {
      if j == |ids| {
        var last := LastOf(ids, n);
        assert ids[i] == last[i - (|ids| - |last|)];
      }
    }
  }

  /** Sending: the boundary was free, so every earlier Stop has been released. */
  lemma SendKeepsInv(r: Run, e: Event)
    requires Inv(r) && e.Dispatch? && AfterBegin(r.boundary, e.candidate, e.active).1.Sent?
    ensures Inv(Step(r, e))
  {
    hide Released, StopsBlock, SpacedApart, LastOf, SentIds;
    var a := e.candidate.value;
    var note := Sends(a);
    var log := r.log + [note];
    SentIdsGrow(r.log, note);
    RememberedIsLast(SentIds(r.log), a.actionId);
    StopsBlockGrows(r.log, note);
    EarlierStopsReleased(r, note);
    assert LastSend(log, |r.log|) && log[|r.log|].action == a;
  }

  lemma EarlierStopsReleased(r: Run, note: Note)
    requires Inv(r) && !r.boundary.stopPending
    ensures forall i :: StopAt(r.log + [note], i) && i < |r.log| ==> Released(r.log + [note], i)
  {
    hide Released, LastSend, StopsBlock, SpacedApart, LastOf;
    forall i | StopAt(r.log + [note], i) && i < |r.log| ensures Released(r.log + [note], i) {
      assert StopAt(r.log, i);
      ReleasedGrows(r.log, i, note);
    }
  }

  /** A clear releases everything. */
  lemma ClearKeepsInv(r: Run, b: Boundary)
    requires Inv(r) && b == r.boundary.(stopPending := false)
    ensures Inv(Run(b, r.outstanding, r.log + [Clears]))
  {
    var log := r.log + [Clears];
    SentIdsGrow(r.log, Clears);
    StopsBlockGrows(r.log, Clears);
    forall i | StopAt(log, i) ensures Released(log, i) {
      assert StopAt(r.log, i);
      ReleasedGrows(r.log, i, Clears);
    }
    LastSendKept(r, Clears);
  }

  lemma LastSendKept(r: Run, note: Note)
    requires Inv(r) && !note.Sends?
    ensures r.outstanding != [] ==>
              exists i :: LastSend(r.log + [note], i) && (r.log + [note])[i].action == r.outstanding[0]
    ensures forall i :: LastSend(r.log, i) ==> LastSend(r.log + [note], i)
  {
    forall i | LastSend(r.log, i) ensures LastSend(r.log + [note], i) {
    }
    if r.outstanding != [] {
      var i :| LastSend(r.log, i) && r.log[i].action == r.outstanding[0];
      assert LastSend(r.log + [note], i);
    }
  }

  /** A settlement frees the line; an explicit rejection releases the latch of its own Stop only. */
  lemma ArriveKeepsInv(r: Run, e: Event)
    requires Inv(r) && e.Arrive? && e.slot < |r.outstanding|
    ensures Inv(Step(r, e))
    ensures Step(r, e).outstanding == []
    ensures Step(r, e).boundary.stopPending ==> r.boundary.stopPending
  {
    var a := r.outstanding[0];
    assert e.slot == 0;
    if a.kind == Stop && SettlementOf(a, e.delivery).RefusedFor? {
      var note := StopRejected(a.actionId);
      var log := r.log + [note];
      SentIdsGrow(r.log, note);
      StopsBlockGrows(r.log, note);
      var last :| LastSend(r.log, last) && r.log[last].action == a;
      forall i | StopAt(log, i) ensures Released(log, i) {
        assert StopAt(r.log, i);
        if !Released(r.log, i) { assert LastSend(r.log, i) && i == last; }
        ReleasedGrows(r.log, i, note);
      }
    }
  }

  lemma StepKeepsInv(r: Run, e: Event)
    requires Inv(r)
    ensures Inv(Step(r, e))
  {
    match e
    case Dispatch(candidate, active) =>
      var (b, begun) := AfterBegin(r.boundary, candidate, active);
      if begun.Sent? { SendKeepsInv(r, e); }
      else if candidate.Some? && active.NoTurn? { ClearKeepsInv(r, b); }
    case Arrive(slot, _) =>
      if slot < |r.outstanding| { ArriveKeepsInv(r, e); }
    case Clear => ClearKeepsInv(r, r.boundary.(stopPending := false));
  }

  lemma {:induction false} RunKeepsInv(threadId: Text, events: seq<Event>)
    ensures Inv(RunFrom(Start(threadId), events))
    decreases |events|
  {
    if events != [] {
      RunKeepsInv(threadId, events[..|events| - 1]);
      StepKeepsInv(RunFrom(Start(threadId), events[..|events| - 1]), events[|events| - 1]);
    }
  }

  /**
   In every run at most one request is outstanding; after a Stop is sent nothing is sent until a
   clear or that Stop's own rejection; the memory is exactly the last 64 sent identifiers; and no
   identifier is sent again within 64 sends.
   */
  lemma SerializedRuns(threadId: Text, events: seq<Event>)
    ensures var r := RunFrom(Start(threadId), events);
            && |r.outstanding| <= 1
            && StopsBlock(r.log)
            && r.boundary.order == LastOf(SentIds(r.log), MAX_REMEMBERED_ACTION_IDS)
            && SpacedApart(SentIds(r.log), MAX_REMEMBERED_ACTION_IDS)
  {
    RunKeepsInv(threadId, events);
  }

  /**
   A late answer never latches, and takes the latch away only from the Stop it answers: the one
   request still outstanding, after which nothing was sent.
   */
  lemma LateAnswersReleaseOnlyTheirOwn(threadId: Text, events: seq<Event>, slot: nat, delivery: Delivery)
    ensures var r := RunFrom(Start(threadId), events);
            var after := Step(r, Arrive(slot, delivery));
            && (after.boundary.stopPending ==> r.boundary.stopPending)
            && (r.boundary.stopPending && !after.boundary.stopPending ==>
                  exists i :: StopAt(r.log, i) && LastSend(r.log, i) && r.outstanding == [r.log[i].action]
                              && after.log == r.log + [StopRejected(r.log[i].action.actionId)])
  {
    var r := RunFrom(Start(threadId), events);
    RunKeepsInv(threadId, events);
    if slot < |r.outstanding| { ArriveKeepsInv(r, Arrive(slot, delivery)); }
  }

  /** When exactly a dispatch reaches the App Server, in terms of what was sent before. */
  lemma SendsExactlyWhenFree(threadId: Text, events: seq<Event>, a: PrivateAction, active: ActiveTurn)
    ensures var r := RunFrom(Start(threadId), events);
            AfterBegin(r.boundary, Some(a), active).1 == Sent(a, RequestFor(a)) <==>
              && active == Turn(a.expectedTurnId) && a.threadId == threadId
              && r.outstanding == [] && !r.boundary.stopPending
              && a.actionId !in LastOf(SentIds(r.log), MAX_REMEMBERED_ACTION_IDS)
  {
    RunKeepsInv(threadId, events);
    ThreadIsFixed(threadId, events);
  }

  lemma {:induction false} ThreadIsFixed(threadId: Text, events: seq<Event>)
    ensures RunFrom(Start(threadId), events).boundary.threadId == threadId
    decreases |events|
  {
    if events != [] { ThreadIsFixed(threadId, events[..|events| - 1]); }
  }

  // What a dispatch and its response come to, in their own fields.

  /** Made before anything is sent, in this order. */
  function DispatchChecks(b: Boundary, a: PrivateAction, active: ActiveTurn): seq<(bool, Reason)> {
    [(active.Turn?, NoActiveTurn),
     (a.threadId == b.threadId, WrongThread),
     (active == Turn(a.expectedTurnId), StaleTurn),
     (a.actionId !in b.order, DuplicateAction),
     (!b.stopPending, StopPending),
     (!b.inFlight, Busy)]
  }

  /** The request of an action: a Stop interrupts its turn, a Reply steers it with the text. */
  predicate Carries(request: Request, a: PrivateAction) {
    && request.id == a.actionId && request.threadId == a.threadId && request.turnId == a.expectedTurnId
    && (if a.kind == Stop then request.rpc == TurnInterrupt && request.input == []
        else request.rpc == TurnSteer && request.input == a.text)
  }

  /**
   The first failing check alone decides a refusal, which changes nothing but that a missing turn forgets a
   pending Stop. If none fails the action is sent as its request, remembered among the last 64, and
   latched if it is a Stop.
   */
  lemma BeginIsDecided(b: Boundary, candidate: Option<PrivateAction>, active: ActiveTurn)
    requires |b.order| <= 64
    ensures var (after, begun) := AfterBegin(b, candidate, active);
            if candidate.None? then after == b && begun == Resolved(RefusedFor(None, InvalidAction))
            else
              var a := candidate.value;
              var failing := FirstFailing(DispatchChecks(b, a, active));
              if failing.Some? then
                && begun == Resolved(RefusedFor(Some(Correlation(a.actionId, a.kind)), failing.value))
                && after == (if active == NoTurn then b.(stopPending := false) else b)
              else
                && begun.Sent? && begun.action == a && Carries(begun.request, a)
                && after == Boundary(b.threadId, true, a.kind == Stop, LastOf(b.order + [a.actionId], 64))
  {
    if candidate.Some? { FirstOfSix(DispatchChecks(b, candidate.value, active)); }
  }

  /** The App Server did as it was asked: an empty result for a Stop, the very turn for a Reply. */
  predicate Accepts(response: Response, a: PrivateAction) {
    && response.Response? && response.id == a.actionId && response.error.None?
    && response.result == Some(if a.kind == Stop then EmptyObject else TurnObject(a.expectedTurnId))
  }

  /** The App Server refused, with an error object and nothing else. */
  predicate Refuses(response: Response, a: PrivateAction) {
    response == Response(a.actionId, Some(ErrorObject), None)
  }

  /**
   A dispatch is accepted or rejected only by a response that says exactly that; anything else leaves its
   outcome unknown. In any case it is no longer outstanding, and only a rejected Stop is unlatched.
   */
  lemma SettlementIsDecided(b: Boundary, a: PrivateAction, delivery: Delivery)
    ensures var about, rpc := Correlation(a.actionId, a.kind), if a.kind == Stop then TurnInterrupt else TurnSteer;
            SettlementOf(a, delivery)
            == if delivery.Delivered? && Accepts(delivery.response, a) then AcceptedBy(about, rpc)
               else if delivery.Delivered?
                   && Refuses(delivery.response, a) then RefusedFor(Some(about), AppServerRejected)
               else OutcomeUnknownError
    ensures AfterSettle(b, a, delivery)
            == b.(inFlight := false,
                  stopPending := b.stopPending
                                 && !(a.kind == Stop && delivery.Delivered? && Refuses(delivery.response, a)))
  {
  }
}
