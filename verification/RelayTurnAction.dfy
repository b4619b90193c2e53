/**
 The one-task turn-action boundary: which App Server request an action becomes, how its response is
 classified, and the class that lets at most one request be outstanding, latches a pending Stop and
 remembers the last 64 dispatched action identifiers.

 A dispatch is asynchronous, so it is two calls here: `Begin` runs to the point where the request
 has been handed over or refused, `Settle` continues when the response (or failure) arrives.
 */
module RelayTurnAction {
  import opened Collections
  import opened JsonGrammar
  import opened RemoteActionReceipt

  const MAX_REMEMBERED_ACTION_IDS := 64

  /** A validated private action; only a Reply carries text. */
  datatype PrivateAction = PrivateAction(
    actionId: Text, kind: ActionKind, threadId: Text, expectedTurnId: Text, text: Text)

  function CorrelationOf(a: PrivateAction): Correlation { Correlation(a.actionId, a.kind) }

  datatype Method = TurnInterrupt | TurnSteer

  datatype Request = Request(id: Text, rpc: Method, threadId: Text, turnId: Text, input: Text)

  function RequestFor(a: PrivateAction): Request {
    match a.kind
    case Stop => Request(a.actionId, TurnInterrupt, a.threadId, a.expectedTurnId, [])
    case Reply => Request(a.actionId, TurnSteer, a.threadId, a.expectedTurnId, a.text)
  }

  /** A request says exactly which action it carries. */
  lemma RequestTellsAction(a: PrivateAction, b: PrivateAction)
    requires RequestFor(a) == RequestFor(b)
    requires a.kind == Stop ==> a.text == []
    requires b.kind == Stop ==> b.text == []
    ensures a == b
  {
  }

  /** A `result` field: an object with no key, one whose only relevant content is a turn identifier,
   or anything else. */
  datatype ResultField = EmptyObject | TurnObject(turnId: Text) | OtherObject | NotAnObject

  datatype ErrorField = ErrorObject | NotErrorObject

  datatype Response =
    | NotAResponse
    | Response(id: Text, error: Option<ErrorField>, result: Option<ResultField>)

  datatype Classification = AcceptedResponse | RejectedResponse | UnknownResponse

  function Classify(response: Response, request: Request): Classification {
    if response.NotAResponse? || response.id != request.id then UnknownResponse
    else if response.error.Some? then
      if response.result.None? && response.error.value.ErrorObject? then RejectedResponse
      else UnknownResponse
    else if response.result.None? || response.result.value.NotAnObject? then UnknownResponse
    else if request.rpc == TurnInterrupt then
      if response.result.value.EmptyObject? then AcceptedResponse else UnknownResponse
    else if response.result.value == TurnObject(request.turnId) then AcceptedResponse
    else UnknownResponse
  }

  /** The receipt a dispatch resolves to, or the outcome-unknown error it throws. */
  datatype Settlement =
    | AcceptedBy(accepted: Correlation, rpc: Method)
    | RefusedFor(about: Option<Correlation>, reason: Reason)
    | OutcomeUnknownError

  /** What is outstanding after a dispatch began: nothing (it resolved), or a request. */
  datatype Begun = Resolved(settlement: Settlement) | Sent(action: PrivateAction, request: Request)

  /** What the transport gave back for a request. */
  datatype Delivery = Delivered(response: Response) | SendFailed

  function SettlementOf(action: PrivateAction, delivery: Delivery): Settlement {
    if delivery.SendFailed? then OutcomeUnknownError
    else
      match Classify(delivery.response, RequestFor(action))
      case AcceptedResponse => AcceptedBy(CorrelationOf(action), RequestFor(action).rpc)
      case RejectedResponse => RefusedFor(Some(CorrelationOf(action)), AppServerRejected)
      case UnknownResponse => OutcomeUnknownError
  }

  /** What `getActiveTurnId` said: it threw, gave null, gave something malformed, or an identifier. */
  datatype ActiveTurn = LookupFailed | NoTurn | MalformedTurn | Turn(turnId: Text)

  // The boundary's state as a value.

  datatype Boundary = Boundary(threadId: Text, inFlight: bool, stopPending: bool, order: seq<Text>)

  function Remembered(order: seq<Text>, actionId: Text): seq<Text> {
    var longer := order + [actionId];
    if |longer| <= MAX_REMEMBERED_ACTION_IDS then longer else longer[1..]
  }

  /** Why a dispatch is refused before anything is sent, in the order the checks run. */
  function Refusal(b: Boundary, a: PrivateAction, active: ActiveTurn): Option<Reason> {
    if !active.Turn? then Some(NoActiveTurn)
    else if a.threadId != b.threadId then Some(WrongThread)
    else if a.expectedTurnId != active.turnId then Some(StaleTurn)
    else if a.actionId in b.order then Some(DuplicateAction)
    else if b.stopPending then Some(StopPending)
    else if b.inFlight then Some(Busy)
    else None
  }

  /** Begin a dispatch; `candidate` is None when validation refuses it. */
  function AfterBegin(b: Boundary, candidate: Option<PrivateAction>, active: ActiveTurn): (Boundary, Begun) {
    if candidate.None? then (b, Resolved(RefusedFor(None, InvalidAction)))
    else
      var a := candidate.value;
      var refusal := Refusal(b, a, active);
      if refusal.Some? then
        (if active.NoTurn? then b.(stopPending := false) else b,
         Resolved(RefusedFor(Some(CorrelationOf(a)), refusal.value)))
      else
        (Boundary(b.threadId, true, b.stopPending || a.kind == Stop, Remembered(b.order, a.actionId)),
         Sent(a, RequestFor(a)))
  }

  function AfterSettle(b: Boundary, a: PrivateAction, delivery: Delivery): Boundary {
    var s := SettlementOf(a, delivery);
    b.(inFlight := false, stopPending := b.stopPending && !(s.RefusedFor? && a.kind == Stop))
  }

  /** The boundary class, with its insertion-ordered memory beside the set it looks up. */
  class OneTaskTurnActionBoundary {
    const threadId: Text
    var inFlight: bool
    var stopPending: bool
    var rememberedActionIds: set<Text>
    var rememberedActionOrder: seq<Text>

    ghost function State(): Boundary
      reads this
    {
      Boundary(threadId, inFlight, stopPending, rememberedActionOrder)
    }

    /** The set is what the order lists, each identifier once, and at most 64 of them. */
    ghost predicate Valid()
      reads this
    {
      && rememberedActionIds == Listed(rememberedActionOrder)
      && Distinct(rememberedActionOrder)
      && |rememberedActionOrder| <= MAX_REMEMBERED_ACTION_IDS
    }

    constructor (threadId: Text)
      ensures Valid() && State() == Boundary(threadId, false, false, [])
    {
      this.threadId := threadId;
      inFlight, stopPending := false, false;
      rememberedActionIds, rememberedActionOrder := {}, [];
    }

    method Begin(candidate: Option<PrivateAction>, active: ActiveTurn) returns (begun: Begun)
      requires Valid()
      modifies this
      ensures Valid()
      ensures (State(), begun) == AfterBegin(old(State()), candidate, active)
    {
      if candidate.None? { return Resolved(RefusedFor(None, InvalidAction)); }
      var action := candidate.value;
      if active.LookupFailed? {
        return Resolved(RefusedFor(Some(CorrelationOf(action)), NoActiveTurn));
      }
      if active.NoTurn? {
        ClearStopPending();
        return Resolved(RefusedFor(Some(CorrelationOf(action)), NoActiveTurn));
      }
      if active.MalformedTurn? {
        return Resolved(RefusedFor(Some(CorrelationOf(action)), NoActiveTurn));
      }
      if action.threadId != threadId {
        return Resolved(RefusedFor(Some(CorrelationOf(action)), WrongThread));
      }
      if action.expectedTurnId != active.turnId {
        return Resolved(RefusedFor(Some(CorrelationOf(action)), StaleTurn));
      }
      if action.actionId in rememberedActionIds {
        return Resolved(RefusedFor(Some(CorrelationOf(action)), DuplicateAction));
      }
      if stopPending {
        return Resolved(RefusedFor(Some(CorrelationOf(action)), StopPending));
      }
      if inFlight {
        return Resolved(RefusedFor(Some(CorrelationOf(action)), Busy));
      }
      Remember(action.actionId);
      inFlight := true;
      if action.kind == Stop { stopPending := true; }
      return Sent(action, RequestFor(action));
    }

    method Settle(action: PrivateAction, delivery: Delivery) returns (settlement: Settlement)
      requires Valid()
      modifies this
      ensures Valid()
      ensures State() == AfterSettle(old(State()), action, delivery)
      ensures settlement == SettlementOf(action, delivery)
    {
      if delivery.SendFailed? {
        inFlight := false;
        return OutcomeUnknownError;
      }
      var request := RequestFor(action);
      var classification := Classify(delivery.response, request);
      if classification == RejectedResponse {
        if action.kind == Stop { ClearStopPending(); }
        inFlight := false;
        return RefusedFor(Some(CorrelationOf(action)), AppServerRejected);
      }
      inFlight := false;
      if classification == UnknownResponse { return OutcomeUnknownError; }
      return AcceptedBy(CorrelationOf(action), request.rpc);
    }

    method ClearStopPending()
      requires Valid()
      modifies this`stopPending
      ensures Valid() && State() == old(State()).(stopPending := false)
    {
      stopPending := false;
    }

    method Remember(actionId: Text)
      requires Valid() && actionId !in rememberedActionIds
      modifies this`rememberedActionIds, this`rememberedActionOrder
      ensures Valid()
      ensures rememberedActionOrder == Remembered(old(rememberedActionOrder), actionId)
    {
      ghost var before := rememberedActionOrder;
      rememberedActionIds := rememberedActionIds + {actionId};
      rememberedActionOrder := rememberedActionOrder + [actionId];
      ListedAppend(before, actionId);
      if |rememberedActionOrder| <= MAX_REMEMBERED_ACTION_IDS { return; }
      var oldest := rememberedActionOrder[0];
      ListedDrop(rememberedActionOrder);
      rememberedActionOrder := rememberedActionOrder[1..];
      rememberedActionIds := rememberedActionIds - {oldest};
    }
  }

  ghost function Listed(order: seq<Text>): set<Text> { set id | id in order }

  lemma ListedAppend(order: seq<Text>, id: Text)
    requires Distinct(order) && id !in order
    ensures Distinct(order + [id]) && Listed(order + [id]) == Listed(order) + {id}
  {
  }

  lemma ListedDrop(order: seq<Text>)
    requires Distinct(order) && order != []
    ensures Distinct(order[1..]) && Listed(order[1..]) == Listed(order) - {order[0]}
  {
    assert order == [order[0]] + order[1..];
  }
}
