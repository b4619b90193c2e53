/**
 The loopback listener: the checks a request passes before it is forwarded, the handler phase
 computed for it, and the response the client gets for what the handler returned.
 */
module LocalhostListener {
  import opened Collections
  import opened JsonGrammar
  import opened RemoteActionReceipt
  import opened RemoteActionReceiptJson
  import opened FileReplayStore
  import opened TailscaleIngress
  import opened Unicode
  import JsonReaderProofs
  import StrictJson

  const LOCALHOST_MAX_HEADERS := 32
  const MAX_RESPONSE_BYTES := 4_096

  // The handler phase.

  /** The phase the listener computes for a request it passes on. */
  function PhaseOf(q: IngressRequest): Phase {
    if !q.jsonContentType then InvalidContentTypePhase
    else if q.action.None? then InvalidActionPhase
    else ValidActionPhase
  }

  function ExpectedOf(q: IngressRequest): Expectation {
    Expect(if q.action.Some? then Some(Correlate(q.action.value)) else None)
  }

  /** The listener forwards only routed requests whose complete body is within the limit. */
  predicate Forwarded(q: IngressRequest) {
    q.routed && q.bodyBytes.Some? && q.bodyBytes.value <= MAX_REMOTE_ACTION_BODY_BYTES
  }

  /** The listener's projection accepts this answer to this request. */
  predicate Admits(q: IngressRequest, status: int, receipt: Receipt) {
    Projects(receipt, ExpectedOf(q), false, Filter(Some(status), Some(PhaseOf(q))))
  }

  // Responses.

  /** What the handler returned; `Unusable` is anything without the exact shape, or an exception. */
  datatype HandlerResult = Unusable | Usable(status: int, safeHeaders: bool, body: Text)

  datatype HttpReply = HttpReply(status: int, body: Text)

  /** The bytes of a text in UTF-8; a lone surrogate is sent as the replacement character. */
  function Utf8Length(t: Text): (n: nat)
    ensures n <= 3 * |t|
  {
    if t == [] then 0
    else if |t| > 1 && IsHighSurrogate(t[0]) && IsLowSurrogate(t[1]) then 4 + Utf8Length(t[2..])
    else (if t[0] < 0x80 then 1 else if t[0] < 0x800 then 2 else 3) + Utf8Length(t[1..])
  }

  /** A response taken from the handler: only a receipt that projects, and its own serialization. */
  function Select(r: HandlerResult, expected: Expectation, phase: Option<Phase>): Option<HttpReply> {
    if r.Unusable? || !r.safeHeaders || Utf8Length(r.body) > MAX_RESPONSE_BYTES then None
    else if !StrictJson.Accepts(r.body, StrictJson.MAX_STRICT_JSON_DEPTH) then None
    else
      var receipt := Project(JsonReaderProofs.Document(r.body).value.value, expected, false,
                             Filter(Some(r.status), phase));
      if receipt.None? then None else Some(HttpReply(r.status, Serialize(receipt.value)))
  }

  function AdapterReply(status: int, reason: Reason, action: Option<Correlation>): HttpReply
    requires ValidReceipt(Receipt(action, Rejected(reason)))
  {
    HttpReply(status, Serialize(Receipt(action, Rejected(reason))))
  }

  /** The response written for a forwarded request, with the fallback when nothing can be taken. */
  function Written(q: IngressRequest, r: HandlerResult): HttpReply
    requires ValidRequest(q)
  {
    var selected := Select(r, ExpectedOf(q), Some(PhaseOf(q)));
    if selected.Some? then selected.value
    else AdapterReply(503, Unavailable, if PhaseOf(q) == ValidActionPhase then ExpectedOf(q).correlation else None)
  }

  /** The handler's own response for an answer: its status, the fixed headers, the receipt's text. */
  function ResultOf(status: int, receipt: Receipt): HandlerResult
    requires ValidReceipt(receipt)
  {
    Usable(status, true, Serialize(receipt))
  }

  // The body of a serialized receipt is short.

  lemma WordLength(t: Text)
    ensures |PrintValue(Word(t))| == |t| + 2
  {
    PlainPrints(t);
  }

  lemma NameLength(f: FieldName)
    ensures |NameOf(f)| <= 13
  {
  }

  lemma ReasonLength(r: Reason)
    ensures |ReasonWord(r)| <= 21
  {
  }

  lemma FieldLength(r: Receipt, k: nat)
    requires ValidReceipt(r) && k < |ORDER|
    ensures |FieldsOf(r)| == |ORDER| && |PrintMember(FieldsOf(r)[k])| <= 82
  {
    hide NameOf, ReasonWord, Word, PrintString;
    FieldShape(r, k);
    var f := FieldsOf(r)[k];
    NameLength(ORDER[k]);
    WordLength(NameOf(ORDER[k]));
    if r.correlation.Some? {
      WordLength(r.correlation.value.actionId);
      WordLength(KindWord(r.correlation.value.action));
    }
    WordLength(Units("accepted"));
    WordLength(Units("rejected"));
    if r.verdict.Rejected? {
      ReasonLength(r.verdict.reason);
      WordLength(ReasonWord(r.verdict.reason));
    }
    assert |PrintValue(f.item.value)| <= 66;
    MemberLength(ORDER[k], f.item.value);
  }

  lemma MemberLength(f: FieldName, v: Value)
    ensures |PrintMember(Field(f, v))| == |NameOf(f)| + 3 + |PrintValue(v)|
  {
    PlainPrints(NameOf(f));
  }

  lemma {:induction false} MembersLength(members: seq<Member>)
    requires members != [] && forall k :: 0 <= k < |members| ==> |PrintMember(members[k])| <= 82
    ensures |PrintMembers(members)| <= 83 * |members|
  {
    hide PrintMember;
    if |members| > 1 { MembersLength(members[1..]); }
  }

  lemma SerializedLength(r: Receipt)
    requires ValidReceipt(r)
    ensures Utf8Length(Serialize(r)) <= MAX_RESPONSE_BYTES
  {
    hide FieldsOf, PrintMember, PrintMembers, ValidReceipt, Utf8Length;
    FieldShape(r, 0);
    forall k | 0 <= k < |FieldsOf(r)| ensures |PrintMember(FieldsOf(r)[k])| <= 82 { FieldLength(r, k); }
    MembersLength(FieldsOf(r));
    ObjectLength(FieldsOf(r));
  }

  lemma ObjectLength(members: seq<Member>)
    requires members != []
    ensures |PrintItem(Item([], Obj([], members), []))| == 1 + |PrintMembers(members)|
  {
    hide PrintMembers;
  }

  // What the client gets.

  /** A receipt's text is taken unchanged exactly when the projection lets the receipt through. */
  lemma SelectsExactly(status: int, receipt: Receipt, expected: Expectation, phase: Option<Phase>)
    requires ValidReceipt(receipt)
    ensures Select(ResultOf(status, receipt), expected, phase)
            == if Projects(receipt, expected, false, Filter(Some(status), phase))
               then Some(HttpReply(status, Serialize(receipt))) else None
  {
    hide Serialize, Project, Projects, ValidReceipt, Utf8Length;
    SerializedLength(receipt);
    SerializedProjectsBack(receipt, expected, false, Filter(Some(status), phase));
  }

  /** An admitted answer reaches the client as the handler's own status and bytes. */
  lemma AdmittedIsTransparent(q: IngressRequest, status: int, receipt: Receipt)
    requires ValidRequest(q) && Admits(q, status, receipt)
    ensures ValidReceipt(receipt)
    ensures Written(q, ResultOf(status, receipt)) == HttpReply(status, Serialize(receipt))
  {
    ProjectedIsValid(receipt, ExpectedOf(q), false, Filter(Some(status), Some(PhaseOf(q))));
    SelectsExactly(status, receipt, ExpectedOf(q), Some(PhaseOf(q)));
  }

  /**
   Whatever the handler returned, the client gets the text of a valid receipt that fits its status,
   and a correlated one is about the client's own action.
   */
  lemma WrittenIsSafe(q: IngressRequest, r: HandlerResult)
    requires ValidRequest(q)
    ensures exists receipt ::
              && ValidReceipt(receipt)
              && Written(q, r) == HttpReply(Written(q, r).status, Serialize(receipt))
              && StatusFits(Written(q, r).status, receipt)
              && (receipt.correlation.Some? ==> receipt.correlation == ExpectedOf(q).correlation)
  {
    hide Serialize, Project;
    var selected := Select(r, ExpectedOf(q), Some(PhaseOf(q)));
    if selected.Some? {
      var f := Filter(Some(r.status), Some(PhaseOf(q)));
      var receipt := Project(JsonReaderProofs.Document(r.body).value.value, ExpectedOf(q), false, f).value;
      ProjectsMoreFreely(receipt, ExpectedOf(q), f);
    } else {
      var action := if PhaseOf(q) == ValidActionPhase then ExpectedOf(q).correlation else None;
      DefaultStatusFits(Receipt(action, Rejected(Unavailable)));
    }
  }

  /** What projects under a phase and an expectation also projects under the status alone. */
  lemma ProjectsMoreFreely(receipt: Receipt, expected: Expectation, f: Filter)
    requires Projects(receipt, expected, false, f)
    ensures Projects(receipt, AnyAction, false, Filter(f.status, None))
  {
    var rule := RuleFor(receipt.verdict);
    var v := VariantFor(rule, receipt.correlation.Some?, f).value;
    var k :| 0 <= k < |rule| && rule[k] == v;
    assert Allows(rule[k], receipt.correlation.Some?, Filter(f.status, None));
  }

  /** The listener's own refusals also pass its own selection unchanged. */
  lemma AdapterRepliesPass(status: int, reason: Reason)
    requires (status == 503 && reason == Unavailable)
             || (reason == InvalidRequest && (status == 400 || status == 404 || status == 413))
    ensures ValidReceipt(Receipt(None, Rejected(reason)))
    ensures Select(ResultOf(status, Receipt(None, Rejected(reason))), AnyAction, None)
            == Some(AdapterReply(status, reason, None))
  {
    var receipt := Receipt(None, Rejected(reason));
    var rule := RuleFor(receipt.verdict);
    var i := if status == 404 then 1 else if status == 413 then 2 else 0;
    assert Allows(rule[0], false, ANY) && Allows(rule[i], false, Filter(Some(status), None));
    SelectsExactly(status, receipt, AnyAction, None);
  }

  /**
   Nothing is taken from the handler that has not the exact shape and headers, is longer than 4096 bytes,
   is not strict JSON, or is no receipt for this request; the client then gets the fallback, about its
   own action exactly if the request had a valid one.
   */
  lemma FallbackExactly(q: IngressRequest, r: HandlerResult)
    requires ValidRequest(q)
    ensures r.Unusable? || !r.safeHeaders || Utf8Length(r.body) > 4_096 || !StrictJson.Accepts(r.body, 64) ==>
              Select(r, ExpectedOf(q), Some(PhaseOf(q))).None?
    ensures Select(r, ExpectedOf(q), Some(PhaseOf(q))).None? ==>
              && SafeAbout(q)
              && Written(q, r) == HttpReply(503, Serialize(Receipt(About(q), Rejected(Unavailable))))
  {
    hide Serialize, Project, StrictJson.Accepts, Utf8Length;
  }

  /**
   An answer to a request passes exactly if it is about no action or about the request's own, and may
   travel with its status in the phase of the request: before its content type was known to be JSON, before
   an action was read from it, or after.
   */
  lemma AdmitsExactly(q: IngressRequest, status: int, receipt: Receipt)
    requires ValidCorrelation(receipt.correlation)
    ensures Admits(q, status, receipt) <==>
              && (receipt.correlation.Some? ==>
                    q.action.Some?
                    && receipt.correlation.value == Correlation(q.action.value.actionId, q.action.value.kind))
              && MayTravel(receipt, status)
              && MayCome(receipt, status,
                         if !q.jsonContentType then InvalidContentTypePhase
                         else if q.action.None? then InvalidActionPhase
                         else ValidActionPhase)
  {
    hide MayTravel, MayCome, SafeId, VariantFor;
    FitsExactly(receipt, status, PhaseOf(q));
  }

  /** The action a fallback is about. */
  function About(q: IngressRequest): Option<Correlation> {
    if q.jsonContentType && q.action.Some?
    then Some(Correlation(q.action.value.actionId, q.action.value.kind)) else None
  }

  predicate SafeAbout(q: IngressRequest) { ValidReceipt(Receipt(About(q), Rejected(Unavailable))) }

  /** The bytes of a body are those of the scalar values it stands for. */
  lemma {:induction false} BodyBytes(points: seq<int>)
    requires Scalars(points)
    ensures Utf8Length(Utf16(points)) == Utf8Bytes(points)
    decreases |points|
  {
    if points != [] {
      FirstScalar(points);
      BodyBytes(points[1..]);
    }
  }
}
