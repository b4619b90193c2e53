/**
 The redacted receipt a remote action is answered with: which outcome and reason may travel with
 which HTTP status, with or without correlation, and in which phase of the request handler.
 Null values are None, strings are code-unit texts, and JavaScript values are JSON trees.
 */
module RemoteActionReceipt {
  import opened Collections
  import opened JsonGrammar

  datatype ActionKind = Reply | Stop

  datatype Correlation = Correlation(actionId: Text, action: ActionKind)

  datatype Reason =
    | AppServerRejected | Busy | DuplicateAction | ExpiredControlContext | ExpiredRequest
    | InvalidAction | InvalidRequest | NoActiveTurn | OutcomeUnknown | ReplayConflict
    | StaleTurn | StopPending | Unauthorized | Unavailable | UnknownControlContext | WrongThread

  datatype Verdict = Accepted | Rejected(reason: Reason)

  datatype Receipt = Receipt(correlation: Option<Correlation>, verdict: Verdict)

  datatype Phase = InvalidContentTypePhase | InvalidActionPhase | ValidActionPhase

  // Safe identifiers: one letter or digit, then up to 63 letters, digits, underscores or hyphens.

  predicate IsAlphanumeric(c: CodeUnit) {
    0x30 <= c <= 0x39 || 0x41 <= c <= 0x5a || 0x61 <= c <= 0x7a
  }

  predicate SafeId(s: Text) {
    && 1 <= |s| <= 64
    && IsAlphanumeric(s[0])
    && forall k :: 1 <= k < |s| ==> IsAlphanumeric(s[k]) || s[k] == 0x5f || s[k] == 0x2d
  }

  // The rule table.

  datatype Variant = Variant(defaultStatus: int, correlated: bool, phases: set<Phase>)

  function Correlated(status: int): seq<Variant> { [Variant(status, true, {ValidActionPhase})] }

  function RuleFor(verdict: Verdict): (rule: seq<Variant>)
    ensures rule != []
  {
    match verdict
    case Accepted => Correlated(200)
    case Rejected(reason) =>
      match reason
      case AppServerRejected => Correlated(502)
      case InvalidAction => [Variant(400, false, {InvalidActionPhase})]
      case InvalidRequest =>
        [Variant(400, false, {InvalidContentTypePhase}), Variant(404, false, {}), Variant(413, false, {}),
         Variant(400, true, {ValidActionPhase})]
      case OutcomeUnknown => Correlated(503)
      case Unauthorized => [Variant(401, false, {InvalidActionPhase, ValidActionPhase})]
      case Unavailable => [Variant(503, false, {}), Variant(503, true, {ValidActionPhase})]
      case Busy => Correlated(409)
      case DuplicateAction => Correlated(409)
      case ExpiredControlContext => Correlated(409)
      case ExpiredRequest => Correlated(409)
      case NoActiveTurn => Correlated(409)
      case ReplayConflict => Correlated(409)
      case StaleTurn => Correlated(409)
      case StopPending => Correlated(409)
      case UnknownControlContext => Correlated(409)
      case WrongThread => Correlated(409)
  }

  /** The options a caller may give: a status and a handler phase the variant must allow. */
  datatype Filter = Filter(status: Option<int>, phase: Option<Phase>)

  const ANY := Filter(None, None)

  predicate Allows(v: Variant, correlated: bool, f: Filter) {
    && v.correlated == correlated
    && (f.status.Some? ==> v.defaultStatus == f.status.value)
    && (f.phase.Some? ==> f.phase.value in v.phases)
  }

  function VariantFor(rule: seq<Variant>, correlated: bool, f: Filter): (r: Option<Variant>)
    ensures r.None? <==> forall k :: 0 <= k < |rule| ==> !Allows(rule[k], correlated, f)
    ensures r.Some? ==> r.value in rule && Allows(r.value, correlated, f)
  {
    if rule == [] then None
    else if Allows(rule[0], correlated, f) then Some(rule[0])
    else VariantFor(rule[1..], correlated, f)
  }

  /** The caller's `expectedAction` option: not given, or given and possibly null. */
  datatype Expectation = AnyAction | Expect(correlation: Option<Correlation>)

  predicate ValidCorrelation(c: Option<Correlation>) { c.Some? ==> SafeId(c.value.actionId) }

  /** A receipt the projection lets through unchanged under the given options. */
  predicate Projects(r: Receipt, expected: Expectation, requireCorrelation: bool, f: Filter) {
    && ValidCorrelation(r.correlation)
    && (requireCorrelation ==> r.correlation.Some?)
    && (expected.Expect? && r.correlation.Some? ==> r.correlation == expected.correlation)
    && VariantFor(RuleFor(r.verdict), r.correlation.Some?, f).Some?
  }

  predicate ValidReceipt(r: Receipt) { Projects(r, AnyAction, false, ANY) }

  /** The first variant with the receipt's correlation decides its default HTTP status. */
  function DefaultStatus(r: Receipt): (status: int)
    requires ValidReceipt(r)
  {
    VariantFor(RuleFor(r.verdict), r.correlation.Some?, ANY).value.defaultStatus
  }

  predicate StatusFits(status: int, r: Receipt) { Projects(r, AnyAction, false, Filter(Some(status), None)) }

  /** A valid receipt always fits the status the handler chooses for it. */
  lemma DefaultStatusFits(r: Receipt)
    requires ValidReceipt(r)
    ensures StatusFits(DefaultStatus(r), r)
  {
    var rule, c := RuleFor(r.verdict), r.correlation.Some?;
    var v := VariantFor(rule, c, ANY).value;
    var k :| 0 <= k < |rule| && rule[k] == v;
    assert Allows(rule[k], c, Filter(Some(v.defaultStatus), None));
  }

  /**
   Every correlated receipt travels in the valid-action phase, whatever its reason: the
   uncorrelated-only reasons have no correlated variant at all.
   */
  lemma CorrelatedReceiptsTravel(r: Receipt)
    requires ValidReceipt(r) && r.correlation.Some?
    ensures Projects(r, Expect(r.correlation), true, Filter(Some(DefaultStatus(r)), Some(ValidActionPhase)))
    ensures r.verdict != Rejected(InvalidAction) && r.verdict != Rejected(Unauthorized)
  {
    var rule := RuleFor(r.verdict);
    var v := VariantFor(rule, true, ANY).value;
    var k :| 0 <= k < |rule| && rule[k] == v;
    assert Allows(rule[k], true, Filter(Some(v.defaultStatus), Some(ValidActionPhase)));
  }

  // Which receipts travel, status by status and phase by phase.

  /** The statuses a receipt may have, about an action or about none. */
  predicate MayTravel(r: Receipt, status: int) {
    if r.correlation.Some? then
      || (status == 200 && r.verdict == Accepted)
      || (status == 400 && r.verdict == Rejected(InvalidRequest))
      || (status == 409 && r.verdict in {
            Rejected(Busy), Rejected(DuplicateAction), Rejected(ExpiredControlContext), Rejected(ExpiredRequest),
            Rejected(NoActiveTurn), Rejected(ReplayConflict), Rejected(StaleTurn), Rejected(StopPending),
            Rejected(UnknownControlContext), Rejected(WrongThread)})
      || (status == 502 && r.verdict == Rejected(AppServerRejected))
      || (status == 503 && r.verdict in {Rejected(OutcomeUnknown), Rejected(Unavailable)})
    else
      || (status == 400 && r.verdict in {Rejected(InvalidAction), Rejected(InvalidRequest)})
      || (status == 401 && r.verdict == Rejected(Unauthorized))
      || (status in {404, 413} && r.verdict == Rejected(InvalidRequest))
      || (status == 503 && r.verdict == Rejected(Unavailable))
  }

  /** The phases in which a handler may answer with it. */
  predicate MayCome(r: Receipt, status: int, phase: Phase) {
    if r.correlation.Some? then phase == ValidActionPhase
    else
      || (phase == InvalidContentTypePhase && status == 400 && r.verdict == Rejected(InvalidRequest))
      || (phase == InvalidActionPhase && r.verdict in {Rejected(InvalidAction), Rejected(Unauthorized)})
      || (phase == ValidActionPhase && r.verdict == Rejected(Unauthorized))
  }

  /** A receipt fits a status, and a status in a phase, exactly when it may travel and come so. */
  lemma FitsExactly(r: Receipt, status: int, phase: Phase)
    requires ValidCorrelation(r.correlation)
    ensures StatusFits(status, r) <==> MayTravel(r, status)
    ensures Projects(r, AnyAction, false, Filter(Some(status), Some(phase)))
            <==> MayTravel(r, status) && MayCome(r, status, phase)
  {
    hide VariantFor;
    var rule, c := RuleFor(r.verdict), r.correlation.Some?;
    VariantExactly(rule, c, Filter(Some(status), None));
    VariantExactly(rule, c, Filter(Some(status), Some(phase)));
  }

  lemma VariantExactly(rule: seq<Variant>, correlated: bool, f: Filter)
    requires 1 <= |rule| <= 4
    ensures VariantFor(rule, correlated, f).Some? <==>
              || Allows(rule[0], correlated, f) || (|rule| > 1 && Allows(rule[1], correlated, f))
              || (|rule| > 2 && Allows(rule[2], correlated, f)) || (|rule| > 3 && Allows(rule[3], correlated, f))
  {
    hide Allows;
  }

  /** The status a valid receipt is answered with: the one it may have, or 400 for an invalid request about nothing. */
  lemma DefaultStatusExactly(r: Receipt)
    requires ValidReceipt(r)
    ensures MayTravel(r, DefaultStatus(r)) && DefaultStatus(r) !in {404, 413}
  {
    hide MayTravel, StatusFits, SafeId;
    DefaultIsNotMissing(r);
    DefaultStatusFits(r);
    FitsExactly(r, DefaultStatus(r), ValidActionPhase);
  }

  lemma DefaultIsNotMissing(r: Receipt)
    requires ValidReceipt(r)
    ensures DefaultStatus(r) !in {404, 413} && ValidCorrelation(r.correlation)
  {
    hide SafeId;
    var rule := RuleFor(r.verdict);
    if Allows(rule[0], r.correlation.Some?, ANY) { assert VariantFor(rule, r.correlation.Some?, ANY) == Some(rule[0]); }
  }

  /** Safe identifiers, letter by letter. */
  lemma SafeIdExactly(t: Text)
    ensures SafeId(t) <==>
              && 1 <= |t| <= 64 && LetterOrDigit(t[0])
              && forall k :: 1 <= k < |t| ==> LetterOrDigit(t[k]) || t[k] == '_' as int || t[k] == '-' as int
  {
  }

  predicate LetterOrDigit(c: CodeUnit) {
    '0' as int <= c <= '9' as int || 'A' as int <= c <= 'Z' as int || 'a' as int <= c <= 'z' as int
  }
}
