/**
 Receipts as JSON: the text `JSON.stringify` gives one, and the projection of any parsed JSON value
 back to a receipt. Projecting what was serialized is the identity, under any options.
 */
module RemoteActionReceiptJson {
  import opened Collections
  import opened JsonGrammar
  import opened JsonReader
  import opened JsonReaderProofs
  import opened RemoteActionReceipt
  import StrictJson

  /** ASCII words, without quotes or backslashes, as code units. */
  function Units(s: string): (t: Text)
    ensures |t| == |s| && PlainText(t)
  {
    seq(|s|, i requires 0 <= i < |s| => if s[i] as int < 0x80 && IsPlain(s[i] as int) then s[i] as int else SPACE)
  }

  predicate PlainText(t: Text) { forall k :: 0 <= k < |t| ==> IsPlain(t[k]) }

  datatype FieldName = VersionField | IdField | KindField | OutcomeField | ReasonField

  function NameOf(f: FieldName): (t: Text)
    ensures PlainText(t)
  {
    match f
    case VersionField => Units("schemaVersion")
    case IdField => Units("actionId")
    case KindField => Units("action")
    case OutcomeField => Units("outcome")
    case ReasonField => Units("reason")
  }

  lemma NamesDiffer(f: FieldName, g: FieldName)
    requires NameOf(f) == NameOf(g)
    ensures f == g
  {
    assert |NameOf(f)| == |NameOf(g)| && NameOf(f)[0] == NameOf(g)[0];
  }

  // The words of a receipt.

  function KindWord(k: ActionKind): (t: Text)
    ensures PlainText(t)
  {
    if k == Reply then Units("reply") else Units("stop")
  }

  function ReasonWord(r: Reason): (t: Text)
    ensures PlainText(t)
  {
    match r
    case AppServerRejected => Units("appServerRejected")
    case Busy => Units("busy")
    case DuplicateAction => Units("duplicateAction")
    case ExpiredControlContext => Units("expiredControlContext")
    case ExpiredRequest => Units("expiredRequest")
    case InvalidAction => Units("invalidAction")
    case InvalidRequest => Units("invalidRequest")
    case NoActiveTurn => Units("noActiveTurn")
    case OutcomeUnknown => Units("outcomeUnknown")
    case ReplayConflict => Units("replayConflict")
    case StaleTurn => Units("staleTurn")
    case StopPending => Units("stopPending")
    case Unauthorized => Units("unauthorized")
    case Unavailable => Units("unavailable")
    case UnknownControlContext => Units("unknownControlContext")
    case WrongThread => Units("wrongThread")
  }

  const REASONS := [
    AppServerRejected, Busy, DuplicateAction, ExpiredControlContext, ExpiredRequest, InvalidAction,
    InvalidRequest, NoActiveTurn, OutcomeUnknown, ReplayConflict, StaleTurn, StopPending,
    Unauthorized, Unavailable, UnknownControlContext, WrongThread]

  /** Length and first letter already tell the reason words apart. */
  lemma ReasonWordsDiffer(a: Reason, b: Reason)
    requires ReasonWord(a) == ReasonWord(b)
    ensures a == b
  {
    assert |ReasonWord(a)| == |ReasonWord(b)| && ReasonWord(a)[0] == ReasonWord(b)[0];
  }

  // Serialization: no whitespace, plain characters, keys in the order the receipt is built with.

  function PlainChars(t: Text): seq<JsonChar> { seq(|t|, i requires 0 <= i < |t| => Plain(t[i])) }

  function Word(t: Text): Value { Str(PlainChars(t)) }

  function Field(f: FieldName, v: Value): Member { Member([], PlainChars(NameOf(f)), [], Item([], v, [])) }

  const ONE := Num(Number(false, [0x31], [], []))

  function FieldsOf(r: Receipt): seq<Member> {
    [ Field(VersionField, ONE),
      Field(IdField, if r.correlation.Some? then Word(r.correlation.value.actionId) else Null),
      Field(KindField, if r.correlation.Some? then Word(KindWord(r.correlation.value.action)) else Null),
      Field(OutcomeField, Word(Units(if r.verdict.Accepted? then "accepted" else "rejected"))),
      Field(ReasonField, if r.verdict.Accepted? then Null else Word(ReasonWord(r.verdict.reason))) ]
  }

  function TreeOf(r: Receipt): Item { Item([], Obj([], FieldsOf(r)), []) }

  function Serialize(r: Receipt): Text
    requires ValidReceipt(r)
  {
    PrintItem(TreeOf(r))
  }

  // Projection of any JSON value.

  /** Names are compared decoded; a parsed object keeps the last of several equal names. */
  function FieldNamed(members: seq<Member>, name: seq<int>): (v: Option<Value>)
    ensures v.None? <==> forall m :: m in members ==> Decode(m.name) != name
  {
    if members == [] then None
    else
      var last := members[|members| - 1];
      if Decode(last.name) == name then Some(last.item.value)
      else
        assert members == members[..|members| - 1] + [last];
        FieldNamed(members[..|members| - 1], name)
  }

  predicate IsText(v: Value, t: Text) { v.Str? && Decode(v.chars) == t }

  /** The text of a string value, when every character of it is a safe-identifier character. */
  function SafeIdOf(v: Value): (id: Option<Text>)
    ensures id.Some? ==> SafeId(id.value) && IsText(v, id.value)
    ensures id.None? ==> forall t :: SafeId(t) ==> !IsText(v, t)
  {
    if !v.Str? then None
    else
      var d := Decode(v.chars);
      if forall k :: 0 <= k < |d| ==> 0 <= d[k] < 0x1_0000 then
        var t: Text := seq(|d|, i requires 0 <= i < |d| => d[i]);
        assert t == d;
        if SafeId(t) then Some(t) else None
      else
        None
  }

  /** The integer the digits spell. */
  function DigitsValue(d: Text): int {
    if d == [] then 0 else 10 * DigitsValue(d[..|d| - 1]) + (d[|d| - 1] - ZERO)
  }

  function ExponentValue(e: Text): int {
    if |e| < 2 then 0
    else if e[1] == MINUS then -DigitsValue(e[2..])
    else if e[1] == PLUS then DigitsValue(e[2..])
    else DigitsValue(e[1..])
  }

  function PowerOfTen(n: nat): int { if n == 0 then 1 else 10 * PowerOfTen(n - 1) }

  /** The number is exactly one, however it is spelled. */
  predicate IsOne(n: Number) {
    var fraction := if n.fraction == [] then [] else n.fraction[1..];
    var digits, shift := DigitsValue(n.whole + fraction), ExponentValue(n.exponent) - |fraction|;
    !n.minus && if shift >= 0 then digits == 1 && shift == 0 else digits == PowerOfTen(-shift)
  }

  function FieldIn(members: seq<Member>, f: FieldName): Option<Value> { FieldNamed(members, NameOf(f)) }

  predicate HasExactKeys(members: seq<Member>) {
    && (forall m :: m in members ==> exists f: FieldName :: Decode(m.name) == NameOf(f))
    && (forall f: FieldName :: FieldIn(members, f).Some?)
  }

  function KindOf(v: Value): Option<ActionKind> {
    if IsText(v, KindWord(Reply)) then Some(Reply) else if IsText(v, KindWord(Stop)) then Some(Stop) else None
  }

  /** Both fields null, or both right; anything else has no correlation at all. */
  function CorrelationIn(actionId: Value, action: Value): Option<Option<Correlation>> {
    if SafeIdOf(actionId).Some? && KindOf(action).Some?
    then Some(Some(Correlation(SafeIdOf(actionId).value, KindOf(action).value)))
    else if actionId.Null? && action.Null? then Some(None)
    else None
  }

  function ReasonIn(v: Value, among: seq<Reason>): (r: Option<Reason>)
    ensures r.Some? ==> IsText(v, ReasonWord(r.value))
  {
    if among == [] then None
    else if IsText(v, ReasonWord(among[0])) then Some(among[0])
    else ReasonIn(v, among[1..])
  }

  function VerdictIn(outcome: Value, reason: Value): Option<Verdict> {
    if IsText(outcome, Units("accepted")) && reason.Null? then Some(Accepted)
    else if IsText(outcome, Units("rejected")) && ReasonIn(reason, REASONS).Some?
    then Some(Rejected(ReasonIn(reason, REASONS).value))
    else None
  }

  function Project(v: Value, expected: Expectation, requireCorrelation: bool, f: Filter): (r: Option<Receipt>)
    ensures r.Some? ==> Projects(r.value, expected, requireCorrelation, f) && ValidReceipt(r.value)
  {
    if !v.Obj? || !HasExactKeys(v.members) then None
    else
      var version := FieldIn(v.members, VersionField).value;
      var correlation :=
        CorrelationIn(FieldIn(v.members, IdField).value, FieldIn(v.members, KindField).value);
      var verdict :=
        VerdictIn(FieldIn(v.members, OutcomeField).value, FieldIn(v.members, ReasonField).value);
      if !(version.Num? && IsOne(version.number)) || correlation.None? || verdict.None? then None
      else
        var receipt := Receipt(correlation.value, verdict.value);
        if !Projects(receipt, expected, requireCorrelation, f) then None
        else
          ProjectedIsValid(receipt, expected, requireCorrelation, f);
          Some(receipt)
  }

  lemma ProjectedIsValid(r: Receipt, expected: Expectation, requireCorrelation: bool, f: Filter)
    requires Projects(r, expected, requireCorrelation, f)
    ensures ValidReceipt(r)
  {
    var rule := RuleFor(r.verdict);
    var v := VariantFor(rule, r.correlation.Some?, f).value;
    var k :| 0 <= k < |rule| && rule[k] == v;
    assert Allows(rule[k], r.correlation.Some?, ANY);
  }

  // The round trip.

  lemma {:induction false} PlainDecodes(t: Text)
    ensures Decode(PlainChars(t)) == t
    ensures PlainText(t) ==> ValidChars(PlainChars(t))
  {
    if t != [] {
      PlainDecodes(t[1..]);
      assert PlainChars(t)[1..] == PlainChars(t[1..]);
      assert Decode(PlainChars(t)) == [t[0]] + Decode(PlainChars(t[1..]));
    }
  }

  lemma SafeIdIsPlain(t: Text)
    requires SafeId(t)
    ensures PlainText(t)
  {
  }

  const ORDER := [VersionField, IdField, KindField, OutcomeField, ReasonField]

  lemma FieldShape(r: Receipt, k: nat)
    requires k < |ORDER|
    ensures |FieldsOf(r)| == |ORDER| && FieldsOf(r)[k] == Field(ORDER[k], FieldsOf(r)[k].item.value)
  {
    hide NameOf, ReasonWord, KindWord, Units, Word, PlainChars;
  }

  lemma FieldNameAt(r: Receipt, k: nat)
    requires k < |ORDER|
    ensures |FieldsOf(r)| == |ORDER| && Decode(FieldsOf(r)[k].name) == NameOf(ORDER[k])
  {
    hide NameOf, FieldsOf;
    FieldShape(r, k);
    PlainDecodes(NameOf(ORDER[k]));
  }

  lemma EveryFieldInOrder(f: FieldName)
    ensures f in ORDER
  {
    assert ORDER[0] == VersionField && ORDER[1] == IdField && ORDER[2] == KindField && ORDER[3] == OutcomeField;
    assert ORDER[4] == ReasonField;
  }

  lemma FieldNames(r: Receipt)
    ensures |FieldsOf(r)| == |ORDER|
    ensures forall k :: 0 <= k < |ORDER| ==> Decode(FieldsOf(r)[k].name) == NameOf(ORDER[k])
    ensures DistinctNames(FieldsOf(r))
  {
    hide NameOf, FieldsOf, Decode;
    FieldShape(r, 0);
    forall k | 0 <= k < |ORDER| ensures Decode(FieldsOf(r)[k].name) == NameOf(ORDER[k]) { FieldNameAt(r, k); }
    forall j, k | 0 <= j < k < |ORDER| ensures NameOf(ORDER[j]) != NameOf(ORDER[k]) {
      if NameOf(ORDER[j]) == NameOf(ORDER[k]) { NamesDiffer(ORDER[j], ORDER[k]); }
    }
  }

  lemma WordIsValid(t: Text)
    requires PlainText(t)
    ensures ValidValue(Word(t)) && forall d :: Fits(Word(t), d)
    ensures UniqueNames(Word(t))
  {
    PlainDecodes(t);
  }

  lemma FieldIsValid(f: FieldName, v: Value)
    requires ValidValue(v)
    ensures ValidMember(Field(f, v))
  {
    PlainDecodes(NameOf(f));
  }

  lemma FieldValues(r: Receipt, k: nat)
    requires ValidReceipt(r) && k < |ORDER|
    ensures var v := FieldsOf(r)[k].item.value; ValidValue(v) && (forall d :: Fits(v, d)) && UniqueNames(v)
  {
    hide NameOf, KindWord, ReasonWord, Units;
    WordIsValid(Units("accepted"));
    WordIsValid(Units("rejected"));
    if r.correlation.Some? {
      SafeIdIsPlain(r.correlation.value.actionId);
      WordIsValid(r.correlation.value.actionId);
      WordIsValid(KindWord(r.correlation.value.action));
    }
    if r.verdict.Rejected? { WordIsValid(ReasonWord(r.verdict.reason)); }
  }

  /** What is serialized is one JSON text of a flat object with distinct names. */
  lemma TreeIsStrict(r: Receipt)
    requires ValidReceipt(r)
    ensures ValidItem(TreeOf(r)) && Fits(TreeOf(r).value, 1) && UniqueNames(TreeOf(r).value)
  {
    hide NameOf, FieldsOf, ValidReceipt, ValidMember, Decode;
    FieldNames(r);
    forall k | 0 <= k < |FieldsOf(r)|
      ensures ValidMember(FieldsOf(r)[k]) && Fits(FieldsOf(r)[k].item.value, 0)
      ensures UniqueNames(FieldsOf(r)[k].item.value)
    {
      FieldValues(r, k);
      FieldShape(r, k);
      FieldIsValid(ORDER[k], FieldsOf(r)[k].item.value);
    }
    FlatObject(FieldsOf(r));
  }

  lemma FlatObject(members: seq<Member>)
    requires members != [] && DistinctNames(members) && ValidMembers(members)
    requires forall k :: 0 <= k < |members| ==> Fits(members[k].item.value, 0) && UniqueNames(members[k].item.value)
    ensures ValidItem(Item([], Obj([], members), [])) && Fits(Obj([], members), 1) && UniqueNames(Obj([], members))
  {
  }

  lemma {:induction false} FieldOfDistinct(members: seq<Member>, k: nat)
    requires DistinctNames(members) && k < |members|
    ensures FieldNamed(members, Decode(members[k].name)) == Some(members[k].item.value)
  {
    if k < |members| - 1 { FieldOfDistinct(members[..|members| - 1], k); }
  }

  // Projecting what was serialized.

  lemma SerializedFields(r: Receipt)
    ensures HasExactKeys(FieldsOf(r))
    ensures forall k :: 0 <= k < |ORDER| ==> FieldIn(FieldsOf(r), ORDER[k]) == Some(FieldsOf(r)[k].item.value)
  {
    hide NameOf, FieldsOf, FieldNamed, DistinctNames;
    FieldNames(r);
    forall k | 0 <= k < |ORDER| ensures FieldIn(FieldsOf(r), ORDER[k]) == Some(FieldsOf(r)[k].item.value) {
      FieldOfDistinct(FieldsOf(r), k);
    }
    forall f: FieldName ensures FieldIn(FieldsOf(r), f).Some? {
      EveryFieldInOrder(f);
      var k :| 0 <= k < |ORDER| && ORDER[k] == f;
      assert FieldIn(FieldsOf(r), ORDER[k]).Some?;
    }
    forall m | m in FieldsOf(r) ensures exists f: FieldName :: Decode(m.name) == NameOf(f) {
      var k :| 0 <= k < |FieldsOf(r)| && FieldsOf(r)[k] == m;
      assert Decode(m.name) == NameOf(ORDER[k]);
    }
  }

  lemma {:induction false} ReasonFound(r: Reason, among: seq<Reason>)
    requires r in among
    ensures ReasonIn(Word(ReasonWord(r)), among) == Some(r)
  {
    PlainDecodes(ReasonWord(r));
    if IsText(Word(ReasonWord(r)), ReasonWord(among[0])) {
      ReasonWordsDiffer(among[0], r);
    } else {
      ReasonFound(r, among[1..]);
    }
  }

  lemma EveryReasonListed(r: Reason)
    ensures r in REASONS
  {
    assert REASONS[0] == AppServerRejected && REASONS[1] == Busy && REASONS[2] == DuplicateAction;
    assert REASONS[3] == ExpiredControlContext && REASONS[4] == ExpiredRequest && REASONS[5] == InvalidAction;
    assert REASONS[6] == InvalidRequest && REASONS[7] == NoActiveTurn && REASONS[8] == OutcomeUnknown;
    assert REASONS[9] == ReplayConflict && REASONS[10] == StaleTurn && REASONS[11] == StopPending;
    assert REASONS[12] == Unauthorized && REASONS[13] == Unavailable && REASONS[14] == UnknownControlContext;
    assert REASONS[15] == WrongThread;
  }

  lemma CorrelationFound(c: Correlation)
    requires SafeId(c.actionId)
    ensures CorrelationIn(Word(c.actionId), Word(KindWord(c.action))) == Some(Some(c))
  {
    PlainDecodes(c.actionId);
    PlainDecodes(KindWord(c.action));
    assert IsText(Word(c.actionId), c.actionId);
    assert |KindWord(Reply)| != |KindWord(Stop)|;
  }

  lemma VerdictFound(v: Verdict)
    ensures v.Accepted? ==> VerdictIn(Word(Units("accepted")), Null) == Some(v)
    ensures v.Rejected? ==> VerdictIn(Word(Units("rejected")), Word(ReasonWord(v.reason))) == Some(v)
  {
    hide ReasonWord;
    PlainDecodes(Units("accepted"));
    PlainDecodes(Units("rejected"));
    if v.Rejected? {
      EveryReasonListed(v.reason);
      ReasonFound(v.reason, REASONS);
    }
  }

  lemma OneIsOne()
    ensures IsOne(ONE.number)
  {
    assert DigitsValue([0x31]) == 1;
  }

  /** The five fields as the projection reads them back. */
  lemma FieldsReadBack(r: Receipt)
    requires ValidReceipt(r)
    ensures HasExactKeys(FieldsOf(r))
    ensures FieldIn(FieldsOf(r), VersionField) == Some(ONE)
    ensures CorrelationIn(FieldIn(FieldsOf(r), IdField).value, FieldIn(FieldsOf(r), KindField).value)
            == Some(r.correlation)
    ensures VerdictIn(FieldIn(FieldsOf(r), OutcomeField).value, FieldIn(FieldsOf(r), ReasonField).value)
            == Some(r.verdict)
  {
    hide NameOf, ReasonWord, KindWord, Units, FieldNamed, FieldIn, HasExactKeys, CorrelationIn, VerdictIn, IsOne, Word;
    SerializedFields(r);
    VerdictFound(r.verdict);
    if r.correlation.Some? { CorrelationFound(r.correlation.value); } else { NullIsUncorrelated(); }
    var fields := FieldsOf(r);
    assert FieldIn(fields, ORDER[0]) == Some(ONE) && FieldIn(fields, ORDER[1]) == Some(fields[1].item.value);
    assert FieldIn(fields, ORDER[2]) == Some(fields[2].item.value);
    assert FieldIn(fields, ORDER[3]) == Some(fields[3].item.value);
    assert FieldIn(fields, ORDER[4]) == Some(fields[4].item.value);
  }

  lemma NullIsUncorrelated()
    ensures CorrelationIn(Null, Null) == Some(None)
  {
  }

  lemma ProjectTree(r: Receipt, expected: Expectation, requireCorrelation: bool, f: Filter)
    requires ValidReceipt(r)
    ensures Project(TreeOf(r).value, expected, requireCorrelation, f)
            == if Projects(r, expected, requireCorrelation, f) then Some(r) else None
  {
    hide FieldsOf, FieldIn, HasExactKeys, CorrelationIn, VerdictIn, IsOne, ValidReceipt, Projects;
    FieldsReadBack(r);
    OneIsOne();
  }

  /**
   Parse, project, serialize: the text of a valid receipt is accepted by the strict reader, and
   projecting it gives that very receipt back exactly when the options let the receipt through.
   */
  lemma SerializedProjectsBack(r: Receipt, expected: Expectation, requireCorrelation: bool, f: Filter)
    requires ValidReceipt(r)
    ensures StrictJson.Accepts(Serialize(r), StrictJson.MAX_STRICT_JSON_DEPTH)
    ensures Project(Document(Serialize(r)).value.value, expected, requireCorrelation, f)
            == if Projects(r, expected, requireCorrelation, f) then Some(r) else None
  {
    hide TreeOf, ValidReceipt, ValidItem, Project, Projects;
    TreeIsStrict(r);
    FitsDeeper(TreeOf(r).value, 1, StrictJson.MAX_STRICT_JSON_DEPTH);
    StrictJson.PrintingDecides(TreeOf(r), StrictJson.MAX_STRICT_JSON_DEPTH);
    ProjectTree(r, expected, requireCorrelation, f);
  }

  lemma {:induction false} FitsDeeper(v: Value, small: int, large: int)
    requires Fits(v, small) && small <= large
    ensures Fits(v, large)
    decreases v
  {
    match v
    case Arr(_, items) =>
      forall k | 0 <= k < |items| ensures Fits(items[k].value, large - 1) {
        FitsDeeper(items[k].value, small - 1, large - 1);
      }
    case Obj(_, members) =>
      forall k | 0 <= k < |members| ensures Fits(members[k].item.value, large - 1) {
        FitsDeeper(members[k].item.value, small - 1, large - 1);
      }
    case _ =>
  }

  /** Different valid receipts have different texts. */
  lemma SerializeIsInjective(a: Receipt, b: Receipt)
    requires ValidReceipt(a) && ValidReceipt(b) && Serialize(a) == Serialize(b)
    ensures a == b
  {
    SerializedProjectsBack(a, AnyAction, false, ANY);
    SerializedProjectsBack(b, AnyAction, false, ANY);
  }

  // What a projected value must say, field by field.

  /** Both correlation fields are null, or they name the action. */
  predicate SaysCorrelation(actionId: Value, action: Value, c: Option<Correlation>) {
    if c.None? then actionId.Null? && action.Null?
    else SafeId(c.value.actionId) && IsText(actionId, c.value.actionId) && IsText(action, KindWord(c.value.action))
  }

  /** Accepted without a reason, or rejected with one. */
  predicate SaysVerdict(outcome: Value, reason: Value, v: Verdict) {
    if v.Accepted? then IsText(outcome, Units("accepted")) && reason.Null?
    else IsText(outcome, Units("rejected")) && IsText(reason, ReasonWord(v.reason))
  }

  lemma CorrelationExactly(actionId: Value, action: Value, c: Option<Correlation>)
    ensures CorrelationIn(actionId, action) == Some(c) <==> SaysCorrelation(actionId, action, c)
  {
    hide SafeId;
    assert Units("reply")[0] != Units("stop")[0];
  }

  lemma VerdictExactly(outcome: Value, reason: Value, v: Verdict)
    ensures VerdictIn(outcome, reason) == Some(v) <==> SaysVerdict(outcome, reason, v)
  {
    hide ReasonWord;
    assert Units("accepted")[0] != Units("rejected")[0];
    if v.Rejected? && IsText(reason, ReasonWord(v.reason)) {
      EveryReasonListed(v.reason);
      ReasonRead(reason, v.reason, REASONS);
    }
  }

  lemma {:induction false} ReasonRead(v: Value, r: Reason, among: seq<Reason>)
    requires r in among && IsText(v, ReasonWord(r))
    ensures ReasonIn(v, among) == Some(r)
  {
    hide ReasonWord;
    if IsText(v, ReasonWord(among[0])) { ReasonWordsDiffer(among[0], r); } else { ReasonRead(v, r, among[1..]); }
  }

  /**
   A value is projected to a receipt exactly if it is an object of the five fields and no others, of
   version one, that says just this correlation and verdict, and the options let the receipt through.
   */
  lemma ProjectsExactly(v: Value, receipt: Receipt, expected: Expectation, requireCorrelation: bool, f: Filter)
    ensures Project(v, expected, requireCorrelation, f) == Some(receipt) <==>
              && v.Obj?
              && (forall m :: m in v.members ==> exists g: FieldName :: Decode(m.name) == NameOf(g))
              && (forall g: FieldName :: FieldIn(v.members, g).Some?)
              && FieldIn(v.members, VersionField).value.Num? && IsOne(FieldIn(v.members, VersionField).value.number)
              && SaysCorrelation(FieldIn(v.members, IdField).value, FieldIn(v.members, KindField).value,
                                 receipt.correlation)
              && SaysVerdict(FieldIn(v.members, OutcomeField).value, FieldIn(v.members, ReasonField).value,
                             receipt.verdict)
              && Projects(receipt, expected, requireCorrelation, f)
  {
    hide SaysCorrelation, SaysVerdict, CorrelationIn, VerdictIn, IsOne, FieldNamed, Projects;
    if v.Obj? && HasExactKeys(v.members) {
      var actionId, action := FieldIn(v.members, IdField).value, FieldIn(v.members, KindField).value;
      var outcome, reason := FieldIn(v.members, OutcomeField).value, FieldIn(v.members, ReasonField).value;
      CorrelationExactly(actionId, action, receipt.correlation);
      VerdictExactly(outcome, reason, receipt.verdict);
    }
  }

  // The text of a receipt, written out.

  /** The code units of an ASCII text. */
  function Ascii(s: string): Text { seq(|s|, i requires 0 <= i < |s| => if s[i] < 128 as char then s[i] as int else 0) }

  /** A word in quotes. */
  function Quoted(t: Text): Text { [QUOTE] + t + [QUOTE] }

  /** A member of an object, its name and its value as written. */
  function Pair(name: string, value: Text): Text { Quoted(Ascii(name)) + [COLON] + value }

  lemma {:induction false} PlainPrints(t: Text)
    ensures PrintChars(PlainChars(t)) == t
  {
    if t != [] {
      PlainPrints(t[1..]);
      assert PlainChars(t)[1..] == PlainChars(t[1..]);
    }
  }

  lemma FieldPrints(f: FieldName, v: Value)
    ensures PrintMember(Field(f, v)) == Quoted(NameOf(f)) + [COLON] + PrintValue(v)
  {
    hide NameOf;
    PlainPrints(NameOf(f));
  }

  lemma WordPrints(t: Text)
    ensures PrintValue(Word(t)) == Quoted(t)
  {
    PlainPrints(t);
  }

  /** A word in which every character is plain stands for itself. */
  lemma UnitsAreAscii(s: string)
    requires forall k :: 0 <= k < |s| ==> 'A' <= s[k] <= 'z' && s[k] != '\\'
    ensures Units(s) == Ascii(s)
  {
  }

  lemma NamesWritten()
    ensures NameOf(VersionField) == Ascii("schemaVersion") && NameOf(IdField) == Ascii("actionId")
    ensures NameOf(KindField) == Ascii("action") && NameOf(OutcomeField) == Ascii("outcome")
    ensures NameOf(ReasonField) == Ascii("reason")
  {
    hide Units, Ascii;
    UnitsAreAscii("schemaVersion");
    UnitsAreAscii("actionId");
    UnitsAreAscii("action");
    UnitsAreAscii("outcome");
    UnitsAreAscii("reason");
  }

  lemma WordsWritten()
    ensures KindWord(Reply) == Ascii("reply") && KindWord(Stop) == Ascii("stop")
    ensures Units("accepted") == Ascii("accepted") && Units("rejected") == Ascii("rejected")
  {
    hide Units, Ascii;
    UnitsAreAscii("reply");
    UnitsAreAscii("stop");
    UnitsAreAscii("accepted");
    UnitsAreAscii("rejected");
  }

  /** The word each reason travels as. */
  lemma ReasonsWritten()
    ensures ReasonWord(AppServerRejected) == Ascii("appServerRejected") && ReasonWord(Busy) == Ascii("busy")
    ensures ReasonWord(DuplicateAction) == Ascii("duplicateAction")
    ensures ReasonWord(ExpiredControlContext) == Ascii("expiredControlContext")
    ensures ReasonWord(ExpiredRequest) == Ascii("expiredRequest") && ReasonWord(InvalidAction) == Ascii("invalidAction")
    ensures ReasonWord(InvalidRequest) == Ascii("invalidRequest") && ReasonWord(NoActiveTurn) == Ascii("noActiveTurn")
    ensures ReasonWord(OutcomeUnknown) == Ascii("outcomeUnknown")
    ensures ReasonWord(ReplayConflict) == Ascii("replayConflict") && ReasonWord(StaleTurn) == Ascii("staleTurn")
    ensures ReasonWord(StopPending) == Ascii("stopPending") && ReasonWord(Unauthorized) == Ascii("unauthorized")
    ensures ReasonWord(Unavailable) == Ascii("unavailable")
    ensures ReasonWord(UnknownControlContext) == Ascii("unknownControlContext")
    ensures ReasonWord(WrongThread) == Ascii("wrongThread")
  {
    hide ReasonWord, Ascii;
    EarlierReasonsWritten();
    LaterReasonsWritten();
  }

  lemma EarlierReasonsWritten()
    ensures ReasonWord(AppServerRejected) == Ascii("appServerRejected")
    ensures ReasonWord(Busy) == Ascii("busy")
    ensures ReasonWord(DuplicateAction) == Ascii("duplicateAction")
    ensures ReasonWord(ExpiredControlContext) == Ascii("expiredControlContext")
    ensures ReasonWord(ExpiredRequest) == Ascii("expiredRequest")
    ensures ReasonWord(InvalidAction) == Ascii("invalidAction")
    ensures ReasonWord(InvalidRequest) == Ascii("invalidRequest")
    ensures ReasonWord(NoActiveTurn) == Ascii("noActiveTurn")
  {
    hide Units, Ascii;
    UnitsAreAscii("appServerRejected");
    UnitsAreAscii("busy");
    UnitsAreAscii("duplicateAction");
    UnitsAreAscii("expiredControlContext");
    UnitsAreAscii("expiredRequest");
    UnitsAreAscii("invalidAction");
    UnitsAreAscii("invalidRequest");
    UnitsAreAscii("noActiveTurn");
  }

  lemma LaterReasonsWritten()
    ensures ReasonWord(OutcomeUnknown) == Ascii("outcomeUnknown")
    ensures ReasonWord(ReplayConflict) == Ascii("replayConflict")
    ensures ReasonWord(StaleTurn) == Ascii("staleTurn")
    ensures ReasonWord(StopPending) == Ascii("stopPending")
    ensures ReasonWord(Unauthorized) == Ascii("unauthorized")
    ensures ReasonWord(Unavailable) == Ascii("unavailable")
    ensures ReasonWord(UnknownControlContext) == Ascii("unknownControlContext")
    ensures ReasonWord(WrongThread) == Ascii("wrongThread")
  {
    hide Units, Ascii;
    UnitsAreAscii("outcomeUnknown");
    UnitsAreAscii("replayConflict");
    UnitsAreAscii("staleTurn");
    UnitsAreAscii("stopPending");
    UnitsAreAscii("unauthorized");
    UnitsAreAscii("unavailable");
    UnitsAreAscii("unknownControlContext");
    UnitsAreAscii("wrongThread");
  }

  function IdText(r: Receipt): Text {
    if r.correlation.Some? then Quoted(r.correlation.value.actionId) else NULL_TEXT
  }

  function KindText(r: Receipt): Text {
    if r.correlation.None? then NULL_TEXT
    else Quoted(if r.correlation.value.action == Reply then Ascii("reply") else Ascii("stop"))
  }

  function OutcomeText(r: Receipt): Text {
    Quoted(if r.verdict == Accepted then Ascii("accepted") else Ascii("rejected"))
  }

  function ReasonText(r: Receipt): Text {
    if r.verdict == Accepted then NULL_TEXT else Quoted(ReasonWord(r.verdict.reason))
  }

  /** A receipt is written as one object with its five fields in order, without any whitespace. */
  lemma SerializedText(r: Receipt)
    requires ValidReceipt(r)
    ensures Serialize(r)
            == [OPEN_OBJECT] + Pair("schemaVersion", [0x31]) + [COMMA] + Pair("actionId", IdText(r)) + [COMMA]
               + Pair("action", KindText(r)) + [COMMA] + Pair("outcome", OutcomeText(r)) + [COMMA]
               + Pair("reason", ReasonText(r)) + [CLOSE_OBJECT]
  {
    hide PrintMember, ReasonWord, NameOf, Units, Ascii, Pair, KindWord, ValidReceipt;
    var f := FieldsOf(r);
    FieldsWritten(r);
    FivePrint(f[0], f[1], f[2], f[3], f[4]);
    assert f == [f[0], f[1], f[2], f[3], f[4]];
  }

  lemma FieldsWritten(r: Receipt)
    ensures var f := FieldsOf(r);
            && |f| == 5 && PrintMember(f[0]) == Pair("schemaVersion", [0x31])
            && PrintMember(f[1]) == Pair("actionId", IdText(r)) && PrintMember(f[2]) == Pair("action", KindText(r))
            && PrintMember(f[3]) == Pair("outcome", OutcomeText(r))
            && PrintMember(f[4]) == Pair("reason", ReasonText(r))
  {
    hide PrintMember, PrintValue, ReasonWord, NameOf, Units, Ascii, Word, KindWord;
    var f := FieldsOf(r);
    NamesWritten();
    WordsWritten();
    OneAndNullPrint();
    FieldPrints(VersionField, ONE);
    FieldPrints(IdField, f[1].item.value);
    FieldPrints(KindField, f[2].item.value);
    FieldPrints(OutcomeField, f[3].item.value);
    FieldPrints(ReasonField, f[4].item.value);
    forall t ensures PrintValue(Word(t)) == Quoted(t) { WordPrints(t); }
  }

  lemma OneAndNullPrint()
    ensures PrintValue(ONE) == [0x31] && PrintValue(Null) == NULL_TEXT
  {
  }

  lemma FivePrint(a: Member, b: Member, c: Member, d: Member, e: Member)
    ensures PrintItem(Item([], Obj([], [a, b, c, d, e]), []))
            == [OPEN_OBJECT] + PrintMember(a) + [COMMA] + PrintMember(b) + [COMMA] + PrintMember(c) + [COMMA]
               + PrintMember(d) + [COMMA] + PrintMember(e) + [CLOSE_OBJECT]
  {
    hide PrintMember, PrintMembers;
    assert [a, b, c, d, e] == [a] + [b, c, d, e] && [b, c, d, e] == [b] + [c, d, e];
    assert [c, d, e] == [c] + [d, e] && [d, e] == [d] + [e];
    MorePrint(a, [b, c, d, e]);
    MorePrint(b, [c, d, e]);
    MorePrint(c, [d, e]);
    MorePrint(d, [e]);
    LastPrints(e);
    FiveJoin(PrintMember(a), PrintMember(b), PrintMember(c), PrintMember(d), PrintMember(e));
    ObjectPrints([a, b, c, d, e]);
  }

  lemma MorePrint(m: Member, rest: seq<Member>)
    requires rest != []
    ensures PrintMembers([m] + rest) == PrintMember(m) + ([COMMA] + PrintMembers(rest))
  {
    hide PrintMember;
    assert ([m] + rest)[1..] == rest;
  }

  lemma LastPrints(m: Member)
    ensures PrintMembers([m]) == PrintMember(m) + [CLOSE_OBJECT]
  {
    hide PrintMember;
  }

  lemma ObjectPrints(members: seq<Member>)
    requires members != []
    ensures PrintItem(Item([], Obj([], members), [])) == [OPEN_OBJECT] + PrintMembers(members)
  {
    hide PrintMembers;
  }

  lemma FiveJoin(a: Text, b: Text, c: Text, d: Text, e: Text)
    ensures [OPEN_OBJECT]
            + (a + ([COMMA] + (b + ([COMMA] + (c + ([COMMA] + (d + ([COMMA] + (e + [CLOSE_OBJECT])))))))))
            == [OPEN_OBJECT] + a + [COMMA] + b + [COMMA] + c + [COMMA] + d + [COMMA] + e + [CLOSE_OBJECT]
  {
  }
}
