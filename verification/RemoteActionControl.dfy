/**
 The one-task control-context registry. At most one record is active; a resolved handle re-reads the
 registry when it is used, so it works only while the very record it was resolved from is active.
 JavaScript compares records by identity: here each issued record has its own `stamp`, and `epoch`
 counts the changes of the active record.
 */
module RemoteActionControl {
  import opened Collections
  import opened JsonGrammar
  import opened RemoteActionReceipt
  import opened Unicode

  const MAX_SAFE_MS := 0x1f_ffff_ffff_ffff
  const MAX_DATE_MS := 8_640_000_000_000_000
  const CONTEXT_ID_LENGTH := 43
  const ISSUE_ATTEMPTS := 4

  /** A clock reading; a clock that throws or gives no safe integer is Unreadable. */
  datatype Clock = Unreadable | Ms(ms: int)

  predicate ReadableClock(c: Clock) { c.Ms? && -MAX_SAFE_MS <= c.ms <= MAX_SAFE_MS }

  datatype Record = Record(
    stamp: nat, installationId: Text, controlContextId: Text, threadId: Text, expectedTurnId: Text,
    expiresAtMs: int)

  predicate PairAt(t: Text) { |t| >= 2 && IsHighSurrogate(t[0]) && IsLowSurrogate(t[1]) }

  predicate WellFormedText(t: Text) {
    t == []
    || if PairAt(t) then WellFormedText(t[2..])
       else !IsHighSurrogate(t[0]) && !IsLowSurrogate(t[0]) && WellFormedText(t[1..])
  }

  function CodePoints(t: Text): nat {
    if t == [] then 0 else if PairAt(t) then 1 + CodePoints(t[2..]) else 1 + CodePoints(t[1..])
  }

  predicate PrivateIdentifier(t: Text) {
    && t != [] && WellFormedText(t) && CodePoints(t) <= 128
    && forall k :: 0 <= k < |t| ==> t[k] != CARRIAGE_RETURN && t[k] != LINE_FEED && t[k] != TAB
  }

  predicate IsContextId(t: Text) {
    |t| == CONTEXT_ID_LENGTH
    && forall k :: 0 <= k < |t| ==> IsAlphanumeric(t[k]) || t[k] == 0x5f || t[k] == 0x2d
  }

  // The registry as a value.

  datatype Registry = Registry(active: Option<Record>, epoch: nat)

  const EMPTY := Registry(None, 0)

  predicate StampIsCurrent(r: Registry) { r.active.Some? ==> r.active.value.stamp == r.epoch }

  /** The first of the drawn identifiers that is not the active one; None when a draw is bad. */
  function PickId(draws: seq<Option<Text>>, taken: Option<Text>): (id: Option<Text>)
    ensures id.Some? ==> id in draws && id != taken
  {
    if draws == [] || draws[0].None? then None
    else if draws[0] != taken then draws[0]
    else PickId(draws[1..], taken)
  }

  function ActiveId(r: Registry): Option<Text> {
    if r.active.Some? then Some(r.active.value.controlContextId) else None
  }

  /** What `issue` is asked for; identity and dispatch are the registry's own business. */
  datatype IssueRequest = IssueRequest(
    installationId: Text, threadId: Text, expectedTurnId: Text, expiresAtMs: int)

  predicate IssueAllowed(q: IssueRequest, maxLifetimeMs: int, clock: Clock) {
    && SafeId(q.installationId) && PrivateIdentifier(q.threadId) && PrivateIdentifier(q.expectedTurnId)
    && ReadableClock(clock)
    && -MAX_SAFE_MS <= q.expiresAtMs <= MAX_SAFE_MS
    && q.expiresAtMs > clock.ms && q.expiresAtMs - clock.ms <= maxLifetimeMs
    && -MAX_DATE_MS <= q.expiresAtMs <= MAX_DATE_MS
  }

  /** The registry after `issue`, and the identifier it gave out; None when it threw. */
  function AfterIssue(
    r: Registry, q: IssueRequest, maxLifetimeMs: int, clock: Clock, draws: seq<Option<Text>>)
    : (Registry, Option<Text>)
  {
    var id := PickId(draws, ActiveId(r));
    if !IssueAllowed(q, maxLifetimeMs, clock) || id.None? || !IsContextId(id.value) then (r, None)
    else
      var record := Record(
        r.epoch + 1, q.installationId, id.value, q.threadId, q.expectedTurnId, q.expiresAtMs);
      (Registry(Some(record), r.epoch + 1), id)
  }

  function Resolve(r: Registry, installationId: Text, controlContextId: Text): (record: Option<Record>)
    ensures record.Some? ==>
              r.active == record && record.value.installationId == installationId
              && record.value.controlContextId == controlContextId
  {
    if r.active.None? || r.active.value.installationId != installationId
       || r.active.value.controlContextId != controlContextId
    then None else r.active
  }

  function AfterRevokeTurn(r: Registry, threadId: Text, expectedTurnId: Text): (Registry, bool) {
    if r.active.None? || r.active.value.threadId != threadId
       || r.active.value.expectedTurnId != expectedTurnId
    then (r, false) else (Registry(None, r.epoch + 1), true)
  }

  function AfterRevokeAll(r: Registry): (Registry, bool) {
    if r.active.None? then (r, false) else (Registry(None, r.epoch + 1), true)
  }

  /** The re-check in a resolved dispatch handle, just before the boundary is called. */
  predicate HandleAdmits(r: Registry, record: Record, clock: Clock, threadId: Text, expectedTurnId: Text) {
    && r.active == Some(record)
    && ReadableClock(clock) && clock.ms < record.expiresAtMs
    && threadId == record.threadId && expectedTurnId == record.expectedTurnId
  }

  // The class.

  class OneTaskControlContextRegistry {
    const maxLifetimeMs: int
    var active: Option<Record>
    var epoch: nat

    ghost function State(): Registry
      reads this
    {
      Registry(active, epoch)
    }

    constructor (maxLifetimeMs: int)
      requires 0 < maxLifetimeMs <= MAX_SAFE_MS
      ensures State() == EMPTY && this.maxLifetimeMs == maxLifetimeMs
    {
      this.maxLifetimeMs := maxLifetimeMs;
      active, epoch := None, 0;
    }

    /** `draws` are the four random identifiers at hand; None is entropy of the wrong size. */
    method Issue(q: IssueRequest, clock: Clock, draws: seq<Option<Text>>) returns (issued: Option<Text>)
      requires |draws| == ISSUE_ATTEMPTS
      modifies this
      ensures (State(), issued) == AfterIssue(old(State()), q, maxLifetimeMs, clock, draws)
    {
      if !IssueAllowed(q, maxLifetimeMs, clock) { return None; }
      var controlContextId: Option<Text> := None;
      var attempt := 0;
      while attempt < ISSUE_ATTEMPTS
        invariant 0 <= attempt <= ISSUE_ATTEMPTS && controlContextId == None
        invariant State() == old(State())
        invariant PickId(draws, ActiveId(State())) == PickId(draws[attempt..], ActiveId(State()))
      {
        var drawn := draws[attempt];
        if drawn.None? { return None; }
        if active.None? || drawn.value != active.value.controlContextId {
          controlContextId := drawn;
          break;
        }
        assert draws[attempt..][1..] == draws[attempt + 1..];
        attempt := attempt + 1;
      }
      if controlContextId.None? || !IsContextId(controlContextId.value) { return None; }
      epoch := epoch + 1;
      active := Some(Record(
        epoch, q.installationId, controlContextId.value, q.threadId, q.expectedTurnId, q.expiresAtMs));
      return controlContextId;
    }

    method ResolveContext(installationId: Text, controlContextId: Text) returns (record: Option<Record>)
      ensures record == Resolve(State(), installationId, controlContextId)
      ensures record == if active.Some? && active.value.installationId == installationId
                           && active.value.controlContextId == controlContextId then active else None
    {
      record := active;
      if record.None? || installationId != record.value.installationId
         || controlContextId != record.value.controlContextId
      {
        return None;
      }
    }

    method RevokeTurn(threadId: Text, expectedTurnId: Text) returns (revoked: bool)
      modifies this
      ensures (State(), revoked) == AfterRevokeTurn(old(State()), threadId, expectedTurnId)
      ensures revoked <==> old(active).Some? && old(active).value.threadId == threadId
                           && old(active).value.expectedTurnId == expectedTurnId
      ensures if revoked then active.None? && epoch > old(epoch) else active == old(active) && epoch == old(epoch)
    {
      if active.None? || threadId != active.value.threadId
         || expectedTurnId != active.value.expectedTurnId
      {
        return false;
      }
      active, epoch := None, epoch + 1;
      return true;
    }

    method RevokeAll() returns (revoked: bool)
      modifies this
      ensures (State(), revoked) == AfterRevokeAll(old(State()))
      ensures active.None? && revoked == old(active).Some?
      ensures if revoked then epoch > old(epoch) else epoch == old(epoch)
    {
      revoked := active.Some?;
      if revoked { active, epoch := None, epoch + 1; }
    }
  }

  // What the operations do, in the registry's own fields.

  predicate HasTurn(r: Registry, threadId: Text, expectedTurnId: Text) {
    r.active.Some? && r.active.value.threadId == threadId && r.active.value.expectedTurnId == expectedTurnId
  }

  /** Revoking the active turn leaves nothing active and counts as a change; any other turn changes nothing. */
  lemma RevocationRevokes(r: Registry, threadId: Text, expectedTurnId: Text)
    ensures var (after, revoked) := AfterRevokeTurn(r, threadId, expectedTurnId);
            && (revoked <==> HasTurn(r, threadId, expectedTurnId))
            && (revoked ==> after.active.None? && after.epoch > r.epoch)
            && (!revoked ==> after == r)
    ensures var (after, revoked) := AfterRevokeAll(r);
            && after.active.None? && (revoked <==> r.active.Some?)
            && (revoked ==> after.epoch > r.epoch) && (!revoked ==> after == r)
  {
  }

  /** A context resolves exactly when it is the active one, under both its identifiers. */
  lemma ResolvesExactly(r: Registry, installationId: Text, controlContextId: Text, record: Record)
    ensures Resolve(r, installationId, controlContextId) == Some(record) <==>
              && r.active == Some(record) && record.installationId == installationId
              && record.controlContextId == controlContextId
  {
  }

  /** The draws that count: the first one of four that is not the active identifier, if none before it is bad. */
  ghost predicate Draws(r: Registry, draws: seq<Option<Text>>, id: Text) {
    exists n :: 0 <= n < |draws| && draws[n] == Some(id)
                && (r.active.Some? ==> r.active.value.controlContextId != id)
                && forall m :: 0 <= m < n ==> r.active.Some? && draws[m] == Some(r.active.value.controlContextId)
  }

  lemma {:induction false} PicksFirstOther(r: Registry, draws: seq<Option<Text>>, id: Text)
    ensures PickId(draws, ActiveId(r)) == Some(id) <==> Draws(r, draws, id)
    decreases |draws|
  {
    if draws != [] {
      PicksFirstOther(r, draws[1..], id);
      if Draws(r, draws[1..], id) && draws[0].Some? && draws[0] == ActiveId(r) {
        var n :| 0 <= n < |draws[1..]| && draws[1..][n] == Some(id)
                 && forall m :: 0 <= m < n ==> draws[1..][m] == Some(r.active.value.controlContextId);
        assert forall m :: 0 <= m < n + 1 ==> draws[m] == if m == 0 then draws[0] else draws[1..][m - 1];
        assert draws[n + 1] == Some(id);
      }
      if Draws(r, draws, id) && draws[0] != Some(id) {
        var n :| 0 <= n < |draws| && draws[n] == Some(id)
                 && forall m :: 0 <= m < n ==> r.active.Some? && draws[m] == Some(r.active.value.controlContextId);
        assert draws[1..][n - 1] == draws[n];
        assert forall m :: 0 <= m < n - 1 ==> draws[1..][m] == draws[m + 1];
      }
    }
  }

  /** An identifier of the right alphabet and length: 43 letters, digits, underscores or hyphens. */
  predicate IsContextIdText(t: Text) {
    |t| == 43 && forall k :: 0 <= k < 43 ==>
      0x30 <= t[k] <= 0x39 || 0x41 <= t[k] <= 0x5a || 0x61 <= t[k] <= 0x7a || t[k] == 0x5f || t[k] == 0x2d
  }

  /**
   Issuing gives out an identifier exactly when the identifiers are usable, the expiry lies after a
   readable clock by no more than the lifetime and is a date, and a draw is usable. Then the new record
   has exactly the requested fields and that identifier; otherwise nothing changes.
   */
  lemma IssuesExactly(r: Registry, q: IssueRequest, maxLifetimeMs: int, clock: Clock, draws: seq<Option<Text>>)
    requires maxLifetimeMs <= MAX_SAFE_MS
    ensures var (after, issued) := AfterIssue(r, q, maxLifetimeMs, clock, draws);
            && (forall id :: issued == Some(id) <==>
                  && SafeId(q.installationId) && PrivateIdentifier(q.threadId) && PrivateIdentifier(q.expectedTurnId)
                  && clock.Ms? && -0x1f_ffff_ffff_ffff <= clock.ms <= 0x1f_ffff_ffff_ffff
                  && clock.ms < q.expiresAtMs <= clock.ms + maxLifetimeMs
                  && -8_640_000_000_000_000 <= q.expiresAtMs <= 8_640_000_000_000_000
                  && Draws(r, draws, id) && IsContextIdText(id))
            && (issued.None? ==> after == r)
            && (issued.Some? ==>
                  && after.active.Some? && after.epoch > r.epoch && after.active.value.stamp == after.epoch
                  && after.active.value.installationId == q.installationId
                  && after.active.value.controlContextId == issued.value
                  && after.active.value.threadId == q.threadId && after.active.value.expectedTurnId == q.expectedTurnId
                  && after.active.value.expiresAtMs == q.expiresAtMs)
  {
    hide PrivateIdentifier, SafeId, PickId, Draws;
    forall id ensures PickId(draws, ActiveId(r)) == Some(id) <==> Draws(r, draws, id) { PicksFirstOther(r, draws, id); }
  }

  // Private identifiers, by the scalar values they stand for.

  lemma {:induction false} Utf16IsWellFormed(points: seq<int>)
    requires Scalars(points)
    ensures WellFormedText(Utf16(points)) && CodePoints(Utf16(points)) == |points|
    decreases |points|
  {
    if points != [] {
      FirstScalar(points);
      Utf16IsWellFormed(points[1..]);
    }
  }

  lemma {:induction false} WellFormedIsUtf16(t: Text) returns (points: seq<int>)
    requires WellFormedText(t)
    ensures Scalars(points) && Utf16(points) == t
    decreases |t|
  {
    if t == [] {
      points := [];
    } else if PairAt(t) {
      var rest := WellFormedIsUtf16(t[2..]);
      var high: int, low: int := t[0], t[1];
      var p := 0x1_0000 + (high - 0xd800) * 0x400 + (low - 0xdc00);
      points := [p] + rest;
      assert Units16(p) == [t[0], t[1]] && t == [t[0], t[1]] + t[2..] && points[1..] == rest;
    } else {
      var rest := WellFormedIsUtf16(t[1..]);
      points := [t[0]] + rest;
      assert t == [t[0]] + t[1..] && points[1..] == rest;
    }
  }

  lemma {:induction false} ControlsShow(points: seq<int>, c: CodeUnit)
    requires Scalars(points) && c < 0x80
    ensures c in points <==> c in Utf16(points)
    decreases |points|
  {
    if points != [] {
      FirstScalar(points);
      ControlsShow(points[1..], c);
      var p := points[0];
      assert c in Units16(p) <==> c == p;
      assert points == [p] + points[1..];
    }
  }

  /** A private identifier is 1 to 128 scalar values, none of them a tab, a line feed or a carriage return. */
  lemma PrivateIdentifierExactly(t: Text)
    ensures PrivateIdentifier(t) <==>
              exists points :: Scalars(points) && Utf16(points) == t && 1 <= |points| <= 128
                               && 0x09 !in points && 0x0a !in points && 0x0d !in points
  {
    hide WellFormedText, CodePoints;
    forall points | Scalars(points) && Utf16(points) == t
      ensures PrivateIdentifier(t) <==> 1 <= |points| <= 128 && 0x09 !in points && 0x0a !in points && 0x0d !in points
    {
      Utf16IsWellFormed(points);
      ControlsShow(points, 0x09);
      ControlsShow(points, 0x0a);
      ControlsShow(points, 0x0d);
      if points != [] { FirstScalar(points); }
    }
    if PrivateIdentifier(t) { var points := WellFormedIsUtf16(t); }
  }

  // Runs of the registry.

  datatype Change =
    | Issue(request: IssueRequest, maxLifetimeMs: int, clock: Clock, draws: seq<Option<Text>>)
    | RevokeTurn(threadId: Text, expectedTurnId: Text)
    | RevokeAll

  function AfterChange(r: Registry, c: Change): Registry {
    match c
    case Issue(q, lifetime, clock, draws) => AfterIssue(r, q, lifetime, clock, draws).0
    case RevokeTurn(threadId, turnId) => AfterRevokeTurn(r, threadId, turnId).0
    case RevokeAll => AfterRevokeAll(r).0
  }

  function AfterChanges(r: Registry, changes: seq<Change>): Registry
    decreases |changes|
  {
    if changes == [] then r else AfterChanges(AfterChange(r, changes[0]), changes[1..])
  }

  lemma {:induction false} ChangesOnlyAdvance(r: Registry, changes: seq<Change>)
    requires StampIsCurrent(r)
    ensures var after := AfterChanges(r, changes);
            && StampIsCurrent(after) && r.epoch <= after.epoch
            && (r.epoch == after.epoch ==> after == r)
    decreases |changes|
  {
    if changes != [] { ChangesOnlyAdvance(AfterChange(r, changes[0]), changes[1..]); }
  }

  /**
   A handle resolved from `r` admits an action after any changes exactly when none of them changed
   the registry, the record has not expired, and the action is bound to the record's own turn. In
   particular re-issuing identical data does not revive it.
   */
  lemma HandleLivesWhileUnchanged(
    r: Registry, installationId: Text, controlContextId: Text, changes: seq<Change>, clock: Clock,
    threadId: Text, expectedTurnId: Text)
    requires StampIsCurrent(r) && Resolve(r, installationId, controlContextId).Some?
    ensures var record := Resolve(r, installationId, controlContextId).value;
            var after := AfterChanges(r, changes);
            HandleAdmits(after, record, clock, threadId, expectedTurnId) <==>
              && after.epoch == r.epoch
              && ReadableClock(clock) && clock.ms < record.expiresAtMs
              && threadId == record.threadId && expectedTurnId == record.expectedTurnId
  {
    ChangesOnlyAdvance(r, changes);
  }

  /**
   Once its turn has been revoked, or everything has, no handle resolved before admits an action again,
   whatever is issued or revoked afterwards.
   */
  lemma RevokedHandlesStayDead(
    r: Registry, c: Change, record: Record, changes: seq<Change>, clock: Clock, threadId: Text, expectedTurnId: Text)
    requires StampIsCurrent(r) && r.active == Some(record)
    requires c == RevokeAll || c == RevokeTurn(record.threadId, record.expectedTurnId)
    ensures !HandleAdmits(AfterChanges(r, [c] + changes), record, clock, threadId, expectedTurnId)
  {
    var revoked := AfterChange(r, c);
    assert ([c] + changes)[1..] == changes;
    ChangesOnlyAdvance(revoked, changes);
  }
}
