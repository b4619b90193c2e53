/**
 Which requests get anywhere: the checks before authorization and those after it, as lists in the order
 they are made. The first that fails decides the answer, and in every run whatever is claimed,
 dispatched or accepted comes from a request that passed them all.
 */
module RemoteActionAdmission {
  import opened Collections
  import opened JsonGrammar
  import opened RemoteActionReceipt
  import opened RelayTurnAction
  import opened RemoteActionControl
  import opened ReplayDirectory
  import opened FileReplayStore
  import opened TailscaleIngress
  import opened RemoteActionRuns
  import opened RemoteActionSteps
  import opened RemoteActionTheorems

  // Checks and the answers they give.

  /** What a request that fails a check is answered, about its action or about none. */
  datatype Refused = Refused(status: int, reason: Reason, correlated: bool)

  /** Made without any await, on the request alone. */
  function ArrivalChecks(q: IngressRequest): seq<(bool, Refused)> {
    [(q.routed, Refused(404, InvalidRequest, false)),
     (q.bodyBytes.Some?, Refused(400, InvalidRequest, false)),
     (q.bodyBytes.Some? && q.bodyBytes.value <= 32_768, Refused(413, InvalidRequest, false)),
     (q.jsonContentType, Refused(400, InvalidRequest, false)),
     (q.capability, Refused(401, Unauthorized, false)),
     (q.token.Some?, Refused(401, Unauthorized, false))]
  }

  /** The window between the instants of an action, and where a clock reading stands to it. */
  predicate InWindow(cfg: Config, a: Action, ms: int) {
    && -0x1f_ffff_ffff_ffff <= ms <= 0x1f_ffff_ffff_ffff
    && a.issuedAt.ms.Some? && a.expiresAt.ms.Some? && a.issuedAt.ms.value < a.expiresAt.ms.value
    && a.expiresAt.ms.value <= a.issuedAt.ms.value + cfg.maxWindowMs
    && a.issuedAt.ms.value - cfg.maxSkewMs <= ms
  }

  /** Made when the token has been looked up: the installation, the body, the clock, the caller's own check. */
  function AuthorizationChecks(cfg: Config, q: IngressRequest, c: Choice): seq<(bool, Refused)> {
    var timely := q.action.Some? && c.clock.Ms? && InWindow(cfg, q.action.value, c.clock.ms);
    [(c.fault.NoFault? && c.installation.Some? && SafeId(c.installation.value), Refused(401, Unauthorized, false)),
     (q.action.Some?, Refused(400, InvalidAction, false)),
     (c.clock.Ms?, Refused(503, Unavailable, true)),
     (timely, Refused(400, InvalidRequest, true)),
     (timely && c.clock.ms < q.action.value.expiresAt.ms.value, Refused(409, ExpiredRequest, true)),
     (!cfg.admits || c.admitted, Refused(400, InvalidRequest, true))]
  }

  /** The answer of a failed check. */
  function AnswerOf(q: IngressRequest, job: Option<Job>, refused: Refused): Answer {
    Answer(q, job, refused.status,
           Receipt(if refused.correlated && q.action.Some? then Some(Correlate(q.action.value)) else None,
                   Rejected(refused.reason)),
           false)
  }

  /** The request was answered just so, and nothing else happened. */
  predicate AnsweredWith(s: State, s': State, id: nat, a: Answer) {
    s' == State(s.world.(answers := s.world.answers + [a]), s.handlers[id := Handler(a.request, Done(a))])
  }

  /** The first failing check alone decides an arriving request's answer; if none fails it awaits authorization. */
  lemma ArrivalIsDecided(cfg: Config, s: State, id: nat, q: IngressRequest)
    requires id !in s.handlers && ValidRequest(q)
    ensures var failing, s' := FirstFailing(ArrivalChecks(q)), Next(cfg, s, Event.Request(id, q));
            if failing.Some? then AnsweredWith(s, s', id, AnswerOf(q, None, failing.value))
            else s' == State(s.world, s.handlers[id := Handler(q, Authorizing)])
  {
    FirstOfSix(ArrivalChecks(q));
  }

  /**
   The first failing check alone decides the answer once the token has been looked up; if none fails the
   request becomes a job of its installation, at the time that was read.
   */
  lemma AuthorizationIsDecided(cfg: Config, s: State, id: nat, c: Choice)
    requires id in s.handlers && s.handlers[id].stage.Authorizing?
    ensures var q, s' := s.handlers[id].request, Next(cfg, s, Advance(id, c));
            var failing := FirstFailing(AuthorizationChecks(cfg, q, c));
            if failing.Some? then AnsweredWith(s, s', id, AnswerOf(q, None, failing.value))
            else
              && c.installation.Some? && c.clock.Ms? && q.action.Some? && q.action.value.expiresAt.ms.Some?
              && var j := Job(c.installation.value, q.action.value, c.clock.ms, q.action.value.expiresAt.ms.value);
                 s' == State(s.world, s.handlers[id := Handler(q, Working(j, Fingerprinting))])
  {
    hide SafeId;
    FirstOfSix(AuthorizationChecks(cfg, s.handlers[id].request, c));
  }

  // From the fingerprint to the claim.

  /** The request is answered, or suspended again, with nothing else changed. */
  predicate GoesTo(s: State, s': State, id: nat, j: Job, pc: Pc)
    requires id in s.handlers
  {
    s' == State(s.world, s.handlers[id := Handler(s.handlers[id].request, Working(j, pc))])
  }

  /** A refusal of a job, about its own action. */
  function Refusing(j: Job, q: IngressRequest, status: int, reason: Reason): Answer {
    Answer(q, Some(j), status, Receipt(Some(Correlation(j.action.actionId, j.action.kind)), Rejected(reason)), false)
  }

  /** What a look at the key's record finds: the file must still stand at its path. */
  datatype Finding = NothingThere | BadRecord | AnotherAction | SameClaimed | SameCompleted(receipt: Receipt)

  ghost predicate Finds(w: World, j: Job, file: Option<Inode>, finding: Finding) {
    var there := file.Some? && Current(w.disk, JobKey(j)) == file && file.value in w.disk.files;
    var content := if there then w.disk.files[file.value].content else Torn;
    match finding
    case NothingThere => file.None?
    case AnotherAction =>
      && content != Torn && content.record.installationId == j.installationId
      && content.record.actionId == j.action.actionId
      && (content.record.action != j.action.kind || content.record.fingerprint != Hmac(j.action))
    case SameClaimed => content == Claimed(RecordOf(j))
    case SameCompleted(receipt) => content == Completed(RecordOf(j), receipt)
    case BadRecord =>
      && file.Some?
      && (content == Torn || content.record.installationId != j.installationId
          || content.record.actionId != j.action.actionId
          || (content.record.action == j.action.kind && content.record.fingerprint == Hmac(j.action)
              && content.record.expiresAtMs != j.expiresAtMs))
  }

  /** What the first look at the store decides. */
  lemma InspectionIsDecided(cfg: Config, s: State, id: nat, c: Choice, finding: Finding)
    requires id in s.handlers && s.handlers[id].stage.Working? && s.handlers[id].stage.pc.InspectReading?
    requires c.fault.NoFault? && Finds(s.world, s.handlers[id].stage.job, Some(s.handlers[id].stage.pc.file), finding)
    ensures var j, q := s.handlers[id].stage.job, s.handlers[id].request;
            var s' := Next(cfg, s, Advance(id, c));
            match finding
            case NothingThere => false
            case SameCompleted(receipt) =>
              if Projects(receipt, Expect(Some(Correlate(j.action))), true, ANY)
              then AnsweredWith(s, s', id, Answer(q, Some(j), DefaultStatus(receipt), receipt, true))
              else AnsweredWith(s, s', id, Refusing(j, q, 503, Unavailable))
            case AnotherAction =>
              if cfg.admitsResolved then GoesTo(s, s', id, j, Resolving(true, Lookup(s.world, j)))
              else AnsweredWith(s, s', id, Refusing(j, q, 409, ReplayConflict))
            case _ => AnsweredWith(s, s', id, Refusing(j, q, 503, OutcomeUnknown))
  {
    hide Projects, DefaultStatus, Entry;
  }

  /** Made when the context has been looked up, before anything is claimed. */
  function ResolutionChecks(cfg: Config, j: Job, conflict: bool, found: Option<Found>, c: Choice): seq<(bool,
                                                                                                        Refused)> {
    var known := c.fault.NoFault? && found.Some? && j.nowMs < found.value.record.expiresAtMs;
    [(known || !conflict, Refused(409, ReplayConflict, true)),
     (c.fault.NoFault?, Refused(503, Unavailable, true)),
     (found.Some?, Refused(409, UnknownControlContext, true)),
     (known, Refused(409, ExpiredControlContext, true)),
     (!cfg.admitsResolved || c.admitted, Refused(400, InvalidRequest, true)),
     (!conflict, Refused(409, ReplayConflict, true))]
  }

  lemma ResolutionIsDecided(cfg: Config, s: State, id: nat, c: Choice)
    requires id in s.handlers && s.handlers[id].stage.Working? && s.handlers[id].stage.pc.Resolving?
    ensures var j, pc, q := s.handlers[id].stage.job, s.handlers[id].stage.pc, s.handlers[id].request;
            var failing, s' := FirstFailing(ResolutionChecks(cfg, j, pc.conflict, pc.found, c)),
                Next(cfg, s, Advance(id, c));
            if failing.Some? then AnsweredWith(s, s', id, Refusing(j, q, failing.value.status, failing.value.reason))
            else pc.found.Some? && GoesTo(s, s', id, j, ClaimOpening(pc.found.value))
  {
    var stage := s.handlers[id].stage;
    FirstOfSix(ResolutionChecks(cfg, stage.job, stage.pc.conflict, stage.pc.found, c));
  }

  // After the claim.

  /** Made on a second look at the clock and the context, after the claim was granted. */
  function DispatchChecks(j: Job, first: Record, second: Option<Record>, c: Choice): seq<(bool, Reason)> {
    var readable := c.fault.NoFault? && c.clock.Ms? && -0x1f_ffff_ffff_ffff <= c.clock.ms <= 0x1f_ffff_ffff_ffff;
    [(readable, Unavailable),
     (readable && c.clock.ms < j.expiresAtMs, ExpiredRequest),
     (second.Some?, UnknownControlContext),
     (readable && second.Some? && c.clock.ms < second.value.expiresAtMs, ExpiredControlContext),
     (second.Some? && second.value == first.(stamp := second.value.stamp), UnknownControlContext)]
  }

  /** The action as the boundary gets it: bound to the record's thread and turn, with text only for a reply. */
  function Bound(j: Job, r: Record): PrivateAction {
    PrivateAction(j.action.actionId, j.action.kind, r.threadId, r.expectedTurnId,
                  if j.action.kind == Reply then j.action.text else [])
  }

  /** The very record resolved is still the active one, and unexpired. */
  predicate StillLive(w: World, second: Record, c: Choice) {
    && w.registry.active == Some(second) && c.handleClock.Ms?
    && -0x1f_ffff_ffff_ffff <= c.handleClock.ms <= 0x1f_ffff_ffff_ffff && c.handleClock.ms < second.expiresAtMs
  }

  /** The receipt is decided, and is about to be stored. */
  predicate Decides(w: World, h': Handler, w': World, j: Job, reason: Reason) {
    var receipt := Receipt(Some(Correlate(j.action)), Rejected(reason));
    w'.decided == w.decided[JobKey(j) := receipt] && h'.stage == Working(j, CompleteOpening(receipt))
  }

  /** The handle was called: it reached the boundary, which may have sent a request, or refused the call. */
  ghost predicate HandleCalled(w: World, h': Handler, w': World, j: Job, first: Found, second: Record, c: Choice) {
    var before, after, p := History(w, JobKey(j)), History(w', JobKey(j)), Bound(j, second);
    (forall k :: k != JobKey(j) ==> History(w', k) == History(w, k)) &&
    if !StillLive(w, second, c) then
      after == before + [Invoked(p, first, second)] && Decides(w, h', w', j, OutcomeUnknown)
    else
      var reached := before + [Invoked(p, first, second)] + [Reached(p, second, w.registry.epoch, c.handleClock.ms)];
      && h'.stage.Working? && h'.stage.job == j && h'.stage.pc.Dispatching?
      && after == reached + if h'.stage.pc.begun.Sent? then [Requested(h'.stage.pc.begun.request)] else []
  }

  /**
   The first failing check decides the receipt and nothing is called; if none fails the dispatch handle
   is called, and reaches the boundary exactly if the very record is still active and unexpired.
   */
  lemma DispatchIsDecided(cfg: Config, s: State, id: nat, c: Choice)
    requires id in s.handlers && s.handlers[id].stage.Working? && s.handlers[id].stage.pc.Rechecking?
    ensures var j, pc, s' := s.handlers[id].stage.job, s.handlers[id].stage.pc, Next(cfg, s, Advance(id, c));
            var failing := FirstFailing(DispatchChecks(j, pc.first.record, pc.second, c));
            if failing.Some? then
              Decides(s.world, s'.handlers[id], s'.world, j, failing.value) && s'.world.history == s.world.history
            else
              pc.second.Some?
              && HandleCalled(s.world, s'.handlers[id], s'.world, j, pc.first, pc.second.value, c)
  {
    hide AfterBegin, HandleCalled, CallHandle, Decides;
    var stage := s.handlers[id].stage;
    FirstOfFive(DispatchChecks(stage.job, stage.pc.first.record, stage.pc.second, c));
    forall reason { RejectionDecides(s.world, s.handlers[id], stage.job, reason); }
    if stage.pc.second.Some? { CallIsMade(s.world, s.handlers[id], stage.job, stage.pc.first, stage.pc.second.value,
                                          c); }
  }

  lemma RejectionDecides(w: World, h: Handler, j: Job, reason: Reason)
    ensures var m := DecideRejection(w, h, j, reason);
            Decides(w, m.handler, m.world, j, reason) && m.world.history == w.history
  {
  }

  lemma CallIsMade(w: World, h: Handler, j: Job, first: Found, second: Record, c: Choice)
    ensures var m := CallHandle(w, h, j, first, second, c); HandleCalled(w, m.handler, m.world, j, first, second, c)
  {
    hide EnterBoundary, HandleCalled, DecideRejection;
    if StillLive(w, second, c) { LiveCallIsMade(w, h, j, first, second, c); }
        else { DeadCallIsMade(w, h, j, first, second, c); }
  }

  lemma DeadCallIsMade(w: World, h: Handler, j: Job, first: Found, second: Record, c: Choice)
    requires !StillLive(w, second, c)
    ensures var m := DecideRejection(Note(w, JobKey(j), [Invoked(Bound(j, second), first, second)]), h, j,
                                     OutcomeUnknown);
            HandleCalled(w, m.handler, m.world, j, first, second, c)
  {
  }

  lemma LiveCallIsMade(w: World, h: Handler, j: Job, first: Found, second: Record, c: Choice)
    requires StillLive(w, second, c)
    ensures var p := Bound(j, second);
            var m := EnterBoundary(Note(w, JobKey(j), [Invoked(p, first, second)]), h, j, p, second, c);
            HandleCalled(w, m.handler, m.world, j, first, second, c)
  {
    hide AfterBegin;
    var p := Bound(j, second);
    var m := EnterBoundary(Note(w, JobKey(j), [Invoked(p, first, second)]), h, j, p, second, c);
    var reached := History(w,
        JobKey(j)) + [Invoked(p, first, second)] + [Reached(p, second, w.registry.epoch, c.handleClock.ms)];
    assert reached + [] == reached;
    assert History(m.world, JobKey(j))
           == reached + if m.handler.stage.pc.begun.Sent? then [Requested(m.handler.stage.pc.begun.request)] else [];
  }

  // What every run lets through.

  /** The request arrived in the run. */
  ghost predicate Asked(events: seq<Event>, q: IngressRequest) {
    exists n :: 0 <= n < |events| && events[n].Request? && events[n].request == q
  }

  /** A valid request that passed every check on itself. */
  predicate WellAsked(q: IngressRequest) {
    && q.routed && q.bodyBytes.Some? && q.bodyBytes.value <= 32_768 && q.jsonContentType && q.capability
    && q.token.Some?
    && ValidRequest(q)
  }

  /** A request that passed every check up to the job it became, timely when its clock was read. */
  predicate Admitted(cfg: Config, q: IngressRequest, j: Job) {
    && WellAsked(q) && q.action == Some(j.action) && ValidAction(j.action) && SafeId(j.installationId)
    && InWindow(cfg, j.action, j.nowMs) && j.action.expiresAt.ms == Some(j.expiresAtMs) && j.nowMs < j.expiresAtMs
  }

  /** Who a claim is for: an admitted job of a request that arrived. */
  ghost predicate ClaimedFor(cfg: Config, events: seq<Event>, record: ReplayRecord) {
    exists q, j :: Asked(events, q) && Admitted(cfg, q, j) && RecordOf(j) == record
  }

  ghost predicate HandlerAdmitted(cfg: Config, events: seq<Event>, h: Handler) {
    && Asked(events, h.request)
    && (h.stage.Authorizing? ==> WellAsked(h.request))
    && (h.stage.Working? ==> Admitted(cfg, h.request, h.stage.job))
  }

  ghost predicate AnswerAdmitted(cfg: Config, events: seq<Event>, a: Answer) {
    Asked(events, a.request) && (a.job.Some? ==> Admitted(cfg, a.request, a.job.value))
  }

  ghost predicate AllAdmitted(cfg: Config, events: seq<Event>, s: State) {
    && (forall id :: id in s.handlers ==> HandlerAdmitted(cfg, events, s.handlers[id]))
    && (forall k :: k in s.world.granted ==> ClaimedFor(cfg, events, s.world.granted[k]))
    && (forall a :: a in s.world.answers ==> AnswerAdmitted(cfg, events, a))
  }

  lemma AskedStays(cfg: Config, events: seq<Event>, e: Event)
    ensures forall q :: Asked(events, q) ==> Asked(events + [e], q)
    ensures e.Request? ==> Asked(events + [e], e.request)
    ensures forall r :: ClaimedFor(cfg, events, r) ==> ClaimedFor(cfg, events + [e], r)
    ensures forall h :: HandlerAdmitted(cfg, events, h) ==> HandlerAdmitted(cfg, events + [e], h)
    ensures forall a :: AnswerAdmitted(cfg, events, a) ==> AnswerAdmitted(cfg, events + [e], a)
  {
    hide Admitted, WellAsked;
    var more := events + [e];
    forall q | Asked(events, q) ensures Asked(more, q) {
      var n :| 0 <= n < |events| && events[n].Request? && events[n].request == q;
      assert more[n] == events[n];
    }
    assert more[|events|] == e;
  }

  /** What a handler's step does for the job it works on: it keeps the request and the job, answers for
   them, and grants nothing but the job's own record. */
  ghost predicate KeepsJob(w: World, h: Handler, j: Job, m: Move) {
    && m.handler.request == h.request
    && (m.handler.stage.Working? ==> m.handler.stage.job == j && m.world.answers == w.answers)
    && !m.handler.stage.Authorizing?
    && (m.handler.stage.Done? ==>
          && m.handler.stage.answer.request == h.request && m.handler.stage.answer.job == Some(j)
          && m.world.answers == w.answers + [m.handler.stage.answer])
    && (m.world.granted == w.granted || m.world.granted == w.granted[JobKey(j) := RecordOf(j)])
  }

  lemma RefusalKeepsJob(w: World, u: World, h: Handler, j: Job, status: int, reason: Reason)
    requires h.stage.Working? && h.stage.job == j && u.answers == w.answers && u.granted == w.granted
    ensures KeepsJob(w, h, j, RefuseAction(u, h, j.action, status, reason))
  {
  }

  lemma GiveKeepsJob(w: World, u: World, h: Handler, j: Job, receipt: Receipt)
    requires h.stage.Working? && h.stage.job == j && u.answers == w.answers && u.granted == w.granted
    ensures KeepsJob(w, h, j, Give(u, h, j.action, receipt))
  {
    hide Projects, DefaultStatus;
  }

  lemma ReadingKeepsJob(cfg: Config, w: World, h: Handler, j: Job, pc: Pc, c: Choice)
    requires h.stage == Working(j, pc)
    requires pc.Fingerprinting? || pc.InspectOpening? || pc.InspectReading? || pc.RereadOpening? || pc.Rereading?
             || pc.Resolving?
    ensures KeepsJob(w, h, j, WorkStep(cfg, w, h, j, pc, c))
  {
    hide KeepsJob, Give, RefuseAction, ProjectState, ReadLinked, Entry, Current, Resolve;
    forall status, reason ensures KeepsJob(w, h, j, RefuseAction(w, h, j.action, status, reason)) {
      RefusalKeepsJob(w, w, h, j, status, reason);
    }
    forall receipt ensures KeepsJob(w, h, j, Give(w, h, j.action, receipt)) { GiveKeepsJob(w, w, h, j, receipt); }
    forall next ensures KeepsJob(w, h, j, Goto(w, h, j, next)) { GotoKeepsJob(w, w, h, j, next); }
  }

  lemma GotoKeepsJob(w: World, u: World, h: Handler, j: Job, pc: Pc)
    requires u.answers == w.answers
    requires u.granted == w.granted || u.granted == w.granted[JobKey(j) := RecordOf(j)]
    ensures KeepsJob(w, h, j, Goto(u, h, j, pc))
  {
  }

  lemma DiskKeepsJob(cfg: Config, w: World, h: Handler, j: Job, pc: Pc, c: Choice)
    requires h.stage == Working(j, pc) && DiskPc(pc) && FilePresent(w, pc)
    ensures KeepsJob(w, h, j, WorkStep(cfg, w, h, j, pc, c))
  {
    hide KeepsJob, Give, RefuseAction, Goto, RecordOf, Current, SyncDirectory, SyncFile, Rename, CreateTemporary, Write;
    hide CreateExclusive;
    forall u: World, status, reason | u.answers == w.answers && u.granted == w.granted
      ensures KeepsJob(w, h, j, RefuseAction(u, h, j.action, status, reason))
    {
      RefusalKeepsJob(w, u, h, j, status, reason);
    }
    forall u: World, receipt | u.answers == w.answers && u.granted == w.granted
      ensures KeepsJob(w, h, j, Give(u, h, j.action, receipt))
    {
      GiveKeepsJob(w, u, h, j, receipt);
    }
    forall u: World, next
      | u.answers == w.answers && (u.granted == w.granted || u.granted == w.granted[JobKey(j) := RecordOf(j)])
      ensures KeepsJob(w, h, j, Goto(u, h, j, next))
    {
      GotoKeepsJob(w, u, h, j, next);
    }
  }

  lemma DispatchKeepsJob(cfg: Config, w: World, h: Handler, j: Job, pc: Pc, c: Choice)
    requires h.stage == Working(j, pc) && (pc.Granted? || pc.Rechecking? || pc.Dispatching?)
    ensures KeepsJob(w, h, j, WorkStep(cfg, w, h, j, pc, c))
  {
    hide KeepsJob, Recheck, Settled, Goto, Resolve;
    if pc.Granted? {
      GotoKeepsJob(w, w, h, j, Rechecking(pc.first, Resolve(w.registry, j.installationId, j.action.controlContextId)));
    } else if pc.Rechecking? {
      RecheckKeepsJob(w, h, j, pc.first, pc.second, c);
    } else {
      SettledKeepsJob(w, h, j, pc.begun, c);
    }
  }

  lemma RecheckKeepsJob(w: World, h: Handler, j: Job, first: Found, second: Option<Record>, c: Choice)
    ensures KeepsJob(w, h, j, Recheck(w, h, j, first, second, c))
  {
    hide KeepsJob, Goto, RecordOf, Reject, MatchingContext, CallHandle;
    forall u: World, next | u.answers == w.answers && u.granted == w.granted
      ensures KeepsJob(w, h, j, Goto(u, h, j, next))
    {
      GotoKeepsJob(w, u, h, j, next);
    }
    if second.Some? { CallKeepsJob(w, h, j, first, second.value, c); }
  }

  lemma SettledKeepsJob(w: World, h: Handler, j: Job, begun: Begun, c: Choice)
    ensures KeepsJob(w, h, j, Settled(w, h, j, begun, c))
  {
    hide KeepsJob, Goto, RecordOf, ActionResultReceipt, SettlementOf, Reject;
    forall u: World, next | u.answers == w.answers && u.granted == w.granted
      ensures KeepsJob(w, h, j, Goto(u, h, j, next))
    {
      GotoKeepsJob(w, u, h, j, next);
    }
  }

  lemma CallKeepsJob(w: World, h: Handler, j: Job, first: Found, second: Record, c: Choice)
    ensures KeepsJob(w, h, j, CallHandle(w, h, j, first, second, c))
  {
    hide KeepsJob, Goto, RecordOf, AfterBegin, HandleAdmits, Reject, PrivateOf;
    forall u: World, next | u.answers == w.answers && u.granted == w.granted
      ensures KeepsJob(w, h, j, Goto(u, h, j, next))
    {
      GotoKeepsJob(w, u, h, j, next);
    }
  }

  lemma CompletionKeepsJob(cfg: Config, w: World, h: Handler, j: Job, pc: Pc, c: Choice)
    requires h.stage == Working(j, pc) && (pc.CompleteOpening? || pc.CompleteReading?)
    ensures KeepsJob(w, h, j, WorkStep(cfg, w, h, j, pc, c))
  {
    hide KeepsJob, Give, RefuseAction, Goto, RecordOf, Current, ReadLinked, MatchingRecord;
    forall status, reason ensures KeepsJob(w, h, j, RefuseAction(w, h, j.action, status, reason)) {
      RefusalKeepsJob(w, w, h, j, status, reason);
    }
    forall receipt ensures KeepsJob(w, h, j, Give(w, h, j.action, receipt)) { GiveKeepsJob(w, w, h, j, receipt); }
    forall next ensures KeepsJob(w, h, j, Goto(w, h, j, next)) { GotoKeepsJob(w, w, h, j, next); }
  }

  lemma WorkKeepsJob(cfg: Config, w: World, h: Handler, j: Job, pc: Pc, c: Choice)
    requires h.stage == Working(j, pc) && FilePresent(w, pc)
    ensures KeepsJob(w, h, j, WorkStep(cfg, w, h, j, pc, c))
  {
    hide KeepsJob, WorkStep;
    if DiskPc(pc) { DiskKeepsJob(cfg, w, h, j, pc, c); }
    else if pc.Granted? || pc.Rechecking? || pc.Dispatching? { DispatchKeepsJob(cfg, w, h, j, pc, c); }
    else if pc.CompleteOpening? || pc.CompleteReading? { CompletionKeepsJob(cfg, w, h, j, pc, c); }
    else { ReadingKeepsJob(cfg, w, h, j, pc, c); }
  }

  /** A request that passes every check becomes an admitted job. */
  lemma PassingIsAdmitted(cfg: Config, q: IngressRequest, c: Choice)
    requires WellAsked(q) && FirstFailing(AuthorizationChecks(cfg, q, c)).None?
    ensures c.installation.Some? && c.clock.Ms? && q.action.Some? && q.action.value.expiresAt.ms.Some?
    ensures Admitted(cfg, q, Job(c.installation.value, q.action.value, c.clock.ms, q.action.value.expiresAt.ms.value))
  {
    hide SafeId, IsContextId, WellAsked;
    var checks := AuthorizationChecks(cfg, q, c);
    NoneFailing(checks);
    assert checks[0].0 && checks[1].0 && checks[2].0 && checks[3].0 && checks[4].0;
    assert ValidRequest(q) by { WellAskedIsValid(q); }
  }

  lemma WellAskedIsValid(q: IngressRequest)
    requires WellAsked(q)
    ensures ValidRequest(q)
  {
  }

  lemma RequestAdmitted(cfg: Config, events: seq<Event>, s: State, id: nat, q: IngressRequest)
    requires AllAdmitted(cfg, events, s)
    ensures AllAdmitted(cfg, events + [Event.Request(id, q)], Next(cfg, s, Event.Request(id, q)))
  {
    hide Admitted, WellAsked, HandlerAdmitted, AnswerAdmitted, ClaimedFor, Asked, ArrivalChecks, Arrive, ValidRequest;
    var more := events + [Event.Request(id, q)];
    AskedStays(cfg, events, Event.Request(id, q));
    if id !in s.handlers && ValidRequest(q) {
      ArrivalIsDecided(cfg, s, id, q);
      var failing := FirstFailing(ArrivalChecks(q));
      if failing.Some? {
        EarlyAnswerAdmitted(cfg, more, AnswerOf(q, None, failing.value));
      } else {
        NoneFailing(ArrivalChecks(q));
        WaiterAdmitted(cfg, more, q);
      }
    }
  }

  lemma EarlyAnswerAdmitted(cfg: Config, events: seq<Event>, a: Answer)
    requires Asked(events, a.request) && a.job.None?
    ensures AnswerAdmitted(cfg, events, a) && HandlerAdmitted(cfg, events, Handler(a.request, Done(a)))
  {
  }

  lemma WaiterAdmitted(cfg: Config, events: seq<Event>, q: IngressRequest)
    requires Asked(events, q) && AllPass(ArrivalChecks(q)) && ValidRequest(q)
    ensures HandlerAdmitted(cfg, events, Handler(q, Authorizing))
  {
    var checks := ArrivalChecks(q);
    assert checks[0].0 && checks[1].0 && checks[2].0 && checks[3].0 && checks[4].0 && checks[5].0;
  }

  lemma AdvanceAdmitted(cfg: Config, events: seq<Event>, s: State, id: nat, c: Choice)
    requires AllAdmitted(cfg, events, s)
    ensures AllAdmitted(cfg, events + [Advance(id, c)], Next(cfg, s, Advance(id, c)))
  {
    hide HandlerAdmitted, AnswerAdmitted, ClaimedFor, Asked, HandlerStep;
    var more := events + [Advance(id, c)];
    AskedStays(cfg, events, Advance(id, c));
    if id in s.handlers {
      var h := s.handlers[id];
      var m := HandlerStep(cfg, s.world, h, c);
      StepAdmitted(cfg, more, s, id, c);
      assert forall a :: a in m.world.answers ==> a in s.world.answers || m.handler.stage == Done(a);
    }
  }

  /** One handler's step: what it leaves behind is admitted if what it started from was. */
  lemma StepAdmitted(cfg: Config, events: seq<Event>, s: State, id: nat, c: Choice)
    requires id in s.handlers && HandlerAdmitted(cfg, events, s.handlers[id])
    requires forall k :: k in s.world.granted ==> ClaimedFor(cfg, events, s.world.granted[k])
    ensures var w, m := s.world, HandlerStep(cfg, s.world, s.handlers[id], c);
            && HandlerAdmitted(cfg, events, m.handler)
            && (forall k :: k in m.world.granted ==> ClaimedFor(cfg, events, m.world.granted[k]))
            && (m.world.answers == w.answers
                || (m.handler.stage.Done? && m.world.answers == w.answers + [m.handler.stage.answer]
                    && AnswerAdmitted(cfg, events, m.handler.stage.answer)))
  {
    hide Asked, Admitted, WellAsked, WorkStep, Authorized, RecordOf;
    var h := s.handlers[id];
    match h.stage
    case Authorizing =>
      AuthorizationIsDecided(cfg, s, id, c);
      var s' := Next(cfg, s, Advance(id, c));
      assert s'.handlers[id] == HandlerStep(cfg, s.world, h, c).handler;
      if FirstFailing(AuthorizationChecks(cfg, h.request, c)).None? { PassingIsAdmitted(cfg, h.request, c); }
    case Working(j, pc) =>
      if FilePresent(s.world, pc) {
        WorkKeepsJob(cfg, s.world, h, j, pc, c);
        assert ClaimedFor(cfg, events, RecordOf(j));
      }
    case Done(_) =>
  }

  lemma {:induction false} EveryRunAdmits(cfg: Config, events: seq<Event>)
    ensures AllAdmitted(cfg, events, RunOf(cfg, events))
    decreases |events|
  {
    hide HandlerAdmitted, AnswerAdmitted, ClaimedFor, HandlerStep, Arrive;
    if events != [] {
      var front, e := events[..|events| - 1], events[|events| - 1];
      var s := RunOf(cfg, front);
      EveryRunAdmits(cfg, front);
      assert front + [e] == events;
      AskedStays(cfg, front, e);
      match e
      case Request(id, q) => RequestAdmitted(cfg, front, s, id, q);
      case Advance(id, c) => AdvanceAdmitted(cfg, front, s, id, c);
      case ChangeContext(_) =>
      case CrashAndRestart(_, _) =>
    }
  }

  // The theorems.

  /**
   Whatever was ever called for a key comes from a request that arrived routed, within the size limit, as
   JSON, with the capability and a token, whose installation and action were valid and timely.
   */
  lemma OnlyAdmittedRequestsAreDispatched(cfg: Config, events: seq<Event>, k: Key)
    requires History(RunOf(cfg, events).world, k) != []
    ensures exists q, j :: Asked(events, q) && Admitted(cfg, q, j) && JobKey(j) == k
    ensures k in RunOf(cfg, events).world.granted && ClaimedFor(cfg, events, RunOf(cfg, events).world.granted[k])
  {
    hide Asked, Admitted;
    var w := RunOf(cfg, events).world;
    EveryRunKeepsInv(cfg, events);
    EveryRunAdmits(cfg, events);
    assert KeyOk(w, k) && ClaimedFor(cfg, events, w.granted[k]);
  }

  /** So does every answer that got as far as a job, accepted ones among them. */
  lemma OnlyAdmittedRequestsAreAnswered(cfg: Config, events: seq<Event>, a: Answer)
    requires a in RunOf(cfg, events).world.answers && (a.job.Some? || a.receipt.verdict == Accepted || a.stored)
    ensures a.job.Some? && Asked(events, a.request) && Admitted(cfg, a.request, a.job.value)
  {
    EveryRunKeepsInv(cfg, events);
    EveryRunAdmits(cfg, events);
    assert AnswerOk(RunOf(cfg, events).world, a);
  }

  /**
   An accepted answer, first or replayed, means that its request passed every check and that the handle was
   called once for its key, reached the boundary with this action, sent one request, and got an answer to it
   without an error: the empty object for a Stop, the bound turn for a Reply.
   */
  lemma AcceptanceIsEarned(cfg: Config, events: seq<Event>, a: Answer)
    requires a in RunOf(cfg, events).world.answers && a.receipt.verdict == Accepted
    ensures a.job.Some? && Asked(events, a.request) && Admitted(cfg, a.request, a.job.value)
    ensures var calls, j := History(RunOf(cfg, events).world, JobKey(a.job.value)), a.job.value;
            && |calls| == 4 && calls[0].Invoked? && calls[1].Reached? && calls[2].Requested? && calls[3].Responded?
            && calls[0].action == calls[1].action == Bound(j, calls[1].active)
            && calls[2].request == calls[3].request == RequestFor(Bound(j, calls[1].active))
            && calls[3].response == Response(
                 j.action.actionId, None,
                 Some(if j.action.kind == Reply then TurnObject(calls[1].active.expectedTurnId) else EmptyObject))
  {
    hide RunOf, Asked, Admitted, PrivateOf, Bound, Classify, RequestFor, JobKey;
    OnlyAdmittedRequestsAreAnswered(cfg, events, a);
    TruthfulAcceptance(cfg, events, a);
    var calls, j := History(RunOf(cfg, events).world, JobKey(a.job.value)), a.job.value;
    BoundIsPrivate(j, calls[1].active);
    AcceptingResponseIs(calls[3].response, j, calls[1].active);
  }

  lemma BoundIsPrivate(j: Job, r: Record)
    ensures Bound(j, r) == PrivateOf(j.action, r)
  {
  }

  lemma AcceptingResponseIs(response: Response, j: Job, r: Record)
    requires Classify(response, RequestFor(Bound(j, r))) == AcceptedResponse
    ensures response == Response(
              j.action.actionId, None,
              Some(if j.action.kind == Reply then TurnObject(r.expectedTurnId) else EmptyObject))
  {
  }

  /**
   The boundary is reached only for an admitted job that is unexpired at a second reading of the clock, on
   a context unexpired at that reading too, and with the action's own kind and text.
   */
  lemma ReachedInTime(cfg: Config, events: seq<Event>, e: Event, k: Key, n: nat)
    requires var s := RunOf(cfg, events);
             |History(s.world, k)| <= n < |History(Next(cfg, s, e).world, k)|
             && History(Next(cfg, s, e).world, k)[n].Reached?
    ensures e.Advance? && e.id in RunOf(cfg, events).handlers
    ensures var h, call := RunOf(cfg, events).handlers[e.id], History(Next(cfg, RunOf(cfg, events), e).world, k)[n];
            && h.stage.Working? && JobKey(h.stage.job) == k && Admitted(cfg, h.request, h.stage.job)
            && e.choice.clock.Ms? && e.choice.clock.ms < h.stage.job.expiresAtMs
            && e.choice.clock.ms < call.active.expiresAtMs
            && call.action == Bound(h.stage.job, call.active)
  {
    hide HandlerStep, Admitted, ChangeRegistry, Arrive;
    var s := RunOf(cfg, events);
    EveryRunAdmits(cfg, events);
    ReachedOnlyWhileActive(cfg, s, e, k, n);
    OnlyHandlesReach(cfg, s.world, s.handlers[e.id], e.choice, k);
    CalledInTime(cfg, s, e.id, e.choice, k, n);
  }

  lemma CalledInTime(cfg: Config, s: State, id: nat, c: Choice, k: Key, n: nat)
    requires id in s.handlers && s.handlers[id].stage.Working? && s.handlers[id].stage.pc.Rechecking?
    requires var calls := History(Next(cfg, s, Advance(id, c)).world, k);
             |History(s.world, k)| <= n < |calls| && calls[n].Reached?
    ensures var j, call := s.handlers[id].stage.job, History(Next(cfg, s, Advance(id, c)).world, k)[n];
            && k == JobKey(j) && c.clock.Ms? && c.clock.ms < j.expiresAtMs && c.clock.ms < call.active.expiresAtMs
            && call.action == Bound(j, call.active)
  {
    hide Next;
    var j, pc := s.handlers[id].stage.job, s.handlers[id].stage.pc;
    DispatchIsDecided(cfg, s, id, c);
    FirstOfFive(DispatchChecks(j, pc.first.record, pc.second, c));
  }
}
