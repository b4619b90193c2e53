/**
 Every step of the protocol keeps the invariant. A handler's step touches only its own key
 (`Frame`); the lemmas go through the segments of the handler one by one.
 */
module RemoteActionSteps {
  import opened Collections
  import opened JsonGrammar
  import opened RemoteActionReceipt
  import opened RelayTurnAction
  import opened RemoteActionControl
  import opened ReplayDirectory
  import opened FileReplayStore
  import opened TailscaleIngress
  import opened LocalhostListener
  import opened RemoteActionRuns

  /** What a step on behalf of key `k` leaves alone for another key `j`. */
  ghost predicate SameFor(w: World, w': World, j: Key) {
    && Current(w'.disk, j) == Current(w.disk, j)
    && (forall v :: v in Entry(w'.disk, j) ==> v in Entry(w.disk, j))
    && (j in w'.granted <==> j in w.granted) && (j in w.granted ==> w'.granted[j] == w.granted[j])
    && (j in w'.decided <==> j in w.decided) && (j in w.decided ==> w'.decided[j] == w.decided[j])
    && History(w', j) == History(w, j)
    && (forall i :: i in w.disk.files && w.disk.files[i].home == j ==>
          i in w'.disk.files && w'.disk.files[i] == w.disk.files[i])
  }

  ghost predicate Frame(w: World, w': World, k: Key) {
    && w'.registry == w.registry && w'.issued == w.issued && w'.reused == w.reused
    && w.disk.next <= w'.disk.next
    && (forall j :: j != k ==> SameFor(w, w', j))
    && (k in w.granted ==> k in w'.granted && w'.granted[k] == w.granted[k])
    && (k in w.decided ==> k in w'.decided && w'.decided[k] == w.decided[k])
  }

  lemma CommittedPersists(w: World, w': World, k: Key, a: Answer)
    requires Frame(w, w', k) && AnswerOk(w, a)
    ensures AnswerOk(w', a)
  {
    if a.job.Some? && JobKey(a.job.value) != k { assert SameFor(w, w', JobKey(a.job.value)); }
  }

  /** If only `k` was touched and `k` itself and the disk are fine, the world is. */
  lemma WorldAfterFrame(w: World, w': World, k: Key)
    requires WorldOk(w) && Frame(w, w', k) && KeyOk(w', k) && DiskOk(w')
    requires w'.answers == w.answers
    ensures WorldOk(w')
  {
    forall j ensures KeyOk(w', j) {
      if j != k {
        assert SameFor(w, w', j) && KeyOk(w, j);
        forall v | v in Entry(w'.disk, j) && j in w.granted ensures Pinned(w', j, v) {
          assert Pinned(w, j, v);
          assert v.value in w.disk.files && w.disk.files[v.value].home == j;
        }
      }
    }
    forall a | a in w'.answers ensures AnswerOk(w', a) { CommittedPersists(w, w', k, a); }
  }

  // A good move.

  /** What the step of a handler working for key `k` leaves behind. */
  ghost predicate Good(w: World, h: Handler, m: Move, k: Key) {
    && WorldOk(m.world)
    && HandlerOk(m.world, m.handler)
    && Frame(w, m.world, k)
    && (forall j :: Owns(m.handler, j) ==> j == k)
    && (Owns(h, k) || Current(w.disk, k).None? || (SameFor(w, m.world, k) && !Owns(m.handler, k)))
  }

  /** Appending an answer that is in order changes nothing else. */
  lemma AnswerKept(w: World, h: Handler, status: int, receipt: Receipt, stored: bool, k: Key)
    requires WorldOk(w)
    requires AnswerOk(w, Finish(w, h, status, receipt, stored).handler.stage.answer)
    ensures Good(w, h, Finish(w, h, status, receipt, stored), k)
  {
    hide AnswerOk;
    var m := Finish(w, h, status, receipt, stored);
    var base := w.(answers := m.world.answers);
    assert m.world == base;
    forall j ensures KeyOk(m.world, j) { KeyStays(w, m.world.answers, j); }
    forall a | a in m.world.answers ensures AnswerOk(m.world, a) {
      if a in w.answers { assert AnswerOk(w, a); }
      AnswerStays(w, m.world, a);
    }
  }

  lemma KeyStays(w: World, answers: seq<Answer>, k: Key)
    requires KeyOk(w, k)
    ensures KeyOk(w.(answers := answers), k)
  {
    assert History(w.(answers := answers), k) == History(w, k);
  }

  lemma AnswerStays(w: World, w': World, a: Answer)
    requires AnswerOk(w, a) && w'.granted == w.granted && w'.decided == w.decided
    ensures AnswerOk(w', a)
  {
  }

  /** The statuses and reasons a handler refuses an action with. */
  predicate RefusalPair(status: int, reason: Reason) {
    || (status == 503 && (reason == Unavailable || reason == OutcomeUnknown))
    || (status == 400 && reason == InvalidRequest)
    || (status == 409 && (reason == ExpiredRequest || reason == ExpiredControlContext
                          || reason == UnknownControlContext || reason == ReplayConflict))
  }

  lemma RefusalAdmitted(q: IngressRequest, a: Action, status: int, reason: Reason)
    requires q.action == Some(a) && ValidAction(a) && q.jsonContentType && RefusalPair(status, reason)
    ensures StatusFits(status, Reject(reason, Some(a))) && Admits(q, status, Reject(reason, Some(a)))
    ensures Projects(Reject(reason, Some(a)), Expect(Some(Correlate(a))), true, ANY)
  {
    var rule := RuleFor(Rejected(reason));
    var i := if reason == InvalidRequest then 3 else if reason == Unavailable then 1 else 0;
    assert Allows(rule[i], true, Filter(Some(status), None));
    assert Allows(rule[i], true, Filter(Some(status), Some(ValidActionPhase)));
    assert Allows(rule[i], true, ANY);
  }

  /** A refusal of a handler's own action. */
  lemma RefusalGood(w: World, h: Handler, a: Action, status: int, reason: Reason, k: Key)
    requires WorldOk(w) && FrontPassed(h.request) && h.request.action == Some(a)
    requires h.stage.Working? ==> h.stage.job.action == a
    requires RefusalPair(status, reason)
    ensures Good(w, h, RefuseAction(w, h, a, status, reason), k)
  {
    RefusalAdmitted(h.request, a, status, reason);
    AnswerKept(w, h, status, Reject(reason, Some(a)), false, k);
  }

  /** Giving out a receipt that is the decided one. */
  lemma GiveGood(w: World, h: Handler, j: Job, receipt: Receipt)
    requires WorldOk(w) && h.stage.Working? && h.stage.job == j && JobOk(h.request, j)
    requires DecidedAs(w, j, receipt)
    ensures Good(w, h, Give(w, h, j.action, receipt), JobKey(j))
  {
    if Projects(receipt, Expect(Some(Correlate(j.action))), true, ANY) {
      DefaultStatusFits(receipt);
      CorrelatedReceiptsTravel(receipt);
      AnswerKept(w, h, DefaultStatus(receipt), receipt, true, JobKey(j));
    } else {
      RefusalGood(w, h, j.action, 503, Unavailable, JobKey(j));
    }
  }

  /** Moving on without touching the world. */
  lemma GotoGood(w: World, h: Handler, j: Job, pc: Pc)
    requires WorldOk(w) && h.stage.Working? && h.stage.job == j && JobOk(h.request, j)
    requires PcOk(w, j, pc) && (Owner(pc) ==> Owns(h, JobKey(j)))
    ensures Good(w, h, Goto(w, h, j, pc), JobKey(j))
  {
  }

  // Arrival and authorization.

  /** The statuses and reasons a request is refused with before its action is trusted. */
  predicate EarlyPair(q: IngressRequest, status: int, reason: Reason) {
    || (reason == InvalidRequest && status == 400 && (Forwarded(q) ==> !q.jsonContentType))
    || (reason == InvalidRequest && (status == 404 || status == 413) && !Forwarded(q))
    || (reason == Unauthorized && status == 401 && q.jsonContentType)
    || (reason == InvalidAction && status == 400 && q.jsonContentType && q.action.None?)
  }

  lemma EarlyRefusalAdmitted(q: IngressRequest, status: int, reason: Reason)
    requires EarlyPair(q, status, reason)
    ensures StatusFits(status, Reject(reason, None))
    ensures Forwarded(q) ==> Admits(q, status, Reject(reason, None))
  {
    var rule := RuleFor(Rejected(reason));
    var i := if status == 404 then 1 else if status == 413 then 2 else 0;
    assert Allows(rule[i], false, Filter(Some(status), None));
    if Forwarded(q) { assert Allows(rule[i], false, Filter(Some(status), Some(PhaseOf(q)))); }
  }

  lemma EarlyRefusalGood(w: World, h: Handler, status: int, reason: Reason, k: Key)
    requires WorldOk(w) && !h.stage.Working? && ValidRequest(h.request) && EarlyPair(h.request, status, reason)
    ensures Good(w, h, Refuse(w, h, status, reason), k)
  {
    EarlyRefusalAdmitted(h.request, status, reason);
    AnswerKept(w, h, status, Reject(reason, None), false, k);
  }

  lemma WaitGood(w: World, h: Handler, k: Key)
    requires WorldOk(w) && h.stage.Authorizing? && FrontPassed(h.request)
    ensures Good(w, h, Move(w, h), k)
  {
  }

  lemma ArriveGood(w: World, q: IngressRequest, k: Key)
    requires WorldOk(w) && ValidRequest(q)
    ensures Good(w, Handler(q, Authorizing), Arrive(w, q), k)
  {
    hide WorldOk, Good, Finish, Reject, Refuse;
    var h := Handler(q, Authorizing);
    if !q.routed { EarlyRefusalGood(w, h, 404, InvalidRequest, k); }
    else if q.bodyBytes.None? { EarlyRefusalGood(w, h, 400, InvalidRequest, k); }
    else if q.bodyBytes.value > MAX_REMOTE_ACTION_BODY_BYTES { EarlyRefusalGood(w, h, 413, InvalidRequest, k); }
    else if !q.jsonContentType { EarlyRefusalGood(w, h, 400, InvalidRequest, k); }
    else if !q.capability || q.token.None? { EarlyRefusalGood(w, h, 401, Unauthorized, k); }
    else { WaitGood(w, h, k); }
  }

  lemma EnterGood(w: World, h: Handler, j: Job, k: Key)
    requires WorldOk(w) && h.stage.Authorizing? && JobOk(h.request, j)
    ensures Good(w, h, Goto(w, h, j, Fingerprinting), k)
  {
  }

  lemma AuthorizedGood(cfg: Config, w: World, h: Handler, c: Choice, k: Key)
    requires WorldOk(w) && h.stage.Authorizing? && FrontPassed(h.request)
    ensures Good(w, h, Authorized(cfg, w, h, c), k)
  {
    hide WorldOk, Good, Finish, Reject, Refuse, RefuseAction, Goto;
    if c.fault != NoFault || c.installation.None? || !SafeId(c.installation.value) {
      EarlyRefusalGood(w, h, 401, Unauthorized, k);
    } else if h.request.action.None? {
      EarlyRefusalGood(w, h, 400, InvalidAction, k);
    } else {
      var a := h.request.action.value;
      RefusalGood(w, h, a, 503, Unavailable, k);
      RefusalGood(w, h, a, 400, InvalidRequest, k);
      RefusalGood(w, h, a, 409, ExpiredRequest, k);
      if c.clock.Ms? && WindowAllows(cfg, a, c.clock.ms) && SafeId(c.installation.value) {
        EnterGood(w, h, Job(c.installation.value, a, c.clock.ms, a.expiresAt.ms.value), k);
      }
    }
  }

  // Looking before the claim.

  /** A handler working for a key, in order, in a world in order. */
  ghost predicate Ready(w: World, h: Handler, j: Job, pc: Pc) {
    WorldOk(w) && h.stage == Working(j, pc) && JobOk(h.request, j) && PcOk(w, j, pc)
  }

  lemma LookupOk(w: World, j: Job)
    requires WorldOk(w)
    ensures Lookup(w, j).Some? ==> FoundOk(w, j, Lookup(w, j).value)
  {
  }

  /** A completed answer is the decided receipt of the claim this very request made. */
  lemma CompletedIsDecided(w: World, j: Job, i: Inode)
    requires WorldOk(w)
    ensures var s := ProjectState(ReadLinked(w.disk, JobKey(j), i), RecordOf(j));
            s.CompletedState? ==> DecidedAs(w, j, s.receipt)
  {
    if i in w.disk.files { assert ContentOk(w, w.disk.files[i]); }
    if Current(w.disk, JobKey(j)).Some? {
      assert Current(w.disk, JobKey(j)) in Entry(w.disk, JobKey(j));
    }
  }

  lemma InspectedGood(cfg: Config, w: World, h: Handler, j: Job, pc: Pc, s: StoreState)
    requires Ready(w, h, j, pc) && (pc.InspectOpening? || pc.InspectReading?)
    requires s.CompletedState? ==> DecidedAs(w, j, s.receipt)
    ensures Good(w, h, Inspected(cfg, w, h, j, s), JobKey(j))
  {
    hide WorldOk, Good, Finish, Reject, RefuseAction, Goto, Give, Lookup, FoundOk, RecordKnown, DecidedAs;
    var k := JobKey(j);
    LookupOk(w, j);
    if s.CompletedState? { GiveGood(w, h, j, s.receipt); }
    else if s.UncertainState? { RefusalGood(w, h, j.action, 503, OutcomeUnknown, k); }
    else if s.ConflictState? && !cfg.admitsResolved { RefusalGood(w, h, j.action, 409, ReplayConflict, k); }
    else { GotoGood(w, h, j, Resolving(s.ConflictState?, Lookup(w, j))); }
  }

  lemma RereadGood(w: World, h: Handler, j: Job, pc: Pc, s: StoreState)
    requires Ready(w, h, j, pc) && (pc.RereadOpening? || pc.Rereading?)
    requires s.CompletedState? ==> DecidedAs(w, j, s.receipt)
    ensures Good(w, h, Reread(w, h, j, s), JobKey(j))
  {
    hide WorldOk, Good, Finish, Reject, RefuseAction, Goto, Give, DecidedAs;
    var k := JobKey(j);
    match s
    case CompletedState(receipt) => GiveGood(w, h, j, receipt);
    case ConflictState => RefusalGood(w, h, j.action, 409, ReplayConflict, k);
    case UncertainState => RefusalGood(w, h, j.action, 503, OutcomeUnknown, k);
    case _ => RefusalGood(w, h, j.action, 503, Unavailable, k);
  }

  lemma FirstResolvedGood(cfg: Config, w: World, h: Handler, j: Job, pc: Pc, c: Choice)
    requires Ready(w, h, j, pc) && pc.Resolving?
    ensures Good(w, h, FirstResolved(cfg, w, h, j, pc, c), JobKey(j))
  {
    hide WorldOk, Good, Finish, Reject, RefuseAction, Goto, FoundOk, RecordKnown;
    var k := JobKey(j);
    RefusalGood(w, h, j.action, 409, ReplayConflict, k);
    RefusalGood(w, h, j.action, 503, Unavailable, k);
    RefusalGood(w, h, j.action, 409, UnknownControlContext, k);
    RefusalGood(w, h, j.action, 409, ExpiredControlContext, k);
    RefusalGood(w, h, j.action, 400, InvalidRequest, k);
    if pc.found.Some? { GotoGood(w, h, j, ClaimOpening(pc.found.value)); }
  }

  lemma ReadingGood(cfg: Config, w: World, h: Handler, j: Job, pc: Pc, c: Choice)
    requires Ready(w, h, j, pc)
    requires pc.Fingerprinting? || pc.InspectOpening? || pc.InspectReading? || pc.RereadOpening? || pc.Rereading?
    ensures Good(w, h, WorkStep(cfg, w, h, j, pc, c), JobKey(j))
  {
    hide WorldOk, Good, Finish, Reject, RefuseAction, Goto, Inspected, Reread, Entry, Current;
    hide ProjectState, ReadLinked, DecidedAs;
    var k := JobKey(j);
    RefusalGood(w, h, j.action, 503, Unavailable, k);
    match pc
    case Fingerprinting => GotoGood(w, h, j, InspectOpening);
    case InspectOpening =>
      InspectedGood(cfg, w, h, j, pc, UncertainState);
      InspectedGood(cfg, w, h, j, pc, MissingState);
      if Current(w.disk, k).Some? { GotoGood(w, h, j, InspectReading(Current(w.disk, k).value)); }
    case InspectReading(i) =>
      CompletedIsDecided(w, j, i);
      InspectedGood(cfg, w, h, j, pc, UncertainState);
      InspectedGood(cfg, w, h, j, pc, ProjectState(ReadLinked(w.disk, k, i), RecordOf(j)));
    case RereadOpening =>
      RereadGood(w, h, j, pc, UncertainState);
      RereadGood(w, h, j, pc, MissingState);
      if Current(w.disk, k).Some? { GotoGood(w, h, j, Rereading(Current(w.disk, k).value)); }
    case Rereading(i) =>
      CompletedIsDecided(w, j, i);
      RereadGood(w, h, j, pc, UncertainState);
      RereadGood(w, h, j, pc, ProjectState(ReadLinked(w.disk, k, i), RecordOf(j)));
  }

  // The claim.

  lemma NotGrantedWhenAbsent(w: World, k: Key)
    requires WorldOk(w) && Current(w.disk, k).None?
    ensures k !in w.granted
  {
    assert KeyOk(w, k);
    assert Current(w.disk, k) in Entry(w.disk, k);
  }

  lemma GrantedIsPresent(w: World, k: Key)
    requires WorldOk(w) && k in w.granted
    ensures Current(w.disk, k).Some? && Pinned(w, k, Current(w.disk, k))
  {
    assert KeyOk(w, k);
    assert Current(w.disk, k) in Entry(w.disk, k);
  }

  lemma CreateKeepsWorld(w: World, k: Key)
    requires WorldOk(w) && Current(w.disk, k).None?
    ensures var w' := w.(disk := CreateExclusive(w.disk, k));
            WorldOk(w') && Frame(w, w', k) && Creating(w', k, w.disk.next)
  {
    var w' := w.(disk := CreateExclusive(w.disk, k));
    NotGrantedWhenAbsent(w, k);
    assert KeyOk(w, k);
    forall j, v | v in Entry(w'.disk, j) && v.Some?
      ensures v.value in w'.disk.files && w'.disk.files[v.value].home == j
    {
      EntryAfterChange(w.disk, k, Some(w.disk.next), j);
      if v in Entry(w.disk, j) { assert v.value in w.disk.files; }
    }
    forall j | j != k ensures SameFor(w, w', j) {
      EntryAfterChange(w.disk, k, Some(w.disk.next), j);
    }
    assert DiskOk(w');
    WorldAfterFrame(w, w', k);
  }

  lemma OpenClaimGood(w: World, h: Handler, j: Job, first: Found, c: Choice)
    requires Ready(w, h, j, ClaimOpening(first))
    ensures Good(w, h, OpenClaim(w, h, j, first, c), JobKey(j))
  {
    var k := JobKey(j);
    if c.fault != NoFault { RefusalGood(w, h, j.action, 503, Unavailable, k); }
    else if Current(w.disk, k).Some? { GotoGood(w, h, j, RereadOpening); }
    else { CreateKeepsWorld(w, k); }
  }

  /** Writing or syncing the file a handler is creating a claim in. */
  lemma ClaimFileChange(w: World, w': World, k: Key, i: Inode, file: File<ReplayRecord>)
    requires WorldOk(w) && Creating(w, k, i)
    requires w' == w.(disk := w.disk.(files := w.disk.files[i := file]))
    requires file.home == k && ContentOk(w, file)
    ensures WorldOk(w') && Frame(w, w', k) && Creating(w', k, i)
  {
    assert KeyOk(w, k);
    forall j ensures Entry(w'.disk, j) == Entry(w.disk, j) {}
    forall j | j != k ensures SameFor(w, w', j) {}
    assert DiskOk(w');
    WorldAfterFrame(w, w', k);
  }

  lemma WriteClaimGood(w: World, h: Handler, j: Job, first: Found, i: Inode, c: Choice)
    requires Ready(w, h, j, ClaimWriting(first, i))
    ensures Good(w, h, WriteClaim(w, h, j, first, i, c), JobKey(j))
  {
    var k := JobKey(j);
    var file := File(k, Claimed(RecordOf(j)), false);
    var written := w.(disk := Write(w.disk, i, Claimed(RecordOf(j))));
    ClaimFileChange(w, written, k, i, file);
    WriteClaimOutcome(w, written, h, j, first, i, c);
  }

  lemma WriteClaimOutcome(w: World, written: World, h: Handler, j: Job, first: Found, i: Inode, c: Choice)
    requires Ready(w, h, j, ClaimWriting(first, i))
    requires written == w.(disk := Write(w.disk, i, Claimed(RecordOf(j))))
    requires WorldOk(written) && Frame(w, written, JobKey(j)) && Creating(written, JobKey(j), i)
    ensures Good(w, h, WriteClaim(w, h, j, first, i, c), JobKey(j))
  {
    var k := JobKey(j);
    if c.fault != NoFault {
      if c.landed {
        RefusalGood(written, h, j.action, 503, OutcomeUnknown, k);
        FrameThenGood(w, written, h, RefuseAction(written, h, j.action, 503, OutcomeUnknown), k);
      } else {
        RefusalGood(w, h, j.action, 503, OutcomeUnknown, k);
      }
    }
  }

  lemma FrameTransitive(u: World, v: World, w: World, k: Key)
    requires Frame(u, v, k) && Frame(v, w, k)
    ensures Frame(u, w, k)
  {
    forall j | j != k ensures SameFor(u, w, j) {
      assert SameFor(u, v, j) && SameFor(v, w, j);
    }
  }

  /** A good move from a world the owner of `k` has just changed is good from the one before. */
  lemma FrameThenGood(w: World, changed: World, h: Handler, m: Move, k: Key)
    requires Frame(w, changed, k) && Good(changed, h, m, k) && Owns(h, k)
    ensures Good(w, h, m, k)
  {
    FrameTransitive(w, changed, m.world, k);
  }

  lemma SyncClaimFileGood(w: World, h: Handler, j: Job, first: Found, i: Inode, c: Choice)
    requires Ready(w, h, j, ClaimSyncingFile(first, i))
    ensures Good(w, h, SyncClaimFile(w, h, j, first, i, c), JobKey(j))
  {
    var k := JobKey(j);
    if c.fault != NoFault {
      RefusalGood(w, h, j.action, 503, OutcomeUnknown, k);
    } else {
      ClaimFileChange(w, w.(disk := SyncFile(w.disk, i)), k, i, File(k, Claimed(RecordOf(j)), true));
    }
  }

  lemma SyncKeepsDisk(w: World, w': World)
    requires DiskOk(w) && w'.disk == SyncDirectory(w.disk)
    requires forall i :: i in w.disk.files ==> ContentOk(w', w.disk.files[i])
    ensures DiskOk(w')
  {
    forall j, v | v in Entry(w'.disk, j) && v.Some?
      ensures v.value in w'.disk.files && w'.disk.files[v.value].home == j
    {
      EntryAfterSync(w.disk, j);
      assert v in Entry(w.disk, j);
    }
  }

  lemma SyncKeepsOthers(w: World, w': World, k: Key, grant: Option<ReplayRecord>)
    requires grant.Some? ==> k !in w.granted
    requires w' == w.(disk := SyncDirectory(w.disk),
                      granted := if grant.Some? then w.granted[k := grant.value] else w.granted)
    ensures Frame(w, w', k)
  {
    forall j | j != k ensures SameFor(w, w', j) {
      EntryAfterSync(w.disk, j);
    }
  }

  /** The claim becomes durable: its entry can only be this file, synced, holding this record. */
  lemma SyncClaimDirectoryGood(w: World, h: Handler, j: Job, first: Found, i: Inode, c: Choice)
    requires Ready(w, h, j, ClaimSyncingDirectory(first, i))
    ensures Good(w, h, SyncClaimDirectory(w, h, j, first, c), JobKey(j))
  {
    var k := JobKey(j);
    if c.fault != NoFault {
      RefusalGood(w, h, j.action, 503, OutcomeUnknown, k);
    } else {
      var w' := w.(disk := SyncDirectory(w.disk), granted := w.granted[k := RecordOf(j)]);
      assert KeyOk(w, k);
      SyncKeepsOthers(w, w', k, Some(RecordOf(j)));
      SyncKeepsDisk(w, w');
      EntryAfterSync(w.disk, k);
      assert KeyOk(w', k);
      WorldAfterFrame(w, w', k);
    }
  }

  // The dispatch.

  lemma GrantedGood(cfg: Config, w: World, h: Handler, j: Job, first: Found, c: Choice)
    requires Ready(w, h, j, Granted(first))
    ensures Good(w, h, WorkStep(cfg, w, h, j, Granted(first), c), JobKey(j))
  {
    GotoGood(w, h, j, Rechecking(first, Resolve(w.registry, j.installationId, j.action.controlContextId)));
  }

  lemma DecideKeepsWorld(w: World, j: Job, receipt: Receipt)
    requires WorldOk(w) && Undecided(w, j)
    requires DecisionOk(RecordOf(j), receipt, History(w, JobKey(j)))
    ensures var w' := w.(decided := w.decided[JobKey(j) := receipt]);
            WorldOk(w') && Frame(w, w', JobKey(j)) && DecidedAs(w', j, receipt)
  {
    var k := JobKey(j);
    var w' := w.(decided := w.decided[k := receipt]);
    forall x | x != k ensures SameFor(w, w', x) {}
    assert KeyOk(w, k);
    forall v | v in Entry(w'.disk, k) ensures Pinned(w', k, v) { assert Pinned(w, k, v); }
    assert DiskOk(w');
    WorldAfterFrame(w, w', k);
  }

  lemma NoteKeepsWorld(w: World, k: Key, calls: seq<Call>)
    requires WorldOk(w) && k in w.granted && k !in w.decided
    requires TraceOk(History(w, k) + calls, w.granted[k])
    requires !w.reused ==> FreshTraceOk(History(w, k) + calls)
    ensures var w' := Note(w, k, calls);
            WorldOk(w') && Frame(w, w', k) && History(w', k) == History(w, k) + calls
  {
    var w' := Note(w, k, calls);
    forall x | x != k ensures SameFor(w, w', x) {}
    assert KeyOk(w, k);
    forall v | v in Entry(w'.disk, k) ensures Pinned(w', k, v) { assert Pinned(w, k, v); }
    assert DiskOk(w');
    WorldAfterFrame(w, w', k);
  }

  /** From a world only this owner has changed, deciding a receipt is a good move. */
  lemma DecideGood(w: World, changed: World, h: Handler, j: Job, receipt: Receipt)
    requires h.stage.Working? && h.stage.job == j && JobOk(h.request, j) && Owns(h, JobKey(j))
    requires Frame(w, changed, JobKey(j)) && WorldOk(changed) && Undecided(changed, j)
    requires DecisionOk(RecordOf(j), receipt, History(changed, JobKey(j)))
    ensures Good(w, h, Decide(changed, h, j, receipt), JobKey(j))
  {
    DecideKeepsWorld(changed, j, receipt);
    FrameTransitive(w, changed, changed.(decided := changed.decided[JobKey(j) := receipt]), JobKey(j));
  }

  lemma DecideRejectionGood(w: World, changed: World, h: Handler, j: Job, status: int, reason: Reason)
    requires h.stage.Working? && h.stage.job == j && JobOk(h.request, j) && Owns(h, JobKey(j))
    requires Frame(w, changed, JobKey(j)) && WorldOk(changed) && Undecided(changed, j)
    requires RefusalPair(status, reason)
    ensures Good(w, h, DecideRejection(changed, h, j, reason), JobKey(j))
  {
    RefusalAdmitted(h.request, j.action, status, reason);
    DecideGood(w, changed, h, j, Reject(reason, Some(j.action)));
  }

  lemma FrameReflexive(w: World, k: Key)
    ensures Frame(w, w, k)
  {
  }

  lemma RecheckGood(w: World, h: Handler, j: Job, first: Found, second: Option<Record>, c: Choice)
    requires Ready(w, h, j, Rechecking(first, second))
    ensures Good(w, h, Recheck(w, h, j, first, second, c), JobKey(j))
  {
    hide WorldOk, Good, Decide, DecideRejection, Reject, CallHandle, Frame, FoundOk, RecordKnown;
    FrameReflexive(w, JobKey(j));
    DecideRejectionGood(w, w, h, j, 503, Unavailable);
    DecideRejectionGood(w, w, h, j, 409, ExpiredRequest);
    DecideRejectionGood(w, w, h, j, 409, UnknownControlContext);
    DecideRejectionGood(w, w, h, j, 409, ExpiredControlContext);
    if second.Some? && MatchingContext(first.record, second.value) {
      CallHandleGood(w, h, j, first, second.value, c);
    }
  }

  /** The record the handle was resolved from is the first one, unless an identifier was reused. */
  lemma SameRecordWhenFresh(w: World, j: Job, first: Found, second: Record)
    requires FoundOk(w, j, first) && RecordKnown(w, second) && !w.reused
    requires MatchingContext(first.record, second)
    ensures first.record == second
  {
  }

  lemma InvokedWorld(w: World, h: Handler, j: Job, first: Found, second: Record)
    requires Ready(w, h, j, Rechecking(first, Some(second))) && MatchingContext(first.record, second)
    ensures var p := PrivateOf(j.action, second);
            var w' := Note(w, JobKey(j), [Invoked(p, first, second)]);
            && WorldOk(w') && Frame(w, w', JobKey(j)) && Undecided(w', j)
            && History(w', JobKey(j)) == [Invoked(p, first, second)]
  {
    NoteKeepsWorld(w, JobKey(j), [Invoked(PrivateOf(j.action, second), first, second)]);
  }

  lemma ReachedWorld(w: World, invoked: World, j: Job, first: Found, second: Record, at: int)
    requires FoundOk(w, j, first) && RecordKnown(w, second) && MatchingContext(first.record, second)
    requires WorldOk(invoked) && Frame(w, invoked, JobKey(j)) && Undecided(invoked, j)
    requires History(invoked, JobKey(j)) == [Invoked(PrivateOf(j.action, second), first, second)]
    requires invoked.registry.active == Some(second) && at < second.expiresAtMs
    ensures var p := PrivateOf(j.action, second);
            var call := Reached(p, second, invoked.registry.epoch, at);
            var w' := Note(invoked, JobKey(j), [call]);
            && WorldOk(w') && Frame(w, w', JobKey(j)) && Undecided(w', j)
            && History(w', JobKey(j)) == [Invoked(p, first, second), call]
  {
    var p := PrivateOf(j.action, second);
    var call := Reached(p, second, invoked.registry.epoch, at);
    if !w.reused { SameRecordWhenFresh(w, j, first, second); }
    assert History(invoked, JobKey(j)) + [call] == [Invoked(p, first, second), call];
    NoteKeepsWorld(invoked, JobKey(j), [call]);
    FrameTransitive(w, invoked, Note(invoked, JobKey(j), [call]), JobKey(j));
  }

  lemma RequestedWorld(w: World, reached: World, j: Job, p: PrivateAction)
    requires WorldOk(reached) && Frame(w, reached, JobKey(j)) && Undecided(reached, j)
    requires |History(reached, JobKey(j))| == 2 && History(reached, JobKey(j))[0].Invoked?
    requires History(reached, JobKey(j))[0].action == p
    ensures var w' := Note(reached, JobKey(j), [Requested(RequestFor(p))]);
            && WorldOk(w') && Frame(w, w', JobKey(j)) && Undecided(w', j)
            && |History(w', JobKey(j))| == 3 && History(w', JobKey(j))[0] == History(reached, JobKey(j))[0]
  {
    assert KeyOk(reached, JobKey(j));
    NoteKeepsWorld(reached, JobKey(j), [Requested(RequestFor(p))]);
    FrameTransitive(w, reached, Note(reached, JobKey(j), [Requested(RequestFor(p))]), JobKey(j));
  }

  lemma DispatchingGood(w: World, changed: World, h: Handler, j: Job, begun: Begun)
    requires h.stage.Working? && h.stage.job == j && JobOk(h.request, j) && Owns(h, JobKey(j))
    requires Frame(w, changed, JobKey(j)) && WorldOk(changed) && PcOk(changed, j, Dispatching(begun))
    ensures Good(w, h, Goto(changed, h, j, Dispatching(begun)), JobKey(j))
  {
  }

  lemma CallHandleGood(w: World, h: Handler, j: Job, first: Found, second: Record, c: Choice)
    requires Ready(w, h, j, Rechecking(first, Some(second))) && MatchingContext(first.record, second)
    ensures Good(w, h, CallHandle(w, h, j, first, second, c), JobKey(j))
  {
    hide WorldOk, Good, Decide, DecideRejection, Reject, Goto, Note, RecordKnown, FoundOk;
    var k := JobKey(j);
    var p := PrivateOf(j.action, second);
    var invoked := Note(w, k, [Invoked(p, first, second)]);
    InvokedWorld(w, h, j, first, second);
    assert invoked.registry == w.registry;
    if !HandleAdmits(w.registry, second, c.handleClock, p.threadId, p.expectedTurnId) {
      DecideRejectionGood(w, invoked, h, j, 503, OutcomeUnknown);
    } else {
      var begun := AfterBegin(c.boundary, if c.wellFormed then Some(p) else None, c.active).1;
      var reached := Note(invoked, k, [Reached(p, second, w.registry.epoch, c.handleClock.ms)]);
      ReachedWorld(w, invoked, j, first, second, c.handleClock.ms);
      if begun.Sent? { RequestedWorld(w, reached, j, p); }
      DispatchingGood(w, if begun.Sent? then Note(reached, k, [Requested(begun.request)]) else reached, h, j, begun);
    }
  }

  // Settlement and completion.

  /** The receipt made of a settlement is about the action, and accepted only by an accepting response. */
  lemma ReceiptOfSettlement(a: Action, s: Settlement)
    requires ActionResultReceipt(s, a).Some?
    ensures Projects(ActionResultReceipt(s, a).value, Expect(Some(Correlate(a))), true, ANY)
    ensures ActionResultReceipt(s, a).value.verdict == Accepted <==> s.AcceptedBy?
  {
  }

  lemma RespondedWorld(w: World, h: Handler, j: Job, begun: Begun, response: Response)
    requires Ready(w, h, j, Dispatching(begun)) && begun.Sent?
    ensures var w' := Note(w, JobKey(j), [Responded(begun.request, response)]);
            && WorldOk(w') && Frame(w, w', JobKey(j)) && Undecided(w', j)
            && History(w', JobKey(j)) == History(w, JobKey(j)) + [Responded(begun.request, response)]
            && |History(w', JobKey(j))| == 4
  {
    assert KeyOk(w, JobKey(j));
    NoteKeepsWorld(w, JobKey(j), [Responded(begun.request, response)]);
  }

  lemma SettledGood(w: World, h: Handler, j: Job, begun: Begun, c: Choice)
    requires Ready(w, h, j, Dispatching(begun))
    ensures Good(w, h, Settled(w, h, j, begun, c), JobKey(j))
  {
    hide WorldOk, Good, Decide, DecideRejection, Reject, Note, Frame, ActionResultReceipt, Projects;
    var k := JobKey(j);
    var settlement := match begun case Resolved(s) => s case Sent(action, _) => SettlementOf(action, c.delivery);
    var responded := begun.Sent? && c.delivery.Delivered?;
    var changed := if responded then Note(w, k, [Responded(begun.request, c.delivery.response)]) else w;
    FrameReflexive(w, k);
    if responded { RespondedWorld(w, h, j, begun, c.delivery.response); }
    var receipt := ActionResultReceipt(settlement, j.action);
    if receipt.None? {
      DecideRejectionGood(w, changed, h, j, 503, OutcomeUnknown);
    } else {
      ReceiptOfSettlement(j.action, settlement);
      DecideGood(w, changed, h, j, receipt.value);
    }
  }

  lemma LostGood(w: World, h: Handler, j: Job)
    requires WorldOk(w) && h.stage.Working? && h.stage.job == j && JobOk(h.request, j)
    ensures Good(w, h, Lost(w, h, j), JobKey(j))
  {
    RefusalGood(w, h, j.action, 503, OutcomeUnknown, JobKey(j));
  }

  lemma ReadCompletionGood(w: World, h: Handler, j: Job, receipt: Receipt, i: Inode, c: Choice)
    requires Ready(w, h, j, CompleteReading(receipt, i))
    ensures Good(w, h, ReadCompletion(w, h, j, receipt, i, c), JobKey(j))
  {
    hide WorldOk, Good, Finish, Give, Goto, Lost, ReadLinked;
    LostGood(w, h, j);
    GotoGood(w, h, j, CompleteCreating(receipt));
    GiveGood(w, h, j, receipt);
  }

  lemma CreateTemporaryKeepsWorld(w: World, j: Job, receipt: Receipt)
    requires WorldOk(w) && DecidedAs(w, j, receipt)
    ensures var w' := w.(disk := CreateTemporary(w.disk, JobKey(j), Completed(RecordOf(j), receipt)));
            WorldOk(w') && Frame(w, w', JobKey(j))
            && OwnFile(w', JobKey(j), w.disk.next, Completed(RecordOf(j), receipt), false)
  {
    var k := JobKey(j);
    var w' := w.(disk := CreateTemporary(w.disk, k, Completed(RecordOf(j), receipt)));
    forall x ensures Entry(w'.disk, x) == Entry(w.disk, x) {}
    forall x | x != k ensures SameFor(w, w', x) {}
    assert KeyOk(w, k);
    forall v | v in Entry(w'.disk, k) ensures Pinned(w', k, v) { assert Pinned(w, k, v); }
    assert DiskOk(w');
    WorldAfterFrame(w, w', k);
  }

  lemma SyncTemporaryKeepsWorld(w: World, j: Job, receipt: Receipt, i: Inode)
    requires WorldOk(w) && DecidedAs(w, j, receipt)
    requires OwnFile(w, JobKey(j), i, Completed(RecordOf(j), receipt), false)
    ensures var w' := w.(disk := SyncFile(w.disk, i));
            WorldOk(w') && Frame(w, w', JobKey(j))
            && OwnFile(w', JobKey(j), i, Completed(RecordOf(j), receipt), true)
  {
    var k := JobKey(j);
    var w' := w.(disk := SyncFile(w.disk, i));
    forall x ensures Entry(w'.disk, x) == Entry(w.disk, x) {}
    forall x | x != k ensures SameFor(w, w', x) {}
    assert KeyOk(w, k);
    forall v | v in Entry(w'.disk, k) ensures Pinned(w', k, v) { assert Pinned(w, k, v); }
    assert DiskOk(w');
    WorldAfterFrame(w, w', k);
  }

  lemma RenameKeepsWorld(w: World, j: Job, receipt: Receipt, i: Inode)
    requires WorldOk(w) && DecidedAs(w, j, receipt)
    requires OwnFile(w, JobKey(j), i, Completed(RecordOf(j), receipt), true)
    ensures var w' := w.(disk := Rename(w.disk, i, JobKey(j)));
            WorldOk(w') && Frame(w, w', JobKey(j))
  {
    var k := JobKey(j);
    var w' := w.(disk := Rename(w.disk, i, k));
    assert KeyOk(w, k);
    forall x, v | v in Entry(w'.disk, x) && v.Some?
      ensures v.value in w'.disk.files && w'.disk.files[v.value].home == x
    {
      EntryAfterChange(w.disk, k, Some(i), x);
      if v in Entry(w.disk, x) { assert v.value in w.disk.files; }
    }
    forall x | x != k ensures SameFor(w, w', x) { EntryAfterChange(w.disk, k, Some(i), x); }
    forall v | v in Entry(w'.disk, k) ensures Pinned(w', k, v) {
      EntryAfterChange(w.disk, k, Some(i), k);
      if v in Entry(w.disk, k) { assert Pinned(w, k, v); }
    }
    assert DiskOk(w');
    WorldAfterFrame(w, w', k);
  }

  lemma SyncDirectoryKeepsWorld(w: World, k: Key)
    requires WorldOk(w)
    ensures var w' := w.(disk := SyncDirectory(w.disk)); WorldOk(w') && Frame(w, w', k)
  {
    var w' := w.(disk := SyncDirectory(w.disk));
    SyncKeepsOthers(w, w', k, None);
    SyncKeepsDisk(w, w');
    EntryAfterSync(w.disk, k);
    assert KeyOk(w, k);
    forall v | v in Entry(w'.disk, k) && k in w.granted ensures Pinned(w', k, v) { assert Pinned(w, k, v); }
    WorldAfterFrame(w, w', k);
  }

  /** Moving on in a world this owner has changed. */
  lemma GotoChanged(w: World, changed: World, h: Handler, j: Job, pc: Pc)
    requires h.stage.Working? && h.stage.job == j && JobOk(h.request, j) && Owns(h, JobKey(j))
    requires Frame(w, changed, JobKey(j)) && WorldOk(changed) && PcOk(changed, j, pc)
    ensures Good(w, h, Goto(changed, h, j, pc), JobKey(j))
  {
  }

  lemma GiveChanged(w: World, changed: World, h: Handler, j: Job, receipt: Receipt)
    requires h.stage.Working? && h.stage.job == j && JobOk(h.request, j) && Owns(h, JobKey(j))
    requires Frame(w, changed, JobKey(j)) && WorldOk(changed) && DecidedAs(changed, j, receipt)
    ensures Good(w, h, Give(changed, h, j.action, receipt), JobKey(j))
  {
    hide WorldOk, Give, HandlerOk;
    GiveGood(changed, h, j, receipt);
    FrameThenGood(w, changed, h, Give(changed, h, j.action, receipt), JobKey(j));
  }

  lemma CompletionGood(cfg: Config, w: World, h: Handler, j: Job, pc: Pc, c: Choice)
    requires Ready(w, h, j, pc) && FilePresent(w, pc)
    requires pc.CompleteOpening? || pc.CompleteReading? || pc.CompleteCreating? || pc.CompleteSyncing?
             || pc.CompleteRenaming? || pc.CompleteSyncingDirectory?
    ensures Good(w, h, WorkStep(cfg, w, h, j, pc, c), JobKey(j))
  {
    hide WorldOk, Good, Finish, Give, Goto, Lost, Frame, ReadCompletion, Entry, Current;
    hide CreateTemporary, SyncFile, Rename, SyncDirectory;
    var k := JobKey(j);
    LostGood(w, h, j);
    match pc
    case CompleteOpening(r) =>
      if Current(w.disk, k).Some? { GotoGood(w, h, j, CompleteReading(r, Current(w.disk, k).value)); }
    case CompleteReading(r, i) => ReadCompletionGood(w, h, j, r, i, c);
    case CompleteCreating(r) =>
      CreateTemporaryKeepsWorld(w, j, r);
      GotoChanged(w, w.(disk := CreateTemporary(w.disk, k, Completed(RecordOf(j), r))), h, j,
                  CompleteSyncing(r, w.disk.next));
    case CompleteSyncing(r, i) =>
      SyncTemporaryKeepsWorld(w, j, r, i);
      GotoChanged(w, w.(disk := SyncFile(w.disk, i)), h, j, CompleteRenaming(r, i));
    case CompleteRenaming(r, i) =>
      RenameKeepsWorld(w, j, r, i);
      GotoChanged(w, w.(disk := Rename(w.disk, i, k)), h, j, CompleteSyncingDirectory(r));
    case CompleteSyncingDirectory(r) =>
      SyncDirectoryKeepsWorld(w, k);
      GiveChanged(w, w.(disk := SyncDirectory(w.disk)), h, j, r);
  }

  // Any handler step, and its effect on the other handlers.

  lemma WorkGood(cfg: Config, w: World, h: Handler, j: Job, pc: Pc, c: Choice)
    requires Ready(w, h, j, pc) && FilePresent(w, pc)
    ensures Good(w, h, WorkStep(cfg, w, h, j, pc, c), JobKey(j))
  {
    hide WorldOk, Good, PcOk, JobOk;
    match pc
    case Resolving(_, _) => FirstResolvedGood(cfg, w, h, j, pc, c);
    case ClaimOpening(first) => OpenClaimGood(w, h, j, first, c);
    case ClaimWriting(first, i) => WriteClaimGood(w, h, j, first, i, c);
    case ClaimSyncingFile(first, i) => SyncClaimFileGood(w, h, j, first, i, c);
    case ClaimSyncingDirectory(first, i) => SyncClaimDirectoryGood(w, h, j, first, i, c);
    case Granted(first) => GrantedGood(cfg, w, h, j, first, c);
    case Rechecking(first, second) => RecheckGood(w, h, j, first, second, c);
    case Dispatching(begun) => SettledGood(w, h, j, begun, c);
    case CompleteOpening(_) => CompletionGood(cfg, w, h, j, pc, c);
    case CompleteReading(_, _) => CompletionGood(cfg, w, h, j, pc, c);
    case CompleteCreating(_) => CompletionGood(cfg, w, h, j, pc, c);
    case CompleteSyncing(_, _) => CompletionGood(cfg, w, h, j, pc, c);
    case CompleteRenaming(_, _) => CompletionGood(cfg, w, h, j, pc, c);
    case CompleteSyncingDirectory(_) => CompletionGood(cfg, w, h, j, pc, c);
    case _ => ReadingGood(cfg, w, h, j, pc, c);
  }

  /** The key a handler works for; before it has one, any key will do. */
  function KeyFor(h: Handler): Key { if h.stage.Working? then JobKey(h.stage.job) else Key([], []) }

  lemma HandlerStepGood(cfg: Config, w: World, h: Handler, c: Choice)
    requires WorldOk(w) && HandlerOk(w, h)
    ensures Good(w, h, HandlerStep(cfg, w, h, c), KeyFor(h))
  {
    hide WorldOk, PcOk, JobOk, Authorized, WorkStep;
    match h.stage
    case Authorizing => AuthorizedGood(cfg, w, h, c, KeyFor(h));
    case Working(j, pc) =>
      if FilePresent(w, pc) { WorkGood(cfg, w, h, j, pc, c); }
      else { FrameReflexive(w, KeyFor(h)); FileAlwaysPresent(w, h); }
    case Done(_) => FrameReflexive(w, KeyFor(h));
  }

  lemma FileAlwaysPresent(w: World, h: Handler)
    requires HandlerOk(w, h) && h.stage.Working?
    ensures FilePresent(w, h.stage.pc)
  {
  }

  /** A handler that owns its key, or one that does not, survives another handler's good move. */
  lemma OtherHandlerKept(w: World, w': World, k: Key, g: Handler)
    requires Frame(w, w', k) && HandlerOk(w, g)
    requires Owns(g, k) ==> SameFor(w, w', k)
    ensures HandlerOk(w', g)
  {
    if g.stage.Working? {
      var x := JobKey(g.stage.job);
      if x != k { assert SameFor(w, w', x); }
    }
  }

  lemma OwnerIsPresent(w: World, h: Handler, k: Key)
    requires WorldOk(w) && HandlerOk(w, h) && Owns(h, k)
    ensures Current(w.disk, k).Some?
  {
    if k in w.granted { GrantedIsPresent(w, k); }
  }
}
