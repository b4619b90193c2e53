/**
 The safety theorems are about something: a handler that nothing hinders takes a fresh request all the
 way to an accepted, durably recorded answer, and a later handler for the same request replays it.
 */
module RemoteActionProgress {
  import opened Collections
  import opened JsonGrammar
  import opened RemoteActionReceipt
  import opened RelayTurnAction
  import opened RemoteActionControl
  import opened ReplayDirectory
  import opened FileReplayStore
  import opened TailscaleIngress

  /** A handler's next `n` steps, the same surroundings at each. */
  function Steps(cfg: Config, m: Move, c: Choice, n: nat): Move
    decreases n
  {
    if n == 0 then m else Steps(cfg, HandlerStep(cfg, m.world, m.handler, c), c, n - 1)
  }

  lemma {:induction false} StepsAdd(cfg: Config, m: Move, c: Choice, n: nat, k: nat)
    ensures Steps(cfg, m, c, n + k) == Steps(cfg, Steps(cfg, m, c, n), c, k)
    decreases n
  {
    hide HandlerStep;
    if n > 0 { StepsAdd(cfg, HandlerStep(cfg, m.world, m.handler, c), c, n - 1, k); }
  }

  function AcceptingResult(j: Job, r: Record): ResultField {
    if j.action.kind.Stop? then EmptyObject else TurnObject(r.expectedTurnId)
  }

  /** Nothing fails, the clock stands still, and the App Server accepts what it is asked. */
  predicate Unhindered(c: Choice, j: Job, r: Record) {
    && c.fault == NoFault && c.installation == Some(j.installationId) && c.clock == Ms(j.nowMs) == c.handleClock
    && c.admitted && c.wellFormed && c.boundary == Boundary(r.threadId, false, false, [])
    && c.active == Turn(r.expectedTurnId)
    && c.delivery == Delivered(Response(j.action.actionId, None, Some(AcceptingResult(j, r))))
  }

  /** The request is in time, and the active record is the one its context names, unexpired. */
  predicate Timely(cfg: Config, w: World, j: Job, r: Record) {
    && SafeId(j.installationId) && ValidAction(j.action) && j.action.expiresAt.ms == Some(j.expiresAtMs)
    && ReadableClock(Ms(j.nowMs)) && WindowAllows(cfg, j.action, j.nowMs) && j.nowMs < j.expiresAtMs
    && w.registry.active == Some(r) && r.installationId == j.installationId
    && r.controlContextId == j.action.controlContextId && j.nowMs < r.expiresAtMs
  }

  function At(w: World, h: Handler, j: Job, pc: Pc): Move { Move(w, Handler(h.request, Working(j, pc))) }

  /** The disk has no record under the key, and the next two file numbers are free. */
  predicate Untouched(w: World, k: Key) {
    Current(w.disk, k).None? && w.disk.next !in w.disk.files && w.disk.next + 1 !in w.disk.files
  }

  // Up to the claim.

  lemma ReachesClaim(cfg: Config, w: World, h: Handler, j: Job, r: Record, c: Choice)
    requires Timely(cfg, w, j, r) && Unhindered(c, j, r) && Untouched(w, JobKey(j))
    requires h.stage.Authorizing? && h.request.action == Some(j.action)
    ensures Steps(cfg, Move(w, h), c, 4) == At(w, h, j, ClaimOpening(Found(r, w.registry.epoch)))
  {
    hide WindowAllows, SafeId, Current;
    var f := Found(r, w.registry.epoch);
    assert HandlerStep(cfg, w, h, c) == At(w, h, j, Fingerprinting);
    assert HandlerStep(cfg, w, At(w, h, j, Fingerprinting).handler, c) == At(w, h, j, InspectOpening);
    assert HandlerStep(cfg, w, At(w, h, j, InspectOpening).handler, c) == At(w, h, j, Resolving(false, Some(f)));
    assert HandlerStep(cfg, w, At(w, h, j, Resolving(false, Some(f))).handler, c) == At(w, h, j, ClaimOpening(f));
    FourSteps(cfg, Move(w, h), At(w, h, j, Fingerprinting), At(w, h, j, InspectOpening),
              At(w, h, j, Resolving(false, Some(f))), At(w, h, j, ClaimOpening(f)), c);
  }

  predicate StepsTo(cfg: Config, m: Move, c: Choice, n: Move) { HandlerStep(cfg, m.world, m.handler, c) == n }

  lemma FourSteps(cfg: Config, a: Move, b: Move, d: Move, e: Move, f: Move, c: Choice)
    requires StepsTo(cfg, a, c, b) && StepsTo(cfg, b, c, d) && StepsTo(cfg, d, c, e) && StepsTo(cfg, e, c, f)
    ensures Steps(cfg, a, c, 4) == f
  {
    hide HandlerStep;
    assert Steps(cfg, a, c, 4) == Steps(cfg, b, c, 3);
    assert Steps(cfg, b, c, 3) == Steps(cfg, d, c, 2);
    assert Steps(cfg, d, c, 2) == Steps(cfg, e, c, 1);
    assert Steps(cfg, e, c, 1) == Steps(cfg, f, c, 0);
  }

  // The claim.

  /** The disk after an undisturbed claim. */
  function ClaimedDisk(d: Disk<ReplayRecord>, k: Key, record: ReplayRecord): Disk<ReplayRecord>
    requires Current(d, k).None?
  {
    var created := CreateExclusive(d, k);
    SyncDirectory(SyncFile(Write(created, d.next, Claimed(record)), d.next))
  }

  lemma ClaimOpens(cfg: Config, w: World, h: Handler, j: Job, f: Found, c: Choice)
    requires c.fault == NoFault && Current(w.disk, JobKey(j)).None?
    ensures StepsTo(cfg, At(w, h, j, ClaimOpening(f)), c,
                    At(w.(disk := CreateExclusive(w.disk, JobKey(j))), h, j, ClaimWriting(f, w.disk.next)))
  {
    hide Current;
  }

  lemma ClaimIsWritten(cfg: Config, w: World, h: Handler, j: Job, f: Found, i: Inode, c: Choice)
    requires c.fault == NoFault && i in w.disk.files
    ensures StepsTo(cfg, At(w, h, j, ClaimWriting(f, i)), c,
                    At(w.(disk := Write(w.disk, i, Claimed(RecordOf(j)))), h, j, ClaimSyncingFile(f, i)))
  {
    hide RecordOf;
  }

  lemma ClaimIsSynced(cfg: Config, w: World, h: Handler, j: Job, f: Found, i: Inode, c: Choice)
    requires c.fault == NoFault && i in w.disk.files
    ensures StepsTo(cfg, At(w, h, j, ClaimSyncingFile(f, i)), c,
                    At(w.(disk := SyncFile(w.disk, i)), h, j, ClaimSyncingDirectory(f, i)))
  {
  }

  lemma ClaimIsGranted(cfg: Config, w: World, h: Handler, j: Job, f: Found, i: Inode, c: Choice)
    requires c.fault == NoFault
    ensures StepsTo(cfg, At(w, h, j, ClaimSyncingDirectory(f, i)), c,
                    At(w.(disk := SyncDirectory(w.disk), granted := w.granted[JobKey(j) := RecordOf(j)]),
                       h, j, Granted(f)))
  {
    hide SyncDirectory, RecordOf;
  }

  lemma ClaimsDurably(cfg: Config, w: World, h: Handler, j: Job, f: Found, c: Choice)
    requires Untouched(w, JobKey(j)) && c.fault == NoFault
    ensures Steps(cfg, At(w, h, j, ClaimOpening(f)), c, 4)
            == At(w.(disk := ClaimedDisk(w.disk, JobKey(j), RecordOf(j)),
                     granted := w.granted[JobKey(j) := RecordOf(j)]), h, j, Granted(f))
  {
    hide Current, SyncDirectory, RecordOf, StepsTo;
    var k, i := JobKey(j), w.disk.next;
    var d1 := CreateExclusive(w.disk, k);
    var d2 := Write(d1, i, Claimed(RecordOf(j)));
    var d3 := SyncFile(d2, i);
    var w1, w2, w3 := w.(disk := d1), w.(disk := d2), w.(disk := d3);
    var w4 := w.(disk := SyncDirectory(d3), granted := w.granted[k := RecordOf(j)]);
    ClaimOpens(cfg, w, h, j, f, c);
    ClaimIsWritten(cfg, w1, h, j, f, i, c);
    ClaimIsSynced(cfg, w2, h, j, f, i, c);
    ClaimIsGranted(cfg, w3, h, j, f, i, c);
    FourSteps(cfg, At(w, h, j, ClaimOpening(f)), At(w1, h, j, ClaimWriting(f, i)), At(w2, h, j, ClaimSyncingFile(f, i)),
              At(w3, h, j, ClaimSyncingDirectory(f, i)), At(w4, h, j, Granted(f)), c);
  }

  /** What the claim leaves: the record's own file, claimed, under its key, and a free file number. */
  predicate Holding(d: Disk<ReplayRecord>, k: Key, record: ReplayRecord) {
    && Current(d, k).Some? && Current(d, k).value in d.files && d.files[Current(d, k).value].content == Claimed(record)
    && d.next !in d.files && Current(d, k).value != d.next
  }

  lemma ClaimHolds(d: Disk<ReplayRecord>, k: Key, record: ReplayRecord)
    requires Current(d, k).None? && d.next !in d.files && d.next + 1 !in d.files
    ensures Holding(ClaimedDisk(d, k, record), k, record)
  {
    hide SyncDirectory;
    var d3 := SyncFile(Write(CreateExclusive(d, k), d.next, Claimed(record)), d.next);
    EntryAfterChange(d, k, Some(d.next), k);
    assert Current(d3, k) == Some(d.next);
    EntryAfterSync(d3, k);
    SyncKeepsFiles(d3);
  }

  lemma SyncKeepsFiles(d: Disk<ReplayRecord>)
    ensures SyncDirectory(d).files == d.files && SyncDirectory(d).next == d.next
  {
  }

  // The dispatch.

  function AcceptedFor(j: Job): Receipt { Receipt(Some(Correlate(j.action)), Accepted) }

  lemma DispatchAccepts(cfg: Config, w: World, h: Handler, j: Job, r: Record, c: Choice)
    requires Timely(cfg, w, j, r) && Unhindered(c, j, r)
    ensures var f := Found(r, w.registry.epoch);
            var end := Steps(cfg, At(w, h, j, Granted(f)), c, 3);
            && end == At(end.world, h, j, CompleteOpening(AcceptedFor(j)))
            && end.world.disk == w.disk && end.world.registry == w.registry
  {
    hide SafeId, WindowAllows, Projects;
    var f, p := Found(r, w.registry.epoch), PrivateOf(j.action, r);
    assert StepsTo(cfg, At(w, h, j, Granted(f)), c, At(w, h, j, Rechecking(f, Some(r))));
    var invoked := Note(w, JobKey(j), [Invoked(p, f, r)]);
    var rechecking := Handler(h.request, Working(j, Rechecking(f, Some(r))));
    var m := EnterBoundary(invoked, rechecking, j, p, r, c);
    EntersBoundary(invoked, rechecking, j, r, c);
    assert StepsTo(cfg, At(w, h, j, Rechecking(f, Some(r))), c, m) by { Rechecked(cfg, w, h, j, r, c); }
    assert m == At(m.world, h, j, Dispatching(Sent(p, RequestFor(p))));
    var n := HandlerStep(cfg, m.world, m.handler, c);
    AcceptanceDecided(cfg, m.world, h, j, r, c);
    ThreeSteps(cfg, At(w, h, j, Granted(f)), At(w, h, j, Rechecking(f, Some(r))), m, n, c);
  }

  lemma Rechecked(cfg: Config, w: World, h: Handler, j: Job, r: Record, c: Choice)
    requires Timely(cfg, w, j, r) && Unhindered(c, j, r)
    ensures var f, p := Found(r, w.registry.epoch), PrivateOf(j.action, r);
            var rechecking := Handler(h.request, Working(j, Rechecking(f, Some(r))));
            HandlerStep(cfg, w, rechecking, c)
                == EnterBoundary(Note(w, JobKey(j), [Invoked(p, f, r)]), rechecking, j, p, r, c)
  {
    hide EnterBoundary, SafeId, WindowAllows;
  }

  lemma EntersBoundary(w: World, h: Handler, j: Job, r: Record, c: Choice)
    requires Unhindered(c, j, r)
    ensures var p := PrivateOf(j.action, r);
            var m := EnterBoundary(w, h, j, p, r, c);
            && m == At(m.world, h, j, Dispatching(Sent(p, RequestFor(p))))
            && m.world.disk == w.disk && m.world.registry == w.registry
  {
    var p := PrivateOf(j.action, r);
    assert AfterBegin(c.boundary, Some(p), c.active).1 == Sent(p, RequestFor(p));
  }

  lemma AcceptanceDecided(cfg: Config, w: World, h: Handler, j: Job, r: Record, c: Choice)
    requires Unhindered(c, j, r) && SafeId(j.action.actionId)
    ensures var p := PrivateOf(j.action, r);
            var n := HandlerStep(cfg, w, Handler(h.request, Working(j, Dispatching(Sent(p, RequestFor(p))))), c);
            && n == At(n.world, h, j, CompleteOpening(AcceptedFor(j)))
            && n.world.disk == w.disk && n.world.registry == w.registry
  {
    var p := PrivateOf(j.action, r);
    assert Classify(c.delivery.response, RequestFor(p)) == AcceptedResponse;
    assert SettlementOf(p, c.delivery) == AcceptedBy(Correlate(j.action), RequestFor(p).rpc);
    AcceptedProjects(j);
    assert ActionResultReceipt(SettlementOf(p, c.delivery), j.action) == Some(AcceptedFor(j));
  }

  lemma AcceptedProjects(j: Job)
    requires SafeId(j.action.actionId)
    ensures Projects(AcceptedFor(j), Expect(Some(Correlate(j.action))), true, ANY)
            && DefaultStatus(AcceptedFor(j)) == 200
  {
  }

  lemma ThreeSteps(cfg: Config, a: Move, b: Move, d: Move, e: Move, c: Choice)
    requires StepsTo(cfg, a, c, b) && StepsTo(cfg, b, c, d) && StepsTo(cfg, d, c, e)
    ensures Steps(cfg, a, c, 3) == e
  {
    hide HandlerStep;
    assert Steps(cfg, a, c, 3) == Steps(cfg, b, c, 2);
    assert Steps(cfg, b, c, 2) == Steps(cfg, d, c, 1);
    assert Steps(cfg, d, c, 1) == Steps(cfg, e, c, 0);
  }

  // The completion.

  function CompletedDisk(d: Disk<ReplayRecord>, k: Key, record: ReplayRecord, receipt: Receipt): Disk<ReplayRecord> {
    var written := CreateTemporary(d, k, Completed(record, receipt));
    SyncDirectory(Rename(SyncFile(written, d.next), d.next, k))
  }

  lemma CompletionFinds(cfg: Config, w: World, h: Handler, j: Job, c: Choice)
    requires Holding(w.disk, JobKey(j), RecordOf(j)) && c.fault == NoFault
    ensures Steps(cfg, At(w, h, j, CompleteOpening(AcceptedFor(j))), c, 2)
            == At(w, h, j, CompleteCreating(AcceptedFor(j)))
  {
    var i := Current(w.disk, JobKey(j)).value;
    var a := At(w, h, j, CompleteOpening(AcceptedFor(j)));
    var b := At(w, h, j, CompleteReading(AcceptedFor(j), i));
    assert StepsTo(cfg, a, c, b);
    assert StepsTo(cfg, b, c, At(w, h, j, CompleteCreating(AcceptedFor(j))));
    TwoSteps(cfg, a, b, At(w, h, j, CompleteCreating(AcceptedFor(j))), c);
  }

  lemma TwoSteps(cfg: Config, a: Move, b: Move, d: Move, c: Choice)
    requires StepsTo(cfg, a, c, b) && StepsTo(cfg, b, c, d)
    ensures Steps(cfg, a, c, 2) == d
  {
    hide HandlerStep;
    assert Steps(cfg, a, c, 2) == Steps(cfg, b, c, 1);
    assert Steps(cfg, b, c, 1) == Steps(cfg, d, c, 0);
  }

  lemma CompletionIsCreated(cfg: Config, w: World, h: Handler, j: Job, receipt: Receipt, c: Choice)
    requires c.fault == NoFault
    ensures StepsTo(cfg, At(w, h, j, CompleteCreating(receipt)), c,
                    At(w.(disk := CreateTemporary(w.disk, JobKey(j), Completed(RecordOf(j), receipt))), h, j,
                       CompleteSyncing(receipt, w.disk.next)))
  {
    hide RecordOf;
  }

  lemma CompletionIsSynced(cfg: Config, w: World, h: Handler, j: Job, receipt: Receipt, i: Inode, c: Choice)
    requires c.fault == NoFault && i in w.disk.files
    ensures StepsTo(cfg, At(w, h, j, CompleteSyncing(receipt, i)), c,
                    At(w.(disk := SyncFile(w.disk, i)), h, j, CompleteRenaming(receipt, i)))
  {
  }

  lemma CompletionIsRenamed(cfg: Config, w: World, h: Handler, j: Job, receipt: Receipt, i: Inode, c: Choice)
    requires c.fault == NoFault
    ensures StepsTo(cfg, At(w, h, j, CompleteRenaming(receipt, i)), c,
                    At(w.(disk := Rename(w.disk, i, JobKey(j))), h, j, CompleteSyncingDirectory(receipt)))
  {
    hide Rename;
  }

  lemma CompletesDurably(cfg: Config, w: World, h: Handler, j: Job, c: Choice)
    requires c.fault == NoFault && SafeId(j.action.actionId)
    ensures var receipt, end := AcceptedFor(j), Steps(cfg, At(w, h, j, CompleteCreating(AcceptedFor(j))), c, 4);
            && end.handler.stage == Done(Answer(h.request, Some(j), 200, receipt, true))
            && end.world.disk == CompletedDisk(w.disk, JobKey(j), RecordOf(j), receipt)
            && end.world.registry == w.registry
  {
    hide SyncDirectory, Rename, RecordOf, SafeId, Projects, DefaultStatus, AcceptedFor;
    var k, i, receipt := JobKey(j), w.disk.next, AcceptedFor(j);
    var d1 := CreateTemporary(w.disk, k, Completed(RecordOf(j), receipt));
    var d2 := SyncFile(d1, i);
    var d3 := Rename(d2, i, k);
    var w1, w2, w3 := w.(disk := d1), w.(disk := d2), w.(disk := d3);
    CompletionIsCreated(cfg, w, h, j, receipt, c);
    CompletionIsSynced(cfg, w1, h, j, receipt, i, c);
    CompletionIsRenamed(cfg, w2, h, j, receipt, i, c);
    var at3 := At(w3, h, j, CompleteSyncingDirectory(receipt));
    var end := HandlerStep(cfg, at3.world, at3.handler, c);
    LastSync(cfg, w3, h, j, c);
    FourSteps(cfg, At(w, h, j, CompleteCreating(receipt)), At(w1, h, j, CompleteSyncing(receipt, i)),
              At(w2, h, j, CompleteRenaming(receipt, i)), at3, end, c);
  }

  lemma LastSync(cfg: Config, w: World, h: Handler, j: Job, c: Choice)
    requires c.fault == NoFault && SafeId(j.action.actionId)
    ensures var at := At(w, h, j, CompleteSyncingDirectory(AcceptedFor(j)));
            var end := HandlerStep(cfg, at.world, at.handler, c);
            && end.handler.stage == Done(Answer(h.request, Some(j), 200, AcceptedFor(j), true))
            && end.world.disk == SyncDirectory(w.disk) && end.world.registry == w.registry
  {
    hide SyncDirectory, SafeId, Projects, DefaultStatus;
    AcceptedProjects(j);
  }

  lemma CompletedIsStored(d: Disk<ReplayRecord>, k: Key, record: ReplayRecord, receipt: Receipt)
    requires d.next !in d.files
    ensures var e := CompletedDisk(d, k, record, receipt);
            Current(e, k).Some? && ReadLinked(e, k, Current(e, k).value) == Completed(record, receipt)
  {
    hide SyncDirectory;
    var d2 := SyncFile(CreateTemporary(d, k, Completed(record, receipt)), d.next);
    var d3 := Rename(d2, d.next, k);
    EntryAfterChange(d2, k, Some(d.next), k);
    EntryAfterSync(d3, k);
    SyncKeepsFiles(d3);
  }

  // The whole way, and once more.

  /** From arrival to an accepted answer, with the record durably completed. */
  lemma UnhinderedRequestIsAccepted(cfg: Config, w: World, h: Handler, j: Job, r: Record, c: Choice)
    requires Timely(cfg, w, j, r) && Unhindered(c, j, r) && Untouched(w, JobKey(j))
    requires h.stage.Authorizing? && h.request.action == Some(j.action)
    ensures var end := Steps(cfg, Move(w, h), c, 17);
            && end.handler.stage == Done(Answer(h.request, Some(j), 200, AcceptedFor(j), true))
            && Current(end.world.disk, JobKey(j)).Some?
            && ReadLinked(end.world.disk, JobKey(j), Current(end.world.disk, JobKey(j)).value)
                == Completed(RecordOf(j), AcceptedFor(j))
  {
    hide Timely, Unhindered, Untouched, HandlerStep, ClaimedDisk, CompletedDisk, Holding, ReadLinked, Current;
    var f := Found(r, w.registry.epoch);
    ReachesClaim(cfg, w, h, j, r, c);
    JobFacts(cfg, w, j, r, c);
    ClaimsDurably(cfg, w, h, j, f, c);
    ClaimHolds(w.disk, JobKey(j), RecordOf(j));
    var w4 := w.(disk := ClaimedDisk(w.disk, JobKey(j), RecordOf(j)), granted := w.granted[JobKey(j) := RecordOf(j)]);
    TimelyStays(cfg, w, w4, j, r);
    DispatchAccepts(cfg, w4, h, j, r, c);
    var dispatched := Steps(cfg, At(w4, h, j, Granted(f)), c, 3);
    CompletionFinds(cfg, dispatched.world, h, j, c);
    CompletesDurably(cfg, dispatched.world, h, j, c);
    FreeFile(dispatched.world.disk, JobKey(j), RecordOf(j));
    CompletedIsStored(dispatched.world.disk, JobKey(j), RecordOf(j), AcceptedFor(j));
    StepsAdd(cfg, Move(w, h), c, 4, 13);
    StepsAdd(cfg, At(w, h, j, ClaimOpening(f)), c, 4, 9);
    StepsAdd(cfg, At(w4, h, j, Granted(f)), c, 3, 6);
    StepsAdd(cfg, dispatched, c, 2, 4);
  }

  lemma JobFacts(cfg: Config, w: World, j: Job, r: Record, c: Choice)
    requires Timely(cfg, w, j, r) && Unhindered(c, j, r) && Untouched(w, JobKey(j))
    ensures c.fault == NoFault && SafeId(j.action.actionId)
    ensures Current(w.disk, JobKey(j)).None? && w.disk.next !in w.disk.files && w.disk.next + 1 !in w.disk.files
  {
  }

  lemma TimelyStays(cfg: Config, w: World, w': World, j: Job, r: Record)
    requires Timely(cfg, w, j, r) && w'.registry == w.registry
    ensures Timely(cfg, w', j, r)
  {
  }

  lemma FreeFile(d: Disk<ReplayRecord>, k: Key, record: ReplayRecord)
    requires Holding(d, k, record)
    ensures d.next !in d.files
  {
  }

  /** A later handler for the same request reads the completed record and answers with its receipt. */
  lemma CompletedRequestIsReplayed(cfg: Config, w: World, h: Handler, j: Job, receipt: Receipt, c: Choice)
    requires c.fault == NoFault && Current(w.disk, JobKey(j)).Some?
    requires ReadLinked(w.disk, JobKey(j), Current(w.disk, JobKey(j)).value) == Completed(RecordOf(j), receipt)
    requires Projects(receipt, Expect(Some(Correlate(j.action))), true, ANY)
    ensures Steps(cfg, At(w, h, j, InspectOpening), c, 2).handler.stage
            == Done(Answer(h.request, Some(j), DefaultStatus(receipt), receipt, true))
  {
    hide Current, ReadLinked, Projects, DefaultStatus;
    var i := Current(w.disk, JobKey(j)).value;
    var a, b := At(w, h, j, InspectOpening), At(w, h, j, InspectReading(i));
    assert StepsTo(cfg, a, c, b);
    var end := HandlerStep(cfg, b.world, b.handler, c);
    assert StepsTo(cfg, b, c, end);
    TwoSteps(cfg, a, b, end, c);
    CompletedOnlyForTheClaimant(Completed(RecordOf(j), receipt), RecordOf(j));
  }
}
