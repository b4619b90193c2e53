/**
 What every run of the remote-action protocol guarantees, whatever the interleaving, the context
 changes and the crashes: at most one dispatch per key, receipts that never diverge, truthful
 acceptance, and a binding that is live at the instant of dispatch.
 */
module RemoteActionTheorems {
  import opened Collections
  import opened JsonGrammar
  import opened RemoteActionReceipt
  import opened RemoteActionReceiptJson
  import opened RelayTurnAction
  import opened RemoteActionControl
  import opened ReplayDirectory
  import opened FileReplayStore
  import opened TailscaleIngress
  import opened LocalhostListener
  import opened RemoteActionRuns
  import opened RemoteActionSteps

  // The invariant holds in every run.

  lemma HandlerMoveKeepsInv(s: State, id: nat, h: Handler, m: Move, k: Key)
    requires Inv(s) && Good(s.world, h, m, k)
    requires id in s.handlers ==> s.handlers[id] == h
    requires id !in s.handlers ==> !Owns(h, k)
    ensures Inv(State(m.world, s.handlers[id := m.handler]))
  {
    hide WorldOk, HandlerOk, Frame, SameFor;
    var handlers := s.handlers[id := m.handler];
    forall g | g in s.handlers && g != id
      ensures HandlerOk(m.world, s.handlers[g])
      ensures Owns(s.handlers[g], k) ==> !Owns(m.handler, k)
    {
      var other := s.handlers[g];
      if Owns(other, k) { OwnerIsPresent(s.world, other, k); }
      OtherHandlerKept(s.world, m.world, k, other);
    }
    forall a, b, x | a in handlers && b in handlers && Owns(handlers[a], x) && Owns(handlers[b], x)
      ensures a == b
    {
    }
  }

  lemma ContextChangeKeepsInv(s: State, change: RemoteActionControl.Change)
    requires Inv(s)
    ensures Inv(s.(world := ChangeRegistry(s.world, change)))
  {
    hide ChangeRegistry, KeyOk, HandlerOk, AnswerOk, DiskOk, RegistryOk;
    var w, w' := s.world, ChangeRegistry(s.world, change);
    ContextChangeKeepsRecords(w, change);
    ContextChangeKeepsDisk(w, change);
    forall k ensures KeyOk(w', k) { ContextChangeKeepsKey(w, change, k); }
    forall a | a in w'.answers ensures AnswerOk(w', a) { ContextChangeKeepsAnswer(w, change, a); }
    forall id | id in s.handlers ensures HandlerOk(w', s.handlers[id]) {
      ContextChangeKeepsHandler(w, change, s.handlers[id]);
    }
  }

  lemma ContextChangeKeepsDisk(w: World, change: RemoteActionControl.Change)
    requires DiskOk(w)
    ensures DiskOk(ChangeRegistry(w, change)) && ChangeRegistry(w, change).answers == w.answers
  {
  }

  lemma ContextChangeKeepsKey(w: World, change: RemoteActionControl.Change, k: Key)
    requires KeyOk(w, k)
    ensures KeyOk(ChangeRegistry(w, change), k)
  {
  }

  lemma ContextChangeKeepsAnswer(w: World, change: RemoteActionControl.Change, a: Answer)
    requires AnswerOk(w, a)
    ensures AnswerOk(ChangeRegistry(w, change), a)
  {
  }

  lemma ContextChangeKeepsHandler(w: World, change: RemoteActionControl.Change, h: Handler)
    requires RegistryOk(w) && HandlerOk(w, h)
    ensures HandlerOk(ChangeRegistry(w, change), h)
  {
    hide ChangeRegistry, RegistryOk, RecordKnown, Owner, JobOk;
    ContextChangeKeepsRecords(w, change);
    ContextChangeKeepsRest(w, change);
  }

  lemma ContextChangeKeepsRest(w: World, change: RemoteActionControl.Change)
    ensures var w' := ChangeRegistry(w, change);
            w' == w.(registry := w'.registry, reused := w'.reused, issued := w'.issued)
  {
  }

  lemma ContextChangeKeepsRecords(w: World, change: RemoteActionControl.Change)
    requires RegistryOk(w)
    ensures RegistryOk(ChangeRegistry(w, change))
    ensures forall r :: RecordKnown(w, r) ==> RecordKnown(ChangeRegistry(w, change), r)
  {
  }

  lemma CrashKeepsInv(s: State, keep: map<Key, nat>, torn: set<Inode>)
    requires Inv(s)
    ensures Inv(State(Restart(s.world, keep, torn), map[]))
  {
    var w, w' := s.world, Restart(s.world, keep, torn);
    forall k, v | v in Entry(w'.disk, k) && v.Some?
      ensures v.value in w'.disk.files && w'.disk.files[v.value].home == k
    {
      EntryAfterCrash(w.disk, keep, torn, k);
      assert v in Entry(w.disk, k);
    }
    forall i | i in w'.disk.files ensures i < w'.disk.next && ContentOk(w', w'.disk.files[i]) {
      assert ContentOk(w, w.disk.files[i]);
    }
    forall k ensures KeyOk(w', k) { CrashKeepsKey(w, keep, torn, k); }
    forall a | a in w'.answers ensures AnswerOk(w', a) { assert AnswerOk(w, a); }
  }

  /** A granted key survives a crash: every value its entry may have is a synced file of the claim. */
  lemma CrashKeepsKey(w: World, keep: map<Key, nat>, torn: set<Inode>, k: Key)
    requires WorldOk(w)
    ensures KeyOk(Restart(w, keep, torn), k)
  {
    var w' := Restart(w, keep, torn);
    assert KeyOk(w, k);
    EntryAfterCrash(w.disk, keep, torn, k);
    forall v | v in Entry(w'.disk, k) && k in w.granted ensures Pinned(w', k, v) {
      assert v in Entry(w.disk, k) && Pinned(w, k, v);
    }
  }

  lemma NextKeepsInv(cfg: Config, s: State, e: Event)
    requires Inv(s)
    ensures Inv(Next(cfg, s, e))
  {
    hide WorldOk, HandlerOk, Good, HandlerStep, Arrive;
    match e
    case Request(id, request) =>
      if id !in s.handlers && ValidRequest(request) { RequestKeepsInv(s, id, request); }
    case Advance(id, choice) =>
      if id in s.handlers {
        var h := s.handlers[id];
        HandlerStepGood(cfg, s.world, h, choice);
        HandlerMoveKeepsInv(s, id, h, HandlerStep(cfg, s.world, h, choice), KeyFor(h));
      }
    case ChangeContext(change) => ContextChangeKeepsInv(s, change);
    case CrashAndRestart(keep, torn) => CrashKeepsInv(s, keep, torn);
  }

  lemma RequestKeepsInv(s: State, id: nat, request: IngressRequest)
    requires Inv(s) && id !in s.handlers && ValidRequest(request)
    ensures Inv(State(Arrive(s.world, request).world, s.handlers[id := Arrive(s.world, request).handler]))
  {
    var m := Arrive(s.world, request);
    var k := Key([], []);
    ArriveGood(s.world, request, k);
    HandlerMoveKeepsInv(s, id, Handler(request, Authorizing), m, k);
  }

  lemma {:induction false} EveryRunKeepsInv(cfg: Config, events: seq<Event>)
    ensures Inv(RunOf(cfg, events))
    decreases |events|
  {
    if events != [] {
      EveryRunKeepsInv(cfg, events[..|events| - 1]);
      NextKeepsInv(cfg, RunOf(cfg, events[..|events| - 1]), events[|events| - 1]);
    }
  }

  // What each segment leaves alone.

  /** Nothing but a new answer, at most. */
  predicate AnswersOnly(w: World, w': World) { w' == w.(answers := w'.answers) }

  lemma GiveLeaves(w: World, h: Handler, a: Action, receipt: Receipt)
    ensures AnswersOnly(w, Give(w, h, a, receipt).world)
  {
  }

  /** A refusal changes nothing but the answers. */
  predicate RefusalLeaves(w: World, m: Move) {
    && AnswersOnly(w, m.world)
    && m.world.disk == w.disk && m.world.granted == w.granted && m.world.history == w.history
  }

  lemma UncorrelatedLeaves(w: World, h: Handler)
    ensures forall status, reason :: RefusalLeaves(w, Refuse(w, h, status, reason))
  {
  }

  lemma RefuseLeaves(w: World, h: Handler, a: Action)
    ensures forall status, reason :: RefusalLeaves(w, RefuseAction(w, h, a, status, reason))
  {
  }

  lemma AuthorizedLeaves(cfg: Config, w: World, h: Handler, c: Choice)
    ensures AnswersOnly(w, Authorized(cfg, w, h, c).world)
  {
    hide SafeId, WindowAllows, ReadableClock, Refuse, RefuseAction;
    UncorrelatedLeaves(w, h);
    if h.request.action.Some? { RefuseLeaves(w, h, h.request.action.value); }
  }

  lemma InspectedLeaves(cfg: Config, w: World, h: Handler, j: Job, s: StoreState)
    ensures AnswersOnly(w, Inspected(cfg, w, h, j, s).world)
    ensures AnswersOnly(w, Reread(w, h, j, s).world)
  {
    hide Give, Lookup;
    if s.CompletedState? { GiveLeaves(w, h, j.action, s.receipt); }
  }

  lemma FirstResolvedLeaves(cfg: Config, w: World, h: Handler, j: Job, pc: Pc, c: Choice)
    requires pc.Resolving?
    ensures AnswersOnly(w, FirstResolved(cfg, w, h, j, pc, c).world)
  {
  }

  lemma ReadCompletionLeaves(w: World, h: Handler, j: Job, receipt: Receipt, i: Inode, c: Choice)
    ensures AnswersOnly(w, ReadCompletion(w, h, j, receipt, i, c).world)
  {
    hide Give, ReadLinked;
    GiveLeaves(w, h, j.action, receipt);
  }

  /** Neither the disk nor the dispatch is touched at these awaits. */
  predicate QuietPc(pc: Pc) { !DiskPc(pc) && !pc.Rechecking? && !pc.Dispatching? }

  /** Only the claim and the completion write to the disk. */
  predicate DiskPc(pc: Pc) {
    pc.ClaimOpening? || pc.ClaimWriting? || pc.ClaimSyncingFile? || pc.ClaimSyncingDirectory?
    || pc.CompleteCreating? || pc.CompleteSyncing? || pc.CompleteRenaming? || pc.CompleteSyncingDirectory?
  }

  lemma QuietLeaves(cfg: Config, w: World, h: Handler, j: Job, pc: Pc, c: Choice)
    requires QuietPc(pc)
    ensures AnswersOnly(w, WorkStep(cfg, w, h, j, pc, c).world)
  {
    hide Inspected, Reread, FirstResolved, ReadCompletion, ProjectState, ReadLinked, Entry, Current;
    hide RefuseAction;
    RefuseLeaves(w, h, j.action);
    var k := JobKey(j);
    match pc
    case InspectOpening =>
      InspectedLeaves(cfg, w, h, j, UncertainState);
      InspectedLeaves(cfg, w, h, j, MissingState);
    case InspectReading(i) =>
      InspectedLeaves(cfg, w, h, j, UncertainState);
      InspectedLeaves(cfg, w, h, j, ProjectState(ReadLinked(w.disk, k, i), RecordOf(j)));
    case RereadOpening =>
      InspectedLeaves(cfg, w, h, j, UncertainState);
      InspectedLeaves(cfg, w, h, j, MissingState);
    case Rereading(i) =>
      InspectedLeaves(cfg, w, h, j, UncertainState);
      InspectedLeaves(cfg, w, h, j, ProjectState(ReadLinked(w.disk, k, i), RecordOf(j)));
    case Resolving(_, _) => FirstResolvedLeaves(cfg, w, h, j, pc, c);
    case CompleteReading(r, i) => ReadCompletionLeaves(w, h, j, r, i, c);
    case _ =>
  }

  /** The disk steps make no calls, and only the directory sync of a claim grants. */
  lemma DiskLeaves(cfg: Config, w: World, h: Handler, j: Job, pc: Pc, c: Choice)
    requires DiskPc(pc) && FilePresent(w, pc)
    ensures var w' := WorkStep(cfg, w, h, j, pc, c).world;
            && w'.history == w.history
            && (!pc.ClaimSyncingDirectory? ==> w'.granted == w.granted)
            && (pc.ClaimSyncingDirectory? ==>
                  w' == SyncClaimDirectory(w, h, j, pc.first, c).world)
  {
    hide CreateExclusive, CreateTemporary, Write, SyncFile, Rename, SyncDirectory, Current, Give;
    hide RefuseAction, RecordOf, Entry;
    RefuseLeaves(w, h, j.action);
    if pc.ClaimWriting? { RefuseLeaves(w.(disk := Write(w.disk, pc.file, Claimed(RecordOf(j)))), h, j.action); }
    if pc.CompleteSyncingDirectory? {
      GiveLeaves(w.(disk := SyncDirectory(w.disk)), h, j.action, pc.receipt);
    }
  }

  lemma RecheckLeaves(w: World, h: Handler, j: Job, first: Found, second: Option<Record>, c: Choice)
    ensures var w' := Recheck(w, h, j, first, second, c).world; w'.disk == w.disk && w'.granted == w.granted
  {
    hide AfterBegin, HandleAdmits, MatchingContext, ReadableClock, Reject, PrivateOf, Decide, CallHandle;
    DecideLeaves(w, h, j);
    if second.Some? { CallLeaves(w, h, j, first, second.value, c); }
  }

  lemma DecideLeaves(w: World, h: Handler, j: Job)
    ensures forall receipt ::
              Decide(w, h, j, receipt).world.disk == w.disk && Decide(w, h, j, receipt).world.granted == w.granted
  {
  }

  lemma CallLeaves(w: World, h: Handler, j: Job, first: Found, second: Record, c: Choice)
    ensures var w' := CallHandle(w, h, j, first, second, c).world; w'.disk == w.disk && w'.granted == w.granted
  {
    hide AfterBegin, HandleAdmits, Reject, PrivateOf;
  }

  lemma SettledLeaves(w: World, h: Handler, j: Job, begun: Begun, c: Choice)
    ensures var w' := Settled(w, h, j, begun, c).world; w'.disk == w.disk && w'.granted == w.granted
  {
    hide ActionResultReceipt, SettlementOf;
  }

  // At most one dispatch.

  function Invocations(calls: seq<Call>): nat {
    if calls == [] then 0 else (if calls[0].Invoked? then 1 else 0) + Invocations(calls[1..])
  }

  lemma {:induction false} NoInvocations(calls: seq<Call>)
    requires forall n :: 0 <= n < |calls| ==> !calls[n].Invoked?
    ensures Invocations(calls) == 0
  {
    if calls != [] { NoInvocations(calls[1..]); }
  }

  lemma TraceHasOneInvocation(calls: seq<Call>, claim: ReplayRecord)
    requires TraceOk(calls, claim)
    ensures Invocations(calls) == if calls == [] then 0 else 1
  {
    if calls != [] { NoInvocations(calls[1..]); }
  }

  /** In no run is the dispatch handle called twice for one installation and action identifier. */
  lemma AtMostOneDispatch(cfg: Config, events: seq<Event>, k: Key)
    ensures Invocations(History(RunOf(cfg, events).world, k)) <= 1
  {
    var w := RunOf(cfg, events).world;
    EveryRunKeepsInv(cfg, events);
    assert KeyOk(w, k);
    if k in w.granted { TraceHasOneInvocation(History(w, k), w.granted[k]); }
  }

  /** A claim becomes "new" only when its file is synced under its path and the directory is synced. */
  lemma GrantedOnlyWhenDurable(cfg: Config, s: State, e: Event, k: Key)
    requires Inv(s) && k !in s.world.granted && k in Next(cfg, s, e).world.granted
    ensures e.Advance? && e.id in s.handlers && s.handlers[e.id].stage.Working?
    ensures var h := s.handlers[e.id].stage;
            && h.pc.ClaimSyncingDirectory? && JobKey(h.job) == k
            && OwnFile(s.world, k, h.pc.file, Claimed(RecordOf(h.job)), true)
            && Current(s.world.disk, k) == Some(h.pc.file)
            && Entry(Next(cfg, s, e).world.disk, k) == [Some(h.pc.file)]
  {
    hide HandlerStep, WorldOk, HandlerOk, Arrive, ChangeRegistry, Entry, SyncDirectory, Current, OwnFile;
    OnlyHandlersGrant(cfg, s, e, k);
    var h := s.handlers[e.id];
    GrantsCome(cfg, s.world, h, e.choice, k);
    SyncingIsReady(s.world, h);
    EntryAfterSync(s.world.disk, k);
  }

  lemma OnlyHandlersGrant(cfg: Config, s: State, e: Event, k: Key)
    requires k !in s.world.granted && k in Next(cfg, s, e).world.granted
    ensures e.Advance? && e.id in s.handlers
  {
    hide HandlerStep;
  }

  lemma SyncingIsReady(w: World, h: Handler)
    requires HandlerOk(w, h) && h.stage.Working? && h.stage.pc.ClaimSyncingDirectory?
    ensures OwnFile(w, JobKey(h.stage.job), h.stage.pc.file, Claimed(RecordOf(h.stage.job)), true)
    ensures Current(w.disk, JobKey(h.stage.job)) == Some(h.stage.pc.file)
  {
    hide FoundOk, JobOk;
  }

  lemma GrantsCome(cfg: Config, w: World, h: Handler, c: Choice, k: Key)
    requires k !in w.granted && k in HandlerStep(cfg, w, h, c).world.granted
    ensures h.stage.Working? && h.stage.pc.ClaimSyncingDirectory? && JobKey(h.stage.job) == k
    ensures HandlerStep(cfg, w, h, c).world.disk == SyncDirectory(w.disk)
  {
    hide WorkStep, Authorized;
    AuthorizedLeaves(cfg, w, h, c);
    if h.stage.Working? && FilePresent(w, h.stage.pc) {
      var j, pc := h.stage.job, h.stage.pc;
      if QuietPc(pc) { QuietLeaves(cfg, w, h, j, pc, c); }
      else if DiskPc(pc) { DiskLeaves(cfg, w, h, j, pc, c); }
      else { DispatchSteps(cfg, w, h, j, pc, c); }
    }
  }

  lemma DispatchSteps(cfg: Config, w: World, h: Handler, j: Job, pc: Pc, c: Choice)
    requires pc.Rechecking? || pc.Dispatching?
    ensures var w' := WorkStep(cfg, w, h, j, pc, c).world; w'.disk == w.disk && w'.granted == w.granted
  {
    hide Recheck, Settled;
    if pc.Rechecking? { RecheckLeaves(w, h, j, pc.first, pc.second, c); }
    else { SettledLeaves(w, h, j, pc.begun, c); }
  }

  /**
   Once granted, a claim is on disk for good: in every later state, and after any crash, its path
   holds a synced record of that very claim, completed only with the decided receipt.
   */
  lemma GrantedClaimsSurvive(cfg: Config, events: seq<Event>, k: Key, keep: map<Key, nat>, torn: set<Inode>)
    ensures var w := RunOf(cfg, events).world;
            k in w.granted ==>
              && Current(w.disk, k).Some? && Pinned(w, k, Current(w.disk, k))
              && var crashed := Restart(w, keep, torn);
                 Current(crashed.disk, k).Some? && Pinned(crashed, k, Current(crashed.disk, k))
  {
    var w := RunOf(cfg, events).world;
    EveryRunKeepsInv(cfg, events);
    if k in w.granted {
      GrantedIsPresent(w, k);
      CrashKeepsInv(RunOf(cfg, events), keep, torn);
      GrantedIsPresent(Restart(w, keep, torn), k);
    }
  }

  // Receipts never diverge.

  /** Grants and decisions are final. */
  lemma DecisionsAreFinal(cfg: Config, s: State, e: Event, k: Key)
    requires Inv(s)
    ensures var w, w' := s.world, Next(cfg, s, e).world;
            && (k in w.granted ==> k in w'.granted && w'.granted[k] == w.granted[k])
            && (k in w.decided ==> k in w'.decided && w'.decided[k] == w.decided[k])
  {
    hide WorldOk, HandlerOk, HandlerStep, Arrive, SameFor;
    match e
    case Request(id, request) =>
      if id !in s.handlers && ValidRequest(request) { ArriveGood(s.world, request, k); }
    case Advance(id, choice) =>
      if id in s.handlers {
        var h := s.handlers[id];
        HandlerStepGood(cfg, s.world, h, choice);
        if k != KeyFor(h) {
          assert SameFor(s.world, HandlerStep(cfg, s.world, h, choice).world, k);
          SameKeepsDecisions(s.world, HandlerStep(cfg, s.world, h, choice).world, k);
        }
      }
    case ChangeContext(change) =>
    case CrashAndRestart(_, _) =>
  }

  lemma SameKeepsDecisions(w: World, w': World, k: Key)
    requires SameFor(w, w', k)
    ensures k in w.granted ==> k in w'.granted && w'.granted[k] == w.granted[k]
    ensures k in w.decided ==> k in w'.decided && w'.decided[k] == w.decided[k]
  {
  }

  /**
   All answers with a receipt of the store, whether read from it or given by the claimant after
   completing its record, carry one receipt for a key, that of its one claim.
   */
  lemma StoredReceiptsAgree(cfg: Config, events: seq<Event>, a: Answer, b: Answer)
    requires a in RunOf(cfg, events).world.answers && b in RunOf(cfg, events).world.answers
    requires a.stored && b.stored && a.job.Some? && b.job.Some?
    requires JobKey(a.job.value) == JobKey(b.job.value)
    ensures a.receipt == b.receipt && a.request.action == b.request.action
  {
    EveryRunKeepsInv(cfg, events);
    assert AnswerOk(RunOf(cfg, events).world, a) && AnswerOk(RunOf(cfg, events).world, b);
  }

  /** The receipt a handler is completing its claim with. */
  function Completing(pc: Pc): Option<Receipt> {
    match pc
    case CompleteOpening(r) => Some(r)
    case CompleteReading(r, _) => Some(r)
    case CompleteCreating(r) => Some(r)
    case CompleteSyncing(r, _) => Some(r)
    case CompleteRenaming(r, _) => Some(r)
    case CompleteSyncingDirectory(r) => Some(r)
    case _ => None
  }

  /** A claimant answers with the receipt it decided once that is stored, or that the outcome is unknown. */
  lemma ClaimantAnswers(cfg: Config, s: State, id: nat, c: Choice)
    requires Inv(s) && id in s.handlers && s.handlers[id].stage.Working? && Completing(s.handlers[id].stage.pc).Some?
    requires Next(cfg, s, Advance(id, c)).handlers[id].stage.Done?
    ensures var receipt, answer :=
              Completing(s.handlers[id].stage.pc).value, Next(cfg, s, Advance(id, c)).handlers[id].stage.answer;
            || (answer.stored && answer.receipt == receipt)
            || (!answer.stored && answer.status == 503
                && answer.receipt == Reject(OutcomeUnknown, Some(s.handlers[id].stage.job.action)))
  {
    hide WorldOk, JobOk, Projects, DefaultStatus, ReadLinked, MatchingRecord, SyncDirectory, SyncFile, Rename;
    hide CreateTemporary, Current;
    var j := s.handlers[id].stage.job;
    DecidedIsAdmitted(s.world, j, Completing(s.handlers[id].stage.pc).value);
  }

  lemma DecidedIsAdmitted(w: World, j: Job, receipt: Receipt)
    requires WorldOk(w) && DecidedAs(w, j, receipt)
    ensures Projects(receipt, Expect(Some(Correlate(j.action))), true, ANY)
  {
    hide Projects, TraceOk, FreshTraceOk;
    assert KeyOk(w, JobKey(j));
  }

  /** How far a key's record has come. */
  datatype Progress = Absent | ClaimedOrTorn | CompletedWith(receipt: Receipt)

  function ProgressOf(d: Disk<ReplayRecord>, k: Key): Progress {
    var v := Current(d, k);
    if v.None? then Absent
    else if v.value in d.files && d.files[v.value].content.Completed?
    then CompletedWith(d.files[v.value].content.receipt)
    else ClaimedOrTorn
  }

  predicate Forward(before: Progress, after: Progress) {
    match before
    case Absent => !after.CompletedWith?
    case ClaimedOrTorn => !after.Absent?
    case CompletedWith(_) => after == before
  }

  lemma SameProgress(w: World, w': World, k: Key)
    requires DiskOk(w) && SameFor(w, w', k)
    ensures ProgressOf(w'.disk, k) == ProgressOf(w.disk, k)
  {
    var v := Current(w.disk, k);
    assert v in Entry(w.disk, k);
  }

  lemma DiskStepsOnly(cfg: Config, w: World, h: Handler, c: Choice)
    requires !(h.stage.Working? && DiskPc(h.stage.pc))
    ensures HandlerStep(cfg, w, h, c).world.disk == w.disk
  {
    hide WorkStep, Authorized;
    AuthorizedLeaves(cfg, w, h, c);
    if h.stage.Working? {
      var j, pc := h.stage.job, h.stage.pc;
      if QuietPc(pc) { QuietLeaves(cfg, w, h, j, pc, c); } else { DispatchSteps(cfg, w, h, j, pc, c); }
    }
  }

  /** Where the record of an owned key stands: not completed before its grant, and as decided after. */
  lemma OwnedProgress(w: World, k: Key)
    requires WorldOk(w)
    ensures ProgressOf(w.disk, k).CompletedWith? ==>
              k in w.granted && k in w.decided && ProgressOf(w.disk, k).receipt == w.decided[k]
  {
    var v := Current(w.disk, k);
    assert v in Entry(w.disk, k);
    if v.Some? { assert ContentOk(w, w.disk.files[v.value]); }
  }

  lemma SyncsKeepProgress(d: Disk<ReplayRecord>, k: Key, i: Inode)
    ensures ProgressOf(SyncDirectory(d), k) == ProgressOf(d, k)
    ensures i in d.files ==> ProgressOf(SyncFile(d, i), k) == ProgressOf(d, k)
  {
    EntryAfterSync(d, k);
  }

  lemma OpenForward(w: World, h: Handler, j: Job, first: Found, c: Choice)
    ensures Forward(ProgressOf(w.disk, JobKey(j)), ProgressOf(OpenClaim(w, h, j, first, c).world.disk, JobKey(j)))
  {
    hide RefuseAction;
    RefuseLeaves(w, h, j.action);
  }

  lemma WriteForward(w: World, h: Handler, j: Job, first: Found, i: Inode, c: Choice)
    requires Ready(w, h, j, ClaimWriting(first, i)) && i in w.disk.files
    ensures Forward(ProgressOf(w.disk, JobKey(j)), ProgressOf(WriteClaim(w, h, j, first, i, c).world.disk, JobKey(j)))
  {
    hide WorldOk, RecordKnown, JobOk, RefuseAction;
    OwnedProgress(w, JobKey(j));
    RefuseLeaves(w, h, j.action);
    RefuseLeaves(w.(disk := Write(w.disk, i, Claimed(RecordOf(j)))), h, j.action);
  }

  lemma ClaimSyncsForward(w: World, h: Handler, j: Job, first: Found, i: Inode, c: Choice)
    ensures i in w.disk.files ==>
              Forward(ProgressOf(w.disk, JobKey(j)),
                      ProgressOf(SyncClaimFile(w, h, j, first, i, c).world.disk, JobKey(j)))
    ensures Forward(ProgressOf(w.disk, JobKey(j)),
                    ProgressOf(SyncClaimDirectory(w, h, j, first, c).world.disk, JobKey(j)))
  {
    hide RefuseAction, SyncDirectory, SyncFile, ProgressOf;
    SyncsKeepProgress(w.disk, JobKey(j), i);
    RefuseLeaves(w, h, j.action);
  }

  lemma TemporaryKeepsProgress(w: World, k: Key, content: Content<ReplayRecord>)
    requires DiskOk(w)
    ensures ProgressOf(CreateTemporary(w.disk, k, content), k) == ProgressOf(w.disk, k)
  {
    assert Current(w.disk, k) in Entry(w.disk, k);
  }

  lemma RenameCompletes(w: World, k: Key, i: Inode, receipt: Receipt)
    requires WorldOk(w) && k in w.decided && w.decided[k] == receipt
    requires i in w.disk.files && w.disk.files[i].content.Completed?
    requires w.disk.files[i].content.receipt == receipt
    ensures Forward(ProgressOf(w.disk, k), ProgressOf(Rename(w.disk, i, k), k))
  {
    OwnedProgress(w, k);
    assert KeyOk(w, k);
    GrantedIsPresent(w, k);
    EntryAfterChange(w.disk, k, Some(i), k);
  }

  lemma CompletionForward(w: World, h: Handler, j: Job, pc: Pc, c: Choice, m: Move)
    requires Ready(w, h, j, pc) && FilePresent(w, pc)
    requires match pc
             case CompleteCreating(r) => m == CreateCompletion(w, h, j, r, c)
             case CompleteSyncing(r, i) => m == SyncCompletion(w, h, j, r, i, c)
             case CompleteRenaming(r, i) => m == RenameCompletion(w, h, j, r, i, c)
             case CompleteSyncingDirectory(r) => m == SyncCompletionDirectory(w, h, j, r, c)
             case _ => false
    ensures Forward(ProgressOf(w.disk, JobKey(j)), ProgressOf(m.world.disk, JobKey(j)))
  {
    hide WorldOk, JobOk, Reject, SyncDirectory, SyncFile, Rename, CreateTemporary, Give, ProgressOf;
    var k := JobKey(j);
    DiskOfWorld(w);
    match pc
    case CompleteCreating(r) => TemporaryKeepsProgress(w, k, Completed(RecordOf(j), r));
    case CompleteSyncing(_, i) => SyncsKeepProgress(w.disk, k, i);
    case CompleteRenaming(r, i) => RenameCompletes(w, k, i, r);
    case CompleteSyncingDirectory(r) =>
      SyncsKeepProgress(w.disk, k, 0);
      GiveLeaves(w.(disk := SyncDirectory(w.disk)), h, j.action, r);
  }

  lemma DiskOfWorld(w: World)
    requires WorldOk(w)
    ensures DiskOk(w)
  {
  }

  /**
   Absent, then claimed or torn, then completed, with the receipt it keeps: no step but a crash takes
   a record back or skips the claim. A crash leaves a key that was never granted without a completed
   record, and of a granted one it undoes an unsynced rename at most.
   */
  lemma RecordsMoveForward(cfg: Config, events: seq<Event>, e: Event, k: Key)
    ensures var s := RunOf(cfg, events);
            var before, after := ProgressOf(s.world.disk, k), ProgressOf(Next(cfg, s, e).world.disk, k);
            && (!e.CrashAndRestart? ==> Forward(before, after))
            && (e.CrashAndRestart? && k !in s.world.granted ==> !before.CompletedWith? && !after.CompletedWith?)
            && (e.CrashAndRestart? && k in s.world.granted ==>
                  && !before.Absent?
                  && (after == before
                      || (before.CompletedWith? && after == ClaimedOrTorn && |Entry(s.world.disk, k)| > 1)))
  {
    hide Inv, CompletedLast, Restart, ProgressOf, Entry, Next;
    var s := RunOf(cfg, events);
    EveryRunKeepsInv(cfg, events);
    if e.CrashAndRestart? {
      EveryRunCompletesLast(cfg, events, k);
      CrashProgress(s, e.keep, e.torn, k);
      CrashIs(cfg, s, e);
    } else {
      StepForward(cfg, s, e, k);
    }
  }

  lemma CrashIs(cfg: Config, s: State, e: Event)
    requires e.CrashAndRestart?
    ensures Next(cfg, s, e).world == Restart(s.world, e.keep, e.torn)
  {
  }

  lemma StepForward(cfg: Config, s: State, e: Event, k: Key)
    requires Inv(s) && !e.CrashAndRestart?
    ensures Forward(ProgressOf(s.world.disk, k), ProgressOf(Next(cfg, s, e).world.disk, k))
  {
    hide WorldOk, HandlerOk, WorkStep, Authorized, Arrive, SameFor, ProgressOf, Entry, HandlerStep;
    match e
    case Request(id, request) =>
      OwnedProgress(s.world, k);
      if id !in s.handlers && ValidRequest(request) { ArriveKeepsProgress(s.world, request, k); }
    case Advance(id, choice) =>
      OwnedProgress(s.world, k);
      if id in s.handlers {
        var h := s.handlers[id];
        HandlerStepGood(cfg, s.world, h, choice);
        HandlerForward(cfg, s.world, h, choice, k);
      }
    case ChangeContext(change) => ContextKeepsProgress(s.world, change, k);
    case CrashAndRestart(_, _) =>
  }

  lemma ArriveKeepsProgress(w: World, request: IngressRequest, k: Key)
    ensures ProgressOf(Arrive(w, request).world.disk, k) == ProgressOf(w.disk, k)
  {
  }

  lemma ContextKeepsProgress(w: World, change: RemoteActionControl.Change, k: Key)
    ensures ProgressOf(ChangeRegistry(w, change).disk, k) == ProgressOf(w.disk, k)
  {
  }

  lemma CrashProgress(s: State, keep: map<Key, nat>, torn: set<Inode>, k: Key)
    requires Inv(s) && CompletedLast(s.world.disk, k)
    ensures var w := s.world;
            var before, after := ProgressOf(w.disk, k), ProgressOf(Restart(w, keep, torn).disk, k);
            && (k !in w.granted ==> !before.CompletedWith? && !after.CompletedWith?)
            && (k in w.granted ==>
                  && !before.Absent?
                  && (after == before || (before.CompletedWith? && after == ClaimedOrTorn && |Entry(w.disk, k)| > 1)))
  {
    hide Inv, WorldOk, CompletedLast, ProgressOf, Restart;
    var w, w' := s.world, Restart(s.world, keep, torn);
    InvIsOrder(s);
    CrashKeepsInv(s, keep, torn);
    InvIsOrder(State(w', map[]));
    RestartKeepsDecisions(w, keep, torn);
    OwnedProgress(w, k);
    OwnedProgress(w', k);
    if k in w.granted { GrantedCrash(w, keep, torn, k); }
  }

  lemma InvIsOrder(s: State)
    requires Inv(s)
    ensures WorldOk(s.world)
  {
  }

  lemma RestartKeepsDecisions(w: World, keep: map<Key, nat>, torn: set<Inode>)
    ensures Restart(w, keep, torn).granted == w.granted && Restart(w, keep, torn).decided == w.decided
    ensures Restart(w, keep, torn).disk == Crash(w.disk, keep, torn)
  {
  }

  lemma GrantedCrash(w: World, keep: map<Key, nat>, torn: set<Inode>, k: Key)
    requires WorldOk(w) && k in w.granted && CompletedLast(w.disk, k)
    ensures var before, after := ProgressOf(w.disk, k), ProgressOf(Crash(w.disk, keep, torn), k);
            && !before.Absent?
            && (after == before || (before.CompletedWith? && after == ClaimedOrTorn && |Entry(w.disk, k)| > 1))
  {
    GrantedIsPresent(w, k);
    assert KeyOk(w, k);
    EntryAfterCrash(w.disk, keep, torn, k);
    var v := Current(Crash(w.disk, keep, torn), k);
    assert v in Entry(w.disk, k) && Pinned(w, k, v);
    if |Entry(w.disk, k)| == 1 { assert v == Current(w.disk, k); }
  }

  // A completed record is the last of the values its entry may have.

  predicate CompletedAt(d: Disk<ReplayRecord>, v: Option<Inode>) {
    v.Some? && v.value in d.files && d.files[v.value].content.Completed?
  }

  ghost predicate CompletedLast(d: Disk<ReplayRecord>, k: Key) {
    forall v :: v in Entry(d, k) && CompletedAt(d, v) ==> ProgressOf(d, k).CompletedWith?
  }

  lemma UndecidedCompletesLast(w: World, k: Key)
    requires WorldOk(w) && k !in w.decided
    ensures CompletedLast(w.disk, k)
  {
    forall v | v in Entry(w.disk, k) ensures !CompletedAt(w.disk, v) {
      if v.Some? { assert ContentOk(w, w.disk.files[v.value]); }
    }
  }

  lemma SameCompletesLast(w: World, w': World, k: Key)
    requires DiskOk(w) && SameFor(w, w', k) && CompletedLast(w.disk, k)
    ensures CompletedLast(w'.disk, k)
  {
    SameProgress(w, w', k);
    forall v | v in Entry(w'.disk, k) ensures CompletedAt(w'.disk, v) ==> CompletedAt(w.disk, v) {
      assert v in Entry(w.disk, k);
    }
  }

  /** The disk steps of a completion; every other disk step is taken before the decision. */
  lemma CompletionCompletesLast(cfg: Config, w: World, h: Handler, j: Job, pc: Pc, c: Choice)
    requires Ready(w, h, j, pc) && FilePresent(w, pc) && CompletedLast(w.disk, JobKey(j))
    requires pc.CompleteCreating? || pc.CompleteSyncing? || pc.CompleteRenaming? || pc.CompleteSyncingDirectory?
    ensures CompletedLast(WorkStep(cfg, w, h, j, pc, c).world.disk, JobKey(j))
  {
    hide WorldOk, JobOk, Reject, SyncDirectory, SyncFile, Rename, CreateTemporary, Give, ProgressOf, CompletedLast;
    var k := JobKey(j);
    DiskOfWorld(w);
    match pc
    case CompleteCreating(r) => TemporaryCompletesLast(w, k, Completed(RecordOf(j), r));
    case CompleteSyncing(_, i) => SyncCompletesLast(w.disk, k, i);
    case CompleteRenaming(_, i) => RenamedCompletesLast(w.disk, k, i);
    case CompleteSyncingDirectory(r) =>
      DirectoryCompletesLast(w.disk, k);
      GiveLeaves(w.(disk := SyncDirectory(w.disk)), h, j.action, r);
  }

  lemma TemporaryCompletesLast(w: World, k: Key, content: Content<ReplayRecord>)
    requires DiskOk(w) && CompletedLast(w.disk, k)
    ensures CompletedLast(CreateTemporary(w.disk, k, content), k)
  {
    var d := CreateTemporary(w.disk, k, content);
    TemporaryKeepsProgress(w, k, content);
    assert Entry(d, k) == Entry(w.disk, k);
    forall v | v in Entry(d, k) ensures CompletedAt(d, v) ==> CompletedAt(w.disk, v) {
      if v.Some? { assert v.value in w.disk.files; }
    }
  }

  lemma SyncCompletesLast(d: Disk<ReplayRecord>, k: Key, i: Inode)
    requires i in d.files && CompletedLast(d, k)
    ensures CompletedLast(SyncFile(d, i), k)
  {
    SyncsKeepProgress(d, k, i);
    assert Entry(SyncFile(d, i), k) == Entry(d, k);
    forall v | v in Entry(d, k) ensures CompletedAt(SyncFile(d, i), v) ==> CompletedAt(d, v) {}
  }

  lemma RenamedCompletesLast(d: Disk<ReplayRecord>, k: Key, i: Inode)
    requires i in d.files && d.files[i].content.Completed?
    ensures CompletedLast(Rename(d, i, k), k)
  {
    EntryAfterChange(d, k, Some(i), k);
  }

  lemma DirectoryCompletesLast(d: Disk<ReplayRecord>, k: Key)
    ensures CompletedLast(SyncDirectory(d), k)
  {
    EntryAfterSync(d, k);
  }

  lemma CrashCompletesLast(d: Disk<ReplayRecord>, keep: map<Key, nat>, torn: set<Inode>, k: Key)
    ensures CompletedLast(Crash(d, keep, torn), k)
  {
    EntryAfterCrash(d, keep, torn, k);
  }

  /** The steps of a claim change the disk only while its key is undecided. */
  lemma ClaimStepsUndecided(cfg: Config, w: World, h: Handler, j: Job, pc: Pc, c: Choice)
    requires Ready(w, h, j, pc) && FilePresent(w, pc)
    requires pc.ClaimOpening? || pc.ClaimWriting? || pc.ClaimSyncingFile? || pc.ClaimSyncingDirectory?
    ensures var w' := WorkStep(cfg, w, h, j, pc, c).world;
            w'.disk == w.disk || (JobKey(j) !in w.decided && w'.decided == w.decided)
  {
    hide WorldOk, JobOk, FoundOk, RefuseAction, SyncDirectory, SyncFile, Write, CreateExclusive, Current, KeyOk;
    RefuseLeaves(w, h, j.action);
    if pc.ClaimWriting? { RefuseLeaves(w.(disk := Write(w.disk, pc.file, Claimed(RecordOf(j)))), h, j.action); }
    if pc.ClaimOpening? && Current(w.disk, JobKey(j)).None? { NotGrantedWhenAbsent(w, JobKey(j)); }
    UngrantedIsUndecided(w, JobKey(j));
  }

  lemma UngrantedIsUndecided(w: World, k: Key)
    requires WorldOk(w)
    ensures k in w.decided ==> k in w.granted
  {
    assert KeyOk(w, k);
  }

  lemma HandlerCompletesLast(cfg: Config, w: World, h: Handler, c: Choice, k: Key)
    requires WorldOk(w) && HandlerOk(w, h) && CompletedLast(w.disk, k)
    requires Good(w, h, HandlerStep(cfg, w, h, c), KeyFor(h))
    ensures CompletedLast(HandlerStep(cfg, w, h, c).world.disk, k)
  {
    hide WorkStep, Authorized, PcOk, JobOk, KeyOk, AnswerOk, CompletedLast, DiskOk;
    var w' := HandlerStep(cfg, w, h, c).world;
    if k != KeyFor(h) {
      assert SameFor(w, w', k);
      SameCompletesLast(w, w', k);
    } else if h.stage.Working? && DiskPc(h.stage.pc) {
      FileAlwaysPresent(w, h);
      var j, pc := h.stage.job, h.stage.pc;
      if pc.ClaimOpening? || pc.ClaimWriting? || pc.ClaimSyncingFile? || pc.ClaimSyncingDirectory? {
        ClaimStepsUndecided(cfg, w, h, j, pc, c);
        if w'.disk != w.disk { UndecidedCompletesLast(w', k); }
      } else {
        CompletionCompletesLast(cfg, w, h, j, pc, c);
      }
    } else {
      DiskStepsOnly(cfg, w, h, c);
    }
  }

  lemma NextCompletesLast(cfg: Config, s: State, e: Event, k: Key)
    requires Inv(s) && CompletedLast(s.world.disk, k)
    ensures CompletedLast(Next(cfg, s, e).world.disk, k)
  {
    hide WorldOk, HandlerOk, HandlerStep, Arrive, CompletedLast, Crash;
    match e
    case Request(id, request) => ArriveLeaves(s.world, request);
    case Advance(id, choice) =>
      if id in s.handlers {
        HandlerStepGood(cfg, s.world, s.handlers[id], choice);
        HandlerCompletesLast(cfg, s.world, s.handlers[id], choice, k);
      }
    case ChangeContext(_) =>
    case CrashAndRestart(keep, torn) => CrashCompletesLast(s.world.disk, keep, torn, k);
  }

  lemma ArriveLeaves(w: World, request: IngressRequest)
    ensures Arrive(w, request).world.disk == w.disk
  {
  }

  lemma {:induction false} EveryRunCompletesLast(cfg: Config, events: seq<Event>, k: Key)
    ensures CompletedLast(RunOf(cfg, events).world.disk, k)
    decreases |events|
  {
    hide Inv, Next;
    if events != [] {
      EveryRunKeepsInv(cfg, events[..|events| - 1]);
      EveryRunCompletesLast(cfg, events[..|events| - 1], k);
      NextCompletesLast(cfg, RunOf(cfg, events[..|events| - 1]), events[|events| - 1], k);
    }
  }

  lemma ClaimStepForward(cfg: Config, w: World, h: Handler, j: Job, pc: Pc, c: Choice)
    requires Ready(w, h, j, pc) && FilePresent(w, pc)
    requires pc.ClaimOpening? || pc.ClaimWriting? || pc.ClaimSyncingFile? || pc.ClaimSyncingDirectory?
    ensures Forward(ProgressOf(w.disk, JobKey(j)), ProgressOf(WorkStep(cfg, w, h, j, pc, c).world.disk, JobKey(j)))
  {
    hide Ready, OpenClaim, WriteClaim, SyncClaimFile, SyncClaimDirectory, Forward, ProgressOf;
    match pc
    case ClaimOpening(first) => OpenForward(w, h, j, first, c);
    case ClaimWriting(first, i) => WriteForward(w, h, j, first, i, c);
    case ClaimSyncingFile(first, i) => ClaimSyncsForward(w, h, j, first, i, c);
    case ClaimSyncingDirectory(first, i) => ClaimSyncsForward(w, h, j, first, i, c);
  }

  lemma CompletionStepForward(cfg: Config, w: World, h: Handler, j: Job, pc: Pc, c: Choice)
    requires Ready(w, h, j, pc) && FilePresent(w, pc)
    requires pc.CompleteCreating? || pc.CompleteSyncing? || pc.CompleteRenaming? || pc.CompleteSyncingDirectory?
    ensures Forward(ProgressOf(w.disk, JobKey(j)), ProgressOf(WorkStep(cfg, w, h, j, pc, c).world.disk, JobKey(j)))
  {
    hide Ready, CreateCompletion, SyncCompletion, RenameCompletion, SyncCompletionDirectory, Forward, ProgressOf;
    CompletionForward(w, h, j, pc, c, WorkStep(cfg, w, h, j, pc, c));
  }

  lemma HandlerForward(cfg: Config, w: World, h: Handler, c: Choice, k: Key)
    requires WorldOk(w) && HandlerOk(w, h)
    requires Good(w, h, HandlerStep(cfg, w, h, c), KeyFor(h))
    ensures Forward(ProgressOf(w.disk, k), ProgressOf(HandlerStep(cfg, w, h, c).world.disk, k))
  {
    hide WorkStep, Authorized, ProgressOf, PcOk, JobOk, KeyOk, AnswerOk;
    var w' := HandlerStep(cfg, w, h, c).world;
    if k != KeyFor(h) {
      assert SameFor(w, w', k);
      SameProgress(w, w', k);
    } else if h.stage.Working? && DiskPc(h.stage.pc) {
      FileAlwaysPresent(w, h);
      var j, pc := h.stage.job, h.stage.pc;
      if pc.ClaimOpening? || pc.ClaimWriting? || pc.ClaimSyncingFile? || pc.ClaimSyncingDirectory? {
        ClaimStepForward(cfg, w, h, j, pc, c);
      } else {
        CompletionStepForward(cfg, w, h, j, pc, c);
      }
    } else {
      DiskStepsOnly(cfg, w, h, c);
      SameDiskSameProgress(w, w', k);
    }
  }

  lemma SameDiskSameProgress(w: World, w': World, k: Key)
    requires w'.disk == w.disk
    ensures ProgressOf(w'.disk, k) == ProgressOf(w.disk, k)
  {
  }

  // Truthful acceptance.

  /**
   An `accepted` answer to any request, first or replayed, means: exactly one call of the dispatch
   handle for its key, which reached the boundary carrying this action's kind and text and the
   record's thread and turn, exactly one request made of it, and a response classified accepted.
   */
  lemma TruthfulAcceptance(cfg: Config, events: seq<Event>, a: Answer)
    requires a in RunOf(cfg, events).world.answers && a.receipt.verdict == Accepted
    ensures a.job.Some? && a.request.action == Some(a.job.value.action)
    ensures var calls := History(RunOf(cfg, events).world, JobKey(a.job.value));
            && |calls| == 4 && calls[0].Invoked? && calls[1].Reached? && calls[2].Requested? && calls[3].Responded?
            && calls[0].action == PrivateOf(a.request.action.value, calls[1].active) == calls[1].action
            && calls[2].request == RequestFor(calls[1].action) == calls[3].request
            && Classify(calls[3].response, calls[2].request) == AcceptedResponse
    ensures a.receipt == Receipt(Some(Correlate(a.request.action.value)), Accepted)
  {
    var w := RunOf(cfg, events).world;
    EveryRunKeepsInv(cfg, events);
    assert AnswerOk(w, a);
    assert KeyOk(w, JobKey(a.job.value));
  }

  /** A different action under the same key is never accepted, nor answered with its stored receipt. */
  lemma OtherActionsNeverShare(cfg: Config, events: seq<Event>, a: Answer, b: Answer)
    requires a in RunOf(cfg, events).world.answers && b in RunOf(cfg, events).world.answers
    requires (a.stored || a.receipt.verdict == Accepted) && a.job.Some? && b.job.Some?
    requires JobKey(a.job.value) == JobKey(b.job.value) && a.request.action != b.request.action
    ensures b.receipt.verdict != Accepted && !b.stored
  {
    var w := RunOf(cfg, events).world;
    EveryRunKeepsInv(cfg, events);
    assert AnswerOk(w, a) && AnswerOk(w, b);
  }

  // Live binding.

  /** The boundary is reached only while the very record resolved is active and unexpired. */
  lemma ReachedOnlyWhileActive(cfg: Config, s: State, e: Event, k: Key, n: nat)
    requires |History(s.world, k)| <= n < |History(Next(cfg, s, e).world, k)|
    requires History(Next(cfg, s, e).world, k)[n].Reached?
    ensures var call := History(Next(cfg, s, e).world, k)[n];
            && s.world.registry.active == Some(call.active) && s.world.registry.epoch == call.epoch
            && e.Advance? && e.choice.handleClock == Ms(call.at) && call.at < call.active.expiresAtMs
            && call.action.threadId == call.active.threadId
            && call.action.expectedTurnId == call.active.expectedTurnId
  {
    assert e.Advance? && e.id in s.handlers;
    OnlyHandlesReach(cfg, s.world, s.handlers[e.id], e.choice, k);
    var stage := s.handlers[e.id].stage;
    HandleReaches(s.world, s.handlers[e.id], stage.job, stage.pc.first, stage.pc.second.value, e.choice, k, n);
  }

  lemma HandleReaches(
    w: World, h: Handler, j: Job, first: Found, second: Record, c: Choice, k: Key, n: nat)
    requires var calls := History(CallHandle(w, h, j, first, second, c).world, k);
             |History(w, k)| <= n < |calls| && calls[n].Reached?
    ensures var call := History(CallHandle(w, h, j, first, second, c).world, k)[n];
            && w.registry.active == Some(call.active) && w.registry.epoch == call.epoch
            && c.handleClock == Ms(call.at) && call.at < call.active.expiresAtMs
            && call.action.threadId == call.active.threadId
            && call.action.expectedTurnId == call.active.expectedTurnId
  {
    hide EnterBoundary, PrivateOf, Reject;
    var p := PrivateOf(j.action, second);
    var invoked := Note(w, JobKey(j), [Invoked(p, first, second)]);
    if HandleAdmits(w.registry, second, c.handleClock, p.threadId, p.expectedTurnId) {
      EnteringReaches(invoked, h, j, p, second, c, k);
    }
  }

  lemma EnteringReaches(w: World, h: Handler, j: Job, p: PrivateAction, active: Record, c: Choice, k: Key)
    requires c.handleClock.Ms?
    ensures var calls := History(EnterBoundary(w, h, j, p, active, c).world, k);
            && History(w, k) <= calls
            && forall n :: |History(w, k)| <= n < |calls| && calls[n].Reached? ==>
                 calls[n] == Reached(p, active, w.registry.epoch, c.handleClock.ms)
  {
    hide AfterBegin;
  }

  /** Only a re-checking handler whose context still matches reaches the boundary. */
  lemma OnlyHandlesReach(cfg: Config, w: World, h: Handler, c: Choice, k: Key)
    requires var calls := History(HandlerStep(cfg, w, h, c).world, k);
             exists n :: |History(w, k)| <= n < |calls| && calls[n].Reached?
    ensures h.stage.Working? && h.stage.pc.Rechecking? && h.stage.pc.second.Some?
    ensures HandlerStep(cfg, w, h, c)
            == CallHandle(w, h, h.stage.job, h.stage.pc.first, h.stage.pc.second.value, c)
  {
    hide WorkStep, Authorized;
    AuthorizedLeaves(cfg, w, h, c);
    if h.stage.Working? && FilePresent(w, h.stage.pc) {
      var j, pc := h.stage.job, h.stage.pc;
      if QuietPc(pc) { QuietLeaves(cfg, w, h, j, pc, c); }
      else if DiskPc(pc) { DiskLeaves(cfg, w, h, j, pc, c); }
      else { WorkReaches(cfg, w, h, j, pc, c, k); }
    }
  }

  lemma WorkReaches(cfg: Config, w: World, h: Handler, j: Job, pc: Pc, c: Choice, k: Key)
    requires pc.Rechecking? || pc.Dispatching?
    requires var calls := History(WorkStep(cfg, w, h, j, pc, c).world, k);
             exists n :: |History(w, k)| <= n < |calls| && calls[n].Reached?
    ensures pc.Rechecking? && pc.second.Some?
    ensures WorkStep(cfg, w, h, j, pc, c) == CallHandle(w, h, j, pc.first, pc.second.value, c)
  {
    hide CallHandle, ActionResultReceipt, SettlementOf;
    if pc.Dispatching? { SettledNeverReaches(w, h, j, pc.begun, c, k); }
  }

  lemma SettledNeverReaches(w: World, h: Handler, j: Job, begun: Begun, c: Choice, k: Key)
    ensures var calls := History(Settled(w, h, j, begun, c).world, k);
            forall n :: |History(w, k)| <= n < |calls| ==> !calls[n].Reached?
  {
    hide ActionResultReceipt, SettlementOf;
  }

  /**
   Every action that reaches the boundary is bound to a record whose five fields equal those
   resolved before the claim. If no context identifier was ever reused, it is that same record and
   the registry has not changed since: any revoke, rotation, re-issue or restart in between, at
   whatever await, would have prevented it.
   */
  lemma LiveBinding(cfg: Config, events: seq<Event>, k: Key)
    ensures var w := RunOf(cfg, events).world;
            var calls := History(w, k);
            |calls| > 1 ==>
              && calls[0].Invoked? && calls[1].Reached?
              && MatchingContext(calls[0].first.record, calls[1].active)
              && calls[1].action.threadId == calls[0].first.record.threadId
              && calls[1].action.expectedTurnId == calls[0].first.record.expectedTurnId
              && (!w.reused ==> calls[1].active == calls[0].first.record
                                && calls[1].epoch == calls[0].first.epoch)
  {
    EveryRunKeepsInv(cfg, events);
    assert KeyOk(RunOf(cfg, events).world, k);
  }

  // Listener transparency.

  /**
   For every answer to a request the listener forwards, the client gets the handler's own status and
   bytes, never the listener's fallback.
   */
  lemma ListenerIsTransparent(cfg: Config, events: seq<Event>, a: Answer)
    requires a in RunOf(cfg, events).world.answers && Forwarded(a.request)
    ensures ValidRequest(a.request) && Admits(a.request, a.status, a.receipt) && ValidReceipt(a.receipt)
    ensures Written(a.request, ResultOf(a.status, a.receipt)) == HttpReply(a.status, Serialize(a.receipt))
  {
    hide Admits, Serialize, Written;
    EveryRunKeepsInv(cfg, events);
    assert AnswerOk(RunOf(cfg, events).world, a);
    AdmittedIsTransparent(a.request, a.status, a.receipt);
  }
}
