/**
 Runs of the remote-action protocol: any number of handlers, each suspended at some await, with
 registry changes and crashes in between. A crash loses every handler and the registry's record,
 and leaves any disk the unsynced operations allow. `Inv` is what every step keeps.
 */
module RemoteActionRuns {
  import opened Collections
  import opened JsonGrammar
  import opened RemoteActionReceipt
  import opened RelayTurnAction
  import opened RemoteActionControl
  import opened ReplayDirectory
  import opened FileReplayStore
  import opened TailscaleIngress
  import opened LocalhostListener

  datatype State = State(world: World, handlers: map<nat, Handler>)

  datatype Event =
    | Request(id: nat, request: IngressRequest)
    | Advance(id: nat, choice: Choice)
    | ChangeContext(change: RemoteActionControl.Change)
    | CrashAndRestart(keep: map<Key, nat>, torn: set<Inode>)

  const INITIAL := State(EMPTY_WORLD, map[])

  /** Record an issue, noting when a drawn identifier had been issued before. */
  function ChangeRegistry(w: World, change: RemoteActionControl.Change): World {
    var r := AfterChange(w.registry, change);
    if r == w.registry || r.active.None? then w.(registry := r)
    else
      var record := r.active.value;
      w.(registry := r, reused := w.reused || record.controlContextId in w.issued,
         issued := w.issued[record.controlContextId := record])
  }

  function Restart(w: World, keep: map<Key, nat>, torn: set<Inode>): World {
    w.(disk := Crash(w.disk, keep, torn), registry := Registry(None, w.registry.epoch + 1))
  }

  function Next(cfg: Config, s: State, e: Event): State {
    match e
    case Request(id, request) =>
      if id in s.handlers || !ValidRequest(request) then s
      else
        var m := Arrive(s.world, request);
        State(m.world, s.handlers[id := m.handler])
    case Advance(id, choice) =>
      if id !in s.handlers then s
      else
        var m := HandlerStep(cfg, s.world, s.handlers[id], choice);
        State(m.world, s.handlers[id := m.handler])
    case ChangeContext(change) => s.(world := ChangeRegistry(s.world, change))
    case CrashAndRestart(keep, torn) => State(Restart(s.world, keep, torn), map[])
  }

  function RunOf(cfg: Config, events: seq<Event>): State
    decreases |events|
  {
    if events == [] then INITIAL
    else Next(cfg, RunOf(cfg, events[..|events| - 1]), events[|events| - 1])
  }

  /** A crash loses every handler and the active context; only the disk, as the crash left it, and history stay. */
  lemma CrashesLoseEverythingElse(cfg: Config, s: State, keep: map<Key, nat>, torn: set<Inode>)
    ensures var t := Next(cfg, s, CrashAndRestart(keep, torn));
            && t.handlers == map[] && t.world.disk == Crash(s.world.disk, keep, torn)
            && t.world.registry.active.None? && t.world.registry.epoch > s.world.registry.epoch
            && t.world == s.world.(disk := t.world.disk, registry := t.world.registry)
  {
  }

  /** A context change is the registry's own and leaves handlers, disk, answers and history alone. */
  lemma ContextsChangeAlone(cfg: Config, s: State, change: RemoteActionControl.Change)
    ensures var t := Next(cfg, s, ChangeContext(change));
            && t.handlers == s.handlers && t.world.registry == AfterChange(s.world.registry, change)
            && t.world == s.world.(registry := t.world.registry, reused := t.world.reused, issued := t.world.issued)
  {
  }

  // What holds of the world.

  ghost predicate RecordKnown(w: World, r: Record) {
    !w.reused ==> r.controlContextId in w.issued && w.issued[r.controlContextId] == r
  }

  ghost predicate RegistryOk(w: World) {
    && StampIsCurrent(w.registry)
    && (w.registry.active.Some? ==> RecordKnown(w, w.registry.active.value))
  }

  /** A file's content belongs to the key it was created for; a completed one holds the decision. */
  ghost predicate ContentOk(w: World, f: File<ReplayRecord>) {
    match f.content
    case Torn => true
    case Claimed(r) => KeyOf(r) == f.home
    case Completed(r, receipt) =>
      && f.home in w.granted && w.granted[f.home] == r
      && f.home in w.decided && w.decided[f.home] == receipt
  }

  ghost predicate DiskOk(w: World) {
    && (forall i :: i in w.disk.files ==> i < w.disk.next && ContentOk(w, w.disk.files[i]))
    && (forall k, v :: v in Entry(w.disk, k) ==> v.Some? ==>
          v.value in w.disk.files && w.disk.files[v.value].home == k)
  }

  /** A possible value of a granted key's entry: a synced record of that claim, never nothing. */
  ghost predicate Pinned(w: World, k: Key, v: Option<Inode>) {
    && v.Some? && v.value in w.disk.files && k in w.granted
    && var f := w.disk.files[v.value];
       && f.synced
       && (f.content == Claimed(w.granted[k])
           || (k in w.decided && f.content == Completed(w.granted[k], w.decided[k])))
  }

  /** The life of one dispatch: called, let through, requested, responded, in that order at most once. */
  ghost predicate TraceOk(calls: seq<Call>, claim: ReplayRecord) {
    && |calls| <= 4
    && (|calls| > 0 ==> InvokedOk(calls[0], claim))
    && (|calls| > 1 ==> ReachedOk(calls[0], calls[1]))
    && (|calls| > 2 ==> calls[2].Requested? && calls[2].request == RequestFor(calls[0].action))
    && (|calls| > 3 ==> calls[3].Responded? && calls[3].request == calls[2].request)
  }

  ghost predicate InvokedOk(c: Call, claim: ReplayRecord) {
    && c.Invoked?
    && MatchingContext(c.first.record, c.second)
    && c.first.record.stamp == c.first.epoch
    && c.action == PrivateOf(claim.fingerprint.action, c.second)
  }

  ghost predicate ReachedOk(invoked: Call, c: Call) {
    && invoked.Invoked? && c.Reached?
    && c.action == invoked.action && c.active == invoked.second
    && c.active.stamp == c.epoch && c.at < c.active.expiresAtMs
  }

  /** With context identifiers never reused, nothing changed between first resolution and dispatch. */
  ghost predicate FreshTraceOk(calls: seq<Call>) {
    |calls| > 1 && calls[0].Invoked? && calls[1].Reached? ==>
      calls[1].active == calls[0].first.record && calls[1].epoch == calls[0].first.epoch
  }

  /** A decided receipt is about the claimed action, and accepted only on an accepting response. */
  ghost predicate DecisionOk(claim: ReplayRecord, receipt: Receipt, calls: seq<Call>) {
    && Projects(receipt, Expect(Some(Correlate(claim.fingerprint.action))), true, ANY)
    && (receipt.verdict == Accepted ==>
          |calls| == 4 && calls[3].Responded?
          && Classify(calls[3].response, calls[3].request) == AcceptedResponse)
  }

  ghost predicate KeyOk(w: World, k: Key) {
    && (k in w.granted ==>
          && KeyOf(w.granted[k]) == k
          && (forall v :: v in Entry(w.disk, k) ==> Pinned(w, k, v))
          && TraceOk(History(w, k), w.granted[k])
          && (!w.reused ==> FreshTraceOk(History(w, k))))
    && (k in w.decided ==> k in w.granted && DecisionOk(w.granted[k], w.decided[k], History(w, k)))
    && (k !in w.granted ==> History(w, k) == [])
  }

  /** The receipt an answer carries is the one decided for the claim of this very request. */
  ghost predicate Committed(w: World, a: Answer) {
    && a.job.Some? && JobKey(a.job.value) in w.granted && JobKey(a.job.value) in w.decided
    && w.granted[JobKey(a.job.value)] == RecordOf(a.job.value)
    && w.decided[JobKey(a.job.value)] == a.receipt
  }

  ghost predicate AnswerOk(w: World, a: Answer) {
    && (a.stored ==> Committed(w, a))
    && (a.receipt.verdict == Accepted ==> Committed(w, a))
    && ValidRequest(a.request) && StatusFits(a.status, a.receipt)
    && (Forwarded(a.request) ==> Admits(a.request, a.status, a.receipt))
    && (a.job.Some? ==> a.request.action == Some(a.job.value.action))
  }

  ghost predicate WorldOk(w: World) {
    && RegistryOk(w)
    && DiskOk(w)
    && (forall k :: KeyOk(w, k))
    && (forall a :: a in w.answers ==> AnswerOk(w, a))
  }

  // What holds of a handler.

  ghost predicate FoundOk(w: World, j: Job, f: Found) {
    && f.record.installationId == j.installationId
    && f.record.controlContextId == j.action.controlContextId
    && f.record.stamp == f.epoch
    && RecordKnown(w, f.record)
  }

  /** From exclusive creation to the last answer, a handler owns its key. */
  predicate Owner(pc: Pc) {
    !(pc.Fingerprinting? || pc.InspectOpening? || pc.InspectReading? || pc.Resolving?
      || pc.ClaimOpening? || pc.RereadOpening? || pc.Rereading?)
  }

  ghost predicate OwnFile(w: World, k: Key, i: Inode, content: Content<ReplayRecord>, synced: bool) {
    i in w.disk.files && w.disk.files[i] == File(k, content, synced)
  }

  ghost predicate Creating(w: World, k: Key, i: Inode) {
    k !in w.granted && Current(w.disk, k) == Some(i) && i in w.disk.files && w.disk.files[i].home == k
  }

  ghost predicate Undecided(w: World, j: Job) {
    && JobKey(j) in w.granted && w.granted[JobKey(j)] == RecordOf(j)
    && JobKey(j) !in w.decided
  }

  ghost predicate DecidedAs(w: World, j: Job, receipt: Receipt) {
    && JobKey(j) in w.granted && w.granted[JobKey(j)] == RecordOf(j)
    && JobKey(j) in w.decided && w.decided[JobKey(j)] == receipt
  }

  ghost predicate PcOk(w: World, j: Job, pc: Pc) {
    var k := JobKey(j);
    match pc
    case Resolving(_, found) => found.Some? ==> FoundOk(w, j, found.value)
    case ClaimOpening(first) => FoundOk(w, j, first)
    case ClaimWriting(first, i) => FoundOk(w, j, first) && Creating(w, k, i)
    case ClaimSyncingFile(first, i) =>
      FoundOk(w, j, first) && Creating(w, k, i) && OwnFile(w, k, i, Claimed(RecordOf(j)), false)
    case ClaimSyncingDirectory(first, i) =>
      FoundOk(w, j, first) && Creating(w, k, i) && OwnFile(w, k, i, Claimed(RecordOf(j)), true)
    case Granted(first) => FoundOk(w, j, first) && Undecided(w, j) && History(w, k) == []
    case Rechecking(first, second) =>
      && FoundOk(w, j, first) && Undecided(w, j) && History(w, k) == []
      && (second.Some? ==> RecordKnown(w, second.value))
    case Dispatching(begun) =>
      && Undecided(w, j)
      && (match begun
          case Resolved(s) => |History(w, k)| == 2 && s.RefusedFor?
          case Sent(action, request) =>
            |History(w, k)| == 3 && History(w, k)[0].Invoked? && action == History(w, k)[0].action
            && request == RequestFor(action))
    case CompleteOpening(r) => DecidedAs(w, j, r)
    case CompleteReading(r, _) => DecidedAs(w, j, r)
    case CompleteCreating(r) => DecidedAs(w, j, r)
    case CompleteSyncing(r, i) => DecidedAs(w, j, r) && OwnFile(w, k, i, Completed(RecordOf(j), r), false)
    case CompleteRenaming(r, i) => DecidedAs(w, j, r) && OwnFile(w, k, i, Completed(RecordOf(j), r), true)
    case CompleteSyncingDirectory(r) => DecidedAs(w, j, r)
    case _ => true
  }

  /** The request got past the checks that come before authorization. */
  predicate FrontPassed(q: IngressRequest) { Forwarded(q) && q.jsonContentType && ValidRequest(q) }

  predicate JobOk(q: IngressRequest, j: Job) {
    FrontPassed(q) && q.action == Some(j.action) && SafeId(j.installationId)
  }

  ghost predicate HandlerOk(w: World, h: Handler) {
    match h.stage
    case Authorizing => FrontPassed(h.request)
    case Working(j, pc) => JobOk(h.request, j) && PcOk(w, j, pc)
    case Done(_) => true
  }

  predicate Owns(h: Handler, k: Key) {
    h.stage.Working? && Owner(h.stage.pc) && JobKey(h.stage.job) == k
  }

  ghost predicate Inv(s: State) {
    && WorldOk(s.world)
    && (forall id :: id in s.handlers ==> HandlerOk(s.world, s.handlers[id]))
    && (forall a, b, k :: a in s.handlers && b in s.handlers && Owns(s.handlers[a], k) && Owns(s.handlers[b], k)
          ==> a == b)
  }
}
