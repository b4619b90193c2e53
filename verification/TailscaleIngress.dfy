/**
 The remote-action request handler as a step function: one step is what a handler does between two
 of its awaits. Handlers share a world (disk, control-context registry) and leave history in it:
 which claims were granted, which receipt was decided for each key, every call of a dispatch
 handle, and every answer.
 */
module TailscaleIngress {
  import opened Collections
  import opened JsonGrammar
  import opened RemoteActionReceipt
  import opened RelayTurnAction
  import opened RemoteActionControl
  import opened ReplayDirectory
  import opened FileReplayStore

  const MAX_REMOTE_ACTION_BODY_BYTES := 32_768

  // Requests and configuration.

  /** A request as the handler's checks see it; `action` is the parsed and validated body. */
  datatype IngressRequest = IngressRequest(
    routed: bool, bodyBytes: Option<nat>, jsonContentType: bool, capability: bool,
    token: Option<Text>, action: Option<Action>)

  datatype Config = Config(maxWindowMs: int, maxSkewMs: int, admits: bool, admitsResolved: bool)

  /** What body validation guarantees about an action. */
  predicate ValidAction(a: Action) {
    SafeId(a.actionId) && IsContextId(a.controlContextId) && (a.kind == Stop ==> a.text == [])
  }

  predicate ValidRequest(q: IngressRequest) { q.action.Some? ==> ValidAction(q.action.value) }

  // The world the handlers share, and its history.

  /** One step in the life of a dispatch for some key. */
  datatype Call =
    | Invoked(action: PrivateAction, first: Found, second: Record)
    | Reached(action: PrivateAction, active: Record, epoch: nat, at: int)
    | Requested(request: Request)
    | Responded(request: Request, response: Response)

  /** A record resolved from the registry, and the registry's epoch at that moment. */
  datatype Found = Found(record: Record, epoch: nat)

  /** `stored`: the receipt is one the store holds, read from it or just written to it. */
  datatype Answer = Answer(
    request: IngressRequest, job: Option<Job>, status: int, receipt: Receipt, stored: bool)

  datatype World = World(
    disk: Disk<ReplayRecord>,
    registry: Registry,
    issued: map<Text, Record>,
    reused: bool,
    granted: map<Key, ReplayRecord>,
    decided: map<Key, Receipt>,
    history: map<Key, seq<Call>>,
    answers: seq<Answer>)

  const EMPTY_WORLD := World(EmptyDisk(), EMPTY, map[], false, map[], map[], map[], [])

  function History(w: World, k: Key): seq<Call> { if k in w.history then w.history[k] else [] }

  function Note(w: World, k: Key, calls: seq<Call>): World {
    w.(history := w.history[k := History(w, k) + calls])
  }

  // Handlers.

  /** What is fixed once a request has been authorized, parsed and found timely. */
  datatype Job = Job(installationId: Text, action: Action, nowMs: int, expiresAtMs: int)

  function RecordOf(j: Job): ReplayRecord {
    ReplayRecord(j.installationId, j.action.actionId, j.action.kind, Hmac(j.action), j.expiresAtMs)
  }

  function JobKey(j: Job): Key { Key(j.installationId, j.action.actionId) }

  /** The await a handler is suspended at. */
  datatype Pc =
    | Fingerprinting
    | InspectOpening
    | InspectReading(file: Inode)
    | Resolving(conflict: bool, found: Option<Found>)
    | ClaimOpening(first: Found)
    | RereadOpening
    | Rereading(file: Inode)
    | ClaimWriting(first: Found, file: Inode)
    | ClaimSyncingFile(first: Found, file: Inode)
    | ClaimSyncingDirectory(first: Found, file: Inode)
    | Granted(first: Found)
    | Rechecking(first: Found, second: Option<Record>)
    | Dispatching(begun: Begun)
    | CompleteOpening(receipt: Receipt)
    | CompleteReading(receipt: Receipt, file: Inode)
    | CompleteCreating(receipt: Receipt)
    | CompleteSyncing(receipt: Receipt, file: Inode)
    | CompleteRenaming(receipt: Receipt, file: Inode)
    | CompleteSyncingDirectory(receipt: Receipt)

  datatype Stage = Authorizing | Working(job: Job, pc: Pc) | Done(answer: Answer)

  datatype Handler = Handler(request: IngressRequest, stage: Stage)

  /** A handler's step: the world and the handler afterwards. */
  datatype Move = Move(world: World, handler: Handler)

  // What the environment decides at an await.

  datatype Fault = NoFault | RootFault | IoFault

  datatype Choice = Choice(
    fault: Fault,
    installation: Option<Text>,
    clock: Clock,
    handleClock: Clock,
    admitted: bool,
    landed: bool,
    boundary: Boundary,
    active: ActiveTurn,
    wellFormed: bool,
    delivery: Delivery)

  // Answers.

  function Reject(reason: Reason, a: Option<Action>): Receipt {
    Receipt(if a.Some? then Some(Correlate(a.value)) else None, Rejected(reason))
  }

  function Finish(w: World, h: Handler, status: int, receipt: Receipt, stored: bool): Move {
    var job := if h.stage.Working? then Some(h.stage.job) else None;
    var answer := Answer(h.request, job, status, receipt, stored);
    Move(w.(answers := w.answers + [answer]), h.(stage := Done(answer)))
  }

  /** Answer without correlation: nothing about the action is trusted yet. */
  function Refuse(w: World, h: Handler, status: int, reason: Reason): Move {
    Finish(w, h, status, Reject(reason, None), false)
  }

  /** Answer about an action, with the status its receipt has by default. */
  function RefuseAction(w: World, h: Handler, a: Action, status: int, reason: Reason): Move {
    Finish(w, h, status, Reject(reason, Some(a)), false)
  }

  /** Answer with a receipt of the store, found there or just completed. */
  function Give(w: World, h: Handler, a: Action, receipt: Receipt): Move {
    if Projects(receipt, Expect(Some(Correlate(a))), true, ANY)
    then Finish(w, h, DefaultStatus(receipt), receipt, true)
    else RefuseAction(w, h, a, 503, Unavailable)
  }

  function Goto(w: World, h: Handler, j: Job, pc: Pc): Move { Move(w, h.(stage := Working(j, pc))) }

  // Before the claim.

  /** The checks that need no await, up to the authorization of the app token. */
  function Arrive(w: World, q: IngressRequest): Move {
    var h := Handler(q, Authorizing);
    if !q.routed then Refuse(w, h, 404, InvalidRequest)
    else if q.bodyBytes.None? then Refuse(w, h, 400, InvalidRequest)
    else if q.bodyBytes.value > MAX_REMOTE_ACTION_BODY_BYTES then Refuse(w, h, 413, InvalidRequest)
    else if !q.jsonContentType then Refuse(w, h, 400, InvalidRequest)
    else if !q.capability then Refuse(w, h, 401, Unauthorized)
    else if q.token.None? then Refuse(w, h, 401, Unauthorized)
    else Move(w, h)
  }

  /** The request window: both instants parse, it is short enough and not from the future. */
  predicate WindowAllows(cfg: Config, a: Action, nowMs: int) {
    && a.issuedAt.ms.Some? && a.expiresAt.ms.Some?
    && a.expiresAt.ms.value > a.issuedAt.ms.value
    && a.expiresAt.ms.value - a.issuedAt.ms.value <= cfg.maxWindowMs
    && a.issuedAt.ms.value <= nowMs + cfg.maxSkewMs
  }

  /** Continue once the token's installation is known. */
  function Authorized(cfg: Config, w: World, h: Handler, c: Choice): Move {
    if c.fault != NoFault || c.installation.None? || !SafeId(c.installation.value) then
      Refuse(w, h, 401, Unauthorized)
    else if h.request.action.None? then Refuse(w, h, 400, InvalidAction)
    else
      var a := h.request.action.value;
      if c.clock.Unreadable? then RefuseAction(w, h, a, 503, Unavailable)
      else if !ReadableClock(c.clock) || !WindowAllows(cfg, a, c.clock.ms) then
        RefuseAction(w, h, a, 400, InvalidRequest)
      else if c.clock.ms >= a.expiresAt.ms.value then RefuseAction(w, h, a, 409, ExpiredRequest)
      else if cfg.admits && !c.admitted then RefuseAction(w, h, a, 400, InvalidRequest)
      else
        Goto(w, h, Job(c.installation.value, a, c.clock.ms, a.expiresAt.ms.value), Fingerprinting)
  }

  /** Continue with what `inspect` reported; a conflict waits for the resolved-action check if any. */
  function Inspected(cfg: Config, w: World, h: Handler, j: Job, s: StoreState): Move {
    match s
    case CompletedState(receipt) => Give(w, h, j.action, receipt)
    case UncertainState => RefuseAction(w, h, j.action, 503, OutcomeUnknown)
    case ConflictState =>
      if !cfg.admitsResolved then RefuseAction(w, h, j.action, 409, ReplayConflict)
      else Goto(w, h, j, Resolving(true, Lookup(w, j)))
    case _ => Goto(w, h, j, Resolving(false, Lookup(w, j)))
  }

  function Lookup(w: World, j: Job): Option<Found> {
    var r := Resolve(w.registry, j.installationId, j.action.controlContextId);
    if r.None? then None else Some(Found(r.value, w.registry.epoch))
  }

  /** Continue after the first resolution: the context must be known and unexpired. */
  function FirstResolved(cfg: Config, w: World, h: Handler, j: Job, pc: Pc, c: Choice): Move
    requires pc.Resolving?
  {
    var refusal :=
      if c.fault != NoFault then Some((503, Unavailable))
      else if pc.found.None? then Some((409, UnknownControlContext))
      else if j.nowMs >= pc.found.value.record.expiresAtMs then Some((409, ExpiredControlContext))
      else None;
    if refusal.Some? then
      if pc.conflict then RefuseAction(w, h, j.action, 409, ReplayConflict)
      else RefuseAction(w, h, j.action, refusal.value.0, refusal.value.1)
    else if cfg.admitsResolved && !c.admitted then RefuseAction(w, h, j.action, 400, InvalidRequest)
    else if pc.conflict then RefuseAction(w, h, j.action, 409, ReplayConflict)
    else Goto(w, h, j, ClaimOpening(pc.found.value))
  }

  // The claim.

  /** Exclusive creation of the record file. */
  function OpenClaim(w: World, h: Handler, j: Job, first: Found, c: Choice): Move {
    if c.fault != NoFault then RefuseAction(w, h, j.action, 503, Unavailable)
    else if Current(w.disk, JobKey(j)).Some? then Goto(w, h, j, RereadOpening)
    else
      Goto(w.(disk := CreateExclusive(w.disk, JobKey(j))), h, j, ClaimWriting(first, w.disk.next))
  }

  /** The claim lost the race: answer with what the winner left, or that it is uncertain. */
  function Reread(w: World, h: Handler, j: Job, s: StoreState): Move {
    match s
    case CompletedState(receipt) => Give(w, h, j.action, receipt)
    case ConflictState => RefuseAction(w, h, j.action, 409, ReplayConflict)
    case UncertainState => RefuseAction(w, h, j.action, 503, OutcomeUnknown)
    case _ => RefuseAction(w, h, j.action, 503, Unavailable)
  }

  function WriteClaim(w: World, h: Handler, j: Job, first: Found, i: Inode, c: Choice): Move
    requires i in w.disk.files
  {
    var written := w.(disk := Write(w.disk, i, Claimed(RecordOf(j))));
    if c.fault != NoFault then
      RefuseAction(if c.landed then written else w, h, j.action, 503, OutcomeUnknown)
    else Goto(written, h, j, ClaimSyncingFile(first, i))
  }

  function SyncClaimFile(w: World, h: Handler, j: Job, first: Found, i: Inode, c: Choice): Move
    requires i in w.disk.files
  {
    if c.fault != NoFault then RefuseAction(w, h, j.action, 503, OutcomeUnknown)
    else Goto(w.(disk := SyncFile(w.disk, i)), h, j, ClaimSyncingDirectory(first, i))
  }

  /** The directory sync that makes the claim durable; only now is it "new". */
  function SyncClaimDirectory(w: World, h: Handler, j: Job, first: Found, c: Choice): Move {
    if c.fault != NoFault then RefuseAction(w, h, j.action, 503, OutcomeUnknown)
    else
      Goto(w.(disk := SyncDirectory(w.disk), granted := w.granted[JobKey(j) := RecordOf(j)]),
           h, j, Granted(first))
  }

  // The dispatch.

  predicate MatchingContext(left: Record, right: Record) {
    && left.installationId == right.installationId
    && left.controlContextId == right.controlContextId
    && left.expiresAtMs == right.expiresAtMs
    && left.threadId == right.threadId
    && left.expectedTurnId == right.expectedTurnId
  }

  function PrivateOf(a: Action, r: Record): PrivateAction {
    PrivateAction(a.actionId, a.kind, r.threadId, r.expectedTurnId, if a.kind == Reply then a.text else [])
  }

  /** Fix the receipt for this key and start writing it. */
  function Decide(w: World, h: Handler, j: Job, receipt: Receipt): Move {
    Goto(w.(decided := w.decided[JobKey(j) := receipt]), h, j, CompleteOpening(receipt))
  }

  function DecideRejection(w: World, h: Handler, j: Job, reason: Reason): Move {
    Decide(w, h, j, Reject(reason, Some(j.action)))
  }

  /** Continue after the second resolution: re-check everything, then call the dispatch handle. */
  function Recheck(w: World, h: Handler, j: Job, first: Found, second: Option<Record>, c: Choice): Move {
    if c.fault != NoFault then DecideRejection(w, h, j, Unavailable)
    else if !ReadableClock(c.clock) then DecideRejection(w, h, j, Unavailable)
    else if c.clock.ms >= j.expiresAtMs then DecideRejection(w, h, j, ExpiredRequest)
    else if second.None? then DecideRejection(w, h, j, UnknownControlContext)
    else if c.clock.ms >= second.value.expiresAtMs then DecideRejection(w, h, j, ExpiredControlContext)
    else if !MatchingContext(first.record, second.value) then
      DecideRejection(w, h, j, UnknownControlContext)
    else CallHandle(w, h, j, first, second.value, c)
  }

  /** The handle's own check of the registry, then the boundary. */
  function CallHandle(w: World, h: Handler, j: Job, first: Found, second: Record, c: Choice): Move {
    var p := PrivateOf(j.action, second);
    var invoked := Note(w, JobKey(j), [Invoked(p, first, second)]);
    if !HandleAdmits(w.registry, second, c.handleClock, p.threadId, p.expectedTurnId) then
      DecideRejection(invoked, h, j, OutcomeUnknown)
    else EnterBoundary(invoked, h, j, p, second, c)
  }

  /** The boundary is reached: it resolves at once or sends its request and stays pending. */
  function EnterBoundary(w: World, h: Handler, j: Job, p: PrivateAction, active: Record, c: Choice): Move
    requires c.handleClock.Ms?
  {
    var begun := AfterBegin(c.boundary, if c.wellFormed then Some(p) else None, c.active).1;
    var reached := Note(w, JobKey(j), [Reached(p, active, w.registry.epoch, c.handleClock.ms)]);
    var w' := if begun.Sent? then Note(reached, JobKey(j), [Requested(begun.request)]) else reached;
    Goto(w', h, j, Dispatching(begun))
  }

  /** The receipt for what the boundary reported, if it is about this very action. */
  function ActionResultReceipt(s: Settlement, a: Action): Option<Receipt> {
    var candidate :=
      match s
      case AcceptedBy(about, rpc) =>
        if about == Correlate(a) && rpc == (if a.kind == Reply then TurnSteer else TurnInterrupt)
        then Some(Receipt(Some(about), Accepted)) else None
      case RefusedFor(about, reason) =>
        if about == Some(Correlate(a)) then Some(Receipt(about, Rejected(reason))) else None
      case OutcomeUnknownError => None;
    if candidate.Some? && Projects(candidate.value, Expect(Some(Correlate(a))), true, ANY)
    then candidate else None
  }

  /** Continue when the dispatch settles. */
  function Settled(w: World, h: Handler, j: Job, begun: Begun, c: Choice): Move {
    var settlement :=
      match begun
      case Resolved(s) => s
      case Sent(action, _) => SettlementOf(action, c.delivery);
    var answered :=
      if begun.Sent? && c.delivery.Delivered?
      then Note(w, JobKey(j), [Responded(begun.request, c.delivery.response)]) else w;
    var receipt := ActionResultReceipt(settlement, j.action);
    if receipt.None? then DecideRejection(answered, h, j, OutcomeUnknown)
    else Decide(answered, h, j, receipt.value)
  }

  // The completion.

  function Lost(w: World, h: Handler, j: Job): Move { RefuseAction(w, h, j.action, 503, OutcomeUnknown) }

  function OpenCompletion(w: World, h: Handler, j: Job, receipt: Receipt, c: Choice): Move {
    if c.fault != NoFault || Current(w.disk, JobKey(j)).None? then Lost(w, h, j)
    else Goto(w, h, j, CompleteReading(receipt, Current(w.disk, JobKey(j)).value))
  }

  function ReadCompletion(w: World, h: Handler, j: Job, receipt: Receipt, i: Inode, c: Choice): Move {
    var stored := if c.fault != NoFault then Torn else ReadLinked(w.disk, JobKey(j), i);
    if stored.Torn? || !MatchingRecord(stored.record, RecordOf(j)) then Lost(w, h, j)
    else if stored.Claimed? then Goto(w, h, j, CompleteCreating(receipt))
    else if stored.receipt != receipt then Lost(w, h, j)
    else Give(w, h, j.action, receipt)
  }

  function CreateCompletion(w: World, h: Handler, j: Job, receipt: Receipt, c: Choice): Move {
    if c.fault != NoFault then Lost(w, h, j)
    else
      Goto(w.(disk := CreateTemporary(w.disk, JobKey(j), Completed(RecordOf(j), receipt))), h, j,
           CompleteSyncing(receipt, w.disk.next))
  }

  function SyncCompletion(w: World, h: Handler, j: Job, receipt: Receipt, i: Inode, c: Choice): Move
    requires i in w.disk.files
  {
    if c.fault != NoFault then Lost(w, h, j)
    else Goto(w.(disk := SyncFile(w.disk, i)), h, j, CompleteRenaming(receipt, i))
  }

  function RenameCompletion(w: World, h: Handler, j: Job, receipt: Receipt, i: Inode, c: Choice): Move {
    if c.fault != NoFault then Lost(w, h, j)
    else Goto(w.(disk := Rename(w.disk, i, JobKey(j))), h, j, CompleteSyncingDirectory(receipt))
  }

  function SyncCompletionDirectory(w: World, h: Handler, j: Job, receipt: Receipt, c: Choice): Move {
    if c.fault != NoFault then Lost(w, h, j)
    else Give(w.(disk := SyncDirectory(w.disk)), h, j.action, receipt)
  }

  // One step of a handler.

  /** The file a handler is writing or syncing exists. */
  predicate FilePresent(w: World, pc: Pc) {
    match pc
    case ClaimWriting(_, i) => i in w.disk.files
    case ClaimSyncingFile(_, i) => i in w.disk.files
    case CompleteSyncing(_, i) => i in w.disk.files
    case _ => true
  }

  function WorkStep(cfg: Config, w: World, h: Handler, j: Job, pc: Pc, c: Choice): Move
    requires FilePresent(w, pc)
  {
    match pc
    case Fingerprinting =>
      if c.fault != NoFault then RefuseAction(w, h, j.action, 503, Unavailable)
      else Goto(w, h, j, InspectOpening)
    case InspectOpening =>
      if c.fault == RootFault then RefuseAction(w, h, j.action, 503, Unavailable)
      else if c.fault == IoFault then Inspected(cfg, w, h, j, UncertainState)
      else if Current(w.disk, JobKey(j)).None? then Inspected(cfg, w, h, j, MissingState)
      else Goto(w, h, j, InspectReading(Current(w.disk, JobKey(j)).value))
    case InspectReading(i) =>
      Inspected(cfg, w, h, j,
                if c.fault != NoFault then UncertainState
                else ProjectState(ReadLinked(w.disk, JobKey(j), i), RecordOf(j)))
    case Resolving(_, _) => FirstResolved(cfg, w, h, j, pc, c)
    case ClaimOpening(first) => OpenClaim(w, h, j, first, c)
    case RereadOpening =>
      if c.fault == RootFault then RefuseAction(w, h, j.action, 503, Unavailable)
      else if c.fault == IoFault then Reread(w, h, j, UncertainState)
      else if Current(w.disk, JobKey(j)).None? then Reread(w, h, j, MissingState)
      else Goto(w, h, j, Rereading(Current(w.disk, JobKey(j)).value))
    case Rereading(i) =>
      Reread(w, h, j,
             if c.fault != NoFault then UncertainState
             else ProjectState(ReadLinked(w.disk, JobKey(j), i), RecordOf(j)))
    case ClaimWriting(first, i) => WriteClaim(w, h, j, first, i, c)
    case ClaimSyncingFile(first, i) => SyncClaimFile(w, h, j, first, i, c)
    case ClaimSyncingDirectory(first, _) => SyncClaimDirectory(w, h, j, first, c)
    case Granted(first) =>
      Goto(w, h, j, Rechecking(first, Resolve(w.registry, j.installationId, j.action.controlContextId)))
    case Rechecking(first, second) => Recheck(w, h, j, first, second, c)
    case Dispatching(begun) => Settled(w, h, j, begun, c)
    case CompleteOpening(receipt) => OpenCompletion(w, h, j, receipt, c)
    case CompleteReading(receipt, i) => ReadCompletion(w, h, j, receipt, i, c)
    case CompleteCreating(receipt) => CreateCompletion(w, h, j, receipt, c)
    case CompleteSyncing(receipt, i) => SyncCompletion(w, h, j, receipt, i, c)
    case CompleteRenaming(receipt, i) => RenameCompletion(w, h, j, receipt, i, c)
    case CompleteSyncingDirectory(receipt) => SyncCompletionDirectory(w, h, j, receipt, c)
  }

  /** A handler's next step; one that has answered stays as it is. */
  function HandlerStep(cfg: Config, w: World, h: Handler, c: Choice): Move {
    match h.stage
    case Authorizing => Authorized(cfg, w, h, c)
    case Working(j, pc) => if FilePresent(w, pc) then WorkStep(cfg, w, h, j, pc, c) else Move(w, h)
    case Done(_) => Move(w, h)
  }
}
