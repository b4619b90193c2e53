/** The APNs update a status record becomes, and the validation its consumer repeats on every update. */
module LiveActivityPayload {
  import opened Collections
  import opened RemoteActionReceipt
  import opened StatusReducer

  const RELAY_MARKER := "CLA-RELAY-ONE-TASK-20260812-A"
  const UPDATE_EVENT := "update"
  const MAX_SAFE_INTEGER := 0x1f_ffff_ffff_ffff

  datatype Presentation = Presentation(status: string, detail: string, attentionRequired: bool)

  function PresentationOf(s: State): Presentation {
    match s
    case Running => Presentation("Working", "Codex is working", false)
    case WaitingForApproval => Presentation("Needs approval", "Review this task in Codex on Mac", true)
    case WaitingForInput => Presentation("Needs input", "Respond in Codex on Mac", true)
    case Ready => Presentation("Ready", "Codex finished this task", false)
    case Blocked => Presentation("Blocked", "Codex could not finish this task", false)
    case Stale => Presentation("Status stale", "No recent App Server lifecycle signal", false)
    case Disconnected => Presentation("Disconnected", "The relay lost its App Server stream", false)
  }

  /** An update of exactly the allowed shape. */
  datatype Payload = Payload(
    timestamp: int, event: string, shown: Presentation, marker: string, sequence: int, staleDate: int)

  predicate SafePositive(n: int) { 0 < n <= MAX_SAFE_INTEGER }

  /** The first presentation whose status text is this one. */
  function PresentationWith(status: string, among: seq<State>): (p: Option<Presentation>)
    ensures p.Some? ==> p.value.status == status && exists s :: s in among && p.value == PresentationOf(s)
  {
    if among == [] then None
    else if PresentationOf(among[0]).status == status then Some(PresentationOf(among[0]))
    else PresentationWith(status, among[1..])
  }

  predicate Validates(p: Payload, previousSequence: int) {
    && p.event == UPDATE_EVENT && SafePositive(p.timestamp)
    && p.staleDate <= MAX_SAFE_INTEGER && p.staleDate > p.timestamp
    && 0 <= previousSequence <= MAX_SAFE_INTEGER && previousSequence < p.sequence <= MAX_SAFE_INTEGER
    && p.marker == RELAY_MARKER && PresentationWith(p.shown.status, STATES) == Some(p.shown)
  }

  /** Rounded down to seconds, also before the epoch. */
  function Seconds(ms: int): int { ms / 1000 }

  function Build(r: Record, sequence: int, staleAfterSeconds: int): Option<Payload> {
    if r.state.None? || r.title.Some? || r.aggregate.total != 1 || !SafePositive(sequence) then None
    else if r.observedAt.None? || !SafePositive(Seconds(r.observedAt.value))
        || !SafePositive(staleAfterSeconds) then None
    else if !SafePositive(Seconds(r.observedAt.value) + staleAfterSeconds) then None
    else if r.attentionRequired != PresentationOf(r.state.value).attentionRequired then None
    else
      var timestamp := Seconds(r.observedAt.value);
      var p := Payload(timestamp, UPDATE_EVENT, PresentationOf(r.state.value), RELAY_MARKER, sequence,
                       timestamp + staleAfterSeconds);
      if Validates(p, 0) then Some(p) else None
  }

  /** Length and first letter already tell the status texts apart. */
  lemma StatusTextsDiffer(s: State, t: State)
    requires PresentationOf(s).status == PresentationOf(t).status
    ensures s == t
  {
    assert |PresentationOf(s).status| == |PresentationOf(t).status|
           && PresentationOf(s).status[0] == PresentationOf(t).status[0];
  }

  lemma {:induction false} PresentationFound(s: State, among: seq<State>)
    requires s in among
    ensures PresentationWith(PresentationOf(s).status, among) == Some(PresentationOf(s))
  {
    if PresentationOf(among[0]).status == PresentationOf(s).status {
      StatusTextsDiffer(among[0], s);
    } else {
      PresentationFound(s, among[1..]);
    }
  }

  /**
   A record becomes an update exactly if it is about one untitled task, says that attention is required
   just when its state waits for the user, and every number is in range; and then it becomes this update.
   */
  lemma BuildsExactly(r: Record, sequence: int, staleAfterSeconds: int)
    ensures Build(r, sequence, staleAfterSeconds)
            == if && r.state.Some? && r.observedAt.Some? && r.title.None? && r.aggregate.total == 1
                  && (r.attentionRequired <==> r.state.value in {WaitingForApproval, WaitingForInput})
                  && 0 < sequence <= MAX_SAFE_INTEGER && 0 < staleAfterSeconds
                  && 0 < Seconds(r.observedAt.value)
                  && Seconds(r.observedAt.value) + staleAfterSeconds <= MAX_SAFE_INTEGER
               then Some(Payload(Seconds(r.observedAt.value), UPDATE_EVENT, PresentationOf(r.state.value), RELAY_MARKER,
                                 sequence, Seconds(r.observedAt.value) + staleAfterSeconds))
               else None
  {
    hide PresentationWith, STATES;
    if r.state.Some? {
      EveryStateListed(r.state.value);
      PresentationFound(r.state.value, STATES);
    }
  }

  /** The second an instant falls in. */
  lemma SecondsExactly(ms: int, second: int)
    ensures Seconds(ms) == second <==> second * 1000 <= ms < (second + 1) * 1000
  {
  }

  /** A built update is accepted after any smaller sequence number, and shows one of the seven states. */
  lemma BuiltValidates(r: Record, sequence: int, staleAfterSeconds: int, previousSequence: int)
    requires Build(r, sequence, staleAfterSeconds).Some? && 0 <= previousSequence < sequence
    ensures Validates(Build(r, sequence, staleAfterSeconds).value, previousSequence)
  {
  }

  /**
   Validation accepts exactly the updates of the relay: a stale date after a positive time, a sequence after
   the previous one, all safe integers, the marker, and the presentation of one of the seven states.
   */
  lemma ValidatesExactly(p: Payload, previousSequence: int)
    ensures Validates(p, previousSequence) <==>
              && p.event == "update" && p.marker == "CLA-RELAY-ONE-TASK-20260812-A"
              && 0 < p.timestamp < p.staleDate <= 0x1f_ffff_ffff_ffff
              && 0 <= previousSequence < p.sequence <= 0x1f_ffff_ffff_ffff
              && exists s :: p.shown == PresentationOf(s)
  {
    hide PresentationWith, STATES, PresentationOf;
    if exists s :: p.shown == PresentationOf(s) {
      var s :| p.shown == PresentationOf(s);
      EveryStateListed(s);
      PresentationFound(s, STATES);
    }
  }
}
