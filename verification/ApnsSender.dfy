/**
 The APNs sender: sequential sends that coalesce unchanged presentations, keep timestamps strictly
 increasing and stop for good at the first failure. Clock readings, the network and the key are the
 environment's choice.
 */
module ApnsSender {
  import opened Collections
  import opened RemoteActionReceipt
  import opened StatusReducer
  import opened LiveActivityPayload

  const PROVIDER_TOKEN_REFRESH_SECONDS := 3_000
  const MAX_FUTURE_PAYLOAD_SECONDS := 5

  /** A clock reading in whole seconds, if it is a number at all. */
  datatype Reading = NotANumber | Second(value: int)

  predicate Usable(r: Reading) { r.Second? && SafePositive(r.value) }

  /** What happens around one send: readings before and after the delay and for the provider token, and
   whether the delay, the request identifier, the connection, the signature and the post succeed. */
  datatype Env = Env(
    now: Reading, delayed: bool, later: Reading, identified: bool, connects: bool, tokenNow: Reading, signs: bool,
        posts: bool)

  datatype Sender = Sender(
    closed: bool, failed: bool, lastInputSequence: int, lastShown: Option<(string, bool)>,
    lastTimestamp: Option<int>, nextRefresh: Option<int>, tokenIssuedAt: Option<int>)

  const FRESH := Sender(false, false, 0, None, None, None, None)

  datatype Outcome =
    | Stopped
    | Broken
    | Coalesced(input: Payload, now: int)
    | Pushed(input: Payload, push: Payload, tokenAge: int)

  function ShownBy(p: Payload): (string, bool) { (p.shown.status, p.shown.attentionRequired) }

  function Window(p: Payload): int { p.staleDate - p.timestamp }

  /** Half the window, rounded down, but at least a second. */
  function RefreshAfter(window: int): int { if window / 2 > 1 then window / 2 else 1 }

  /** Closing releases the provider token with the other secrets. */
  function Shut(s: Sender): Sender { s.(closed := true, tokenIssuedAt := None) }

  function Break(s: Sender): (Sender, Outcome) { (Shut(s).(failed := true), Broken) }

  /** The provider token's issue time after it has been used, if it can be. */
  function TokenAfter(s: Sender, env: Env): Option<int> {
    if !Usable(env.tokenNow) then None
    else if s.tokenIssuedAt.None? then if env.signs then Some(env.tokenNow.value) else None
    else if env.tokenNow.value < s.tokenIssuedAt.value then None
    else if env.tokenNow.value - s.tokenIssuedAt.value < PROVIDER_TOKEN_REFRESH_SECONDS then s.tokenIssuedAt
    else if env.signs then Some(env.tokenNow.value)
    else None
  }

  predicate Coalesces(s: Sender, p: Payload, now: int) {
    s.lastShown == Some(ShownBy(p)) && s.nextRefresh.Some? && now < s.nextRefresh.value
  }

  function Earliest(s: Sender, p: Payload): int {
    var free := if s.lastTimestamp.None? then 0 else s.lastTimestamp.value + 1;
    if p.timestamp > free then p.timestamp else free
  }

  /** The second the push is stamped with, after a delay if it comes too early. */
  function StampedAt(s: Sender, p: Payload, env: Env): Option<int>
    requires env.now.Second?
  {
    if env.now.value >= Earliest(s, p) then Some(env.now.value)
    else if !env.delayed || env.later.NotANumber? || env.later.value < Earliest(s, p) then None
    else Some(env.later.value)
  }

  function Post(s: Sender, p: Payload, stamp: int, env: Env): (Sender, Outcome) {
    var push := p.(timestamp := stamp, staleDate := stamp + Window(p));
    if push.staleDate > MAX_SAFE_INTEGER || !Validates(push, s.lastInputSequence) then Break(s)
    else if !env.identified || !env.connects || TokenAfter(s, env).None? || !env.posts then Break(s)
    else
      (s.(lastInputSequence := p.sequence, lastShown := Some(ShownBy(p)), lastTimestamp := Some(stamp),
          nextRefresh := Some(stamp + RefreshAfter(Window(p))), tokenIssuedAt := TokenAfter(s, env)),
       Pushed(p, push, env.tokenNow.value - TokenAfter(s, env).value))
  }

  /** One send of a payload, None when it does not have the exact shape. */
  function Send(s: Sender, payload: Option<Payload>, env: Env): (Sender, Outcome) {
    if s.failed || s.closed then (s, Stopped)
    else if payload.None? || !Validates(payload.value, s.lastInputSequence) || !Usable(env.now) then Break(s)
    else
      var p := payload.value;
      if s.lastTimestamp.Some? && env.now.value < s.lastTimestamp.value then Break(s)
      else if p.timestamp > env.now.value + MAX_FUTURE_PAYLOAD_SECONDS then Break(s)
      else if Coalesces(s, p, env.now.value) then (s.(lastInputSequence := p.sequence), Coalesced(p, env.now.value))
      else
        var stamp := StampedAt(s, p, env);
        if stamp.None? then Break(s) else Post(s, p, stamp.value, env)
  }

  // Runs.

  datatype Event = Sending(payload: Option<Payload>, env: Env) | Closing | SessionError

  /** An input coalesced at a time, and how many pushes had been accepted by then. */
  datatype Coalescing = Coalescing(now: int, after: nat)

  /** What a run has to show: the inputs dealt with, the pushes accepted, and the coalescings. */
  datatype Log = Log(sender: Sender, inputs: seq<Payload>, pushes: seq<Payload>, coalescings: seq<Coalescing>)

  function Next(log: Log, e: Event): Log {
    match e
    case Closing => log.(sender := Shut(log.sender))
    case SessionError => log.(sender := Shut(log.sender).(failed := true))
    case Sending(payload, env) =>
      var sent := Send(log.sender, payload, env);
      match sent.1
      case Coalesced(input, now) =>
        log.(sender := sent.0, inputs := log.inputs + [input],
             coalescings := log.coalescings + [Coalescing(now, |log.pushes|)])
      case Pushed(input, push, _) =>
        log.(sender := sent.0, inputs := log.inputs + [input], pushes := log.pushes + [push])
      case _ => log.(sender := sent.0)
  }

  function RunOf(events: seq<Event>): Log
    decreases |events|
  {
    if events == [] then Log(FRESH, [], [], []) else Next(RunOf(events[..|events| - 1]), events[|events| - 1])
  }

  // What every run keeps.

  /** The pushes in order: later, higher numbered, and never the same presentation too soon. */
  ghost predicate PushesOk(pushes: seq<Payload>) {
    && (forall i :: 0 <= i < |pushes| ==> Validates(pushes[i], 0))
    && (forall i :: 0 < i < |pushes| ==> Follows(pushes[i - 1], pushes[i]))
  }

  ghost predicate Follows(p: Payload, q: Payload) {
    && p.timestamp < q.timestamp && p.sequence < q.sequence
    && (ShownBy(p) == ShownBy(q) ==> q.timestamp - p.timestamp >= RefreshAfter(Window(p)))
  }

  ghost predicate CoalescingsOk(coalescings: seq<Coalescing>, pushes: seq<Payload>) {
    forall c :: c in coalescings ==> 0 < c.after <= |pushes| && c.now < pushes[c.after - 1].staleDate
  }

  /** The sender remembers its last push; the last input is at least as new and shows the same. */
  ghost predicate Remembers(log: Log) {
    && log.sender.lastInputSequence >= 0
    && (log.pushes == [] <==> log.inputs == []) && (log.inputs == [] ==> log.sender.lastInputSequence == 0)
    && (log.pushes == []
        ==> log.sender.lastShown.None? && log.sender.lastTimestamp.None? && log.sender.nextRefresh.None?)
    && (log.pushes != [] ==>
          var last, input := log.pushes[|log.pushes| - 1], log.inputs[|log.inputs| - 1];
          && log.sender.lastShown == Some(ShownBy(last)) && log.sender.lastTimestamp == Some(last.timestamp)
          && log.sender.nextRefresh == Some(last.timestamp + RefreshAfter(Window(last)))
          && input.shown == last.shown && log.sender.lastInputSequence == input.sequence
          && last.sequence <= input.sequence)
  }

  /** A presentation sequence with every immediate repetition left out. */
  function Destuttered(shown: seq<Presentation>): seq<Presentation> {
    if |shown| < 2 then shown
    else
      var front, last := shown[..|shown| - 1], shown[|shown| - 1];
      Destuttered(front) + if front[|front| - 1] == last then [] else [last]
  }

  function ShownAll(payloads: seq<Payload>): seq<Presentation> {
    seq(|payloads|, i requires 0 <= i < |payloads| => payloads[i].shown)
  }

  ghost predicate Refines(log: Log) { Destuttered(ShownAll(log.pushes)) == Destuttered(ShownAll(log.inputs)) }

  ghost predicate Inv(log: Log) {
    PushesOk(log.pushes) && CoalescingsOk(log.coalescings, log.pushes) && Remembers(log) && Refines(log)
  }

  // One send.

  lemma ShownTellsPresentation(p: Payload, q: Payload, previous: int, before: int)
    requires Validates(p, previous) && Validates(q, before) && ShownBy(p) == ShownBy(q)
    ensures p.shown == q.shown
  {
  }

  /** What an accepted push is, in terms of its input and of what was sent before. */
  lemma PushedExactly(s: Sender, payload: Option<Payload>, env: Env)
    requires Send(s, payload, env).1.Pushed?
    ensures var p, push := Send(s, payload, env).1.input, Send(s, payload, env).1.push;
            && payload == Some(p) && push == p.(timestamp := push.timestamp, staleDate := push.staleDate)
            && Window(push) == Window(p) && push.timestamp >= p.timestamp && Validates(push, s.lastInputSequence)
            && (s.lastTimestamp.Some? ==> s.lastTimestamp.value < push.timestamp)
            && (s.lastShown == Some(ShownBy(p)) && s.nextRefresh.Some? ==> s.nextRefresh.value <= push.timestamp)
            && Send(s, payload, env).0
               == Sender(false, false, p.sequence, Some(ShownBy(p)), Some(push.timestamp),
                         Some(push.timestamp + RefreshAfter(Window(p))), TokenAfter(s, env))
            && 0 <= Send(s, payload, env).1.tokenAge < PROVIDER_TOKEN_REFRESH_SECONDS
  {
    hide Validates;
  }

  lemma CoalescedExactly(s: Sender, payload: Option<Payload>, env: Env)
    requires Send(s, payload, env).1.Coalesced?
    ensures var p, now := Send(s, payload, env).1.input, Send(s, payload, env).1.now;
            && payload == Some(p) && Validates(p, s.lastInputSequence) && Coalesces(s, p, now) && env.now == Second(now)
            && Send(s, payload, env).0 == s.(lastInputSequence := p.sequence)
  {
    hide Validates, Coalesces;
  }

  lemma ShownAllAppend(payloads: seq<Payload>, p: Payload)
    ensures ShownAll(payloads + [p]) == ShownAll(payloads) + [p.shown]
  {
  }

  /** Repeating the last presentation, or showing the same next one, keeps what is seen. */
  lemma DestutterAppend(shown: seq<Presentation>, next: Presentation)
    ensures Destuttered(shown + [next])
            == if shown == [] then [next]
               else Destuttered(shown) + if shown[|shown| - 1] == next then [] else [next]
  {
    var longer := shown + [next];
    assert |longer| == |shown| + 1 && longer[|longer| - 1] == next && longer[..|longer| - 1] == shown;
    if shown != [] { DestutterStep(longer); }
  }

  lemma DestutterStep(shown: seq<Presentation>)
    requires |shown| >= 2
    ensures var front, last := shown[..|shown| - 1], shown[|shown| - 1];
            Destuttered(shown) == Destuttered(front) + if front[|front| - 1] == last then [] else [last]
  {
  }

  lemma PushKeepsRefining(log: Log, input: Payload, push: Payload)
    requires Remembers(log) && Refines(log) && push.shown == input.shown
    ensures Destuttered(ShownAll(log.pushes + [push])) == Destuttered(ShownAll(log.inputs + [input]))
  {
    ShownAllAppend(log.pushes, push);
    ShownAllAppend(log.inputs, input);
    DestutterAppend(ShownAll(log.pushes), push.shown);
    DestutterAppend(ShownAll(log.inputs), input.shown);
  }

  lemma CoalescingKeepsRefining(log: Log, input: Payload)
    requires Remembers(log) && Refines(log) && log.pushes != [] && input.shown == log.pushes[|log.pushes| - 1].shown
    ensures Destuttered(ShownAll(log.pushes)) == Destuttered(ShownAll(log.inputs + [input]))
  {
    ShownAllAppend(log.inputs, input);
    DestutterAppend(ShownAll(log.inputs), input.shown);
  }

  /** The sender after a push of this input, as far as it remembers it. */
  predicate Pushing(s: Sender, input: Payload, push: Payload, t: Sender) {
    && push.shown == input.shown && push.sequence == input.sequence && push.sequence > s.lastInputSequence
    && Window(push) == Window(input) && Validates(push, s.lastInputSequence)
    && (s.lastTimestamp.Some? ==> s.lastTimestamp.value < push.timestamp)
    && (s.lastShown == Some(ShownBy(input)) && s.nextRefresh.Some? ==> s.nextRefresh.value <= push.timestamp)
    && t.lastInputSequence == input.sequence && t.lastShown == Some(ShownBy(push))
    && t.lastTimestamp == Some(push.timestamp)
    && t.nextRefresh == Some(push.timestamp + RefreshAfter(Window(push)))
  }

  lemma PushedKeepsInv(log: Log, input: Payload, push: Payload, t: Sender)
    requires Inv(log) && Pushing(log.sender, input, push, t)
    ensures Inv(Log(t, log.inputs + [input], log.pushes + [push], log.coalescings))
  {
    hide Destuttered, Refines, Remembers, Pushing, PushesOk, CoalescingsOk;
    var after := Log(t, log.inputs + [input], log.pushes + [push], log.coalescings);
    PushedRemembers(log, input, push, t);
    PushKeepsRefining(log, input, push);
    RefinesBy(after);
    if log.pushes != [] { PushFollows(log, input, push, t); }
    ExtendsPushes(log.pushes, push, log.coalescings);
  }

  lemma PushedRemembers(log: Log, input: Payload, push: Payload, t: Sender)
    requires Remembers(log) && Pushing(log.sender, input, push, t)
    ensures Remembers(Log(t, log.inputs + [input], log.pushes + [push], log.coalescings))
    ensures push.shown == input.shown && Validates(push, 0)
  {
    hide RefreshAfter, Validates, ShownBy, Window;
    SequenceGrows(push, log.sender.lastInputSequence);
    var after := Log(t, log.inputs + [input], log.pushes + [push], log.coalescings);
    assert after.pushes[|after.pushes| - 1] == push && after.inputs[|after.inputs| - 1] == input;
  }

  lemma RefinesBy(log: Log)
    requires Destuttered(ShownAll(log.pushes)) == Destuttered(ShownAll(log.inputs))
    ensures Refines(log)
  {
  }

  lemma PushFollows(log: Log, input: Payload, push: Payload, t: Sender)
    requires Remembers(log) && log.pushes != [] && Pushing(log.sender, input, push, t)
    ensures Follows(log.pushes[|log.pushes| - 1], push)
  {
  }

  lemma ExtendsPushes(pushes: seq<Payload>, push: Payload, coalescings: seq<Coalescing>)
    requires PushesOk(pushes) && CoalescingsOk(coalescings, pushes) && Validates(push, 0)
    requires pushes != [] ==> Follows(pushes[|pushes| - 1], push)
    ensures PushesOk(pushes + [push]) && CoalescingsOk(coalescings, pushes + [push])
  {
    hide Validates, Follows;
  }

  lemma CoalescedKeepsInv(log: Log, input: Payload, now: int)
    requires Inv(log) && Validates(input, log.sender.lastInputSequence) && Coalesces(log.sender, input, now)
    ensures Inv(Log(log.sender.(lastInputSequence := input.sequence), log.inputs + [input], log.pushes,
                    log.coalescings + [Coalescing(now, |log.pushes|)]))
  {
    hide Destuttered, Refines, PushesOk, Validates, CoalescingsOk;
    var after := Log(log.sender.(lastInputSequence := input.sequence), log.inputs + [input], log.pushes,
                     log.coalescings + [Coalescing(now, |log.pushes|)]);
    LastPush(log);
    ShownTellsPresentation(input, log.pushes[|log.pushes| - 1], log.sender.lastInputSequence, 0);
    CoalescingKeepsRefining(log, input);
    RefinesBy(after);
    SequenceGrows(input, log.sender.lastInputSequence);
    CoalescedInTime(log, now);
  }

  lemma SequenceGrows(p: Payload, previous: int)
    requires Validates(p, previous)
    ensures previous < p.sequence && (0 <= previous ==> Validates(p, 0))
  {
    hide PresentationWith;
  }

  /** A refresh is due no later than the stale-date. */
  lemma RefreshBeforeStale(p: Payload)
    requires Validates(p, 0)
    ensures p.timestamp + RefreshAfter(Window(p)) <= p.staleDate
  {
    hide PresentationWith;
  }

  lemma CoalescedInTime(log: Log, now: int)
    requires PushesOk(log.pushes) && CoalescingsOk(log.coalescings, log.pushes) && Remembers(log) && log.pushes != []
    requires now < log.sender.nextRefresh.value
    ensures CoalescingsOk(log.coalescings + [Coalescing(now, |log.pushes|)], log.pushes)
  {
    hide Validates, RefreshAfter, PushesOk, ShownBy;
    LastPush(log);
    RefreshBeforeStale(log.pushes[|log.pushes| - 1]);
  }

  lemma LastPush(log: Log)
    requires PushesOk(log.pushes) && log.pushes != []
    ensures Validates(log.pushes[|log.pushes| - 1], 0)
  {
  }

  lemma NextKeepsInv(log: Log, e: Event)
    requires Inv(log)
    ensures Inv(Next(log, e))
  {
    hide Send, PushesOk, CoalescingsOk, Refines, Remembers, Coalesces, RefreshAfter;
    if e.Sending? {
      var outcome := Send(log.sender, e.payload, e.env).1;
      if outcome.Pushed? {
        PushedExactly(log.sender, e.payload, e.env);
        PushedKeepsInv(log, outcome.input, outcome.push, Send(log.sender, e.payload, e.env).0);
      } else if outcome.Coalesced? {
        CoalescedExactly(log.sender, e.payload, e.env);
        CoalescedKeepsInv(log, outcome.input, outcome.now);
      }
      else {
        UnsentKeeps(log.sender, e.payload, e.env);
        SameStory(log, Next(log, e));
      }
    } else {
      SameStory(log, Next(log, e));
    }
  }

  lemma UnsentKeeps(s: Sender, payload: Option<Payload>, env: Env)
    requires Send(s, payload, env).1.Stopped? || Send(s, payload, env).1.Broken?
    ensures var t := Send(s, payload, env).0;
            t == s.(closed := t.closed, failed := t.failed, tokenIssuedAt := t.tokenIssuedAt)
  {
    hide Validates;
  }

  lemma SameStory(log: Log, after: Log)
    requires Inv(log) && after == log.(sender := after.sender)
    requires after.sender == log.sender.(closed := after.sender.closed, failed := after.sender.failed,
                                         tokenIssuedAt := after.sender.tokenIssuedAt)
    ensures Inv(after)
  {
    hide Destuttered, PushesOk, CoalescingsOk;
  }

  lemma {:induction false} EveryRunKeepsInv(events: seq<Event>)
    ensures Inv(RunOf(events))
    decreases |events|
  {
    hide Inv, Next;
    if events == [] {
      FreshKeepsInv();
    } else {
      EveryRunKeepsInv(events[..|events| - 1]);
      NextKeepsInv(RunOf(events[..|events| - 1]), events[|events| - 1]);
    }
  }

  lemma FreshKeepsInv()
    ensures Inv(Log(FRESH, [], [], []))
  {
  }

  // The promises.

  /**
   Coalescing refines sending everything: with immediate repetitions left out, the pushes show exactly
   what the inputs show, and the last push shows the last input. No state change is lost.
   */
  lemma CoalescingLosesNothing(events: seq<Event>)
    ensures var log := RunOf(events);
            && Destuttered(ShownAll(log.pushes)) == Destuttered(ShownAll(log.inputs))
            && (log.inputs != [] ==>
                  log.pushes != [] && log.pushes[|log.pushes| - 1].shown == log.inputs[|log.inputs| - 1].shown)
  {
    EveryRunKeepsInv(events);
  }

  /** An input is coalesced only strictly before the stale-date of the last push accepted by then. */
  lemma CoalescedOnlyWhileFresh(events: seq<Event>, c: Coalescing)
    requires c in RunOf(events).coalescings
    ensures var pushes := RunOf(events).pushes; 0 < c.after <= |pushes| && c.now < pushes[c.after - 1].staleDate
  {
    EveryRunKeepsInv(events);
  }

  /** Any two pushes: the later one has a later timestamp and a higher sequence. */
  lemma {:induction false} PushesIncrease(events: seq<Event>, i: nat, j: nat)
    requires i < j < |RunOf(events).pushes|
    ensures var pushes := RunOf(events).pushes;
            pushes[i].timestamp < pushes[j].timestamp && pushes[i].sequence < pushes[j].sequence
    decreases j
  {
    EveryRunKeepsInv(events);
    var pushes := RunOf(events).pushes;
    assert Follows(pushes[j - 1], pushes[j]);
    if i < j - 1 { PushesIncrease(events, i, j - 1); }
  }

  /** Equal consecutive presentations are at least half the first one's window apart, or a second. */
  lemma RepeatsAreSpaced(events: seq<Event>, i: nat)
    requires i + 1 < |RunOf(events).pushes| && RunOf(events).pushes[i].shown == RunOf(events).pushes[i + 1].shown
    ensures var p, q := RunOf(events).pushes[i], RunOf(events).pushes[i + 1];
            && q.timestamp - p.timestamp >= 1 && q.timestamp - p.timestamp >= Window(p) / 2
  {
    EveryRunKeepsInv(events);
    assert Follows(RunOf(events).pushes[i], RunOf(events).pushes[i + 1]);
  }

  /** After a failure or a close nothing is ever posted or coalesced again, and a failure is for good. */
  lemma {:induction false} FailureIsSticky(log: Log, events: seq<Event>)
    requires log.sender.failed || log.sender.closed
    ensures var after := After(log, events);
            && after.pushes == log.pushes && after.inputs == log.inputs && after.coalescings == log.coalescings
            && (log.sender.failed ==> after.sender.failed) && (after.sender.failed || after.sender.closed)
    decreases |events|
  {
    if events != [] { FailureIsSticky(Next(log, events[0]), events[1..]); }
  }

  function After(log: Log, events: seq<Event>): Log
    decreases |events|
  {
    if events == [] then log else After(Next(log, events[0]), events[1..])
  }

  /** The first failure of a send is such a state. */
  lemma FailuresFail(log: Log, payload: Option<Payload>, env: Env)
    requires Send(log.sender, payload, env).1.Broken?
    ensures var s := Next(log, Sending(payload, env)).sender; s.failed && s.closed && s.tokenIssuedAt.None?
  {
    hide Validates;
  }

  /** So are a close and an error of the session, which also take the token away and post nothing. */
  lemma EndingShuts(log: Log, e: Event)
    requires e.Closing? || e.SessionError?
    ensures var after := Next(log, e);
            && after.sender.closed && after.sender.tokenIssuedAt.None? && (e.SessionError? ==> after.sender.failed)
            && after.pushes == log.pushes && after.inputs == log.inputs && after.coalescings == log.coalescings
  {
  }

  // Surroundings that work.

  /** The clock is usable and has not gone back, the delay works, and so do the token, the connection and the post. */
  predicate Works(s: Sender, p: Payload, env: Env) {
    && Usable(env.now) && p.timestamp <= env.now.value + MAX_FUTURE_PAYLOAD_SECONDS
    && (s.lastTimestamp.Some? ==> s.lastTimestamp.value <= env.now.value)
    && StampedAt(s, p, env).Some? && StampedAt(s, p, env).value + Window(p) <= MAX_SAFE_INTEGER
    && env.identified && env.connects && env.posts && TokenAfter(s, env).Some?
  }

  /** Then a send fails exactly when the payload does not validate after the last input. */
  lemma WorkingSendsSucceed(s: Sender, p: Payload, env: Env)
    requires !s.failed && !s.closed && Works(s, p, env) && s.lastInputSequence >= 0
    ensures Send(s, Some(p), env).1.Broken? <==> !Validates(p, s.lastInputSequence)
    ensures !Send(s, Some(p), env).1.Stopped?
  {
    hide PresentationWith;
  }

  // What decides a send, in terms of what the run has shown so far.

  /** The second from which the last push's presentation is due again: half its window later, or a second. */
  function DueFrom(pushes: seq<Payload>): int
    requires pushes != []
  {
    var last := pushes[|pushes| - 1];
    var half := (last.staleDate - last.timestamp) / 2;
    last.timestamp + if half > 1 then half else 1
  }

  /** The input follows the last one and shows one of the seven states, and the clock reading is sane for it. */
  predicate Acceptable(log: Log, payload: Option<Payload>, env: Env) {
    && payload.Some? && Validates(payload.value, if log.inputs == [] then 0 else log.inputs[|log.inputs| - 1].sequence)
    && env.now.Second? && 0 < env.now.value <= 0x1f_ffff_ffff_ffff
    && (log.pushes != [] ==> log.pushes[|log.pushes| - 1].timestamp <= env.now.value)
    && payload.value.timestamp <= env.now.value + 5
  }

  /** It shows what the last push showed, and that is not due again. */
  predicate Repeats(log: Log, p: Payload, now: int) {
    log.pushes != [] && log.pushes[|log.pushes| - 1].shown == p.shown && now < DueFrom(log.pushes)
  }

  /** The first second after the last push that is not before the input's own. */
  function FirstFree(log: Log, p: Payload): int {
    if log.pushes == [] || log.pushes[|log.pushes| - 1].timestamp < p.timestamp then p.timestamp
    else log.pushes[|log.pushes| - 1].timestamp + 1
  }

  /** The second an input is pushed at: now if it is free, else after a delay that really passed. */
  function PushTime(log: Log, p: Payload, env: Env): Option<int> {
    if env.now.Second? && env.now.value >= FirstFree(log, p) then Some(env.now.value)
    else if env.delayed && env.later.Second? && env.later.value >= FirstFree(log, p) then Some(env.later.value)
    else None
  }

  /** The push can be made: it has a second to be stamped with, its stale-date is safe, and it is delivered. */
  predicate CanPush(log: Log, p: Payload, env: Env) {
    && PushTime(log, p, env).Some?
    && PushTime(log, p, env).value + (p.staleDate - p.timestamp) <= 0x1f_ffff_ffff_ffff
    && env.identified && env.connects && env.posts && TokenServes(log.sender, env)
  }

  /** A token under 50 minutes old is used again, any other is signed anew; the clock must not have gone back. */
  predicate TokenServes(s: Sender, env: Env) {
    && env.tokenNow.Second? && 0 < env.tokenNow.value <= 0x1f_ffff_ffff_ffff
    && (if s.tokenIssuedAt.Some? && env.tokenNow.value < s.tokenIssuedAt.value + 3_000
        then s.tokenIssuedAt.value <= env.tokenNow.value else env.signs)
  }

  /** The sender after a push. */
  predicate HasPushed(s: Sender, p: Payload, stamp: int, env: Env, t: Sender) {
    && !t.closed && !t.failed && t.lastInputSequence == p.sequence
    && t.tokenIssuedAt == (if s.tokenIssuedAt.Some? && env.tokenNow.Second?
                              && env.tokenNow.value < s.tokenIssuedAt.value + 3_000
                           then s.tokenIssuedAt else if env.tokenNow.Second? then Some(env.tokenNow.value) else None)
  }

  /**
   A send in an open run: an unacceptable input breaks the sender; an acceptable one that repeats the last
   push before it is due again is coalesced; any other is pushed with its own window from the stamped
   second on, or breaks the sender if that cannot be done.
   */
  lemma SendIsDecided(events: seq<Event>, payload: Option<Payload>, env: Env)
    requires !RunOf(events).sender.failed && !RunOf(events).sender.closed
    ensures var log := RunOf(events);
            var (t, outcome) := Send(log.sender, payload, env);
            if !Acceptable(log, payload, env) then outcome == Broken
            else if Repeats(log, payload.value, env.now.value) then
              outcome == Coalesced(payload.value, env.now.value)
              && t == log.sender.(lastInputSequence := payload.value.sequence)
            else if CanPush(log, payload.value, env) then
              var stamp := PushTime(log, payload.value, env).value;
              && outcome.Pushed? && outcome.input == payload.value
              && outcome.push == payload.value.(timestamp := stamp, staleDate := stamp + Window(payload.value))
              && HasPushed(log.sender, payload.value, stamp, env, t)
            else outcome == Broken
  {
    hide Validates, Inv, Send, HasPushed, TokenServes, Repeats;
    var log := RunOf(events);
    EveryRunKeepsInv(events);
    SameNumber(log);
    if Acceptable(log, payload, env) {
      var p := payload.value;
      RepeatsExactly(log, p, env.now.value);
      if Repeats(log, p, env.now.value) { CoalescedNow(log, p, env); } else { PushIsDecided(log, p, env); }
    } else {
      UnacceptableBreaks(log, payload, env);
    }
  }

  /** What the sender remembers of the last push and the last input. */
  lemma RemembersIs(log: Log)
    requires Inv(log)
    ensures log.sender.lastInputSequence >= 0
    ensures log.pushes == [] <==> log.inputs == []
    ensures log.pushes == [] ==> log.sender.lastTimestamp.None? && log.sender.lastShown.None?
    ensures log.pushes != [] ==>
              var last := log.pushes[|log.pushes| - 1];
              && log.sender.lastTimestamp == Some(last.timestamp) && log.sender.lastShown == Some(ShownBy(last))
              && log.sender.nextRefresh == Some(DueFrom(log.pushes)) && Validates(last, 0)
              && log.sender.lastInputSequence == log.inputs[|log.inputs| - 1].sequence
  {
    hide Validates, Destuttered;
    if log.pushes != [] { LastPush(log); }
  }

  lemma RepeatsExactly(log: Log, p: Payload, now: int)
    requires Inv(log) && Validates(p, log.sender.lastInputSequence)
    ensures Coalesces(log.sender, p, now) <==> Repeats(log, p, now)
  {
    hide Validates, Inv;
    RemembersIs(log);
    if log.pushes != [] && log.sender.lastShown == Some(ShownBy(p)) {
      ShownTellsPresentation(p, log.pushes[|log.pushes| - 1], log.sender.lastInputSequence, 0);
    }
  }

  lemma UnacceptableBreaks(log: Log, payload: Option<Payload>, env: Env)
    requires Inv(log) && !log.sender.failed && !log.sender.closed && !Acceptable(log, payload, env)
    ensures Send(log.sender, payload, env).1 == Broken
  {
    hide Validates, Inv, Coalesces, StampedAt, Post;
    RemembersIs(log);
    SameNumber(log);
  }

  /** The sequence number to follow is the last input's, or 0. */
  lemma SameNumber(log: Log)
    requires Inv(log)
    ensures log.sender.lastInputSequence == if log.inputs == [] then 0 else log.inputs[|log.inputs| - 1].sequence
  {
    hide PushesOk, CoalescingsOk, Refines;
  }

  lemma CoalescedNow(log: Log, p: Payload, env: Env)
    requires Inv(log) && !log.sender.failed && !log.sender.closed && Acceptable(log, Some(p), env)
    requires Coalesces(log.sender, p, env.now.value)
    ensures Send(log.sender, Some(p), env)
            == (log.sender.(lastInputSequence := p.sequence), Coalesced(p, env.now.value))
  {
    hide Validates, Inv, Coalesces;
    RemembersIs(log);
    SameNumber(log);
  }

  lemma PushIsDecided(log: Log, p: Payload, env: Env)
    requires Inv(log) && !log.sender.failed && !log.sender.closed && Acceptable(log, Some(p), env)
    requires !Coalesces(log.sender, p, env.now.value)
    ensures var (t, outcome) := Send(log.sender, Some(p), env);
            if CanPush(log, p, env) then
              var stamp := PushTime(log, p, env).value;
              && outcome.Pushed? && outcome.input == p
              && outcome.push == p.(timestamp := stamp, staleDate := stamp + Window(p))
              && HasPushed(log.sender, p, stamp, env, t)
            else outcome == Broken
  {
    hide Validates, Inv, Coalesces, Post, TokenServes, HasPushed;
    RemembersIs(log);
    SameNumber(log);
    PositiveStamp(p, log.sender.lastInputSequence);
    assert Earliest(log.sender, p) == FirstFree(log, p);
    assert StampedAt(log.sender, p, env) == PushTime(log, p, env);
    if PushTime(log, p, env).Some? { PostIsDecided(log, p, env, PushTime(log, p, env).value); }
  }

  lemma PositiveStamp(p: Payload, previous: int)
    requires Validates(p, previous)
    ensures 0 < p.timestamp < p.staleDate
  {
    hide PresentationWith;
  }

  lemma PostIsDecided(log: Log, p: Payload, env: Env, stamp: int)
    requires Validates(p, log.sender.lastInputSequence) && stamp > 0 && !log.sender.failed && !log.sender.closed
    ensures var (t, outcome) := Post(log.sender, p, stamp, env);
            var fits := stamp + (p.staleDate - p.timestamp) <= 0x1f_ffff_ffff_ffff && env.identified && env.connects
                && env.posts;
            if fits && TokenServes(log.sender, env) then
              && outcome.Pushed? && outcome.input == p
              && outcome.push == p.(timestamp := stamp, staleDate := stamp + Window(p))
              && HasPushed(log.sender, p, stamp, env, t)
            else outcome == Broken
  {
    hide PresentationWith;
  }
}
