/** The sender as the object it is, proved against the step function of one send. */
module ApnsSenderObject {
  import opened Collections
  import opened RemoteActionReceipt
  import opened LiveActivityPayload
  import opened A = ApnsSender

  class ApnsLiveActivityHttp2Sender {
    var closed: bool
    var failed: bool
    var lastInputSequence: int
    var lastSentPresentation: Option<(string, bool)>
    var lastSentTimestamp: Option<int>
    var nextRefreshTimestamp: Option<int>
    var providerTokenIssuedAt: Option<int>

    ghost function State(): Sender
      reads this
    {
      Sender(closed, failed, lastInputSequence, lastSentPresentation, lastSentTimestamp, nextRefreshTimestamp,
             providerTokenIssuedAt)
    }

    constructor ()
      ensures State() == FRESH
    {
      closed, failed, lastInputSequence := false, false, 0;
      lastSentPresentation, lastSentTimestamp, nextRefreshTimestamp, providerTokenIssuedAt := None, None, None, None;
    }

    method Close()
      modifies this
      ensures State() == Shut(old(State()))
    {
      closed, providerTokenIssuedAt := true, None;
    }

    /** A failed send leaves the sender failed and closed. */
    method Fail()
      modifies this
      ensures State() == Break(old(State())).0
    {
      failed := true;
      Close();
    }

    /** The provider token's issue time, refreshed after 50 minutes; None when it cannot be had. */
    method GetProviderToken(env: Env) returns (issuedAt: Option<int>)
      modifies this`providerTokenIssuedAt
      ensures issuedAt == TokenAfter(old(State()), env)
      ensures State() == if issuedAt.Some? then old(State()).(tokenIssuedAt := issuedAt) else old(State())
    {
      if !Usable(env.tokenNow) { return None; }
      var now := env.tokenNow.value;
      if providerTokenIssuedAt.Some? && now < providerTokenIssuedAt.value { return None; }
      if providerTokenIssuedAt.None? || now - providerTokenIssuedAt.value >= PROVIDER_TOKEN_REFRESH_SECONDS {
        if !env.signs { return None; }
        providerTokenIssuedAt := Some(now);
      }
      return providerTokenIssuedAt;
    }

    method Send(payload: Option<Payload>, env: Env) returns (outcome: Outcome)
      modifies this
      ensures (State(), outcome) == A.Send(old(State()), payload, env)
    {
      hide Validates, RefreshAfter;
      if failed || closed { return Stopped; }
      if payload.None? || !Validates(payload.value, lastInputSequence) || !Usable(env.now) {
        Fail();
        return Broken;
      }
      var p, current := payload.value, env.now.value;
      if lastSentTimestamp.Some? && current < lastSentTimestamp.value {
        Fail();
        return Broken;
      }
      if p.timestamp > current + MAX_FUTURE_PAYLOAD_SECONDS {
        Fail();
        return Broken;
      }
      if lastSentPresentation == Some(ShownBy(p)) && nextRefreshTimestamp.Some?
          && current < nextRefreshTimestamp.value {
        lastInputSequence := p.sequence;
        return Coalesced(p, current);
      }
      var free := if lastSentTimestamp.None? then 0 else lastSentTimestamp.value + 1;
      var earliest := if p.timestamp > free then p.timestamp else free;
      if current < earliest {
        if !env.delayed || env.later.NotANumber? || env.later.value < earliest {
          Fail();
          return Broken;
        }
        current := env.later.value;
      }
      outcome := PostPush(p, current, env);
    }

    method PostPush(p: Payload, stamp: int, env: Env) returns (outcome: Outcome)
      modifies this
      ensures (State(), outcome) == A.Post(old(State()), p, stamp, env)
    {
      hide Validates, RefreshAfter;
      var push := p.(timestamp := stamp, staleDate := stamp + Window(p));
      if push.staleDate > MAX_SAFE_INTEGER || !Validates(push, lastInputSequence) || !env.identified || !env.connects {
        Fail();
        return Broken;
      }
      var issuedAt := GetProviderToken(env);
      if issuedAt.None? || !env.posts {
        Fail();
        return Broken;
      }
      lastInputSequence := p.sequence;
      lastSentPresentation := Some(ShownBy(p));
      lastSentTimestamp := Some(stamp);
      nextRefreshTimestamp := Some(stamp + RefreshAfter(Window(p)));
      return Pushed(p, push, env.tokenNow.value - issuedAt.value);
    }
  }
}
