/**
 The relay's stream fed to the sender: as long as the sender's surroundings work, nothing in any
 stream a relay can send makes it fail, and the last push shows the last state the relay sent.
 */
module RelayToApns {
  import opened Collections
  import opened JsonGrammar
  import opened LiveActivityPayload
  import opened RemoteActionReceipt
  import opened OneTaskRelay
  import opened OneTaskRelayRuns
  import A = ApnsSender

  /** Send each update in turn, each in its own surroundings. */
  function Feed(payloads: seq<Payload>, envs: seq<A.Env>): A.Log
    requires |payloads| == |envs|
    decreases |payloads|
  {
    if payloads == [] then A.Log(A.FRESH, [], [], [])
    else
      var n := |payloads| - 1;
      A.Next(Feed(payloads[..n], envs[..n]), A.Sending(Some(payloads[n]), envs[n]))
  }

  ghost predicate AllWork(payloads: seq<Payload>, envs: seq<A.Env>) {
    |payloads| == |envs|
    && forall n :: 0 <= n < |payloads| ==> A.Works(Feed(payloads[..n], envs[..n]).sender, payloads[n], envs[n])
  }

  lemma {:induction false} FittingStreamSucceeds(payloads: seq<Payload>, envs: seq<A.Env>, staleAfterSeconds: int)
    requires StreamFits(payloads, staleAfterSeconds) && AllWork(payloads, envs)
    ensures var log := Feed(payloads, envs);
            && !log.sender.failed && !log.sender.closed && log.inputs == payloads
            && log.sender.lastInputSequence == |payloads| && A.Inv(log)
    decreases |payloads|
  {
    hide A.Inv, A.Next, A.Works, StreamFits, AllWork, Validates;
    if payloads == [] {
      A.FreshKeepsInv();
    } else {
      var n := |payloads| - 1;
      WorkingPrefix(payloads, envs);
      FittingPrefix(payloads, staleAfterSeconds);
      var before, last := Feed(payloads[..n], envs[..n]), payloads[n];
      FittingStreamSucceeds(payloads[..n], envs[..n], staleAfterSeconds);
      A.WorkingSendsSucceed(before.sender, last, envs[n]);
      A.NextKeepsInv(before, A.Sending(Some(last), envs[n]));
      SentIsInput(before, last, envs[n]);
      assert payloads == payloads[..n] + [last];
    }
  }

  lemma FittingPrefix(payloads: seq<Payload>, staleAfterSeconds: int)
    requires StreamFits(payloads, staleAfterSeconds) && payloads != []
    ensures var n := |payloads| - 1;
            StreamFits(payloads[..n], staleAfterSeconds) && Validates(payloads[n], n) && payloads[n].sequence == n + 1
  {
    hide Validates;
  }

  lemma WorkingPrefix(payloads: seq<Payload>, envs: seq<A.Env>)
    requires AllWork(payloads, envs) && payloads != []
    ensures var n := |payloads| - 1;
            && AllWork(payloads[..n], envs[..n]) && |envs| == |payloads|
            && A.Works(Feed(payloads[..n], envs[..n]).sender, payloads[n], envs[n])
  {
    hide A.Works, Feed;
    var n := |payloads| - 1;
    forall m | 0 <= m < n
      ensures A.Works(Feed(payloads[..n][..m], envs[..n][..m]).sender, payloads[..n][m], envs[..n][m])
    {
      assert payloads[..n][..m] == payloads[..m] && envs[..n][..m] == envs[..m];
    }
  }

  lemma SentIsInput(log: A.Log, p: Payload, env: A.Env)
    requires !log.sender.failed && !log.sender.closed
    requires !A.Send(log.sender, Some(p), env).1.Broken? && !A.Send(log.sender, Some(p), env).1.Stopped?
    ensures var after := A.Next(log, A.Sending(Some(p), env));
            && !after.sender.failed && !after.sender.closed && after.sender.lastInputSequence == p.sequence
            && after.inputs == log.inputs + [p]
  {
    hide Validates;
  }

  /** Every stream of a relay run is taken in full, and the last push shows the relay's last update. */
  lemma RelayStreamIsDelivered(threadId: Text, staleAfterMs: int, ops: seq<Op>, envs: seq<A.Env>)
    requires AllWork(StreamOf(threadId, staleAfterMs, ops).payloads, envs)
    ensures var payloads := StreamOf(threadId, staleAfterMs, ops).payloads;
            var log := Feed(payloads, envs);
            && log.inputs == payloads && !log.sender.failed
            && (payloads != [] ==>
                  log.pushes != [] && log.pushes[|log.pushes| - 1].shown == payloads[|payloads| - 1].shown)
  {
    var payloads := StreamOf(threadId, staleAfterMs, ops).payloads;
    EveryStreamFits(threadId, staleAfterMs, ops);
    FittingStreamSucceeds(payloads, envs, WindowSeconds(staleAfterMs));
  }
}
