/**
 What a handler answers once it has a job: for every fault of the replay store, for what it finds there
 after losing the race for a claim, and for what the dispatch reported.
 */
module RemoteActionAnswers {
  import opened Collections
  import opened JsonGrammar
  import opened RemoteActionReceipt
  import opened RelayTurnAction
  import opened ReplayDirectory
  import opened FileReplayStore
  import opened TailscaleIngress
  import opened RemoteActionRuns
  import opened RemoteActionAdmission

  /** The awaits of the store and of the fingerprint, each of which can fail. */
  predicate AtStore(pc: Pc) { !pc.Resolving? && !pc.Granted? && !pc.Rechecking? && !pc.Dispatching? }

  /** Nothing of the claim can have been made yet, and what the store holds is not known. */
  predicate NothingTouched(pc: Pc, fault: Fault) {
    pc.Fingerprinting? || pc.ClaimOpening? || (fault.RootFault? && (pc.InspectOpening? || pc.RereadOpening?))
  }

  /**
   A fault is answered at once with status 503: as unavailable while nothing has been touched, and as an
   unknown outcome from then on. The disk changes only by a claim that was being written and landed.
   */
  lemma FaultIsAnswered(cfg: Config, s: State, id: nat, c: Choice)
    requires id in s.handlers && s.handlers[id].stage.Working? && c.fault != NoFault
    requires AtStore(s.handlers[id].stage.pc) && FilePresent(s.world, s.handlers[id].stage.pc)
    ensures var j, pc, q := s.handlers[id].stage.job, s.handlers[id].stage.pc, s.handlers[id].request;
            var reason := if NothingTouched(pc, c.fault) then Unavailable else OutcomeUnknown;
            var d := s.world.disk;
            var left := if pc.ClaimWriting? && c.landed
                        then d.files[pc.file := File(d.files[pc.file].home, Claimed(RecordOf(j)), false)] else d.files;
            AnsweredWith(State(s.world.(disk := d.(files := left)), s.handlers), Next(cfg, s, Advance(id, c)), id,
                         Refusing(j, q, 503, reason))
  {
    hide RecordOf;
  }

  /** Where a handler that lost the race looks next: it answers that the store is unavailable if nothing is there. */
  lemma RereadBegins(cfg: Config, s: State, id: nat, c: Choice)
    requires id in s.handlers && s.handlers[id].stage.Working? && c.fault.NoFault?
    requires s.handlers[id].stage.pc.RereadOpening?
    ensures var j, q, s' := s.handlers[id].stage.job, s.handlers[id].request, Next(cfg, s, Advance(id, c));
            var there := Current(s.world.disk, JobKey(j));
            if there.Some? then GoesTo(s, s', id, j, Rereading(there.value))
            else AnsweredWith(s, s', id, Refusing(j, q, 503, Unavailable))
  {
    hide Entry;
  }

  /** What the winner of the race left decides the answer; nothing is dispatched. */
  lemma RereadIsDecided(cfg: Config, s: State, id: nat, c: Choice, finding: Finding)
    requires id in s.handlers && s.handlers[id].stage.Working? && s.handlers[id].stage.pc.Rereading?
    requires c.fault.NoFault? && Finds(s.world, s.handlers[id].stage.job, Some(s.handlers[id].stage.pc.file), finding)
    ensures var j, q := s.handlers[id].stage.job, s.handlers[id].request;
            var s' := Next(cfg, s, Advance(id, c));
            match finding
            case NothingThere => false
            case SameCompleted(receipt) =>
              if Projects(receipt, Expect(Some(Correlate(j.action))), true, ANY)
              then AnsweredWith(s, s', id, Answer(q, Some(j), DefaultStatus(receipt), receipt, true))
              else AnsweredWith(s, s', id, Refusing(j, q, 503, Unavailable))
            case AnotherAction => AnsweredWith(s, s', id, Refusing(j, q, 409, ReplayConflict))
            case _ => AnsweredWith(s, s', id, Refusing(j, q, 503, OutcomeUnknown))
  {
    hide Projects, DefaultStatus, Entry;
  }

  /** What the dispatch came to: its own settlement, or that of its request. */
  function SettlementAt(begun: Begun, delivery: Delivery): Settlement {
    match begun
    case Resolved(settlement) => settlement
    case Sent(action, _) => SettlementOf(action, delivery)
  }

  /**
   A receipt is decided for every settlement: accepted exactly if this very action was, by the method of
   its kind; rejected with the reason given for it; and of unknown outcome in all other cases. A response
   that arrived is recorded.
   */
  lemma ReceiptIsDecided(cfg: Config, s: State, id: nat, c: Choice)
    requires id in s.handlers && s.handlers[id].stage.Working? && s.handlers[id].stage.pc.Dispatching?
    requires SafeId(s.handlers[id].stage.job.action.actionId)
    ensures var j, begun, s' := s.handlers[id].stage.job, s.handlers[id].stage.pc.begun, Next(cfg, s, Advance(id, c));
            var about, settled := Correlation(j.action.actionId, j.action.kind), SettlementAt(begun, c.delivery);
            var verdict :=
              if settled == AcceptedBy(about, if j.action.kind == Reply then TurnSteer else TurnInterrupt) then Accepted
              else if settled.RefusedFor? && settled.about == Some(about)
                      && settled.reason != InvalidAction && settled.reason != Unauthorized
              then Rejected(settled.reason)
              else Rejected(OutcomeUnknown);
            var receipt := Receipt(Some(about), verdict);
            && s'.world.decided == s.world.decided[JobKey(j) := receipt]
            && s'.handlers == s.handlers[id := Handler(s.handlers[id].request, Working(j, CompleteOpening(receipt)))]
            && s'.world.answers == s.world.answers
            && History(s'.world, JobKey(j))
               == History(s.world, JobKey(j))
                  + if begun.Sent? && c.delivery.Delivered? then [Responded(begun.request, c.delivery.response)] else []
  {
    hide SafeId, SettlementOf, JobKey, ActionResultReceipt;
    var j, begun := s.handlers[id].stage.job, s.handlers[id].stage.pc.begun;
    ReportedReceipt(SettlementAt(begun, c.delivery), j.action);
    NothingNoted(s.world, JobKey(j));
  }

  lemma NothingNoted(w: World, k: Key)
    ensures History(w, k) + [] == History(w, k)
  {
  }

  /** The receipt taken from a settlement, if it is about this action and such a receipt may travel. */
  lemma ReportedReceipt(settled: Settlement, a: Action)
    requires SafeId(a.actionId)
    ensures var about := Correlation(a.actionId, a.kind);
            ActionResultReceipt(settled, a)
            == if settled == AcceptedBy(about, if a.kind == Reply then TurnSteer else TurnInterrupt)
               then Some(Receipt(Some(about), Accepted))
               else if settled.RefusedFor? && settled.about == Some(about)
                       && settled.reason != InvalidAction && settled.reason != Unauthorized
               then Some(Receipt(Some(about), Rejected(settled.reason)))
               else None
  {
    hide SafeId, Projects;
    forall verdict { CorrelatedPasses(a, verdict); }
  }

  lemma CorrelatedPasses(a: Action, verdict: Verdict)
    requires SafeId(a.actionId)
    ensures Projects(Receipt(Some(Correlate(a)), verdict), Expect(Some(Correlate(a))), true, ANY)
            <==> verdict != Rejected(InvalidAction) && verdict != Rejected(Unauthorized)
  {
    hide SafeId, VariantFor;
    VariantExactly(RuleFor(verdict), true, ANY);
  }

  /** The claimant completes only its own claim, and answers with its own receipt if that is there already. */
  lemma CompletionIsDecided(cfg: Config, s: State, id: nat, c: Choice, finding: Finding)
    requires id in s.handlers && s.handlers[id].stage.Working? && s.handlers[id].stage.pc.CompleteReading?
    requires c.fault.NoFault? && Finds(s.world, s.handlers[id].stage.job, Some(s.handlers[id].stage.pc.file), finding)
    ensures var j, q, receipt := s.handlers[id].stage.job, s.handlers[id].request, s.handlers[id].stage.pc.receipt;
            var s' := Next(cfg, s, Advance(id, c));
            if finding.SameClaimed? then GoesTo(s, s', id, j, CompleteCreating(receipt))
            else if finding != SameCompleted(receipt) then AnsweredWith(s, s', id, Refusing(j, q, 503, OutcomeUnknown))
            else if Projects(receipt, Expect(Some(Correlate(j.action))), true, ANY) then
              AnsweredWith(s, s', id, Answer(q, Some(j), DefaultStatus(receipt), receipt, true))
            else AnsweredWith(s, s', id, Refusing(j, q, 503, Unavailable))
  {
    hide Projects, DefaultStatus, Entry;
  }
}
