# Verified model of the Codex Live Activity relay

This project models the relay that connects a phone to one Codex App Server run, and proves what its
protocols promise. It is written in Dafny 4.11; `dafny verify dfyconfig.toml` checks all of it.

The relay does five things that are hard to get right, and each has its own group of files.

**Remote actions** (`ReplayDirectory`, `FileReplayStore`, `RemoteActionControl`, `RelayTurnAction*`,
`TailscaleIngress`, `RemoteAction*`, `Localhost*`). A phone asks to reply to or stop the running turn. The
request handler suspends at many awaits, any number of handlers interleave, the control context can be
revoked or re-issued in between, and the process can crash and lose everything that was not synced. The
model has one step per stretch between two awaits and a disk whose entries and files remember what is not
yet durable. `RemoteActionRuns` defines runs and the invariant, `RemoteActionSteps` proves that each step
keeps it, `RemoteActionTheorems` states what follows for every run, and `RemoteActionProgress` shows that
an unhindered handler does reach a durable, accepted answer and that it is replayed afterwards.
`RemoteActionAdmission` lists the checks of the handler in its own order, proves that the first that fails
alone decides the answer, and that nothing is claimed, dispatched or accepted in any run unless its request
passed them all; `RemoteActionAnswers` does the same for faults of the store and for results of a dispatch.
Receipts also travel as JSON: `RemoteActionReceiptJson` proves that parsing and projecting a serialized
receipt gives it back, and `LocalhostListener` that the loopback listener never replaces an answer of the
handler.

**The owned run** (`OwnedTask`, `OwnedTaskController`, `OwnedTaskOutcomes`, `Plain*`, `CommandProof*`,
`SettledRuns`, `RevokedRuns`, `OwnedDispatches`, `TurnCorrelation`, `TurnStart`, `BufferedEnds`). The
controller of one App Server run reacts to responses, notifications, timers, dispatches, promise
continuations and the child's end. `OwnedTask` is its step function, `OwnedTaskController` the object whose
handlers implement it, driven over whole runs by `RunOwnedTask`. `OwnedTaskOutcomes` says exactly when a
run succeeds. `PlainRuns` and `PlainReference` do so for runs without a proof from the events alone: a
reference of five facts fails and ends on the same events as the controller. `CommandProof` proves what a
successful external-stop or local long-task run must contain, in order, `SettledRuns` what a run with an
outcome may still do, `RevokedRuns` what an ended one has revoked, and `OwnedDispatches` exactly when a
remote action is written. `TurnCorrelation` proves that the order in which the turn and its command become
known does not matter, `TurnStart` that every run reaches the state where that begins, and `BufferedEnds`
what turn ends buffered by then change.

**Strict JSON** (`JsonGrammar`, `JsonEscapes`, `JsonReader`, `JsonReaderProofs`, `JsonFaults`,
`StrictJson`). Concrete syntax trees and their printing follow sections 2 to 7 of RFC 8259; the scanner
accepts a text exactly when it prints such a tree that is not too deep and has no repeated member name, and
otherwise reports the first fault from the left. `JsonEscapes` spells code units independently of the
decoder, by a digit table and a table of short escapes, so a name repeated in another spelling is known to
be repeated.

**Status** (`StatusReducer*`, `LiveActivityPayload`, `OneTaskRelay*`). App Server messages become states
and records, and records become a numbered stream of updates. Every state is traced to the latest cause in
the messages, through to the words of the last update.

**Delivery** (`ApnsSender*`, `JsonlSplitter`, `RelayToApns`). The sender coalesces and stamps updates, the
splitter cuts its input into lines, and `RelayToApns` joins the relay's stream to the sender.

Where the code updates variables, the model does too: `Scanner`, `OneTaskTurnActionBoundary`,
`OneTaskControlContextRegistry`, `Controller`, `StatusReducer`, `OneTaskRelay` and
`ApnsLiveActivityHttp2Sender` are classes, and the header, body, line and scanning loops are loops. Their
methods are proved equal to functions, and the promises are proved about runs of those functions.

`Collections`, `Unicode` and `Decimals` hold what several of them share.

## Findings

| finding | source | exact condition |
|---|---|---|
| A failed external-stop run can still activate a control context: when activation from an early command fails, the same reconciliation tries once more. | bin/codex-one-task-relay.mjs:1371-1389 | `SettledRuns.FailedRunShowsContextExactly`; `CommandProofWitness.FailedRunMayShowContext` is such a run, and `SettledRuns.NothingWrittenAfterOutcome` shows that it writes no request |
| Context identifiers are random draws, so the record dispatched to equals the one first resolved in five fields, and is that very record when no identifier was drawn twice. | src/tailscale-turn-action-ingress.mjs:586-716 | `RemoteActionTheorems.LiveBinding` states both |
| A run without a proof whose turn ended before its response ignores a contradicting turn start that comes after the response, but fails on one that came before it. | bin/codex-one-task-relay.mjs:1351-1374 | `BufferedEnds.OrderMattersExactly`; no run with a proof depends on the order |
| An oversized line ends the splitter early or late depending on the chunks, with the same lines handed over and the same result. | src/apns-live-activity-http2.mjs:706-708 | `JsonlSplitter.OversizedEarly` |

## Model

| member | source | states |
|---|---|---|
| StrictJson.Scanner.SkipWhitespace | src/strict-json.mjs:25-27 | stops at the first character that is not one of the four JSON spaces |
| StrictJson.Scanner.ScanString | src/strict-json.mjs:29-61 | succeeds exactly on a string of the grammar and returns the lexeme it consumed |
| StrictJson.Scanner.ScanNumber | src/strict-json.mjs:63-68 | succeeds exactly on a number of the grammar, taking the longest one |
| StrictJson.Scanner.ScanLiteral | src/strict-json.mjs:70-73 | succeeds exactly when the literal stands at the index |
| StrictJson.Scanner.ScanValue | src/strict-json.mjs:75-107 | reads a value and stops at the first fault of its text: unreadable, too deep or a repeated name, whichever comes first |
| StrictJson.Scanner.ScanArray | src/strict-json.mjs:141-161 | the same for an array one level deeper, its depth checked before anything in it |
| StrictJson.Scanner.ScanItems | src/strict-json.mjs:150-160 | reads the whole element list up to its first fault |
| StrictJson.Scanner.ScanObject | src/strict-json.mjs:109-139 | the same for an object one level deeper |
| StrictJson.Scanner.ScanMembers | src/strict-json.mjs:117-138 | reads the whole member list up to its first fault, with the set of decoded names seen so far |
| StrictJson.ParseRejectingDuplicateMembers | src/strict-json.mjs:15-167 | parses exactly the accepted texts, refuses bad depth limits, and throws the error of the first fault from the left |
| JsonFaults.FirstFaultWins | src/strict-json.mjs:15-167 | a readable text is rejected for the first fault of its tree in reading order, any other text for some fault, and there is none exactly when the text is accepted |
| JsonFaults.FirstFaultFits | src/strict-json.mjs:105-139 | a tree has no fault if and only if it fits the depth and repeats no name, and a fault names a condition it breaks |
| JsonFaults.RepeatedNameStandsTwice | src/strict-json.mjs:121-124 | even an unreadable text is rejected for a repeated name only if one decoded name stands in it twice |
| StrictJson.AcceptsExactly | src/strict-json.mjs:15-167 | a text is accepted if and only if it prints a grammar tree within the depth with no repeated decoded name |
| StrictJson.PrintingDecides | src/strict-json.mjs:15-167 | any spelling of a tree is consumed exactly and accepted if and only if the tree fits and repeats no name |
| JsonEscapes.SpellsExactly | src/strict-json.mjs:29-61 | a character stands for a code unit exactly as itself, as a short escape for its control, quote or slash, or as four digits of a table in either case |
| JsonEscapes.EveryUnitIsSpelled | src/strict-json.mjs:46-52 | the four digits of any code unit, in either letter case, decode to it, and a plain unit to itself |
| JsonEscapes.ShortEscapeIsHex | src/strict-json.mjs:41-52 | each of the eight short escapes decodes as the four-digit escape of the code unit written out for it |
| JsonEscapes.SpellingsDecode | src/strict-json.mjs:119-121 | a name decodes to a text if and only if it spells that text, unit by unit |
| JsonEscapes.AcceptsUnlessSpelledTwice | src/strict-json.mjs:105-139 | a text is accepted if and only if it prints a tree within the depth in which no object spells one name twice |
| JsonEscapes.EscapedAliasRejected | src/strict-json.mjs:109-139 | an object holding one name in two spellings is rejected at any depth limit |
| JsonEscapes.AliasedIsRejected | test/strict-json.test.mjs:31 | the object that holds a name plainly and as its escape is rejected for the repeated name |
| JsonReaderProofs.GrammarIsUnambiguous | src/strict-json.mjs:15-167 | a text prints at most one tree, so what was accepted has one meaning |
| RemoteActionReceipt.DefaultStatusFits | src/remote-action-receipt.mjs:246-259 | a valid receipt always fits its own default HTTP status |
| RemoteActionReceipt.CorrelatedReceiptsTravel | src/remote-action-receipt.mjs:38-98 | every valid correlated receipt passes in the valid-action phase with its default status, whatever its reason |
| RemoteActionReceipt.FitsExactly | src/remote-action-receipt.mjs:38-98 | which receipts fit which status, and in which phase, reason by reason |
| RemoteActionReceipt.DefaultStatusExactly | src/remote-action-receipt.mjs:246-255 | the default status is one the receipt may travel with, and never 404 or 413 |
| RemoteActionReceiptJson.SerializedProjectsBack | src/remote-action-receipt.mjs:162-244 | the serialized receipt is strict JSON and projects back to itself exactly when the options let it through |
| RemoteActionReceiptJson.SerializeIsInjective | src/remote-action-receipt.mjs:240-244 | different receipts have different texts |
| RemoteActionReceiptJson.SerializedText | src/remote-action-receipt.mjs:240-244 | the text of a receipt, written out: five members in order, without whitespace |
| RemoteActionReceiptJson.Project | src/remote-action-receipt.mjs:162-219 | whatever JSON value is projected, the result satisfies the options and is a valid receipt |
| RemoteActionReceiptJson.ProjectsExactly | src/remote-action-receipt.mjs:162-219 | a value is projected to a receipt if and only if it has the five fields and no others, version one, exactly this correlation and verdict, and the options let it through |
| Decimals.OneExactly | src/remote-action-receipt.mjs:162-219 | however it is spelled, a number is version one if and only if it is not negative and its digits, up to where the exponent puts the point, are a one |
| RemoteActionReceiptJson.ProjectedIsValid | src/remote-action-receipt.mjs:142-160 | a receipt that passes under options is valid without them |
| LocalhostListener.SelectsExactly | src/localhost-turn-action-listener.mjs:76-106 | a receipt's text is selected unchanged if and only if the projection lets the receipt through |
| LocalhostListener.AdmittedIsTransparent | src/localhost-turn-action-listener.mjs:192-214 | an admitted answer reaches the client with the handler's own status and bytes |
| LocalhostListener.AdmitsExactly | src/localhost-turn-action-listener.mjs:76-106 | an answer passes if and only if it is about no action or the request's own, and its reason may come with its status in the request's phase |
| LocalhostListener.WrittenIsSafe | src/localhost-turn-action-listener.mjs:192-214 | whatever the handler returned, the client gets a valid receipt that fits the status and is about its own action |
| LocalhostListener.FallbackExactly | src/localhost-turn-action-listener.mjs:76-106 | an unusable, oversized, unsafe or unreadable result is not selected, and the client then gets the unavailable receipt about its own action |
| LocalhostListener.BodyBytes | src/localhost-turn-action-listener.mjs:76-106 | the length of a body is that of the UTF-8 bytes of its scalar values |
| LocalhostListener.AdapterRepliesPass | src/localhost-turn-action-listener.mjs:63-74 | the listener's own refusals pass its own selection unchanged |
| LocalhostRequest.InspectHeaders | src/localhost-turn-action-listener.mjs:108-141 | passes exactly the header lists with at most one value for every framing header and the right ones, and forwards exactly three headers |
| LocalhostRequest.ContentLengthExactly | src/localhost-turn-action-listener.mjs:108-141 | a content length passes if and only if it is the decimal of a positive safe integer |
| LocalhostRequest.ReadBoundedBody | src/localhost-turn-action-listener.mjs:143-190 | the result depends on the joined bytes alone, is too large exactly above the limit, and otherwise follows how the stream ended |
| RelayTurnAction.RequestTellsAction | src/relay-turn-action.mjs:153-173 | a request carries exactly one action |
| RelayTurnActionRuns.BeginIsDecided | src/relay-turn-action.mjs:214-246 | the first failing check alone decides a refusal; otherwise the request carries the action and what is remembered and latched is exact |
| RelayTurnActionRuns.SettlementIsDecided | src/relay-turn-action.mjs:175-271 | a response accepts or rejects only if it says exactly that, else the outcome is unknown; only a rejected Stop is unlatched |
| RelayTurnAction.OneTaskTurnActionBoundary.Begin | src/relay-turn-action.mjs:214-246 | runs the checks in order and, when all pass, remembers, latches and sends |
| RelayTurnAction.OneTaskTurnActionBoundary.Settle | src/relay-turn-action.mjs:247-271 | releases the flight, and the latch only on the explicit rejection of a Stop |
| RelayTurnAction.OneTaskTurnActionBoundary.Remember | src/relay-turn-action.mjs:277-283 | keeps set and order in step and drops the oldest beyond 64 |
| RelayTurnActionRuns.SerializedRuns | src/relay-turn-action.mjs:214-284 | in every run one request at most is outstanding, a sent Stop blocks until a clear or its own rejection, and no identifier repeats within 64 sends |
| RelayTurnActionRuns.LateAnswersReleaseOnlyTheirOwn | src/relay-turn-action.mjs:247-275 | a late response never latches, and lifts only the latch of the Stop it answers |
| RelayTurnActionRuns.SendsExactlyWhenFree | src/relay-turn-action.mjs:214-246 | a dispatch is sent if and only if the turn matches, nothing is outstanding, no Stop is pending and the identifier is not among the last 64 |
| RemoteActionControl.OneTaskControlContextRegistry.Issue | src/remote-action-control.mjs:47-104 | activates a record with the requested fields under a new epoch or changes nothing, with at most four draws |
| RemoteActionControl.OneTaskControlContextRegistry.ResolveContext | src/remote-action-control.mjs:106-137 | resolves only the active record with both identifiers |
| RemoteActionControl.OneTaskControlContextRegistry.RevokeTurn | src/remote-action-control.mjs:139-149 | leaves nothing active and a later epoch if the record is of that thread and turn, and everything as it was if not |
| RemoteActionControl.OneTaskControlContextRegistry.RevokeAll | src/remote-action-control.mjs:151-155 | leaves nothing active, and a later epoch if something was |
| RemoteActionControl.HandleLivesWhileUnchanged | src/remote-action-control.mjs:106-155 | a resolved handle admits an action if and only if nothing changed the registry since, the record is unexpired and the binding is its own |
| RemoteActionControl.IssuesExactly | src/remote-action-control.mjs:47-104 | an issue succeeds if and only if identifiers, lifetime, clock and draws allow it; the record then has exactly the requested fields, otherwise nothing changes |
| RemoteActionControl.ResolvesExactly | src/remote-action-control.mjs:106-137 | a record is resolved if and only if it is the active one and both identifiers are its own |
| RemoteActionControl.RevocationRevokes | src/remote-action-control.mjs:139-155 | a matching revocation, or any of a live registry, leaves nothing active and a later epoch; a non-matching one changes nothing |
| RemoteActionControl.RevokedHandlesStayDead | src/remote-action-control.mjs:116-155 | after a matching revocation no handle resolved before admits anything, whatever changes follow |
| RemoteActionControl.PrivateIdentifierExactly | src/remote-action-control.mjs:8-16 | a private identifier is the UTF-16 text of 1 to 128 scalar values without control characters |
| FileReplayStore.CompletedOnlyForTheClaimant | src/file-remote-action-replay-store.mjs:134-164 | a completed answer is given if and only if the stored record is the requested one in every field, fingerprint included |
| ReplayDirectory.EntryAfterCrash | src/file-remote-action-replay-store.mjs:296-418 | a crash leaves a path with one of the values it may have had since the last directory sync |
| ReplayDirectory.AnyValueMaySurvive | src/file-remote-action-replay-store.mjs:296-418 | each of those values is one that a crash can leave |
| ReplayDirectory.SyncedWritesSurvive | src/file-remote-action-replay-store.mjs:296-418 | a write may be torn until its file is synced, and survives any crash after |
| RemoteActionTheorems.EveryRunKeepsInv | src/tailscale-turn-action-ingress.mjs:586-719 | from the claim on, every interleaving of handlers, context changes and crashes keeps the protocol invariant; admission before it is `RemoteActionAdmission.EveryRunAdmits` |
| RemoteActionTheorems.AtMostOneDispatch | src/tailscale-turn-action-ingress.mjs:586-719 | no run calls the dispatch handle twice for one installation and action identifier |
| RemoteActionTheorems.GrantedOnlyWhenDurable | src/file-remote-action-replay-store.mjs:296-342 | a claim is new only after the exclusive create, the file sync and the directory sync of that very record |
| RemoteActionTheorems.GrantedClaimsSurvive | src/file-remote-action-replay-store.mjs:296-342 | a granted claim is at its path in every later state and after any crash |
| RemoteActionTheorems.DecisionsAreFinal | src/tailscale-turn-action-ingress.mjs:650-719 | grants and decided receipts never change |
| RemoteActionTheorems.StoredReceiptsAgree | src/tailscale-turn-action-ingress.mjs:553-585 | all answers with a stored receipt, replays and the claimant's own after its completed write, carry one receipt for a key, accepted or not, and belong to one action |
| RemoteActionTheorems.ClaimantAnswers | src/tailscale-turn-action-ingress.mjs:690-719 | once a receipt is decided the claimant answers with it, stored, or that the outcome is unknown |
| RemoteActionTheorems.RecordsMoveForward | src/file-remote-action-replay-store.mjs:234-418 | in every run a record moves absent, claimed or torn, completed and skips nothing; a crash gives an ungranted key no completed record and of a granted one only undoes an unsynced rename |
| RemoteActionTheorems.EveryRunCompletesLast | src/file-remote-action-replay-store.mjs:296-418 | in every run, if any value a path may have after a crash is a completed record, its current one is |
| RemoteActionTheorems.TruthfulAcceptance | src/tailscale-turn-action-ingress.mjs:650-719 | an accepted answer means exactly one dispatch of this action to the bound thread and turn and an accepting response |
| RemoteActionAdmission.ArrivalIsDecided | src/tailscale-turn-action-ingress.mjs:462-499 | route, body, size, content type, capability, token: the first failing check alone decides status and reason, and if none fails authorization is awaited |
| RemoteActionAdmission.AuthorizationIsDecided | src/tailscale-turn-action-ingress.mjs:497-541 | installation, body, clock, window, expiry, the caller's own check: the same, and if none fails the request becomes a job of its installation at that time |
| RemoteActionAdmission.InspectionIsDecided | src/tailscale-turn-action-ingress.mjs:553-584 | what the key's record holds decides the answer or the next step |
| RemoteActionAdmission.ResolutionIsDecided | src/tailscale-turn-action-ingress.mjs:586-629 | the first failing check on the context decides the refusal; a conflicting action gets no further |
| RemoteActionAdmission.DispatchIsDecided | src/tailscale-turn-action-ingress.mjs:659-712 | the first failing check at the second clock reading decides the receipt and nothing is called; otherwise the handle is called with the bound action |
| RemoteActionAdmission.EveryRunAdmits | src/tailscale-turn-action-ingress.mjs:462-541 | in every run each job, granted claim and answer about a job comes from a request that arrived and passed every check |
| RemoteActionAdmission.OnlyAdmittedRequestsAreDispatched | src/tailscale-turn-action-ingress.mjs:462-712 | a key with any history belongs to a request that arrived routed, small, as JSON, with capability and token, for a safe installation, with a valid and timely action |
| RemoteActionAdmission.OnlyAdmittedRequestsAreAnswered | src/tailscale-turn-action-ingress.mjs:462-719 | so does every answer with a job, an accepted or a stored receipt |
| RemoteActionAdmission.ReachedInTime | src/tailscale-turn-action-ingress.mjs:669-712 | the boundary is reached only for an admitted job, with request and context unexpired at the second clock reading |
| RemoteActionAdmission.AcceptanceIsEarned | src/tailscale-turn-action-ingress.mjs:462-719 | an accepted answer means an admitted request, one call, one request and its error-free answer: the empty object for a Stop, the bound turn for a Reply |
| RemoteActionAnswers.FaultIsAnswered | src/tailscale-turn-action-ingress.mjs:543-657 | a fault of the fingerprint or the store is answered 503, unavailable before anything was touched and unknown after |
| RemoteActionAnswers.RereadIsDecided | src/tailscale-turn-action-ingress.mjs:631-648 | after a lost race for the claim the winner's record decides the answer |
| RemoteActionAnswers.ReceiptIsDecided | src/tailscale-turn-action-ingress.mjs:710-718 | the receipt of a dispatch is accepted exactly for this action's own acceptance, carries a refusal's reason, and is of unknown outcome otherwise |
| RemoteActionAnswers.CompletionIsDecided | src/file-remote-action-replay-store.mjs:344-418 | only the claimant's own claim is completed, and only its own receipt found already there is answered |
| RemoteActionTheorems.OtherActionsNeverShare | src/tailscale-turn-action-ingress.mjs:553-585 | once an action has a stored or accepted receipt, a different action under the same key is neither accepted nor answered from the store |
| RemoteActionTheorems.ReachedOnlyWhileActive | src/remote-action-control.mjs:116-135 | the boundary is reached only while the very record is active and unexpired, with its thread and turn |
| RemoteActionTheorems.LiveBinding | src/tailscale-turn-action-ingress.mjs:586-716 | what reaches the boundary is bound to a record equal in five fields to the one first resolved, and the same one when identifiers are never reused |
| RemoteActionTheorems.ListenerIsTransparent | src/localhost-turn-action-listener.mjs:192-288 | every answer of a run to a forwarded request is written to the client unchanged |
| RemoteActionProgress.UnhinderedRequestIsAccepted | src/tailscale-turn-action-ingress.mjs:440-719 | a timely request that nothing hinders ends accepted with status 200 and a stored completed record |
| RemoteActionProgress.CompletedRequestIsReplayed | src/tailscale-turn-action-ingress.mjs:553-585 | a later handler for the same request answers with the stored receipt |
| CommandProof.EveryRunKeepsInv | bin/codex-one-task-relay.mjs:713-1679 | every run of a proof around a command is open with all its evidence in the trace, failed, or proven |
| CommandProof.SuccessHasTheWholeStory | bin/codex-one-task-relay.mjs:911-1659 | for the external and the local long-task proof success implies, in order, agreement on turn and command, one context or none, an undisturbed command, one written interrupt and no steer, its exact empty result, the interrupted end and a clean exit |
| OwnedTaskOutcomes.OutcomeIsFinal | bin/codex-one-task-relay.mjs:1254-1278 | once the run has an outcome it keeps it |
| CommandProofWitness.SuccessIsPossible | bin/codex-one-task-relay.mjs:713-1679 | in each of the two modes some run succeeds |
| CommandProofWitness.FailedRunMayShowContext | bin/codex-one-task-relay.mjs:1371-1389 | some run fails and still has a live context |
| SettledRuns.FailedRunShowsContextExactly | bin/codex-one-task-relay.mjs:713-1679 | a failed external-stop run has a live context if and only if some line completed the turn of its early command while the first activation failed and the second succeeded |
| SettledRuns.NothingWrittenAfterOutcome | bin/codex-one-task-relay.mjs:859-909 | after an outcome no request is written |
| RevokedRuns.EndedRunsAreRevoked | bin/codex-one-task-relay.mjs:1254-1338 | in every run no context is live after the turn has ended, and once turn or run has ended and no context is live, no pending Stop is remembered; a confirmed proof waits for no timer, and a deadline to start is pending exactly from turn/start until the proof starts |
| RevokedRuns.DeadlineIsDecided | bin/codex-one-task-relay.mjs:793-828 | the deadline fails exactly the open runs whose proof has not started since turn/start |
| OwnedDispatches.DispatchWritesExactly | bin/codex-one-task-relay.mjs:859-945 | a dispatched action is written if and only if its handle is live, its turn is the running one of both sides and nothing is on its way; then once, as the request that carries it bound to the run's thread and turn |
| OwnedDispatches.TimerIsDecided | bin/codex-one-task-relay.mjs:968-1010 | a proof timer fails an open run, except that the end of the observation dispatches the proof's own Stop, written if and only if it is writable |
| OwnedDispatches.LostResponseSettles | bin/codex-one-task-relay.mjs:859-909 | a response that will not come settles its own request as failed and no other |
| OwnedTaskOutcomes.ProofSuccessIsInterruption | bin/codex-one-task-relay.mjs:1293-1659 | a proof run of any mode succeeds only interrupted, accepted and confirmed, and around a command only after the exact response |
| OwnedTaskOutcomes.RunSucceedsExactly | bin/codex-one-task-relay.mjs:1621-1659 | a run of any mode succeeds if and only if the child exits with code 0 after its turn ended with nothing failed, and in a proof the actions were accepted and the turn interrupted |
| PlainRuns.PlainRunSucceedsExactly | bin/codex-one-task-relay.mjs:1621-1659 | without a proof: if and only if the answered turn was heard to end, first with this status, and the child then exited with code 0 while nothing had failed |
| PlainReference.PlainRunsAreJudged | bin/codex-one-task-relay.mjs:722-1659 | without a proof the controller comes out, on all events, as a reference of five facts judges them: which event fails the run, and which ends it |
| PlainRunsWitness.PlainSuccessIsPossible | bin/codex-one-task-relay.mjs:1621-1659 | a plain run of the four answers succeeds with each of the three statuses |
| PlainRunsWitness.LoopbackSuccessIsPossible | bin/codex-one-task-relay.mjs:1621-1659 | so does a loopback proof, interrupted |
| BufferedEnds.OrderDoesNotMatter | bin/codex-one-task-relay.mjs:1028-1520 | from any state turn/start leaves, arrivals with the same contents, repeated or not, lead to the same outcome and proof state, whatever turn ends were buffered, unless one would end a run without a proof |
| BufferedEnds.EveryInterleavingAgrees | bin/codex-one-task-relay.mjs:1028-1520 | every permutation of the same arrivals ends the same way |
| BufferedEnds.OrderMattersExactly | bin/codex-one-task-relay.mjs:1351-1374 | two orders can be told apart if and only if there is no proof and a buffered end could be of the answered turn |
| BufferedEnds.FailsExactlyOnConflict | bin/codex-one-task-relay.mjs:1115-1390 | in working surroundings a proof run fails if and only if identifiers or commands disagree or the answered turn had already ended, and has otherwise started exactly when all is known |
| TurnCorrelation.FailsExactlyOnConflict | bin/codex-one-task-relay.mjs:1115-1390 | without buffered ends the same holds in every mode, with or without a proof: the run fails exactly on a conflict |
| TurnStart.EveryRunOpensBlank | bin/codex-one-task-relay.mjs:722-1585 | in every run and mode, nothing about a turn, its command or the proof is taken up before turn/start is sent |
| TurnStart.TurnStartIsSent | bin/codex-one-task-relay.mjs:1456-1478 | in every run the response that sends turn/start leads to the state the correlation starts from, with whatever turn ends were buffered before still buffered |
| OwnedTaskController.RunOwnedTask | bin/codex-one-task-relay.mjs:713-1679 | driving the controller over any events resolves exactly when the exit concludes the run, without a proof exactly as the reference judges, and a command proof that resolves has its whole story in the controller's history |
| OwnedTaskController.Controller.React | bin/codex-one-task-relay.mjs:722-1679 | each event updates the controller as the machine says |
| OwnedTaskController.Controller.HandleResponse | bin/codex-one-task-relay.mjs:1392-1491 | a response resolves an action, advances the phase or fails the run |
| OwnedTaskController.Controller.HandleNotice | bin/codex-one-task-relay.mjs:1493-1585 | a notification is claimed, correlated, watched, ended or passed to the relay |
| OwnedTaskController.Controller.HandleCommandStart | bin/codex-one-task-relay.mjs:1115-1158 | a command start is tracked, kept for later, ignored or fatal |
| OwnedTaskController.Controller.DrainEarly | bin/codex-one-task-relay.mjs:1361-1390 | finds the buffered end of the turn by a loop, else takes the early command, else begins |
| OwnedTaskController.Controller.BeginActionProof | bin/codex-one-task-relay.mjs:1160-1252 | activates only when turn and command are known |
| OwnedTaskController.Controller.FinishTurn | bin/codex-one-task-relay.mjs:1293-1338 | records the end, revokes and confirms, or fails |
| OwnedTaskController.Controller.RejectPendingResponses | bin/codex-one-task-relay.mjs:850-857 | rejects every outstanding request in order |
| OwnedTaskController.Controller.SendActionRequest | bin/codex-one-task-relay.mjs:859-909 | writes a request only in a running, unended run that does not already wait for it |
| OwnedTaskController.Controller.AdmitResolvedAction | bin/codex-one-task-relay.mjs:1802-1810 | admits one Stop, and only that very one again |
| OwnedTaskController.Controller.ChildCloses | bin/codex-one-task-relay.mjs:1621-1659 | resolves with the turn's status if and only if the code is 0, the turn ended and a proof, if there is one, is confirmed; rejects otherwise; changes nothing once settled |
| StatusReducerRuns.EachTaskSteps | src/status-reducer.mjs:157-233 | an event changes each thread by that thread's own step and no other |
| StatusReducerRuns.EveryTaskIsOk | src/status-reducer.mjs:300-475 | in every run the current turn is a tombstone exactly when it has a terminal status, ready means completed, and no pending request belongs to a tombstone |
| StatusReducerRuns.TombstonesAreTheLast64 | src/status-reducer.mjs:319-354 | the tombstones are exactly the last 64 completed turns in order |
| StatusReducerRuns.CompletedTurnsStayInert | src/status-reducer.mjs:300-475 | until 64 others complete, a completed turn changes and emits nothing |
| StatusReducerRuns.AttentionComesFromFlags | src/status-reducer.mjs:368-413 | attention is required exactly when the latest cause of the state was an active status with a wait flag, and which flag decides which state |
| StatusReducerRuns.StateComesFromItsCause | src/status-reducer.mjs:157-536 | in every run each of the seven states holds exactly when the latest cause, read off the messages, is one of its own: ready exactly after a completed turn, blocked after a failed or interrupted one or a system error, and so on |
| StatusReducerRuns.ReachesExactly | src/status-reducer.mjs:157-194 | which messages are ignored |
| StatusReducerRuns.AggregateCountsThreads | src/status-reducer.mjs:242-264 | the aggregate counts the threads themselves, by state, in all, waiting, and the most pressing state |
| StatusReducerRuns.SweepsOnlyStale | src/status-reducer.mjs:196-215 | a sweep turns quiet running threads stale and changes nothing else |
| StatusReducerRuns.DisconnectionsSpareEndedTasks | src/status-reducer.mjs:217-494 | a disconnection cuts off exactly the running, waiting and stale tasks and never overwrites ready or blocked |
| StatusReducerRuns.StaleMeansQuiet | src/status-reducer.mjs:196-215 | with nondecreasing times stale arises only by a sweep, from running, when every signal is a full window old |
| StatusReducerObject.CountsSumToTotal | src/status-reducer.mjs:242-264 | the seven counts sum to the total |
| StatusReducerObject.StatusReducer.CurrentAggregate | src/status-reducer.mjs:242-264 | the counting loop gives the aggregate of the true multiset of states |
| StatusReducerObject.StatusReducer.CountStates | src/status-reducer.mjs:242-246 | each state's count is its multiplicity |
| StatusReducerObject.StatusReducer.Total | src/status-reducer.mjs:258-260 | summing the counts gives the number of known states |
| StatusReducerObject.StatusReducer.Priority | src/status-reducer.mjs:248-261 | the first non-empty state in the fixed order |
| StatusReducerObject.StatusReducer.Ingest | src/status-reducer.mjs:157-194 | a message changes the thread it reaches and emits its record; the states it leads to are `StatusReducerRuns.StateComesFromItsCause` |
| StatusReducerObject.StatusReducer.Sweep | src/status-reducer.mjs:196-215 | in insertion order, each record taken after its own transition |
| StatusReducerObject.StatusReducer.MarkDisconnected | src/status-reducer.mjs:217-233 | the same for disconnections |
| StatusReducerObject.StatusReducer.ThreadIdForTurn | src/status-reducer.mjs:518-524 | the first thread in insertion order with that turn |
| LiveActivityPayload.BuildsExactly | src/live-activity-payload.mjs:78-134 | a record becomes an update if and only if it is about one untitled task, its attention flag fits its state and every number is in range, and then exactly this update |
| LiveActivityPayload.BuiltValidates | src/live-activity-payload.mjs:136-189 | what is built is accepted after any smaller sequence |
| LiveActivityPayload.ValidatesExactly | src/live-activity-payload.mjs:136-189 | validation accepts exactly a stale date after a positive time, a later sequence, safe integers, the marker and the presentation of one of the seven states |
| OneTaskRelayRuns.EveryStreamFits | src/one-task-relay.mjs:232-309 | every run sends sequences 1, 2, 3 and so on with nondecreasing timestamps and a fixed window, each acceptable after the last |
| OneTaskRelayRuns.PrivacyIsNeverViolated | src/one-task-relay.mjs:291-299 | the reducer never gives the privacy check a reason to throw |
| OneTaskRelayRuns.BackwardTimeChangesNothing | src/one-task-relay.mjs:276-289 | a time is refused exactly when it is earlier than the last accepted one, and a refusal or a message not passed on changes nothing |
| OneTaskRelayRuns.HeartbeatOnlyForRunningTurn | src/one-task-relay.mjs:232-260 | activity sends an update only for the running current turn that is not a tombstone |
| OneTaskRelayRuns.EveryChangeIsSent | src/one-task-relay.mjs:232-309 | a change of state is sent whenever an update can be built |
| OneTaskRelayRuns.EmitsExactly | src/one-task-relay.mjs:291-309 | emission fails exactly when timestamp, window or sequence is out of range |
| OneTaskRelayRuns.PassesOnExactly | src/one-task-relay.mjs:55-180 | a message is passed on if and only if it names the owned thread and is complete |
| OneTaskRelayRuns.WindowRoundsUp | src/one-task-relay.mjs:203-230 | the window in seconds is the least, at least one, that covers the one in milliseconds |
| OneTaskRelayRuns.RelayRunsReducer | src/one-task-relay.mjs:232-289 | the relay's state is that of a reducer run over what was passed on in time |
| OneTaskRelayRuns.LastUpdateShowsCause | src/one-task-relay.mjs:232-309 | in a run that refused no update, the last update shows the state of the task's latest cause |
| OneTaskRelayRuns.LastUpdateSays | src/live-activity-payload.mjs:7-43 | in the words the phone shows, cause by cause |
| OneTaskRelayObject.OneTaskRelay.Ingest | src/one-task-relay.mjs:232-260 | projects, refuses backward time, applies, emits and adds the heartbeat |
| OneTaskRelayObject.OneTaskRelay.Sweep | src/one-task-relay.mjs:262-264 | sweeps and emits, or refuses backward time |
| OneTaskRelayObject.OneTaskRelay.EmitRecords | src/one-task-relay.mjs:288-309 | emits in order until one is refused |
| ApnsSender.PushedExactly | src/apns-live-activity-http2.mjs:390-502 | an accepted push is its input restamped later than the last, with the same window, under a provider token younger than 50 minutes |
| ApnsSender.CoalescingLosesNothing | src/apns-live-activity-http2.mjs:417-429 | without immediate repetitions the pushes show exactly what the inputs show, and the last push shows the last input |
| ApnsSender.CoalescedOnlyWhileFresh | src/apns-live-activity-http2.mjs:417-429 | an input is coalesced only before the stale-date of the last accepted push |
| ApnsSender.PushesIncrease | src/apns-live-activity-http2.mjs:431-447 | accepted timestamps and sequences strictly increase |
| ApnsSender.RepeatsAreSpaced | src/apns-live-activity-http2.mjs:417-489 | equal consecutive presentations are at least half a window and a second apart |
| ApnsSender.FailureIsSticky | src/apns-live-activity-http2.mjs:390-526 | after a failure or a close nothing is posted again |
| ApnsSender.FailuresFail | src/apns-live-activity-http2.mjs:497-533 | a failing send leaves the sender failed, closed and without its token |
| ApnsSender.WorkingSendsSucceed | src/apns-live-activity-http2.mjs:390-502 | in working surroundings a send fails if and only if the payload does not validate |
| ApnsSender.SendIsDecided | src/apns-live-activity-http2.mjs:390-502 | in every open run a send breaks, is coalesced or is pushed exactly under conditions on what was pushed before, and the push is exact |
| ApnsSenderObject.ApnsLiveActivityHttp2Sender.Send | src/apns-live-activity-http2.mjs:390-502 | one send as the step function says |
| ApnsSenderObject.ApnsLiveActivityHttp2Sender.GetProviderToken | src/apns-live-activity-http2.mjs:535-559 | refreshes after 50 minutes and refuses a clock that went back |
| RelayToApns.RelayStreamIsDelivered | src/apns-live-activity-http2.mjs:390-502 | in working surroundings every relay stream is taken in full and the last push shows its last state |
| JsonlSplitter.SendLiveActivityJsonl | src/apns-live-activity-http2.mjs:663-715 | the chunk loop gives the result of the whole byte stream, so chunking does not matter; what that result is, line by line, are the rows below |
| JsonlSplitter.OversizedEarly | src/apns-live-activity-http2.mjs:706-708 | an unterminated rest above the limit already decides the end |
| JsonlSplitter.WrittenLinesAreHandedOver | src/apns-live-activity-http2.mjs:681-715 | lines that are taken, blank ones left out, are handed over exactly, in order |
| JsonlSplitter.FirstBadLineEnds | src/apns-live-activity-http2.mjs:681-704 | the first line over 8192 bytes ends all as oversized, one that is no JSON as malformed, both without it, and one the sender refuses as undelivered, with it; nothing after it is handed over |
| JsonlSplitter.UnterminatedLineEnds | src/apns-live-activity-http2.mjs:706-714 | the same for the last line without a newline |

## Left out

- RemoteActionTheorems.LiveBinding: the record dispatched to is the very one first resolved only when no context identifier was drawn twice, because identifiers are random draws that the model does not force to differ.
- Suspension: the request handler and the replay store are a step function over their awaits, not classes, because a Dafny method cannot be suspended between two statements.
- The controller's variables are the components of one record field, so aliasing between them is not modelled; its turn-action boundary is held as a value.
- Promise continuations of the controller run in order; a timer, a dispatch or the child's end waits for them, while a line may be handled before them.
- The boundary a dispatch meets in the remote-action runs is any boundary state at all, which covers every real one.
- HMAC, SHA-256 paths, token signatures and constant-time comparison: taken as injective or as choices of the environment.
- Removal of the temporary file of a failed completion.
- A file that was not synced is torn or kept as a whole, and a torn file never reads as a record.
- Times are integers (whole milliseconds or seconds); parsing of dates, non-integral times and the year range of ISO texts are not modelled.
- Identifiers are already normalised; trimming, prefixing and Unicode well-formedness of titles and turn identifiers in the reducer are not modelled.
- RemoteActionReceiptJson.Project: a JSON number counts as schema version 1 when its exact decimal value is 1; numbers that only round to 1 in binary floating point do not.
- The duplicate-name check decodes names by the grammar's own escapes rather than by a library call, and the final library parse is taken to return the tree that was scanned.
- HTTP headers: names are lower-cased as ASCII; request routing, timeouts, sockets, listener start and close, and authority validation are left out.
- Capability headers, bearer tokens, content types and body decoding are verdicts given with the request; only their order and their answers are modelled.
- The request body validation of a remote action is the predicate of its result, not the parser.
- File modes, ownership, link counts and configuration loading of the stores and secrets.
- APNs: the request headers, the priority of a push among them, the response parser, HTTP/2 sessions and the body-size check, which no validated update can fail.
- A failing output transport of the relay; the emission failures modelled are those of the update itself.
- Command-line handling, MCP isolation checks, signals, temporary state and process cleanup around the controller.
- The loopback proof's own HTTP client: its dispatches and its end are events.
- The Swift application, the widget and the smoke scripts.
