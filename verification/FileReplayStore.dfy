/**
 The records of the file replay store and the pure decisions made on them. The store's `inspect`,
 `claim` and `complete` suspend between file operations, so their steps are in TailscaleIngress.
 */
module FileReplayStore {
  import opened Collections
  import opened JsonGrammar
  import opened RemoteActionReceipt
  import opened ReplayDirectory

  /** A request instant: its text and, when it parses, its milliseconds. */
  datatype Instant = Instant(text: Text, ms: Option<int>)

  /** A validated remote action; only a Reply carries text. */
  datatype Action = Action(
    actionId: Text, controlContextId: Text, issuedAt: Instant, expiresAt: Instant,
    kind: ActionKind, text: Text)

  /** The keyed hash of the whole action, taken as injective. */
  datatype Fingerprint = Hmac(action: Action)

  datatype ReplayRecord = ReplayRecord(
    installationId: Text, actionId: Text, action: ActionKind, fingerprint: Fingerprint, expiresAtMs: int)

  function KeyOf(r: ReplayRecord): Key { Key(r.installationId, r.actionId) }

  function Correlate(a: Action): Correlation { Correlation(a.actionId, a.kind) }

  /** What the store says about a request. */
  datatype StoreState = MissingState | NewState | ConflictState | UncertainState | CompletedState(receipt: Receipt)

  function ProjectState(stored: Content<ReplayRecord>, requested: ReplayRecord): StoreState {
    if stored.Torn? then UncertainState
    else if stored.record.installationId != requested.installationId
            || stored.record.actionId != requested.actionId then UncertainState
    else if stored.record.action != requested.action then ConflictState
    else if stored.record.fingerprint != requested.fingerprint then ConflictState
    else if stored.record.expiresAtMs != requested.expiresAtMs then UncertainState
    else if stored.Completed? then CompletedState(stored.receipt)
    else UncertainState
  }

  predicate MatchingRecord(stored: ReplayRecord, requested: ReplayRecord) {
    && stored.installationId == requested.installationId
    && stored.actionId == requested.actionId
    && stored.action == requested.action
    && stored.fingerprint == requested.fingerprint
    && stored.expiresAtMs == requested.expiresAtMs
  }

  /**
   Read an opened record file. The descriptor must still be linked at its path, otherwise the
   second `stat` sees no link and the read is invalid.
   */
  function ReadLinked(d: Disk<ReplayRecord>, k: Key, i: Inode): Content<ReplayRecord> {
    if Current(d, k) == Some(i) && i in d.files then d.files[i].content else Torn
  }

  /** A completed answer is given only to the request that was claimed, for the action it carried. */
  lemma CompletedOnlyForTheClaimant(stored: Content<ReplayRecord>, requested: ReplayRecord)
    ensures ProjectState(stored, requested).CompletedState? <==>
              stored.Completed? && stored.record == requested
    ensures ProjectState(stored, requested).CompletedState? ==>
              ProjectState(stored, requested).receipt == stored.receipt
              && stored.record.fingerprint.action == requested.fingerprint.action
  {
  }

  /** Two records match exactly when they are the same in every field. */
  lemma MatchesExactly(stored: ReplayRecord, requested: ReplayRecord)
    ensures MatchingRecord(stored, requested) <==> stored == requested
  {
  }
}
