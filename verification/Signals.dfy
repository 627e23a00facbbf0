/**
 * Whether a push will have a signal of its own recorded, told from the push and the store before the
 * call: the put's guards, then the score's, then the marker's, each with room for its record.
 */
module Signals {
  import opened Basics
  import opened Records
  import opened Catalog
  import opened Chain
  import opened Store
  import opened Invariant
  import opened Operations
  import opened Guarantees
  import opened Effects
  import opened Replication
  import opened Replies

  /** The merge reports that it recorded a score or a marker. */
  predicate TakesSignal(reply: Result<MergeOutcome>) {
    reply.Ok? && (reply.value.reputation || reply.value.quarantine)
  }

  // ---- the condition ----

  /** A put of the entry would be recorded: it is not refused, and the key is not tombstoned. */
  ghost predicate PutDue(cfg: Config, s: State, sync: SyncEntry) {
    && PutRefusal(cfg, s, sync.realm, sync.manifest, sync.artifact).None?
    && Key(sync.realm, Hex(cfg.sha(sync.artifact))) !in Meaning(s.logs).tombstones
  }

  /** The head and the journal total that a record leaves. */
  function Written(cfg: Config, s: State, op: LogOp, fs: nat): State {
    var rec := NextRecord(cfg, s, op, fs);
    s.(heads := s.heads[RealmSha(op.realm) := Head(rec.seq_ + 1, RecordSha(rec))],
       journalBytes := s.journalBytes + LineBytes(cfg, rec))
  }

  function PutWritten(cfg: Config, s: State, sync: SyncEntry): State {
    Written(cfg, s, LogOp.Put(sync.realm, sync.hash, sync.manifest), PutBirth(s, Key(sync.realm, sync.hash)))
  }

  /** The score is verified, and so is none that is already there and no less. */
  predicate Beats(cfg: Config, key: Key, score: ReputationScore, there: Option<ReputationScore>) {
    && cfg.promotionVerifies(score, key.realm, key.hash)
    && (there.None? || !cfg.promotionVerifies(there.value, key.realm, key.hash) || Greater(score.score, there.value.score))
  }

  /** The score is well-shaped and beats the one the row has. */
  predicate ScoreDue(cfg: Config, s: State, sync: SyncEntry) {
    var key := Key(sync.realm, sync.hash);
    && sync.reputation.Some? && AttestShapeOk(cfg, sync.realm, sync.reputation.value)
    && Beats(cfg, key, sync.reputation.value, RowScore(s.content, key))
  }

  /** The marker is well-shaped and merges with the one the row has. */
  predicate MarkerDue(cfg: Config, s: State, sync: SyncEntry) {
    && sync.quarantine.Some? && MarkShapeOk(cfg, sync.realm, sync.quarantine.value)
    && MergeNotice(sync.quarantine.value, Marker(s.content, Key(sync.realm, sync.hash))).Some?
  }

  /** In state `at`, the record of the first signal due has room; `row` has the row as it was before the push. */
  predicate SignalFits(cfg: Config, row: State, at: State, sync: SyncEntry) {
    var key := Key(sync.realm, sync.hash);
    if ScoreDue(cfg, row, sync) then
      Fits(cfg, at, LogOp.Attest(sync.realm, sync.hash, sync.reputation.value), PutBirth(row, key))
    else
      && MarkerDue(cfg, row, sync)
      && Fits(cfg, at,
              LogOp.Quarantine(sync.realm, sync.hash, MergeNotice(sync.quarantine.value, Marker(row.content, key)).value),
              PutBirth(row, key))
  }

  /**
   * The push is an accepted offer whose put has room, and after the put there is room for its score if
   * one is due, or else for a marker that is due.
   */
  ghost predicate SignalDue(cfg: Config, s: State, push: SignedSyncEntry) {
    && Accepted(cfg, push) && push.record.op.Put?
    && PutDue(cfg, s, push.sync.value)
    && SignalFits(cfg, s, PutWritten(cfg, s, push.sync.value), push.sync.value)
  }

  // ---- the signals, on the state after the put ----

  /** A commit on a healthy store whose disk does not fail succeeds exactly when its record fits. */
  lemma CommitTakenIff(cfg: Config, s: State, op: LogOp, fs: nat)
    requires s.healthy
    ensures var r := Commit(cfg, s, op, fs, NoFault).1;
            (r == Ok(true) <==> Fits(cfg, s, op, fs)) && (r == Ok(true) || r == Err(Limit))
  {
    hide Fits, Apply;
  }

  lemma ScoreTakenIff(cfg: Config, s: State, sync: SyncEntry)
    requires Inv(cfg, s) && s.healthy && sync.hash.Hex? && Key(sync.realm, sync.hash) in s.content.entries
    ensures var (s', r) := MergeReputation(cfg, s, sync.realm, sync.hash, sync.reputation, NoFault);
            && (!ScoreDue(cfg, s, sync) ==> (s', r) == (s, Ok(false)))
            && (ScoreDue(cfg, s, sync) ==>
                  var fits := Fits(cfg, s, LogOp.Attest(sync.realm, sync.hash, sync.reputation.value),
                                   PutBirth(s, Key(sync.realm, sync.hash)));
                  r == if fits then Ok(true) else Err(Limit))
  {
    hide Inv, ReadBlob, Commit, Fits, AttestShapeOk;
    var key := Key(sync.realm, sync.hash);
    LiveIsReadable(cfg, s, key);
    if sync.reputation.Some? {
      CommitTakenIff(cfg, s, LogOp.Attest(sync.realm, sync.hash, sync.reputation.value), PutBirth(s, key));
    }
  }

  lemma MarkerTakenIff(cfg: Config, s: State, sync: SyncEntry)
    requires s.healthy && sync.hash.Hex? && Key(sync.realm, sync.hash) in s.content.entries
    ensures var r := MergeQuarantine(cfg, s, sync.realm, sync.hash, sync.quarantine, NoFault).1;
            && r.Ok?
            && (r.value <==>
                  && MarkerDue(cfg, s, sync)
                  && Fits(cfg, s,
                          LogOp.Quarantine(sync.realm, sync.hash,
                            MergeNotice(sync.quarantine.value, Marker(s.content, Key(sync.realm, sync.hash))).value),
                          PutBirth(s, Key(sync.realm, sync.hash))))
  {
    hide Commit, Fits, MarkShapeOk, MergeNotice;
    var key := Key(sync.realm, sync.hash);
    if MarkerDue(cfg, s, sync) {
      var n := MergeNotice(sync.quarantine.value, Marker(s.content, key)).value;
      CommitTakenIff(cfg, s, LogOp.Quarantine(sync.realm, sync.hash, n), PutBirth(s, key));
    }
  }

  /** Of a live row a signal is taken exactly when the first one due fits; it is the score if one is due. */
  lemma SignalsTakenIff(cfg: Config, s: State, sync: SyncEntry, membership: bool)
    requires Inv(cfg, s) && s.healthy && sync.hash.Hex? && Key(sync.realm, sync.hash) in s.content.entries
    ensures var r := MergeSignals(cfg, s, sync, membership, NO_MERGE_FAULTS).1;
            && (TakesSignal(r) <==> SignalFits(cfg, s, s, sync))
            && (TakesSignal(r) ==> (r.value.reputation <==> ScoreDue(cfg, s, sync)))
  {
    hide Inv, MergeReputation, MergeQuarantine, Fits, ScoreDue, MarkerDue, MergeNotice;
    var (s1, r1) := MergeReputation(cfg, s, sync.realm, sync.hash, sync.reputation, NoFault);
    ScoreTakenIff(cfg, s, sync);
    if ScoreDue(cfg, s, sync) {
      if r1.Ok? {
        ReputationEffect(cfg, s, Key(sync.realm, sync.hash), sync.reputation);
        MarkerTakenIff(cfg, s1, sync);
      }
    } else {
      MarkerTakenIff(cfg, s, sync);
    }
  }

  // ---- the put, told from before ----

  lemma PutLoggedDue(cfg: Config, s: State, key: Key, manifest: Manifest, created: bool)
    requires s.healthy && key.hash.Hex?
    ensures var (s', r) := PutLogged(cfg, s, key, manifest, created, NO_PUT_FAULTS);
            var (op, fs) := (LogOp.Put(key.realm, key.hash, manifest), PutBirth(s, key));
            var rec := NextRecord(cfg, s, op, fs);
            Fits(cfg, s, op, fs) ==>
              && r.Ok?
              && s'.heads == s.heads[RealmSha(key.realm) := Head(rec.seq_ + 1, RecordSha(rec))]
              && s'.journalBytes == s.journalBytes + LineBytes(cfg, rec)
  {
    hide Fits, Apply, LineBytes;
  }

  /** Under the store's invariant the put's guards say exactly whether it goes through. */
  lemma PutDueIff(cfg: Config, s: State, sync: SyncEntry)
    requires Inv(cfg, s) && s.healthy && sync.hash == Hex(cfg.sha(sync.artifact))
    requires Key(sync.realm, sync.hash) !in s.content.tombstones
    ensures var (s', r) := Store.Put(cfg, s, sync.realm, sync.manifest, sync.artifact, NO_PUT_FAULTS);
            && (r.Ok? <==> PutDue(cfg, s, sync))
            && (r.Ok? ==> s'.heads == PutWritten(cfg, s, sync).heads && s'.journalBytes == PutWritten(cfg, s, sync).journalBytes)
  {
    hide Inv, Meaning, Fits, PutLogged, LineBytes, Store.Put, PutRefusal;
    PutIsLogged(cfg, s, sync);
    if PutDue(cfg, s, sync) {
      var s1, created := BlobWritten(cfg, s, sync);
      PutLoggedDue(cfg, s1, Key(sync.realm, sync.hash), sync.manifest, created);
    }
  }

  /** A put that is refused fails. */
  lemma PutIsLogged(cfg: Config, s: State, sync: SyncEntry)
    requires Inv(cfg, s) && s.healthy && sync.hash == Hex(cfg.sha(sync.artifact))
    requires Key(sync.realm, sync.hash) !in s.content.tombstones
    ensures !PutDue(cfg, s, sync) ==> Store.Put(cfg, s, sync.realm, sync.manifest, sync.artifact, NO_PUT_FAULTS).1.Err?
  {
    hide Inv, Meaning, Fits, WriteBlob, PutLogged, Store.Put, PutRefusal, BlobRoom;
    HealthyContent(cfg, s);
    PutGuards(cfg, s, sync.realm, sync.manifest, sync.artifact, NO_PUT_FAULTS);
  }

  /** One that is due is its tail, from a state that differs in the blobs alone. */
  lemma BlobWritten(cfg: Config, s: State, sync: SyncEntry) returns (s1: State, created: bool)
    requires Inv(cfg, s) && s.healthy && sync.hash == Hex(cfg.sha(sync.artifact)) && PutDue(cfg, s, sync)
    ensures var key := Key(sync.realm, sync.hash);
            && s1 == s.(blobs := s1.blobs, blobBytes := s1.blobBytes, blobCount := s1.blobCount)
            && Fits(cfg, s1, LogOp.Put(sync.realm, sync.hash, sync.manifest), PutBirth(s, key))
            && Store.Put(cfg, s, sync.realm, sync.manifest, sync.artifact, NO_PUT_FAULTS) ==
               PutLogged(cfg, s1, key, sync.manifest, created, NO_PUT_FAULTS)
  {
    hide Inv, Meaning, Fits, WriteBlob, PutLogged, Store.Put, PutRefusal, BlobRoom;
    PutGuards(cfg, s, sync.realm, sync.manifest, sync.artifact, NO_PUT_FAULTS);
    BlobAnswers(cfg, s, sync.artifact, BlobLands);
    var w := WriteBlob(cfg, s, cfg.sha(sync.artifact), sync.artifact, BlobLands);
    s1, created := w.0, w.1.value;
    FitsSame(cfg, s, s1, LogOp.Put(sync.realm, sync.hash, sync.manifest), PutBirth(s, Key(sync.realm, sync.hash)));
  }

  /** The row keeps its score, marker and birth order through the put, and the signals have the room told. */
  lemma FitsAfterPut(cfg: Config, s: State, s1: State, sync: SyncEntry)
    requires var key := Key(sync.realm, sync.hash);
             RowScore(s1.content, key) == RowScore(s.content, key) && Marker(s1.content, key) == Marker(s.content, key)
             && PutBirth(s1, key) == PutBirth(s, key)
    requires s1.heads == PutWritten(cfg, s, sync).heads && s1.journalBytes == PutWritten(cfg, s, sync).journalBytes
    ensures SignalFits(cfg, s1, s1, sync) <==> SignalFits(cfg, s, PutWritten(cfg, s, sync), sync)
    ensures ScoreDue(cfg, s1, sync) <==> ScoreDue(cfg, s, sync)
  {
    hide Fits, MergeNotice, PutWritten, AttestShapeOk, MarkShapeOk;
    var (key, at) := (Key(sync.realm, sync.hash), PutWritten(cfg, s, sync));
    if ScoreDue(cfg, s, sync) {
      FitsSame(cfg, s1, at, LogOp.Attest(sync.realm, sync.hash, sync.reputation.value), PutBirth(s, key));
    } else if MarkerDue(cfg, s, sync) {
      var n := MergeNotice(sync.quarantine.value, Marker(s.content, key)).value;
      FitsSame(cfg, s1, at, LogOp.Quarantine(sync.realm, sync.hash, n), PutBirth(s, key));
    }
  }

  // ---- the whole push ----

  lemma OfferTakesIff(cfg: Config, s: State, sync: SyncEntry)
    requires Inv(cfg, s) && s.healthy && sync.hash == Hex(cfg.sha(sync.artifact))
    requires WithinCap(|sync.artifact|, cfg.maxArtifactBytes) && Key(sync.realm, sync.hash) !in s.content.tombstones
    ensures var r := MergePushedPut(cfg, s, sync, NO_MERGE_FAULTS).1;
            && (TakesSignal(r) <==> PutDue(cfg, s, sync) && SignalFits(cfg, s, PutWritten(cfg, s, sync), sync))
            && (TakesSignal(r) ==> (r.value.reputation <==> ScoreDue(cfg, s, sync)))
  {
    hide Inv, Store.Put, MergeSignals, PutDue, PutWritten, SignalFits, ScoreDue, ReadBlob, RetainedCount;
    var key := Key(sync.realm, sync.hash);
    var (s1, r1) := Store.Put(cfg, s, sync.realm, sync.manifest, sync.artifact, NO_PUT_FAULTS);
    PutDueIff(cfg, s, sync);
    ReadsOk(cfg, s, key);
    if r1.Ok? {
      PutContent(cfg, s, key, sync.manifest, sync.artifact);
      InvDisjoint(cfg, s);
      ReadsOk(cfg, s1, key);
      var membership := Get(cfg, s, sync.realm, sync.hash).value.None? && Get(cfg, s1, sync.realm, sync.hash).value.Some?;
      SignalsTakenIff(cfg, s1, sync, membership);
      FitsAfterPut(cfg, s, s1, sync);
    }
  }

  lemma ReadsOk(cfg: Config, s: State, key: Key)
    requires Inv(cfg, s) && s.healthy && key.hash.Hex?
    ensures Get(cfg, s, key.realm, key.hash).Ok?
  {
    hide Inv, ReadBlob;
    assert key == Key(key.realm, key.hash);
    if key in s.content.entries {
      LiveIsReadable(cfg, s, key);
    }
  }

  /** A put of a tombstoned key is a no-op, and there is no row to take a signal. */
  lemma TombstonedTakesNone(cfg: Config, s: State, sync: SyncEntry)
    requires Inv(cfg, s) && s.healthy && sync.hash == Hex(cfg.sha(sync.artifact))
    requires Key(sync.realm, sync.hash) in s.content.tombstones
    ensures !TakesSignal(MergePushedPut(cfg, s, sync, NO_MERGE_FAULTS).1)
  {
    hide Inv, RetainedCount, WriteBlob, PutLogged, Fits, Commit, ReadBlob, MergeNotice, AttestShapeOk, MarkShapeOk;
    InvDisjoint(cfg, s);
  }

  /** A push will have a signal recorded, on a disk that does not fail, if and only if one is due. */
  lemma TakesSignalIff(cfg: Config, s: State, push: SignedSyncEntry)
    requires Inv(cfg, s) && s.healthy
    ensures var r := MergePush(cfg, s, push, NO_MERGE_FAULTS).1;
            && (TakesSignal(r) <==> SignalDue(cfg, s, push))
            && (TakesSignal(r) ==> (r.value.reputation <==> ScoreDue(cfg, s, push.sync.value)))
  {
    hide Inv, Meaning, MergePushedPut, Store.Tombstone, Verifies, PutWritten, SignalFits, ScoreDue, Room, BlobRoom, Full;
    var op := push.record.op;
    HealthyContent(cfg, s);
    if op.Put? && op.hash.Hex? && PushedPutError(cfg, push).None? {
      if KeyOf(op) in s.content.tombstones {
        TombstonedTakesNone(cfg, s, push.sync.value);
      } else {
        OfferTakesIff(cfg, s, push.sync.value);
      }
    }
  }

  // ---- what a push answers ----

  /** A push that says nothing the store could act on, whatever the store holds, and why. */
  function Unfit(cfg: Config, push: SignedSyncEntry): Option<Error> {
    var op := push.record.op;
    if !Verifies(push.record) then Some(BadSignature)
    else if op.hash.Malformed? then Some(Integrity)
    else if op.Tombstone? then None
    else if !op.Put? || push.sync.None? then Some(Corrupt)
    else if !WithinCap(|push.sync.value.artifact|, cfg.maxArtifactBytes) then Some(Limit)
    else
      var sync := push.sync.value;
      if Key(sync.realm, Hex(cfg.sha(sync.artifact))) == KeyOf(op) && sync.hash == op.hash && sync.manifest == op.manifest
      then None else Some(Integrity)
  }

  /** The marker will be recorded: it is due, and after the put's record and the score's, if any, there is room. */
  predicate MarkerFits(cfg: Config, row: State, at: State, sync: SyncEntry) {
    var key := Key(sync.realm, sync.hash);
    var after := if ScoreDue(cfg, row, sync)
                 then Written(cfg, at, LogOp.Attest(key.realm, key.hash, sync.reputation.value), PutBirth(row, key)) else at;
    && MarkerDue(cfg, row, sync)
    && Fits(cfg, after,
            LogOp.Quarantine(key.realm, key.hash, MergeNotice(sync.quarantine.value, Marker(row.content, key)).value),
            PutBirth(row, key))
  }

  /** The reply to signals of a live row: `row` has the row before them, `at` the head and journal they start from. */
  function SignalReply(cfg: Config, row: State, at: State, sync: SyncEntry, membership: bool): Result<MergeOutcome> {
    if ScoreDue(cfg, row, sync)
       && !Fits(cfg, at, LogOp.Attest(sync.realm, sync.hash, sync.reputation.value),
                PutBirth(row, Key(sync.realm, sync.hash)))
    then Err(Limit)
    else Ok(MergeOutcome(membership, ScoreDue(cfg, row, sync), MarkerFits(cfg, row, at, sync)))
  }

  /**
   * The answer to an offer, on a disk that does not fail. A full catalog drops a new key without an error;
   * any other refusal of the put is the answer; a tombstoned key changes nothing. Once the put is recorded
   * only a score without room is an error, and a marker that cannot be recorded is dropped.
   */
  ghost predicate OfferAnswers(cfg: Config, s: State, sync: SyncEntry, s': State, r: Result<MergeOutcome>) {
    var (c, key) := (Meaning(s.logs), Key(sync.realm, sync.hash));
    var refusal := PutRefusal(cfg, s, sync.realm, sync.manifest, sync.artifact);
    if refusal == Some(Capacity) || (refusal.None? && key in c.tombstones) then
      s' == s && r == Ok(MergeOutcome(false, false, false))
    else if refusal.Some? then s' == s && r == Err(refusal.value)
    else r == SignalReply(cfg, s, PutWritten(cfg, s, sync), sync, key !in c.entries)
  }

  /** The answer to a push, on a disk that does not fail. */
  ghost predicate PushAnswers(cfg: Config, s: State, push: SignedSyncEntry, s': State, r: Result<MergeOutcome>) {
    var unfit := Unfit(cfg, push);
    if unfit.Some? then s' == s && r == Err(unfit.value)
    else if push.record.op.Tombstone? then
      && EvictAnswers(cfg, s.logs, KeyOf(push.record.op), NoFault,
                      if r.Ok? then Ok(r.value.membership) else Err(r.error), s'.healthy)
      && (r.Ok? ==> !r.value.reputation && !r.value.quarantine)
    else s'.healthy && OfferAnswers(cfg, s, push.sync.value, s', r)
  }

  lemma CommitWrites(cfg: Config, s: State, op: LogOp, fs: nat)
    requires s.healthy && Fits(cfg, s, op, fs)
    ensures var (s', w) := (Commit(cfg, s, op, fs, NoFault).0, Written(cfg, s, op, fs));
            s'.heads == w.heads && s'.journalBytes == w.journalBytes
  {
    hide Fits, Apply, LineBytes;
  }

  lemma ScoreWrites(cfg: Config, s: State, sync: SyncEntry)
    requires Inv(cfg, s) && s.healthy && sync.hash.Hex? && Key(sync.realm, sync.hash) in s.content.entries
    requires ScoreDue(cfg, s, sync)
    requires Fits(cfg, s, LogOp.Attest(sync.realm, sync.hash, sync.reputation.value),
                  PutBirth(s, Key(sync.realm, sync.hash)))
    ensures var key := Key(sync.realm, sync.hash);
            var (s', r) := MergeReputation(cfg, s, sync.realm, sync.hash, sync.reputation, NoFault);
            var w := Written(cfg, s, LogOp.Attest(sync.realm, sync.hash, sync.reputation.value), PutBirth(s, key));
            && r == Ok(true) && s'.healthy && Inv(cfg, s') && s'.heads == w.heads && s'.journalBytes == w.journalBytes
            && key in s'.content.entries && Marker(s'.content, key) == Marker(s.content, key)
            && PutBirth(s', key) == PutBirth(s, key)
  {
    hide Inv, ReadBlob, Commit, Fits, AttestShapeOk, Written;
    var key := Key(sync.realm, sync.hash);
    LiveIsReadable(cfg, s, key);
    ScoreTakenIff(cfg, s, sync);
    ReputationEffect(cfg, s, key, sync.reputation);
    CommitWrites(cfg, s, LogOp.Attest(sync.realm, sync.hash, sync.reputation.value), PutBirth(s, key));
  }

  /** The reply to the signals of a live row, in terms of the state they are merged into. */
  lemma SignalsReply(cfg: Config, s: State, sync: SyncEntry, membership: bool)
    requires Inv(cfg, s) && s.healthy && sync.hash.Hex? && Key(sync.realm, sync.hash) in s.content.entries
    ensures MergeSignals(cfg, s, sync, membership, NO_MERGE_FAULTS).1 == SignalReply(cfg, s, s, sync, membership)
  {
    hide Inv, MergeReputation, MergeQuarantine, Fits, MergeNotice, AttestShapeOk, MarkShapeOk, Written;
    var key := Key(sync.realm, sync.hash);
    ScoreTakenIff(cfg, s, sync);
    if ScoreDue(cfg, s, sync) {
      var op := LogOp.Attest(key.realm, key.hash, sync.reputation.value);
      if Fits(cfg, s, op, PutBirth(s, key)) {
        ScoreWrites(cfg, s, sync);
        var s1 := MergeReputation(cfg, s, sync.realm, sync.hash, sync.reputation, NoFault).0;
        MarkerTakenIff(cfg, s1, sync);
        if MarkerDue(cfg, s, sync) {
          var n := MergeNotice(sync.quarantine.value, Marker(s.content, key)).value;
          FitsSame(cfg, s1, Written(cfg, s, op, PutBirth(s, key)), LogOp.Quarantine(key.realm, key.hash, n), PutBirth(s, key));
        }
      }
    } else {
      MarkerTakenIff(cfg, s, sync);
    }
  }

  /** Only the row, the head and the journal total matter to the reply. */
  lemma ReplySame(cfg: Config, s: State, s1: State, at: State, sync: SyncEntry, membership: bool)
    requires var key := Key(sync.realm, sync.hash);
             && RowScore(s1.content, key) == RowScore(s.content, key) && Marker(s1.content, key) == Marker(s.content, key)
             && PutBirth(s1, key) == PutBirth(s, key) && s1.heads == at.heads && s1.journalBytes == at.journalBytes
    ensures SignalReply(cfg, s1, s1, sync, membership) == SignalReply(cfg, s, at, sync, membership)
  {
    hide MergeNotice, AttestShapeOk, MarkShapeOk, LineBytes;
  }

  lemma OfferReplies(cfg: Config, s: State, sync: SyncEntry)
    requires Inv(cfg, s) && s.healthy && sync.hash == Hex(cfg.sha(sync.artifact))
    requires WithinCap(|sync.artifact|, cfg.maxArtifactBytes)
    ensures var (s', r) := MergePushedPut(cfg, s, sync, NO_MERGE_FAULTS); OfferAnswers(cfg, s, sync, s', r)
  {
    hide Inv, Meaning, Store.Put, MergeSignals, PutRefusal, SignalReply, ReadBlob, PutWritten, WriteBlob, PutLogged;
    var key := Key(sync.realm, sync.hash);
    HealthyContent(cfg, s);
    ReadsOk(cfg, s, key);
    PutGuards(cfg, s, sync.realm, sync.manifest, sync.artifact, NO_PUT_FAULTS);
    if PutRefusal(cfg, s, sync.realm, sync.manifest, sync.artifact).None? {
      if key in s.content.tombstones {
        InvDisjoint(cfg, s);
        DeadRowReply(cfg, s, sync);
      } else {
        PutDueIff(cfg, s, sync);
        var s1 := Store.Put(cfg, s, sync.realm, sync.manifest, sync.artifact, NO_PUT_FAULTS).0;
        PutContent(cfg, s, key, sync.manifest, sync.artifact);
        ReadsOk(cfg, s1, key);
        var membership := key !in s.content.entries;
        SignalsReply(cfg, s1, sync, membership);
        ReplySame(cfg, s, s1, PutWritten(cfg, s, sync), sync, membership);
      }
    }
  }

  lemma DeadRowReply(cfg: Config, s: State, sync: SyncEntry)
    requires s.healthy && sync.hash.Hex? && Key(sync.realm, sync.hash) !in s.content.entries
    ensures MergeSignals(cfg, s, sync, false, NO_MERGE_FAULTS) == (s, Ok(MergeOutcome(false, false, false)))
  {
    hide Commit, MergeNotice, AttestShapeOk, MarkShapeOk;
  }

  /** Without faults no part of a merge stops the store from serving. */
  lemma CleanOfferServes(cfg: Config, s: State, sync: SyncEntry)
    requires Inv(cfg, s) && s.healthy && sync.hash == Hex(cfg.sha(sync.artifact))
    ensures MergePushedPut(cfg, s, sync, NO_MERGE_FAULTS).0.healthy
  {
    hide Inv, Meaning, Store.Put, MergeSignals, ReadBlob, PutAnswers;
    var (s1, r1) := Store.Put(cfg, s, sync.realm, sync.manifest, sync.artifact, NO_PUT_FAULTS);
    PutReplies(cfg, s, sync.realm, sync.manifest, sync.artifact, NO_PUT_FAULTS);
    CleanPutServes(cfg, s, sync.realm, sync.manifest, sync.artifact, s1, r1);
    PutKeeps(cfg, s, sync.realm, sync.manifest, sync.artifact, NO_PUT_FAULTS);
    SignalsEffect(cfg, s1, sync, true);
    SignalsEffect(cfg, s1, sync, false);
  }

  lemma CleanPutServes(
    cfg: Config, s: State, realm: RealmId, manifest: Manifest, artifact: Bytes, s': State, r: Result<nat>)
    requires s.healthy && PutAnswers(cfg, s, realm, manifest, artifact, NO_PUT_FAULTS, s', r)
    ensures s'.healthy
  {
    hide Meaning, PutRefusal;
  }

  /** What a push answers, for every push and every store in order, on a disk that does not fail. */
  lemma PushReplies(cfg: Config, s: State, push: SignedSyncEntry)
    requires Inv(cfg, s) && s.healthy
    ensures var (s', r) := MergePush(cfg, s, push, NO_MERGE_FAULTS); PushAnswers(cfg, s, push, s', r)
  {
    hide Inv, MergePushedPut, Store.Tombstone, OfferAnswers, EvictAnswers;
    var op := push.record.op;
    if op.Tombstone? {
      TombstoneReplies(cfg, s, op.realm, op.hash, NoFault);
    } else if Unfit(cfg, push).None? {
      OfferReplies(cfg, s, push.sync.value);
      CleanOfferServes(cfg, s, push.sync.value);
    }
  }

  /** A full catalog drops a new key without an error, whatever the disk does, so that the rest of a batch goes on. */
  lemma FullCatalogDropsPush(cfg: Config, s: State, push: SignedSyncEntry, f: MergeFaults)
    requires Inv(cfg, s) && s.healthy && Accepted(cfg, push) && push.record.op.Put?
    requires KeyOf(push.record.op) !in Retained(Meaning(s.logs)) && Full(cfg, Meaning(s.logs))
    ensures MergePush(cfg, s, push, f) == (s, Ok(MergeOutcome(false, false, false)))
  {
    hide Inv, Meaning, Store.Put, MergeSignals, Retained, WriteBlob, PutLogged, Room, BlobRoom;
    var (sync, key) := (push.sync.value, KeyOf(push.record.op));
    assert key == Key(sync.realm, sync.hash) && sync.hash == Hex(cfg.sha(sync.artifact));
    HealthyContent(cfg, s);
    RetainedIn(s.content, key);
    PutGuards(cfg, s, sync.realm, sync.manifest, sync.artifact, f.put);
  }

  /** A push repeated at once is no news: it makes no key live, evicts none and brings no better score. */
  lemma RepeatedPushIsNoNews(cfg: Config, s: State, push: SignedSyncEntry)
    requires Inv(cfg, s) && s.healthy && MergePush(cfg, s, push, NO_MERGE_FAULTS).1.Ok?
    ensures var again := MergePush(cfg, MergePush(cfg, s, push, NO_MERGE_FAULTS).0, push, NO_MERGE_FAULTS).1;
            again.Ok? ==> !again.value.membership && !again.value.reputation
  {
    hide Inv, Meaning, MergePushedPut, Store.Tombstone, PutRefusal, PutWritten, Verifies, MarkerFits, Retained;
    var s1 := MergePush(cfg, s, push, NO_MERGE_FAULTS).0;
    MergePushKeeps(cfg, s, push, NO_MERGE_FAULTS);
    PushReplies(cfg, s, push);
    PushReplies(cfg, s1, push);
    HealthyContent(cfg, s);
    HealthyContent(cfg, s1);
    if push.record.op.Tombstone? {
      TombstoneIsDurable(cfg, s, push.record.op.realm, push.record.op.hash, NoFault);
    } else {
      var sync := push.sync.value;
      if PutDue(cfg, s, sync) {
        RepeatedScore(cfg, s, sync);
      }
    }
  }

  lemma RepeatedScore(cfg: Config, s: State, sync: SyncEntry)
    requires Inv(cfg, s) && s.healthy && sync.hash == Hex(cfg.sha(sync.artifact))
    requires WithinCap(|sync.artifact|, cfg.maxArtifactBytes) && Key(sync.realm, sync.hash) !in s.content.tombstones
    requires PutDue(cfg, s, sync) && MergePushedPut(cfg, s, sync, NO_MERGE_FAULTS).1.Ok?
    ensures var s1 := MergePushedPut(cfg, s, sync, NO_MERGE_FAULTS).0;
            Key(sync.realm, sync.hash) in s1.content.entries && !ScoreDue(cfg, s1, sync)
  {
    hide Inv, Store.Put, MergeSignals, PutDue, ReadBlob, AttestShapeOk, MergeNotice;
    var key := Key(sync.realm, sync.hash);
    var s1 := Store.Put(cfg, s, sync.realm, sync.manifest, sync.artifact, NO_PUT_FAULTS).0;
    PutDueIff(cfg, s, sync);
    PutContent(cfg, s, key, sync.manifest, sync.artifact);
    ReadsOk(cfg, s, key);
    ReadsOk(cfg, s1, key);
    SignalsEffect(cfg, s1, sync, key !in s.content.entries);
  }
}
