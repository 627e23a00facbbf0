/** What a fault leaves of the operation it hit, Realm by Realm. */
module Faults {
  import opened Basics
  import opened Records
  import opened Catalog
  import opened Chain
  import opened Store
  import opened Invariant
  import opened Operations
  import opened Compaction
  import opened CompactionProofs
  import opened Recovery
  import opened Runs
  import opened Guarantees
  import opened Effects
  import opened Signals
  import Curator

  /** The same command on a disk that does not fail. */
  function Clean(cmd: Command): Command {
    match cmd
    case DoPut(realm, manifest, artifact, _) => DoPut(realm, manifest, artifact, NO_PUT_FAULTS)
    case DoAttest(realm, hash, score, _) => DoAttest(realm, hash, score, NoFault)
    case DoQuarantine(realm, hash, notice, _) => DoQuarantine(realm, hash, notice, NoFault)
    case DoUnquarantine(realm, hash, _) => DoUnquarantine(realm, hash, NoFault)
    case DoTombstone(realm, hash, _) => DoTombstone(realm, hash, NoFault)
    case DoMergePush(push, _) => DoMergePush(push, NO_MERGE_FAULTS)
    case DoCompact(d, order, _) => DoCompact(d, order, Completes)
    case other => other
  }

  ghost predicate BeforeOrAfter(a: Logs, b: Logs, clean: Logs) {
    forall rh :: LogAt(b, rh) == LogAt(a, rh) || LogAt(b, rh) == LogAt(clean, rh)
  }

  lemma AppendBeforeOrAfter(cfg: Config, s: State, op: LogOp, fs: nat, fault: AppendFault)
    ensures BeforeOrAfter(s.logs, Append(cfg, s, op, fs, fault).0.logs, Append(cfg, s, op, fs, NoFault).0.logs)
    ensures Append(cfg, s, op, fs, fault).0.logs == s.logs || Append(cfg, s, op, fs, NoFault).1.Appended?
  {
    var log := LogAt(s.logs, RealmSha(op.realm));
    assert log + [] == log;
  }

  lemma CommitBeforeOrAfter(cfg: Config, s: State, op: LogOp, fs: nat, fault: AppendFault)
    ensures BeforeOrAfter(s.logs, Commit(cfg, s, op, fs, fault).0.logs, Commit(cfg, s, op, fs, NoFault).0.logs)
  {
    hide Append, BeforeOrAfter;
    AppendBeforeOrAfter(cfg, s, op, fs, fault);
  }

  lemma PutLoggedBeforeOrAfter(cfg: Config, s: State, key: Key, manifest: Manifest, created: bool, f: PutFaults)
    requires key.hash.Hex?
    ensures BeforeOrAfter(s.logs, PutLogged(cfg, s, key, manifest, created, f).0.logs,
                          PutLogged(cfg, s, key, manifest, created, NO_PUT_FAULTS).0.logs)
  {
    hide Append, Apply, BeforeOrAfter;
    AppendBeforeOrAfter(cfg, s, LogOp.Put(key.realm, key.hash, manifest), PutBirth(s, key), f.append);
  }

  lemma PutBeforeOrAfter(cfg: Config, s: State, realm: RealmId, manifest: Manifest, artifact: Bytes, f: PutFaults)
    requires Inv(cfg, s) && s.healthy
    ensures BeforeOrAfter(s.logs, Store.Put(cfg, s, realm, manifest, artifact, f).0.logs,
                          Store.Put(cfg, s, realm, manifest, artifact, NO_PUT_FAULTS).0.logs)
  {
    var h := cfg.sha(artifact);
    var key := Key(realm, Hex(h));
    hide Inv, Meaning, Fits, RetainedCount, WriteBlob, PutLogged;
    if WithinCap(|artifact|, cfg.maxArtifactBytes) {
      WriteBlobKeeps(cfg, s, artifact, f.blob);
      WriteBlobLands(cfg, s, artifact, f.blob);
      var (s1, r) := WriteBlob(cfg, s, h, artifact, f.blob);
      if r.Ok? {
        PutLoggedBeforeOrAfter(cfg, s1, key, manifest, r.value, f);
      }
    }
  }

  lemma WriteBlobLands(cfg: Config, s: State, artifact: Bytes, fault: BlobFault)
    requires Inv(cfg, s) && s.healthy
    ensures var h := cfg.sha(artifact);
            WriteBlob(cfg, s, h, artifact, fault).1.Ok? ==>
              WriteBlob(cfg, s, h, artifact, BlobLands) == WriteBlob(cfg, s, h, artifact, fault)
  {
    hide Meaning, BlobTotal, LogTotal, LogsOk, Histories, DistinctBirths, CapsOk, HeadsOk, RealmsOk, WriteBlob;
    WriteBlobPlain(cfg, s, artifact, fault);
    WriteBlobPlain(cfg, s, artifact, BlobLands);
  }

  lemma SweepFrame(cfg: Config, s: State, fault: CompactFault)
    ensures var s1 := Sweep(cfg, s, fault).0;
            s1 == s.(blobs := s1.blobs, blobBytes := s1.blobBytes, blobCount := s1.blobCount, healthy := s1.healthy)
  {
    hide ScanBlobs, Unlinked, BlobTotal;
  }

  /** The Realm files after a compaction: all of them replaced, or those before the failing one and maybe it. */
  lemma CompactLogs(cfg: Config, s: State, d: Curator.Decisions, order: seq<RealmHash>, fault: CompactFault)
    ensures var c := Curator.Curate(s.content, d);
            Compact(cfg, s, d, order, fault).0.logs ==
            if !s.healthy || DryPass(cfg, c, s.realms, s.logs, s.journalBytes, order).Err? then s.logs
            else if fault.FailsAt? && fault.done < |order| then Interrupted(cfg, s, c, order, fault).logs
            else Rewritten(cfg, c, s.realms, s.logs, order)
  {
    hide DryPass, Curator.Curate, Rewritten, NewHeads, PlannedTotal, Interrupted, Sweep,
         Curator.Collected, Curator.Isolated;
    SweepFrame(cfg, Staged(cfg, s, Curator.Curate(s.content, d), order), fault);
  }

  lemma CompactBeforeOrAfter(cfg: Config, s: State, d: Curator.Decisions, order: seq<RealmHash>, fault: CompactFault)
    ensures BeforeOrAfter(s.logs, Compact(cfg, s, d, order, fault).0.logs, Compact(cfg, s, d, order, Completes).0.logs)
  {
    var c := Curator.Curate(s.content, d);
    hide Compact, DryPass, Curator.Curate, Rewritten, NewLog, NewHeads, PlannedTotal;
    CompactLogs(cfg, s, d, order, fault);
    CompactLogs(cfg, s, d, order, Completes);
    forall rh
      ensures var l := LogAt(Compact(cfg, s, d, order, fault).0.logs, rh);
              l == LogAt(s.logs, rh) || l == LogAt(Compact(cfg, s, d, order, Completes).0.logs, rh)
    {
      RewrittenAt(cfg, c, s.realms, s.logs, order, rh);
      if fault.FailsAt? && fault.done < |order| {
        RewrittenAt(cfg, c, s.realms, s.logs, order[..fault.done], rh);
      }
    }
  }

  // ---- one append ----

  /** Every log of `a` is a prefix of the log of `b`. */
  ghost predicate Extends(a: Logs, b: Logs) {
    forall rh :: LogAt(a, rh) <= LogAt(b, rh)
  }

  /** `b` lies between `a` and `clean`: each log has got some way from the one towards the other. */
  ghost predicate Between(a: Logs, b: Logs, clean: Logs) {
    Extends(a, b) && Extends(b, clean)
  }

  lemma WholeIsBetween(a: Logs, b: Logs, clean: Logs)
    requires BeforeOrAfter(a, b, clean) && Extends(a, clean)
    ensures Between(a, b, clean)
  {
  }

  lemma BetweenFurther(a: Logs, b: Logs, mid: Logs, clean: Logs)
    requires Between(a, b, mid) && Extends(mid, clean)
    ensures Between(a, b, clean)
  {
    forall rh
      ensures LogAt(b, rh) <= LogAt(clean, rh)
    {
      assert LogAt(b, rh) <= LogAt(mid, rh) <= LogAt(clean, rh);
    }
  }

  lemma BetweenLater(a: Logs, mid: Logs, b: Logs, clean: Logs)
    requires Extends(a, mid) && Between(mid, b, clean)
    ensures Between(a, b, clean)
  {
    forall rh
      ensures LogAt(a, rh) <= LogAt(b, rh)
    {
      assert LogAt(a, rh) <= LogAt(mid, rh) <= LogAt(b, rh);
    }
  }

  lemma CommitBetween(cfg: Config, s: State, op: LogOp, fs: nat, fault: AppendFault)
    ensures Between(s.logs, Commit(cfg, s, op, fs, fault).0.logs, Commit(cfg, s, op, fs, NoFault).0.logs)
    ensures Commit(cfg, s, op, fs, fault).1.Ok? ==> Commit(cfg, s, op, fs, fault) == Commit(cfg, s, op, fs, NoFault)
    ensures Commit(cfg, s, op, fs, fault).1 == Err(Limit) ==> Commit(cfg, s, op, fs, fault) == Commit(cfg, s, op, fs, NoFault)
    ensures s.healthy && fault == NoFault ==> Commit(cfg, s, op, fs, fault).1 in {Ok(true), Err(Limit)}
  {
    CommitBeforeOrAfter(cfg, s, op, fs, fault);
    hide Fits, Apply;
    assert Extends(s.logs, Commit(cfg, s, op, fs, NoFault).0.logs);
    WholeIsBetween(s.logs, Commit(cfg, s, op, fs, fault).0.logs, Commit(cfg, s, op, fs, NoFault).0.logs);
  }

  lemma SameLogs(logs: Logs)
    ensures Between(logs, logs, logs)
  {
  }

  // ---- a push: a put, a score and a marker ----

  /** A merge step under a fault, against the same step without: it falls short, or is the same. */
  ghost predicate StepsShort(s: State, faulty: (State, Result<bool>), clean: (State, Result<bool>)) {
    && Between(s.logs, faulty.0.logs, clean.0.logs)
    && (faulty.1.Ok? ==> faulty == clean)
    && (clean.1 != Ok(true) ==> clean.0.logs == s.logs)
  }

  lemma CommitStepsShort(cfg: Config, s: State, op: LogOp, fs: nat, fault: AppendFault)
    ensures StepsShort(s, Commit(cfg, s, op, fs, fault), Commit(cfg, s, op, fs, NoFault))
  {
    CommitBetween(cfg, s, op, fs, fault);
    hide Fits, Apply, Between;
  }

  lemma ReputationStepsShort(
    cfg: Config, s: State, realm: RealmId, hash: HashText, incoming: Option<ReputationScore>, fault: AppendFault)
    ensures StepsShort(s, MergeReputation(cfg, s, realm, hash, incoming, fault),
                       MergeReputation(cfg, s, realm, hash, incoming, NoFault))
  {
    SameLogs(s.logs);
    hide Commit, Between, ReadBlob, AttestShapeOk;
    var key := Key(realm, hash);
    if incoming.Some? && key in s.content.entries {
      CommitStepsShort(cfg, s, LogOp.Attest(realm, hash, incoming.value), s.content.entries[key].firstSeen, fault);
    }
  }

  lemma MarkerStepsShort(
    cfg: Config, s: State, realm: RealmId, hash: HashText, incoming: Option<QuarantineNotice>, fault: AppendFault)
    ensures StepsShort(s, MergeQuarantine(cfg, s, realm, hash, incoming, fault),
                       MergeQuarantine(cfg, s, realm, hash, incoming, NoFault))
  {
    SameLogs(s.logs);
    hide Commit, Between, MergeNotice, MarkShapeOk;
    var key := Key(realm, hash);
    if incoming.Some? && key in s.content.entries {
      var n := MergeNotice(incoming.value, s.content.entries[key].quarantine);
      if n.Some? {
        var (op, fs) := (LogOp.Quarantine(realm, hash, n.value), s.content.entries[key].firstSeen);
        CommitStepsShort(cfg, s, op, fs, fault);
        CommitBetween(cfg, s, op, fs, fault);
      }
    }
  }

  lemma SignalsBetween(cfg: Config, s: State, sync: SyncEntry, membership: bool, f: MergeFaults)
    ensures Between(s.logs, MergeSignals(cfg, s, sync, membership, f).0.logs,
                    MergeSignals(cfg, s, sync, membership, NO_MERGE_FAULTS).0.logs)
  {
    hide MergeReputation, MergeQuarantine, Between;
    var (s1, r1) := MergeReputation(cfg, s, sync.realm, sync.hash, sync.reputation, f.attest);
    var (c1, q1) := MergeReputation(cfg, s, sync.realm, sync.hash, sync.reputation, NoFault);
    var clean := MergeSignals(cfg, s, sync, membership, NO_MERGE_FAULTS).0;
    ReputationStepsShort(cfg, s, sync.realm, sync.hash, sync.reputation, f.attest);
    ReputationStepsShort(cfg, s, sync.realm, sync.hash, sync.reputation, NoFault);
    MarkerStepsShort(cfg, c1, sync.realm, sync.hash, sync.quarantine, f.quarantine);
    if r1.Ok? {
      var b := MergeQuarantine(cfg, s1, sync.realm, sync.hash, sync.quarantine, f.quarantine).0;
      BetweenEnds(s.logs, c1.logs, c1.logs);
      BetweenLater(s.logs, c1.logs, b.logs, clean.logs);
    } else if q1.Ok? {
      BetweenEnds(c1.logs, MergeQuarantine(cfg, c1, sync.realm, sync.hash, sync.quarantine, f.quarantine).0.logs, clean.logs);
      BetweenFurther(s.logs, s1.logs, c1.logs, clean.logs);
    }
  }

  lemma BetweenEnds(a: Logs, b: Logs, clean: Logs)
    requires Between(a, b, clean)
    ensures Extends(a, b) && Extends(b, clean) && Extends(a, clean)
  {
    forall rh
      ensures LogAt(a, rh) <= LogAt(clean, rh)
    {
      assert LogAt(a, rh) <= LogAt(b, rh) <= LogAt(clean, rh);
    }
  }

  // ---- the put of a push ----

  /** A put that succeeds under faults is the put that no fault touched. */
  lemma PutOkIsClean(cfg: Config, s: State, realm: RealmId, manifest: Manifest, artifact: Bytes, f: PutFaults)
    requires Inv(cfg, s) && s.healthy
    requires Store.Put(cfg, s, realm, manifest, artifact, f).1.Ok?
    ensures Store.Put(cfg, s, realm, manifest, artifact, f) == Store.Put(cfg, s, realm, manifest, artifact, NO_PUT_FAULTS)
  {
    hide Inv, Fits, RetainedCount, WriteBlob, PutLogged;
    var h := cfg.sha(artifact);
    WriteBlobLands(cfg, s, artifact, f.blob);
    var (s1, r) := WriteBlob(cfg, s, h, artifact, f.blob);
    if r.Ok? {
      LoggedOkIsClean(cfg, s1, Key(realm, Hex(h)), manifest, r.value, f);
    }
  }

  lemma LoggedOkIsClean(cfg: Config, s: State, key: Key, manifest: Manifest, created: bool, f: PutFaults)
    requires key.hash.Hex?
    ensures PutLogged(cfg, s, key, manifest, created, f).1.Ok? ==>
              PutLogged(cfg, s, key, manifest, created, f) == PutLogged(cfg, s, key, manifest, created, NO_PUT_FAULTS)
  {
    hide Fits, Apply;
  }

  /** Without faults a put that succeeds on a key not tombstoned adds exactly one record; any other adds none. */
  lemma CleanPutGrows(cfg: Config, s: State, realm: RealmId, manifest: Manifest, artifact: Bytes)
    requires Inv(cfg, s) && s.healthy
    ensures var (s', r) := Store.Put(cfg, s, realm, manifest, artifact, NO_PUT_FAULTS);
            && Extends(s.logs, s'.logs)
            && (r.Err? ==> s' == s)
            && (r.Ok? ==> GrewBy(s.logs, s'.logs, RealmSha(realm),
                                 if Key(realm, Hex(cfg.sha(artifact))) in s.content.tombstones then 0 else 1))
  {
    hide Inv, Fits, RetainedCount, WriteBlob, PutLogged, Append;
    var h := cfg.sha(artifact);
    if Store.Put(cfg, s, realm, manifest, artifact, NO_PUT_FAULTS).1.Err? {
      RefusedPutChangesNothing(cfg, s, realm, manifest, artifact);
    } else if Key(realm, Hex(h)) !in s.content.tombstones {
      WriteBlobKeeps(cfg, s, artifact, BlobLands);
      var (s1, r) := WriteBlob(cfg, s, h, artifact, BlobLands);
      LoggedGrows(cfg, s1, Key(realm, Hex(h)), manifest, r.value);
    }
  }

  /** Only the log of `rh` changed, and by `n` records at its end. */
  ghost predicate GrewBy(a: Logs, b: Logs, rh: RealmHash, n: nat) {
    && Extends(a, b)
    && (forall r :: |LogAt(b, r)| == |LogAt(a, r)| + if r == rh then n else 0)
  }

  lemma LoggedGrows(cfg: Config, s: State, key: Key, manifest: Manifest, created: bool)
    requires key.hash.Hex? && PutLogged(cfg, s, key, manifest, created, NO_PUT_FAULTS).1.Ok?
    ensures GrewBy(s.logs, PutLogged(cfg, s, key, manifest, created, NO_PUT_FAULTS).0.logs, RealmSha(key.realm), 1)
  {
    hide Fits, Apply;
  }

  /** A push under faults gets some way from where it started towards what it leaves without them. */
  lemma PushBetween(cfg: Config, s: State, push: SignedSyncEntry, f: MergeFaults)
    requires Inv(cfg, s) && s.healthy
    ensures Between(s.logs, MergePush(cfg, s, push, f).0.logs, MergePush(cfg, s, push, NO_MERGE_FAULTS).0.logs)
  {
    hide Inv, Store.Put, Get, MergeSignals, Commit, RetainedCount, Between;
    SameLogs(s.logs);
    var op := push.record.op;
    CommitBetween(cfg, s, op, 0, f.put.append);
    if push.sync.Some? {
      PutBetween(cfg, s, push.sync.value, f);
    }
  }

  lemma PutBetween(cfg: Config, s: State, sync: SyncEntry, f: MergeFaults)
    requires Inv(cfg, s) && s.healthy
    ensures Between(s.logs, MergePushedPut(cfg, s, sync, f).0.logs, MergePushedPut(cfg, s, sync, NO_MERGE_FAULTS).0.logs)
  {
    hide Inv, Store.Put, Get, MergeSignals, Between, Extends, BeforeOrAfter;
    SameLogs(s.logs);
    var (s1, r1) := Store.Put(cfg, s, sync.realm, sync.manifest, sync.artifact, f.put);
    var (c1, q1) := Store.Put(cfg, s, sync.realm, sync.manifest, sync.artifact, NO_PUT_FAULTS);
    var clean := MergePushedPut(cfg, s, sync, NO_MERGE_FAULTS).0;
    CleanPutGrows(cfg, s, sync.realm, sync.manifest, sync.artifact);
    PutBeforeOrAfter(cfg, s, sync.realm, sync.manifest, sync.artifact, f.put);
    WholeIsBetween(s.logs, s1.logs, c1.logs);
    SameLogs(c1.logs);
    if r1.Ok? {
      PutOkIsClean(cfg, s, sync.realm, sync.manifest, sync.artifact, f.put);
    }
    SignalsAfter(cfg, s, c1, sync, f);
    SignalsFollow(cfg, s, sync);
    if Get(cfg, s, sync.realm, sync.hash).Ok? {
      BetweenFurther(s.logs, s1.logs, c1.logs, clean.logs);
    }
  }

  /** The signals carry on from the put's state, whatever the membership flag. */
  lemma SignalsAfter(cfg: Config, s: State, c1: State, sync: SyncEntry, f: MergeFaults)
    requires Extends(s.logs, c1.logs)
    ensures forall membership ::
              Between(s.logs, MergeSignals(cfg, c1, sync, membership, f).0.logs,
                      MergeSignals(cfg, c1, sync, membership, NO_MERGE_FAULTS).0.logs)
  {
    hide MergeSignals, Between;
    forall membership
      ensures Between(s.logs, MergeSignals(cfg, c1, sync, membership, f).0.logs,
                      MergeSignals(cfg, c1, sync, membership, NO_MERGE_FAULTS).0.logs)
    {
      SignalsBetween(cfg, c1, sync, membership, f);
      BetweenLater(s.logs, c1.logs, MergeSignals(cfg, c1, sync, membership, f).0.logs,
                   MergeSignals(cfg, c1, sync, membership, NO_MERGE_FAULTS).0.logs);
    }
  }

  lemma SignalsFollow(cfg: Config, s: State, sync: SyncEntry)
    requires Inv(cfg, s) && s.healthy
    ensures var c1 := Store.Put(cfg, s, sync.realm, sync.manifest, sync.artifact, NO_PUT_FAULTS).0;
            Get(cfg, s, sync.realm, sync.hash).Ok? ==>
              Extends(c1.logs, MergePushedPut(cfg, s, sync, NO_MERGE_FAULTS).0.logs)
    ensures Get(cfg, s, sync.realm, sync.hash).Err? ==> MergePushedPut(cfg, s, sync, NO_MERGE_FAULTS).0 == s
  {
    hide Inv, Store.Put, Get, MergeSignals, Between;
    var c1 := Store.Put(cfg, s, sync.realm, sync.manifest, sync.artifact, NO_PUT_FAULTS).0;
    forall membership
      ensures Extends(c1.logs, MergeSignals(cfg, c1, sync, membership, NO_MERGE_FAULTS).0.logs)
    {
      SignalsBetween(cfg, c1, sync, membership, NO_MERGE_FAULTS);
      BetweenEnds(c1.logs, MergeSignals(cfg, c1, sync, membership, NO_MERGE_FAULTS).0.logs,
                  MergeSignals(cfg, c1, sync, membership, NO_MERGE_FAULTS).0.logs);
    }
  }

  // ---- when a push is all or nothing ----

  /** Fail the first append that a signal makes, after the put has landed: the score's or the marker's. */
  function Stranding(score: bool): MergeFaults {
    if score then MergeFaults(NO_PUT_FAULTS, Uncertain(false), NoFault)
    else MergeFaults(NO_PUT_FAULTS, NoFault, Uncertain(false))
  }

  ghost predicate Level(a: Logs, b: Logs) {
    forall rh :: LogAt(a, rh) == LogAt(b, rh)
  }

  /** What a commit that would succeed leaves if nothing of its line lands. */
  lemma LostCommit(cfg: Config, s: State, op: LogOp, fs: nat)
    ensures var (clean, lost) := (Commit(cfg, s, op, fs, NoFault), Commit(cfg, s, op, fs, Uncertain(false)));
            && (clean.1 == Ok(true) ==> lost.1 == Err(Io) && Level(s.logs, lost.0.logs))
            && (clean.1 == Ok(true) ==> clean.0.healthy && GrewBy(s.logs, clean.0.logs, RealmSha(op.realm), 1))
            && (clean.1 != Ok(true) ==> clean.0.logs == s.logs)
            && (s.healthy ==> clean.0.healthy && (clean.1 == Ok(true) || clean.1 == Err(Limit)))
  {
    hide Apply, Level, GrewBy;
    LostAppend(cfg, s, op, fs);
  }

  lemma LogGrows(logs: Logs, rh: RealmHash, rec: LogRecord)
    ensures GrewBy(logs, logs[rh := LogAt(logs, rh) + [rec]], rh, 1)
    ensures Level(logs, logs[rh := LogAt(logs, rh) + []])
  {
  }

  lemma LostAppend(cfg: Config, s: State, op: LogOp, fs: nat)
    ensures Append(cfg, s, op, fs, NoFault).1.Appended? ==>
              && Append(cfg, s, op, fs, Uncertain(false)).1 == Unsure(Io)
              && Level(s.logs, Append(cfg, s, op, fs, Uncertain(false)).0.logs)
              && GrewBy(s.logs, Append(cfg, s, op, fs, NoFault).0.logs, RealmSha(op.realm), 1)
  {
    hide Fits, GrewBy, Level, LogAt;
    LogGrows(s.logs, RealmSha(op.realm), NextRecord(cfg, s, op, fs));
  }

  lemma LostScore(cfg: Config, s: State, realm: RealmId, hash: HashText, incoming: Option<ReputationScore>)
    requires s.healthy
    ensures var clean := MergeReputation(cfg, s, realm, hash, incoming, NoFault);
            var lost := MergeReputation(cfg, s, realm, hash, incoming, Uncertain(false));
            && (clean.1 == Ok(true) ==>
                  && lost.1 == Err(Io) && Level(s.logs, lost.0.logs) && GrewBy(s.logs, clean.0.logs, RealmSha(realm), 1)
                  && Key(realm, hash) in s.content.entries)
            && (clean.1 != Ok(true) ==> clean.0.logs == s.logs)
            && clean.0.healthy
  {
    hide Commit, ReadBlob, AttestShapeOk, GrewBy, Level;
    var key := Key(realm, hash);
    if incoming.Some? && key in s.content.entries {
      LostCommit(cfg, s, LogOp.Attest(realm, hash, incoming.value), s.content.entries[key].firstSeen);
    }
  }

  lemma LostMarker(cfg: Config, s: State, realm: RealmId, hash: HashText, incoming: Option<QuarantineNotice>)
    requires s.healthy
    ensures var clean := MergeQuarantine(cfg, s, realm, hash, incoming, NoFault);
            var lost := MergeQuarantine(cfg, s, realm, hash, incoming, Uncertain(false));
            && (clean.1 == Ok(true) ==>
                  && lost.1 == Err(Io) && Level(s.logs, lost.0.logs) && GrewBy(s.logs, clean.0.logs, RealmSha(realm), 1)
                  && Key(realm, hash) in s.content.entries)
            && (clean.1 != Ok(true) ==> clean.0.logs == s.logs)
            && clean.1.Ok?
  {
    hide Commit, MergeNotice, MarkShapeOk, GrewBy, Level;
    var key := Key(realm, hash);
    if incoming.Some? && key in s.content.entries {
      var n := MergeNotice(incoming.value, s.content.entries[key].quarantine);
      if n.Some? {
        LostCommit(cfg, s, LogOp.Quarantine(realm, hash, n.value), s.content.entries[key].firstSeen);
      }
    }
  }

  /** Signals that would not be recorded add nothing; signals that would be can be stranded. */
  lemma StrandedSignals(cfg: Config, s: State, sync: SyncEntry, membership: bool)
    requires s.healthy
    ensures var (clean, r) := MergeSignals(cfg, s, sync, membership, NO_MERGE_FAULTS);
            && (!TakesSignal(r) ==> clean.logs == s.logs)
            && (TakesSignal(r) ==>
                  && Level(s.logs, MergeSignals(cfg, s, sync, membership, Stranding(r.value.reputation)).0.logs)
                  && |LogAt(clean.logs, RealmSha(sync.realm))| > |LogAt(s.logs, RealmSha(sync.realm))|)
  {
    hide MergeReputation, MergeQuarantine;
    var (c1, q1) := MergeReputation(cfg, s, sync.realm, sync.hash, sync.reputation, NoFault);
    LostScore(cfg, s, sync.realm, sync.hash, sync.reputation);
    LostMarker(cfg, c1, sync.realm, sync.hash, sync.quarantine);
  }

  /** A signal is taken only for a key that is live after the put. */
  lemma SignalNeedsRow(cfg: Config, s: State, sync: SyncEntry, membership: bool)
    requires s.healthy && TakesSignal(MergeSignals(cfg, s, sync, membership, NO_MERGE_FAULTS).1)
    ensures Key(sync.realm, sync.hash) in s.content.entries
  {
    hide Commit, ReadBlob, AttestShapeOk, MergeNotice, MarkShapeOk;
  }

  lemma CloseIsWhole(a: Logs, b: Logs, clean: Logs)
    requires Between(a, b, clean) && forall rh :: |LogAt(clean, rh)| <= |LogAt(a, rh)| + 1
    ensures BeforeOrAfter(a, b, clean)
  {
    forall rh
      ensures LogAt(b, rh) == LogAt(a, rh) || LogAt(b, rh) == LogAt(clean, rh)
    {
      assert LogAt(a, rh) <= LogAt(b, rh) <= LogAt(clean, rh);
      assert |LogAt(clean, rh)| <= |LogAt(a, rh)| + 1;
    }
  }

  /** How many records a push adds without faults, and what its stranded form leaves. */
  lemma PushedPutGrows(cfg: Config, s: State, sync: SyncEntry)
    requires Inv(cfg, s) && s.healthy && sync.hash == Hex(cfg.sha(sync.artifact))
    ensures var (clean, r) := MergePushedPut(cfg, s, sync, NO_MERGE_FAULTS);
            var rh := RealmSha(sync.realm);
            && (!TakesSignal(r) ==> forall h :: |LogAt(clean.logs, h)| <= |LogAt(s.logs, h)| + 1)
            && (TakesSignal(r) ==>
                  var b := LogAt(MergePushedPut(cfg, s, sync, Stranding(r.value.reputation)).0.logs, rh);
                  |LogAt(s.logs, rh)| < |b| < |LogAt(clean.logs, rh)|)
  {
    hide Inv, Store.Put, Get, MergeSignals, GrewBy, Level;
    var (c1, q1) := Store.Put(cfg, s, sync.realm, sync.manifest, sync.artifact, NO_PUT_FAULTS);
    CleanPutGrows(cfg, s, sync.realm, sync.manifest, sync.artifact);
    GrowthAt(s.logs, c1.logs, RealmSha(sync.realm));
    if q1.Ok? {
      PutStaysHealthy(cfg, s, sync);
      var membership := Get(cfg, s, sync.realm, sync.hash).Ok? && Get(cfg, c1, sync.realm, sync.hash).Ok?
                        && Get(cfg, s, sync.realm, sync.hash).value.None? && Get(cfg, c1, sync.realm, sync.hash).value.Some?;
      StrandedSignals(cfg, c1, sync, membership);
      var (clean, r) := MergeSignals(cfg, c1, sync, membership, NO_MERGE_FAULTS);
      if TakesSignal(r) {
        SignalNeedsRow(cfg, c1, sync, membership);
        LevelAt(c1.logs, MergeSignals(cfg, c1, sync, membership, Stranding(r.value.reputation)).0.logs, RealmSha(sync.realm));
      }
    }
  }

  lemma GrowthAt(a: Logs, b: Logs, rh: RealmHash)
    ensures forall n :: GrewBy(a, b, rh, n) ==> |LogAt(b, rh)| == |LogAt(a, rh)| + n
    ensures forall n :: GrewBy(a, b, rh, n) && n <= 1 ==> forall h :: |LogAt(b, h)| <= |LogAt(a, h)| + 1
  {
  }

  lemma LevelAt(a: Logs, b: Logs, rh: RealmHash)
    ensures Level(a, b) ==> LogAt(a, rh) == LogAt(b, rh)
  {
  }

  lemma PutStaysHealthy(cfg: Config, s: State, sync: SyncEntry)
    requires Inv(cfg, s) && s.healthy
    requires Store.Put(cfg, s, sync.realm, sync.manifest, sync.artifact, NO_PUT_FAULTS).1.Ok?
    ensures var c1 := Store.Put(cfg, s, sync.realm, sync.manifest, sync.artifact, NO_PUT_FAULTS).0;
            var key := Key(sync.realm, Hex(cfg.sha(sync.artifact)));
            c1.healthy && (key in s.content.tombstones ==> c1 == s && key !in s.content.entries)
  {
    hide Meaning, DiskInv, Store.Put, HeadsOk, RealmsOk, BirthsBelow, LogTotal, BlobTotal;
    PutEffect(cfg, s, sync.realm, sync.manifest, sync.artifact, NO_PUT_FAULTS);
    MeaningDisjoint(s.logs);
  }

  /**
   * A push makes up to three appends, so a fault between them can strand it part way. It is all or
   * nothing under every fault if and only if no signal of it is due, which push and store tell before
   * the call; and if one is, `Stranding` is a fault that leaves the Realm neither as it was nor as it
   * would be.
   */
  lemma PushIsWholeIff(cfg: Config, s: State, push: SignedSyncEntry)
    requires Inv(cfg, s) && s.healthy
    ensures var clean := MergePush(cfg, s, push, NO_MERGE_FAULTS).0;
            && (SignalDue(cfg, s, push) ==>
                  var fault := Stranding(ScoreDue(cfg, s, push.sync.value));
                  !BeforeOrAfter(s.logs, MergePush(cfg, s, push, fault).0.logs, clean.logs))
            && ((forall f :: BeforeOrAfter(s.logs, MergePush(cfg, s, push, f).0.logs, clean.logs)) <==>
                  !SignalDue(cfg, s, push))
  {
    var (clean, r) := MergePush(cfg, s, push, NO_MERGE_FAULTS);
    PushGrows(cfg, s, push);
    TakesSignalIff(cfg, s, push);
    hide MergePush, Inv, SignalDue, ScoreDue;
    if SignalDue(cfg, s, push) {
      var rh := RealmSha(push.record.op.realm);
      var b := LogAt(MergePush(cfg, s, push, Stranding(r.value.reputation)).0.logs, rh);
      assert b != LogAt(s.logs, rh) && b != LogAt(clean.logs, rh);
    } else {
      forall f
        ensures BeforeOrAfter(s.logs, MergePush(cfg, s, push, f).0.logs, clean.logs)
      {
        PushBetween(cfg, s, push, f);
        CloseIsWhole(s.logs, MergePush(cfg, s, push, f).0.logs, clean.logs);
      }
    }
  }

  /**
   * In particular a push is all or nothing that is no offer, or of a tombstoned key, or that carries
   * neither score nor marker.
   */
  lemma SignallessPushIsWhole(cfg: Config, s: State, push: SignedSyncEntry, f: MergeFaults)
    requires Inv(cfg, s) && s.healthy
    requires push.record.op.Put? ==>
               || KeyOf(push.record.op) in s.content.tombstones
               || (push.sync.Some? ==> push.sync.value.reputation.None? && push.sync.value.quarantine.None?)
    ensures BeforeOrAfter(s.logs, MergePush(cfg, s, push, f).0.logs, MergePush(cfg, s, push, NO_MERGE_FAULTS).0.logs)
  {
    hide Inv, Meaning, MergePush, BeforeOrAfter, Fits, Verifies;
    HealthyContent(cfg, s);
    PushIsWholeIff(cfg, s, push);
  }

  lemma PushGrows(cfg: Config, s: State, push: SignedSyncEntry)
    requires Inv(cfg, s) && s.healthy
    ensures var (clean, r) := MergePush(cfg, s, push, NO_MERGE_FAULTS);
            var rh := RealmSha(push.record.op.realm);
            && (!TakesSignal(r) ==> forall h :: |LogAt(clean.logs, h)| <= |LogAt(s.logs, h)| + 1)
            && (TakesSignal(r) ==>
                  var b := LogAt(MergePush(cfg, s, push, Stranding(r.value.reputation)).0.logs, rh);
                  |LogAt(s.logs, rh)| < |b| < |LogAt(clean.logs, rh)|)
  {
    hide Inv, MergePushedPut, Store.Tombstone, Verifies;
    var op := push.record.op;
    EvictionGrows(cfg, s, op.realm, op.hash);
    if push.sync.Some? && push.sync.value.hash == Hex(cfg.sha(push.sync.value.artifact)) {
      PushedPutGrows(cfg, s, push.sync.value);
    }
  }

  lemma EvictionGrows(cfg: Config, s: State, realm: RealmId, hash: HashText)
    ensures forall h :: |LogAt(Store.Tombstone(cfg, s, realm, hash, NoFault).0.logs, h)| <= |LogAt(s.logs, h)| + 1
  {
    hide Commit, RetainedCount, GrewBy, Level;
    var op := LogOp.Tombstone(realm, hash);
    LostCommit(cfg, s, op, 0);
    GrowthAt(s.logs, Commit(cfg, s, op, 0, NoFault).0.logs, RealmSha(realm));
  }

  // ---- every operation ----

  /** All or nothing, and so also on the way from the one to the other. */
  ghost predicate Whole(a: Logs, b: Logs, clean: Logs) {
    BeforeOrAfter(a, b, clean) && Between(a, b, clean)
  }

  lemma CommitIsWhole(cfg: Config, s: State, op: LogOp, fs: nat, fault: AppendFault)
    ensures Whole(s.logs, s.logs, s.logs)
    ensures Whole(s.logs, Commit(cfg, s, op, fs, fault).0.logs, Commit(cfg, s, op, fs, NoFault).0.logs)
  {
    hide Commit;
    CommitBeforeOrAfter(cfg, s, op, fs, fault);
    CommitBetween(cfg, s, op, fs, fault);
  }

  lemma AttestIsWhole(cfg: Config, s: State, r: RealmId, h: HashText, x: ReputationScore, fault: AppendFault)
    ensures Whole(s.logs, Store.Attest(cfg, s, r, h, x, fault).0.logs, Store.Attest(cfg, s, r, h, x, NoFault).0.logs)
  {
    hide Commit, Whole, AttestShapeOk;
    CommitIsWhole(cfg, s, LogOp.Attest(r, h, x), PutBirth(s, Key(r, h)), fault);
  }

  lemma QuarantineIsWhole(cfg: Config, s: State, r: RealmId, h: HashText, x: QuarantineNotice, fault: AppendFault)
    ensures Whole(s.logs, Store.Quarantine(cfg, s, r, h, x, fault).0.logs, Store.Quarantine(cfg, s, r, h, x, NoFault).0.logs)
  {
    hide Commit, Whole, MergeNotice, MarkShapeOk;
    CommitIsWhole(cfg, s, LogOp.Unquarantine(r, h), 0, fault);
    if Key(r, h) in s.content.entries {
      var n := MergeNotice(x, s.content.entries[Key(r, h)].quarantine);
      if n.Some? {
        CommitIsWhole(cfg, s, LogOp.Quarantine(r, h, n.value), PutBirth(s, Key(r, h)), fault);
      }
    }
  }

  lemma UnquarantineIsWhole(cfg: Config, s: State, r: RealmId, h: HashText, fault: AppendFault)
    ensures Whole(s.logs, Store.Unquarantine(cfg, s, r, h, fault).0.logs, Store.Unquarantine(cfg, s, r, h, NoFault).0.logs)
  {
    hide Commit, Whole;
    CommitIsWhole(cfg, s, LogOp.Unquarantine(r, h), PutBirth(s, Key(r, h)), fault);
  }

  lemma TombstoneIsWhole(cfg: Config, s: State, r: RealmId, h: HashText, fault: AppendFault)
    ensures Whole(s.logs, Store.Tombstone(cfg, s, r, h, fault).0.logs, Store.Tombstone(cfg, s, r, h, NoFault).0.logs)
  {
    hide Commit, Whole, RetainedCount;
    CommitIsWhole(cfg, s, LogOp.Tombstone(r, h), 0, fault);
  }

  /** What a successful recovery installs of a Realm is the replay of its log. */
  lemma RecoveredShard(cfg: Config, s: State, realm: RealmId)
    ensures Recover(cfg, s).healthy ==> Shard(Recover(cfg, s).content, realm) == Replay(LogAt(s.logs, RealmSha(realm)))
  {
    hide Acceptable, Meaning, LogsMax, RealmNames, HeadsFor;
    if Recover(cfg, s).healthy {
      assert LogsOk(cfg, s.logs) by { AcceptableLogs(cfg, s); }
      if RealmSha(realm) in s.logs {
        ShardIsView(s.logs, cfg, RealmSha(realm));
      } else {
        NoFileNoShard(s.logs, realm);
      }
    }
  }

  lemma NoFileNoShard(logs: Logs, realm: RealmId)
    requires RealmSha(realm) !in logs
    ensures Shard(Meaning(logs), realm) == NOTHING
  {
    hide Meaning;
    var c := Meaning(logs);
    forall k | k in Retained(c)
      ensures k.realm != realm
    {
      MeaningAt(logs, k);
    }
  }

  lemma AcceptableLogs(cfg: Config, s: State)
    requires Acceptable(cfg, s.logs, s.blobs)
    ensures LogsOk(cfg, s.logs)
  {
  }

  /**
   * How far a fault leaves a Realm: after any operation that only appends, each Realm's log, and so what
   * recovery rebuilds of it, lies between what it was and what the operation leaves on a disk that does
   * not fail. For every operation, compaction included, but a push of which a signal is due, that is
   * all or nothing.
   */
  lemma FaultsLeaveRealmsWhole(cfg: Config, s: State, cmd: Command, realm: RealmId)
    requires Inv(cfg, s) && s.healthy && CatalogCommand(cmd)
    ensures var (b, clean) := (Step(cfg, s, cmd).logs, Step(cfg, s, Clean(cmd)).logs);
            && (!cmd.DoCompact? ==> Between(s.logs, b, clean))
            && (!cmd.DoMergePush? ==> BeforeOrAfter(s.logs, b, clean))
            && (cmd.DoMergePush? && !SignalDue(cfg, s, cmd.push) ==> BeforeOrAfter(s.logs, b, clean))
    ensures var after := Step(cfg, s, cmd);
            Recover(cfg, after).healthy ==>
              Shard(Recover(cfg, after).content, realm) == Replay(LogAt(after.logs, RealmSha(realm)))
  {
    RecoveredShard(cfg, Step(cfg, s, cmd), realm);
    assert BeforeOrAfter(s.logs, s.logs, s.logs);
    hide Inv, Meaning, Store.Put, Store.Attest, Store.Quarantine, Store.Unquarantine, Store.Tombstone, MergePush, Compact,
         Recover, Shard, Between, BeforeOrAfter, SignalDue;
    match cmd {
      case DoPut(r, m, a, f) =>
        PutBeforeOrAfter(cfg, s, r, m, a, f);
        CleanPutGrows(cfg, s, r, m, a);
        WholeIsBetween(s.logs, Step(cfg, s, cmd).logs, Step(cfg, s, Clean(cmd)).logs);
      case DoCompact(d, order, fault) =>
        CompactBeforeOrAfter(cfg, s, d, order, fault);
      case DoMergePush(push, f) =>
        PushBetween(cfg, s, push, f);
        PushIsWholeIff(cfg, s, push);
      case DoAttest(r, h, x, fault) => AttestIsWhole(cfg, s, r, h, x, fault);
      case DoQuarantine(r, h, x, fault) => QuarantineIsWhole(cfg, s, r, h, x, fault);
      case DoUnquarantine(r, h, fault) => UnquarantineIsWhole(cfg, s, r, h, fault);
      case DoTombstone(r, h, fault) => TombstoneIsWhole(cfg, s, r, h, fault);
    }
  }
}
