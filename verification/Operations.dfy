/** Every operation of the store keeps the invariant and only lets the catalog evolve, under every fault. */
module Operations {
  import opened Basics
  import opened Records
  import opened Catalog
  import opened Chain
  import opened Store
  import opened Invariant

  ghost predicate Keeps(cfg: Config, s: State, s': State) {
    Inv(cfg, s') && Evolves(Meaning(s.logs), Meaning(s'.logs))
  }

  lemma KeepsSame(cfg: Config, s: State)
    requires Inv(cfg, s)
    ensures Keeps(cfg, s, s)
  {
  }

  lemma KeepsTrans(cfg: Config, a: State, b: State, c: State)
    requires Keeps(cfg, a, b) && Keeps(cfg, b, c)
    ensures Keeps(cfg, a, c)
  {
    hide Inv, Meaning;
    MeaningDisjoint(c.logs);
    EvolvesTrans(Meaning(a.logs), Meaning(b.logs), Meaning(c.logs));
  }

  // ---- signals ----

  lemma SignalReady(cfg: Config, s: State, op: LogOp)
    requires Inv(cfg, s) && s.healthy
    requires KeyOf(op) in s.content.entries && op.hash.Hex? && Parses(op)
    requires !op.Put? && !op.Tombstone?
    ensures Ready(cfg, s.logs, s.blobs, op, s.content.entries[KeyOf(op)].firstSeen)
  {
    hide Meaning, CapsOk, LogsOk, Histories;
    MeaningDisjoint(s.logs);
  }

  lemma AttestKeeps(cfg: Config, s: State, realm: RealmId, hash: HashText, score: ReputationScore, fault: AppendFault)
    requires Inv(cfg, s)
    ensures Keeps(cfg, s, Store.Attest(cfg, s, realm, hash, score, fault).0)
  {
    hide Inv, Meaning, Commit, Ready;
    var key, op := Key(realm, hash), LogOp.Attest(realm, hash, score);
    if s.healthy && hash.Hex? && key in s.content.entries && AttestShapeOk(cfg, realm, score) {
      SignalReady(cfg, s, op);
      CommitKeeps(cfg, s, op, s.content.entries[key].firstSeen, fault);
    }
  }

  lemma QuarantineKeeps(cfg: Config, s: State, realm: RealmId, hash: HashText, notice: QuarantineNotice, fault: AppendFault)
    requires Inv(cfg, s)
    ensures Keeps(cfg, s, Store.Quarantine(cfg, s, realm, hash, notice, fault).0)
  {
    hide Inv, Meaning, Commit, Ready, MergeNotice;
    var key := Key(realm, hash);
    if s.healthy && hash.Hex? && key in s.content.entries {
      var merged := MergeNotice(notice, s.content.entries[key].quarantine);
      if merged.Some? {
        var op := LogOp.Quarantine(realm, hash, merged.value);
        SignalReady(cfg, s, op);
        CommitKeeps(cfg, s, op, s.content.entries[key].firstSeen, fault);
      }
    }
  }

  lemma UnquarantineKeeps(cfg: Config, s: State, realm: RealmId, hash: HashText, fault: AppendFault)
    requires Inv(cfg, s)
    ensures Keeps(cfg, s, Store.Unquarantine(cfg, s, realm, hash, fault).0)
  {
    hide Inv, Meaning, Commit, Ready;
    var key, op := Key(realm, hash), LogOp.Unquarantine(realm, hash);
    if s.healthy && hash.Hex? && key in s.content.entries {
      SignalReady(cfg, s, op);
      CommitKeeps(cfg, s, op, s.content.entries[key].firstSeen, fault);
    }
  }

  lemma TombstoneReady(cfg: Config, s: State, realm: RealmId, hash: HashText)
    requires Inv(cfg, s) && s.healthy && hash.Hex?
    requires Key(realm, hash) !in s.content.tombstones
    requires cfg.maxEntries != 0 && Key(realm, hash) !in s.content.entries ==> RetainedCount(s.content) < cfg.maxEntries
    ensures Ready(cfg, s.logs, s.blobs, LogOp.Tombstone(realm, hash), 0)
  {
    hide Meaning, CapsOk, LogsOk, Histories;
    MeaningDisjoint(s.logs);
    RetainedSize(s.content);
  }

  lemma TombstoneKeeps(cfg: Config, s: State, realm: RealmId, hash: HashText, fault: AppendFault)
    requires Inv(cfg, s)
    ensures Keeps(cfg, s, Store.Tombstone(cfg, s, realm, hash, fault).0)
  {
    hide Inv, Meaning, Commit, Ready, RetainedCount;
    if s.healthy && hash.Hex? && Key(realm, hash) !in s.content.tombstones
       && !(cfg.maxEntries != 0 && Key(realm, hash) !in s.content.entries && RetainedCount(s.content) >= cfg.maxEntries) {
      TombstoneReady(cfg, s, realm, hash);
      CommitKeeps(cfg, s, LogOp.Tombstone(realm, hash), 0, fault);
    }
  }

  // ---- blobs ----

  lemma BlobsOkAdd(cfg: Config, c: Content, blobs: map<nat, Bytes>, h: nat, artifact: Bytes)
    requires BlobsOk(cfg, c, blobs)
    requires h == cfg.sha(artifact) && WithinCap(|artifact|, cfg.maxArtifactBytes)
    ensures BlobsOk(cfg, c, blobs[h := artifact])
  {
  }

  lemma BlobAdded(cfg: Config, s: State, h: nat, artifact: Bytes)
    requires Inv(cfg, s) && s.healthy
    requires h !in s.blobs && h == cfg.sha(artifact) && WithinCap(|artifact|, cfg.maxArtifactBytes)
    requires WithinCap(s.blobCount + 1, cfg.maxEntries)
    requires GrowthOk(s.blobBytes, |artifact|, cfg.maxBlobBytes)
    ensures Inv(cfg, s.(blobs := s.blobs[h := artifact], blobBytes := s.blobBytes + |artifact|, blobCount := s.blobCount + 1))
  {
    hide Meaning, LogTotal, LogsOk, Histories, DistinctBirths, BlobsOk, BlobTotal, HeadsOk, RealmsOk;
    BlobTotalAdd(s.blobs, h, artifact);
    BlobsOkAdd(cfg, Meaning(s.logs), s.blobs, h, artifact);
  }

  lemma BlobsOkRemove(cfg: Config, c: Content, blobs: map<nat, Bytes>, h: nat)
    requires BlobsOk(cfg, c, blobs) && !References(c, h)
    ensures BlobsOk(cfg, c, blobs - {h})
  {
  }

  /** A blob no live row references can go. */
  lemma BlobDropped(cfg: Config, s: State, h: nat)
    requires Inv(cfg, s) && s.healthy
    requires h in s.blobs && !References(s.content, h)
    ensures s.blobBytes >= |s.blobs[h]| && s.blobCount >= 1
    ensures Inv(cfg, s.(blobs := s.blobs - {h}, blobBytes := s.blobBytes - |s.blobs[h]|, blobCount := s.blobCount - 1))
  {
    hide Meaning, LogTotal, LogsOk, Histories, DistinctBirths, BlobsOk, BlobTotal, References, HeadsOk, RealmsOk;
    BlobTotalRemove(s.blobs, h);
    BlobsOkRemove(cfg, Meaning(s.logs), s.blobs, h);
  }

  /** While the store is healthy a blob write needs neither repair nor rewrite. */
  lemma WriteBlobPlain(cfg: Config, s: State, artifact: Bytes, fault: BlobFault)
    requires BlobsOk(cfg, s.content, s.blobs) && s.blobCount == |s.blobs|
    ensures var h := cfg.sha(artifact);
            WriteBlob(cfg, s, h, artifact, fault) ==
            if h in s.blobs then (s, Ok(false))
            else if !WithinCap(s.blobCount + 1, cfg.maxEntries) || !GrowthOk(s.blobBytes, |artifact|, cfg.maxBlobBytes)
                    || s.blobCount + 1 > U64_MAX
            then (s, Err(Limit))
            else match fault
                 case BlobFails => (s, Err(Io))
                 case BlobFailsDirty => (s.(healthy := false), Err(Io))
                 case BlobLands =>
                   (s.(blobs := s.blobs[h := artifact], blobBytes := s.blobBytes + |artifact|, blobCount := s.blobCount + 1), Ok(true))
  {
    var h := cfg.sha(artifact);
    if h in s.blobs {
      assert ReadBlob(cfg, s, h).Ok?;
    } else {
      assert !References(s.content, h);
    }
  }

  /** Writing a blob: what it changes, and that a blob it reports as created was needed by no live row. */
  lemma WriteBlobKeeps(cfg: Config, s: State, artifact: Bytes, fault: BlobFault)
    requires Inv(cfg, s) && s.healthy
    requires WithinCap(|artifact|, cfg.maxArtifactBytes)
    ensures var h := cfg.sha(artifact);
            var (s', r) := WriteBlob(cfg, s, h, artifact, fault);
            && Inv(cfg, s')
            && s' == s.(blobs := s'.blobs, blobBytes := s'.blobBytes, blobCount := s'.blobCount, healthy := s'.healthy)
            && (r.Err? ==> s'.blobs == s.blobs)
            && (r.Ok? ==> s'.healthy && h in s'.blobs)
            && (r == Ok(true) ==> h !in s.blobs && s'.blobs == s.blobs[h := artifact] && !References(s.content, h))
            && (r == Ok(false) ==> s' == s)
  {
    var h := cfg.sha(artifact);
    hide Meaning, WriteBlob, LogTotal, BlobTotal, LogsOk, Histories, DistinctBirths, CapsOk, HeadsOk, RealmsOk;
    WriteBlobPlain(cfg, s, artifact, fault);
    if h !in s.blobs && WithinCap(s.blobCount + 1, cfg.maxEntries) && GrowthOk(s.blobBytes, |artifact|, cfg.maxBlobBytes) {
      BlobAdded(cfg, s, h, artifact);
    }
  }

  // ---- put ----

  /** What `put` has checked before it writes anything. */
  ghost predicate PutAdmitted(cfg: Config, s: State, key: Key) {
    && key.hash.Hex?
    && key !in s.content.tombstones
    && (key !in s.content.entries ==>
          WithinCap(RetainedCount(s.content) + 1, cfg.maxEntries) && s.nextFirstSeen < U64_MAX)
  }

  lemma PutReady(cfg: Config, s: State, key: Key, manifest: Manifest)
    requires Inv(cfg, s) && s.healthy
    requires PutAdmitted(cfg, s, key) && key.hash.value in s.blobs
    ensures var op := LogOp.Put(key.realm, key.hash, manifest);
            var next := if key in s.content.entries then s.nextFirstSeen else s.nextFirstSeen + 1;
            && Ready(cfg, s.logs, s.blobs, op, PutBirth(s, key))
            && BirthsBelow(Apply(s.content, op, PutBirth(s, key)), next)
            && next <= U64_MAX
  {
    hide Meaning, CapsOk, LogsOk, Histories;
    MeaningDisjoint(s.logs);
    RetainedSize(s.content);
    var op := LogOp.Put(key.realm, key.hash, manifest);
    assert KeyOf(op) == key;
    ApplyBirthsBelow(s.content, op, PutBirth(s, key), if key in s.content.entries then s.nextFirstSeen else s.nextFirstSeen + 1);
  }

  lemma PutRollsBack(cfg: Config, s: State, s2: State, h: nat, fails: bool, e: Error)
    requires Inv(cfg, s2) && s2.healthy && h in s2.blobs && !References(s2.content, h)
    requires s2.logs == s.logs
    ensures Keeps(cfg, s, RollbackNewBlob(s2, h, fails, e).0)
  {
    hide Meaning, CapsOk, LogsOk, Histories, DistinctBirths, MemInv, BlobsOk;
    if !fails {
      BlobDropped(cfg, s2, h);
    }
  }

  /** The tail of `put` keeps the invariant; a rollback removes only a blob nothing references. */
  lemma PutLoggedKeeps(cfg: Config, s: State, key: Key, manifest: Manifest, created: bool, f: PutFaults)
    requires Inv(cfg, s) && s.healthy
    requires PutAdmitted(cfg, s, key) && key.hash.value in s.blobs
    requires created ==> !References(s.content, key.hash.value)
    ensures Keeps(cfg, s, PutLogged(cfg, s, key, manifest, created, f).0)
  {
    hide Inv, Meaning, Ready, Apply, BirthsBelow, Fits, References, RollbackNewBlob, Evolves;
    PutReady(cfg, s, key, manifest);
    var op, fs := LogOp.Put(key.realm, key.hash, manifest), PutBirth(s, key);
    var (s1, out) := Append(cfg, s, op, fs, f.append);
    if out.Appended? {
      var next := if key in s.content.entries then s.nextFirstSeen else s.nextFirstSeen + 1;
      AppendApplied(cfg, s, op, fs, f.append, next);
    } else {
      AppendFails(cfg, s, op, fs, f.append);
      if out.BeforeWrite? && created {
        PutRollsBack(cfg, s, s1, key.hash.value, f.rollbackFails, out.error);
      }
    }
  }

  lemma KeepsSameLogs(cfg: Config, s: State, s': State)
    requires Inv(cfg, s') && s'.logs == s.logs
    ensures Keeps(cfg, s, s')
  {
  }

  lemma PutKeeps(cfg: Config, s: State, realm: RealmId, manifest: Manifest, artifact: Bytes, f: PutFaults)
    requires Inv(cfg, s)
    ensures Keeps(cfg, s, Store.Put(cfg, s, realm, manifest, artifact, f).0)
  {
    hide Inv, Meaning, Keeps, WriteBlob, Fits, RetainedCount, References, PutLogged;
    var h := cfg.sha(artifact);
    var key := Key(realm, Hex(h));
    KeepsSame(cfg, s);
    if s.healthy && WithinCap(|artifact|, cfg.maxArtifactBytes) && PutAdmitted(cfg, s, key) {
      WriteBlobKeeps(cfg, s, artifact, f.blob);
      var (s1, r) := WriteBlob(cfg, s, h, artifact, f.blob);
      KeepsSameLogs(cfg, s, s1);
      if r.Ok? {
        PutLoggedKeeps(cfg, s1, key, manifest, r.value, f);
        KeepsTrans(cfg, s, s1, PutLogged(cfg, s1, key, manifest, r.value, f).0);
      }
    }
  }

  // ---- push replication ----

  lemma MergeSignalsKeeps(cfg: Config, s: State, sync: SyncEntry, membership: bool, f: MergeFaults)
    requires Inv(cfg, s)
    ensures Keeps(cfg, s, MergeSignals(cfg, s, sync, membership, f).0)
  {
    hide Inv, Meaning, Evolves, Store.Attest, Store.Quarantine, Get;
    KeepsSame(cfg, s);
    var s1 := MergeReputation(cfg, s, sync.realm, sync.hash, sync.reputation, f.attest).0;
    if sync.reputation.Some? {
      AttestKeeps(cfg, s, sync.realm, sync.hash, sync.reputation.value, f.attest);
    }
    assert Keeps(cfg, s, s1);
    var s2 := MergeQuarantine(cfg, s1, sync.realm, sync.hash, sync.quarantine, f.quarantine).0;
    if sync.quarantine.Some? {
      QuarantineKeeps(cfg, s1, sync.realm, sync.hash, sync.quarantine.value, f.quarantine);
    } else {
      KeepsSame(cfg, s1);
    }
    KeepsTrans(cfg, s, s1, s2);
  }

  lemma MergePushKeeps(cfg: Config, s: State, push: SignedSyncEntry, f: MergeFaults)
    requires Inv(cfg, s)
    ensures Keeps(cfg, s, MergePush(cfg, s, push, f).0)
  {
    hide Inv, Meaning, Evolves, Store.Put, Store.Tombstone, MergeSignals, Get;
    KeepsSame(cfg, s);
    var op := push.record.op;
    if op.Tombstone? {
      TombstoneKeeps(cfg, s, op.realm, op.hash, f.put.append);
    } else if op.Put? && push.sync.Some? {
      var sync := push.sync.value;
      PutKeeps(cfg, s, sync.realm, sync.manifest, sync.artifact, f.put);
      var s1 := Store.Put(cfg, s, sync.realm, sync.manifest, sync.artifact, f.put).0;
      forall m: bool ensures Keeps(cfg, s, MergeSignals(cfg, s1, sync, m, f).0) {
        MergeSignalsKeeps(cfg, s1, sync, m, f);
        KeepsTrans(cfg, s, s1, MergeSignals(cfg, s1, sync, m, f).0);
      }
    }
  }
}
