/**
 * What each call of the store promises on the durable catalog, whenever the store was in order before
 * it; in particular that a push touches no key but its own, whatever faults hit its three appends.
 */
module Promises {
  import opened Basics
  import opened Records
  import opened Catalog
  import opened Chain
  import opened Store
  import opened Invariant
  import opened Operations
  import opened Compaction
  import opened CompactionProofs
  import opened Recovery
  import opened Runs
  import opened Guarantees
  import opened Effects
  import Curator

  // ---- only one key ----

  /** The two catalogs say the same of every key but `key`. */
  ghost predicate OnlyAt(c: Content, c': Content, key: Key) {
    forall k | k != key ::
      && (k in c'.tombstones <==> k in c.tombstones)
      && (k in c'.entries <==> k in c.entries)
      && (k in c.entries ==> c'.entries[k] == c.entries[k])
  }

  lemma OnlyAtSame(c: Content, key: Key)
    ensures OnlyAt(c, c, key)
  {
  }

  lemma OnlyAtTrans(a: Content, b: Content, c: Content, key: Key)
    requires OnlyAt(a, b, key) && OnlyAt(b, c, key)
    ensures OnlyAt(a, c, key)
  {
  }

  lemma ApplyOnlyAt(c: Content, op: LogOp, fs: nat)
    ensures OnlyAt(c, Apply(c, op, fs), KeyOf(op))
  {
  }

  lemma TouchedMeaning(logs: Logs, rh: RealmHash)
    ensures Meaning(logs[rh := LogAt(logs, rh)]) == Meaning(logs)
  {
    if rh in logs {
      assert logs[rh := LogAt(logs, rh)] == logs;
    } else {
      MeaningAddRealm(logs, rh, []);
    }
  }

  /** Whatever becomes of an append, only the key of its operation can have changed. */
  lemma AppendOnlyAt(cfg: Config, s: State, op: LogOp, fs: nat, fault: AppendFault)
    ensures OnlyAt(Meaning(s.logs), Meaning(Append(cfg, s, op, fs, fault).0.logs), KeyOf(op))
  {
    hide Meaning, Fits, Apply;
    var rh := RealmSha(op.realm);
    var log := LogAt(s.logs, rh);
    TouchedMeaning(s.logs, rh);
    MeaningAppend(s.logs, NextRecord(cfg, s, op, fs));
    ApplyOnlyAt(Meaning(s.logs), op, fs);
    assert log + [] == log;
  }

  lemma CommitOnlyAt(cfg: Config, s: State, op: LogOp, fs: nat, fault: AppendFault)
    ensures OnlyAt(Meaning(s.logs), Meaning(Commit(cfg, s, op, fs, fault).0.logs), KeyOf(op))
  {
    hide Meaning, Append, Apply, OnlyAt;
    AppendOnlyAt(cfg, s, op, fs, fault);
  }

  lemma PutLoggedOnlyAt(cfg: Config, s: State, key: Key, manifest: Manifest, created: bool, f: PutFaults)
    requires key.hash.Hex?
    ensures OnlyAt(Meaning(s.logs), Meaning(PutLogged(cfg, s, key, manifest, created, f).0.logs), key)
  {
    hide Meaning, Append, Apply, OnlyAt;
    AppendOnlyAt(cfg, s, LogOp.Put(key.realm, key.hash, manifest), PutBirth(s, key), f.append);
  }

  lemma PutOnlyAt(cfg: Config, s: State, realm: RealmId, manifest: Manifest, artifact: Bytes, f: PutFaults)
    requires Inv(cfg, s)
    ensures OnlyAt(Meaning(s.logs), Meaning(Store.Put(cfg, s, realm, manifest, artifact, f).0.logs),
                   Key(realm, Hex(cfg.sha(artifact))))
  {
    var h := cfg.sha(artifact);
    var key := Key(realm, Hex(h));
    hide Inv, Meaning, Fits, RetainedCount, WriteBlob, PutLogged, OnlyAt;
    OnlyAtSame(Meaning(s.logs), key);
    if s.healthy && WithinCap(|artifact|, cfg.maxArtifactBytes) {
      WriteBlobKeeps(cfg, s, artifact, f.blob);
      var (s1, r) := WriteBlob(cfg, s, h, artifact, f.blob);
      if r.Ok? {
        PutLoggedOnlyAt(cfg, s1, key, manifest, r.value, f);
      }
    }
  }

  lemma AttestOnlyAt(cfg: Config, s: State, realm: RealmId, hash: HashText, score: ReputationScore, fault: AppendFault)
    ensures OnlyAt(Meaning(s.logs), Meaning(Store.Attest(cfg, s, realm, hash, score, fault).0.logs), Key(realm, hash))
  {
    hide Meaning, Commit, OnlyAt, AttestShapeOk;
    OnlyAtSame(Meaning(s.logs), Key(realm, hash));
    CommitOnlyAt(cfg, s, LogOp.Attest(realm, hash, score), PutBirth(s, Key(realm, hash)), fault);
  }

  lemma QuarantineOnlyAt(cfg: Config, s: State, realm: RealmId, hash: HashText, notice: QuarantineNotice, fault: AppendFault)
    ensures OnlyAt(Meaning(s.logs), Meaning(Store.Quarantine(cfg, s, realm, hash, notice, fault).0.logs), Key(realm, hash))
  {
    var key := Key(realm, hash);
    hide Meaning, Commit, OnlyAt, MergeNotice, MarkShapeOk;
    OnlyAtSame(Meaning(s.logs), key);
    if key in s.content.entries && MergeNotice(notice, s.content.entries[key].quarantine).Some? {
      var n := MergeNotice(notice, s.content.entries[key].quarantine).value;
      CommitOnlyAt(cfg, s, LogOp.Quarantine(realm, hash, n), PutBirth(s, key), fault);
    }
  }

  lemma SignalsOnlyAt(cfg: Config, s: State, sync: SyncEntry, membership: bool, f: MergeFaults)
    ensures OnlyAt(Meaning(s.logs), Meaning(MergeSignals(cfg, s, sync, membership, f).0.logs), Key(sync.realm, sync.hash))
  {
    var key := Key(sync.realm, sync.hash);
    hide Meaning, OnlyAt, Store.Attest, Store.Quarantine, Get;
    OnlyAtSame(Meaning(s.logs), key);
    var s1 := MergeReputation(cfg, s, sync.realm, sync.hash, sync.reputation, f.attest).0;
    if sync.reputation.Some? {
      AttestOnlyAt(cfg, s, sync.realm, sync.hash, sync.reputation.value, f.attest);
    }
    if sync.quarantine.Some? {
      QuarantineOnlyAt(cfg, s1, sync.realm, sync.hash, sync.quarantine.value, f.quarantine);
      var s2 := Store.Quarantine(cfg, s1, sync.realm, sync.hash, sync.quarantine.value, f.quarantine).0;
      OnlyAtTrans(Meaning(s.logs), Meaning(s1.logs), Meaning(s2.logs), key);
    }
  }

  lemma PushedPutOnlyAt(cfg: Config, s: State, sync: SyncEntry, f: MergeFaults)
    requires Inv(cfg, s) && sync.hash == Hex(cfg.sha(sync.artifact))
    ensures OnlyAt(Meaning(s.logs), Meaning(MergePushedPut(cfg, s, sync, f).0.logs), Key(sync.realm, sync.hash))
  {
    var key := Key(sync.realm, sync.hash);
    hide Inv, Meaning, OnlyAt, Store.Put, MergeSignals, Get;
    OnlyAtSame(Meaning(s.logs), key);
    PutOnlyAt(cfg, s, sync.realm, sync.manifest, sync.artifact, f.put);
    var s1 := Store.Put(cfg, s, sync.realm, sync.manifest, sync.artifact, f.put).0;
    forall membership
      ensures OnlyAt(Meaning(s.logs), Meaning(MergeSignals(cfg, s1, sync, membership, f).0.logs), key)
    {
      SignalsOnlyAt(cfg, s1, sync, membership, f);
      OnlyAtTrans(Meaning(s.logs), Meaning(s1.logs), Meaning(MergeSignals(cfg, s1, sync, membership, f).0.logs), key);
    }
  }

  /** A push changes the durable catalog at its own key only, whatever faults hit it. */
  lemma PushOnlyAt(cfg: Config, s: State, push: SignedSyncEntry, f: MergeFaults)
    requires Inv(cfg, s)
    ensures OnlyAt(Meaning(s.logs), Meaning(MergePush(cfg, s, push, f).0.logs), KeyOf(push.record.op))
  {
    var op := push.record.op;
    hide Inv, Meaning, OnlyAt, MergePushedPut, Commit, RetainedCount;
    OnlyAtSame(Meaning(s.logs), KeyOf(op));
    CommitOnlyAt(cfg, s, op, 0, f.put.append);
    if push.sync.Some? && push.sync.value.hash == Hex(cfg.sha(push.sync.value.artifact)) {
      PushedPutOnlyAt(cfg, s, push.sync.value, f);
    }
  }

  // ---- the membership a push reports ----

  ghost predicate SameKeys(c: Content, c': Content) {
    c'.entries.Keys == c.entries.Keys && c'.tombstones == c.tombstones
  }

  lemma ApplySameKeys(c: Content, op: LogOp, fs: nat)
    requires op.Attest? || op.Quarantine?
    ensures SameKeys(c, Apply(c, op, fs))
  {
  }

  lemma CommitSameKeys(cfg: Config, s: State, op: LogOp, fs: nat, fault: AppendFault)
    requires op.Attest? || op.Quarantine?
    ensures SameKeys(Meaning(s.logs), Meaning(Commit(cfg, s, op, fs, fault).0.logs))
  {
    hide Meaning, Fits, Apply;
    var rh := RealmSha(op.realm);
    var log := LogAt(s.logs, rh);
    TouchedMeaning(s.logs, rh);
    MeaningAppend(s.logs, NextRecord(cfg, s, op, fs));
    ApplySameKeys(Meaning(s.logs), op, fs);
    assert log + [] == log;
  }

  /** Signals neither add nor remove a key, landed or not. */
  lemma SignalsSameKeys(cfg: Config, s: State, sync: SyncEntry, membership: bool, f: MergeFaults)
    ensures SameKeys(Meaning(s.logs), Meaning(MergeSignals(cfg, s, sync, membership, f).0.logs))
  {
    hide Meaning, Store.Attest, Store.Quarantine, Get;
    var s1 := MergeReputation(cfg, s, sync.realm, sync.hash, sync.reputation, f.attest).0;
    if sync.reputation.Some? {
      AttestSameKeys(cfg, s, sync.realm, sync.hash, sync.reputation.value, f.attest);
    }
    if sync.quarantine.Some? {
      QuarantineSameKeys(cfg, s1, sync.realm, sync.hash, sync.quarantine.value, f.quarantine);
    }
  }

  lemma AttestSameKeys(cfg: Config, s: State, realm: RealmId, hash: HashText, score: ReputationScore, fault: AppendFault)
    ensures SameKeys(Meaning(s.logs), Meaning(Store.Attest(cfg, s, realm, hash, score, fault).0.logs))
  {
    hide Meaning, Commit, AttestShapeOk;
    CommitSameKeys(cfg, s, LogOp.Attest(realm, hash, score), PutBirth(s, Key(realm, hash)), fault);
  }

  lemma QuarantineSameKeys(cfg: Config, s: State, realm: RealmId, hash: HashText, notice: QuarantineNotice, fault: AppendFault)
    ensures SameKeys(Meaning(s.logs), Meaning(Store.Quarantine(cfg, s, realm, hash, notice, fault).0.logs))
  {
    hide Meaning, Commit, MergeNotice, MarkShapeOk;
    var key := Key(realm, hash);
    if key in s.content.entries && MergeNotice(notice, s.content.entries[key].quarantine).Some? {
      var n := MergeNotice(notice, s.content.entries[key].quarantine).value;
      CommitSameKeys(cfg, s, LogOp.Quarantine(realm, hash, n), PutBirth(s, key), fault);
    }
  }

  /** A capacity refusal is decided before anything is touched, and only for a key that is not live. */
  lemma CapacityRefusal(cfg: Config, s: State, realm: RealmId, manifest: Manifest, artifact: Bytes, f: PutFaults)
    ensures var (s', r) := Store.Put(cfg, s, realm, manifest, artifact, f);
            r == Err(Capacity) ==> s' == s && Key(realm, Hex(cfg.sha(artifact))) !in s.content.entries
  {
    hide Fits, RetainedCount, WriteBlob, PutLogged;
    var h := cfg.sha(artifact);
    BlobNotCapacity(cfg, s, h, artifact, f.blob);
    var (s1, r) := WriteBlob(cfg, s, h, artifact, f.blob);
    if r.Ok? {
      LoggedNotCapacity(cfg, s1, Key(realm, Hex(h)), manifest, r.value, f);
    }
  }

  lemma BlobNotCapacity(cfg: Config, s: State, h: nat, artifact: Bytes, fault: BlobFault)
    ensures WriteBlob(cfg, s, h, artifact, fault).1 != Err(Capacity)
  {
  }

  lemma LoggedNotCapacity(cfg: Config, s: State, key: Key, manifest: Manifest, created: bool, f: PutFaults)
    requires key.hash.Hex?
    ensures PutLogged(cfg, s, key, manifest, created, f).1 != Err(Capacity)
  {
    hide Fits, Apply;
  }

  /** A push of a put reports new membership exactly when its key was not live and now is. */
  lemma PushedPutMembership(cfg: Config, s: State, sync: SyncEntry, f: MergeFaults)
    requires Inv(cfg, s) && s.healthy && sync.hash == Hex(cfg.sha(sync.artifact))
    ensures var (s', r) := MergePushedPut(cfg, s, sync, f);
            var (c, c', key) := (Meaning(s.logs), Meaning(s'.logs), Key(sync.realm, sync.hash));
            r.Ok? ==> (r.value.membership <==> key !in c.entries && key in c'.entries)
  {
    hide Inv, Meaning, Store.Put, MergeSignals, ReadBlob;
    HealthyContent(cfg, s);
    CapacityRefusal(cfg, s, sync.realm, sync.manifest, sync.artifact, f.put);
    var (s1, r1) := Store.Put(cfg, s, sync.realm, sync.manifest, sync.artifact, f.put);
    if r1.Ok? {
      PutKeeps(cfg, s, sync.realm, sync.manifest, sync.artifact, f.put);
      PutEffect(cfg, s, sync.realm, sync.manifest, sync.artifact, f.put);
      HealthyContent(cfg, s1);
      forall membership
        ensures SameKeys(Meaning(s1.logs), Meaning(MergeSignals(cfg, s1, sync, membership, f).0.logs))
        ensures MergeSignals(cfg, s1, sync, membership, f).1.Ok? ==>
                  MergeSignals(cfg, s1, sync, membership, f).1.value.membership == membership
      {
        SignalsSameKeys(cfg, s1, sync, membership, f);
        SignalsEcho(cfg, s1, sync, membership, f);
      }
    }
  }

  lemma SignalsEcho(cfg: Config, s: State, sync: SyncEntry, membership: bool, f: MergeFaults)
    ensures var r := MergeSignals(cfg, s, sync, membership, f).1; r.Ok? ==> r.value.membership == membership
  {
    hide MergeReputation, MergeQuarantine;
  }

  /** What a push does: only its own key can change, and the reply tells what became of it. */
  ghost predicate Pushed(c: Content, c': Content, push: SignedSyncEntry, r: Result<MergeOutcome>) {
    var key := KeyOf(push.record.op);
    && OnlyAt(c, c', key)
    && (r.Ok? ==> Verifies(push.record) && (push.record.op.Put? || push.record.op.Tombstone?))
    && (r.Ok? && push.record.op.Put? ==> (r.value.membership <==> key !in c.entries && key in c'.entries))
    && (r.Ok? && push.record.op.Tombstone? ==>
          key in c'.tombstones && (r.value.membership <==> key !in c.tombstones))
    && (!Verifies(push.record) ==> r.Err? && c' == c)
  }

  lemma PushReports(cfg: Config, s: State, push: SignedSyncEntry, f: MergeFaults)
    requires Inv(cfg, s)
    ensures var (s', r) := MergePush(cfg, s, push, f); Pushed(Meaning(s.logs), Meaning(s'.logs), push, r)
  {
    hide Inv, Meaning, OnlyAt, MergePushedPut, Store.Tombstone, Verifies;
    var op := push.record.op;
    PushOnlyAt(cfg, s, push, f);
    if s.healthy {
      TombstoneIsDurable(cfg, s, op.realm, op.hash, f.put.append);
      if push.sync.Some? && push.sync.value.hash == Hex(cfg.sha(push.sync.value.artifact)) {
        PushedPutMembership(cfg, s, push.sync.value, f);
      }
    }
  }

  // ---- compaction and recovery ----

  lemma CompactOkIsClean(cfg: Config, s: State, d: Curator.Decisions, order: seq<RealmHash>, fault: CompactFault)
    ensures Compact(cfg, s, d, order, fault).1.Ok? ==>
              Compact(cfg, s, d, order, fault) == Compact(cfg, s, d, order, Completes)
  {
    hide DryPass, Curator.Curate, Curator.Collected, Curator.Isolated, Staged, Interrupted, ScanBlobs, BlobTotal, Orphans;
  }

  // Each promise in the form the object uses it: if the store was in order, it still is, and this was done.

  lemma PutPromise(cfg: Config, s: State, realm: RealmId, manifest: Manifest, artifact: Bytes, f: PutFaults)
    requires Inv(cfg, s)
    ensures var (s', r) := Store.Put(cfg, s, realm, manifest, artifact, f);
            && Inv(cfg, s')
            && (r.Ok? ==> Stored(Meaning(s.logs), Meaning(s'.logs), Key(realm, Hex(r.value)), manifest, s.nextFirstSeen))
            && (r.Err? && f == NO_PUT_FAULTS ==> s' == s)
  {
    hide Inv, Meaning, Store.Put, Stored;
    PutKeeps(cfg, s, realm, manifest, artifact, f);
    var r := Store.Put(cfg, s, realm, manifest, artifact, f).1;
    if r.Ok? {
      PutEffect(cfg, s, realm, manifest, artifact, f);
    } else if f == NO_PUT_FAULTS {
      RefusedPutChangesNothing(cfg, s, realm, manifest, artifact);
    }
  }

  lemma GetPromise(cfg: Config, s: State, realm: RealmId, hash: HashText)
    requires Inv(cfg, s) && s.healthy
    ensures var (key, r) := (Key(realm, hash), Get(cfg, s, realm, hash));
            && r.Ok? && (r.value.Some? <==> key in Meaning(s.logs).entries)
            && (r.value.Some? ==>
                  r.value.value.0 == Meaning(s.logs).entries[key] && Hex(cfg.sha(r.value.value.1)) == hash)
  {
    hide Inv, Meaning, ReadBlob;
    HealthyContent(cfg, s);
    LiveKeysAreHex(cfg, s, Key(realm, hash));
    if Key(realm, hash) in s.content.entries {
      LiveIsReadable(cfg, s, Key(realm, hash));
    }
  }

  /** The proof of a row as a function of the durable catalog alone. */
  ghost function ProofOf(cfg: Config, c: Content, key: Key): Option<EntryProof> {
    if key !in c.entries then None
    else
      Some(EntryProof(key.realm, key.hash, cfg.contentAddress(c.entries[key].manifest), c.entries[key].firstSeen, cfg.pubkey))
  }

  lemma ProvePromise(cfg: Config, s: State, realm: RealmId, hash: HashText)
    requires Inv(cfg, s) && s.healthy
    ensures Prove(cfg, s, realm, hash) == Ok(ProofOf(cfg, Meaning(s.logs), Key(realm, hash)))
  {
    hide Inv, Meaning;
    HealthyContent(cfg, s);
    LiveKeysAreHex(cfg, s, Key(realm, hash));
  }

  lemma CompactPromise(cfg: Config, s: State, d: Curator.Decisions, order: seq<RealmHash>, fault: CompactFault)
    requires Inv(cfg, s)
    requires s.healthy ==> Enumerates(order, s.realms.Keys) && Curator.FiniteDecisions(s.content, d)
    ensures var (s', r) := Compact(cfg, s, d, order, fault);
            && Inv(cfg, s')
            && (r.Ok? ==> s'.healthy && Compacted(Meaning(s.logs), Meaning(s'.logs), s'.blobs, d))
  {
    hide Inv, Meaning, Compact, Curator.FiniteDecisions;
    CompactKeeps(cfg, s, d, order, fault);
    CompactOkIsClean(cfg, s, d, order, fault);
    if Compact(cfg, s, d, order, fault).1.Ok? {
      CompactRefusesUnhealthy(cfg, s, d, order);
      CompactPreservesMeaning(cfg, s, d, order);
    }
  }

  lemma CompactRefusesUnhealthy(cfg: Config, s: State, d: Curator.Decisions, order: seq<RealmHash>)
    ensures Compact(cfg, s, d, order, Completes).1.Ok? ==> s.healthy
  {
    hide DryPass, Staged, Interrupted, Sweep, Curator.Curate;
  }

  lemma RecoverPromise(cfg: Config, s: State)
    requires Inv(cfg, s)
    ensures var s' := Recover(cfg, s);
            && Inv(cfg, s') && s'.logs == s.logs
            && (s'.healthy <==> WithinCap(|s.logs|, cfg.maxEntries) && s.torn == {})
            && (s'.healthy ==> s'.content == Meaning(s.logs))
  {
    hide Inv, Meaning, Acceptable, LogsMax, LogTotal, BlobTotal, RealmNames, HeadsFor;
    RecoverKeeps(cfg, s);
    TornFiles(cfg, s);
    AcceptsIffFilesFit(cfg, s);
  }
}
