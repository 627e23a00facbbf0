/** Runs on a disk that never fails: recovery accepts every state they can leave. */
module FaultFree {
  import opened Basics
  import opened Records
  import opened Catalog
  import opened Chain
  import opened Store
  import opened Invariant
  import opened Operations
  import opened Compaction
  import opened CompactionProofs
  import opened Recovery
  import opened Runs
  import opened Guarantees
  import opened Faults
  import Curator

  lemma TidyMono(logs: Logs, blobs: map<nat, Bytes>, logs': Logs, blobs': map<nat, Bytes>)
    requires Tidy(logs, blobs)
    requires Evolves(Meaning(logs), Meaning(logs'))
    requires forall rh | rh in logs' :: logs'[rh] != []
    requires forall h | h in blobs' :: h in blobs || Kept(Meaning(logs'), h)
    ensures Tidy(logs', blobs')
  {
    hide Meaning;
    forall h | h in blobs' ensures Kept(Meaning(logs'), h) {
      if h in blobs {
        var k :| k in Retained(Meaning(logs)) && k.hash == Hex(h);
        assert k in Retained(Meaning(logs'));
      }
    }
  }

  lemma AppendFilesNonEmpty(cfg: Config, s: State, op: LogOp, fs: nat)
    requires forall rh | rh in s.logs :: s.logs[rh] != []
    ensures var s' := Append(cfg, s, op, fs, NoFault).0;
            s'.blobs == s.blobs && forall rh | rh in s'.logs :: s'.logs[rh] != []
  {
  }

  lemma CommitTidy(cfg: Config, s: State, op: LogOp, fs: nat)
    requires Tidy(s.logs, s.blobs) && Keeps(cfg, s, Commit(cfg, s, op, fs, NoFault).0)
    ensures var s' := Commit(cfg, s, op, fs, NoFault).0; Tidy(s'.logs, s'.blobs)
  {
    hide Inv, Meaning, Append;
    AppendFilesNonEmpty(cfg, s, op, fs);
    var s' := Commit(cfg, s, op, fs, NoFault).0;
    TidyMono(s.logs, s.blobs, s'.logs, s'.blobs);
  }

  lemma AttestTidy(cfg: Config, s: State, realm: RealmId, hash: HashText, x: ReputationScore)
    requires Inv(cfg, s) && Tidy(s.logs, s.blobs)
    ensures var s' := Store.Attest(cfg, s, realm, hash, x, NoFault).0; Tidy(s'.logs, s'.blobs)
  {
    hide Inv, Tidy, Keeps, Commit;
    AttestKeeps(cfg, s, realm, hash, x, NoFault);
    if s.healthy && hash.Hex? && AttestShapeOk(cfg, realm, x) && Key(realm, hash) in s.content.entries {
      CommitTidy(cfg, s, LogOp.Attest(realm, hash, x), s.content.entries[Key(realm, hash)].firstSeen);
    }
  }

  lemma QuarantineTidy(cfg: Config, s: State, realm: RealmId, hash: HashText, x: QuarantineNotice)
    requires Inv(cfg, s) && Tidy(s.logs, s.blobs)
    ensures var s' := Store.Quarantine(cfg, s, realm, hash, x, NoFault).0; Tidy(s'.logs, s'.blobs)
  {
    hide Inv, Tidy, Keeps, Commit, MergeNotice;
    QuarantineKeeps(cfg, s, realm, hash, x, NoFault);
    if s.healthy && hash.Hex? && MarkShapeOk(cfg, realm, x) && Key(realm, hash) in s.content.entries {
      var live := s.content.entries[Key(realm, hash)];
      var n := MergeNotice(x, live.quarantine);
      if n.Some? {
        CommitTidy(cfg, s, LogOp.Quarantine(realm, hash, n.value), live.firstSeen);
      }
    }
  }

  lemma UnquarantineTidy(cfg: Config, s: State, realm: RealmId, hash: HashText)
    requires Inv(cfg, s) && Tidy(s.logs, s.blobs)
    ensures var s' := Store.Unquarantine(cfg, s, realm, hash, NoFault).0; Tidy(s'.logs, s'.blobs)
  {
    hide Inv, Tidy, Keeps, Commit;
    UnquarantineKeeps(cfg, s, realm, hash, NoFault);
    if s.healthy && hash.Hex? && Key(realm, hash) in s.content.entries
       && s.content.entries[Key(realm, hash)].quarantine.Some? {
      CommitTidy(cfg, s, LogOp.Unquarantine(realm, hash), s.content.entries[Key(realm, hash)].firstSeen);
    }
  }

  lemma TombstoneTidy(cfg: Config, s: State, realm: RealmId, hash: HashText)
    requires Inv(cfg, s) && Tidy(s.logs, s.blobs)
    ensures var s' := Store.Tombstone(cfg, s, realm, hash, NoFault).0; Tidy(s'.logs, s'.blobs)
  {
    hide Inv, Tidy, Keeps, Commit, RetainedCount;
    TombstoneKeeps(cfg, s, realm, hash, NoFault);
    if Store.Tombstone(cfg, s, realm, hash, NoFault) == Commit(cfg, s, LogOp.Tombstone(realm, hash), 0, NoFault) {
      CommitTidy(cfg, s, LogOp.Tombstone(realm, hash), 0);
    }
  }

  /** Without faults the only blob a put adds is the artifact of a key it makes live. */
  lemma PutTidy(cfg: Config, s: State, realm: RealmId, manifest: Manifest, artifact: Bytes)
    requires Inv(cfg, s) && Tidy(s.logs, s.blobs)
    ensures var s' := Store.Put(cfg, s, realm, manifest, artifact, NO_PUT_FAULTS).0; Tidy(s'.logs, s'.blobs)
  {
    var (s', r) := Store.Put(cfg, s, realm, manifest, artifact, NO_PUT_FAULTS);
    if r.Err? {
      RefusedPutChangesNothing(cfg, s, realm, manifest, artifact);
    } else {
      PutOkDisk(cfg, s, realm, manifest, artifact);
      PutEffect(cfg, s, realm, manifest, artifact, NO_PUT_FAULTS);
      PutKeeps(cfg, s, realm, manifest, artifact, NO_PUT_FAULTS);
      assert Tidy(s'.logs, s'.blobs) by {
        hide Inv, Store.Put, Meaning;
        var key := Key(realm, Hex(cfg.sha(artifact)));
        assert key !in Meaning(s.logs).tombstones ==> key in Retained(Meaning(s'.logs));
        TidyMono(s.logs, s.blobs, s'.logs, s'.blobs);
      }
    }
  }

  lemma PutOkDisk(cfg: Config, s: State, realm: RealmId, manifest: Manifest, artifact: Bytes)
    requires Inv(cfg, s) && forall rh | rh in s.logs :: s.logs[rh] != []
    requires Store.Put(cfg, s, realm, manifest, artifact, NO_PUT_FAULTS).1.Ok?
    ensures var s' := Store.Put(cfg, s, realm, manifest, artifact, NO_PUT_FAULTS).0;
            && (forall h | h in s'.blobs :: h in s.blobs || h == cfg.sha(artifact))
            && (forall rh | rh in s'.logs :: s'.logs[rh] != [])
  {
    hide Inv, WriteBlob, Fits, RetainedCount, Apply, Append;
    var h := cfg.sha(artifact);
    var key := Key(realm, Hex(h));
    assert s.healthy;
    if key !in s.content.tombstones {
      WriteBlobKeeps(cfg, s, artifact, BlobLands);
      var (s1, r) := WriteBlob(cfg, s, h, artifact, BlobLands);
      AppendFilesNonEmpty(cfg, s1, LogOp.Put(realm, Hex(h), manifest), PutBirth(s1, key));
    }
  }

  lemma MergeSignalsTidy(cfg: Config, s: State, sync: SyncEntry, membership: bool)
    requires Inv(cfg, s) && Tidy(s.logs, s.blobs)
    ensures var s' := MergeSignals(cfg, s, sync, membership, NO_MERGE_FAULTS).0; Tidy(s'.logs, s'.blobs)
  {
    hide Inv, Tidy, Store.Attest, Store.Quarantine, Get;
    var s1 := MergeReputation(cfg, s, sync.realm, sync.hash, sync.reputation, NoFault).0;
    if sync.reputation.Some? {
      AttestTidy(cfg, s, sync.realm, sync.hash, sync.reputation.value);
      AttestKeeps(cfg, s, sync.realm, sync.hash, sync.reputation.value, NoFault);
    }
    assert Inv(cfg, s1) && Tidy(s1.logs, s1.blobs);
    if sync.quarantine.Some? {
      QuarantineTidy(cfg, s1, sync.realm, sync.hash, sync.quarantine.value);
    }
  }

  lemma MergePushTidy(cfg: Config, s: State, push: SignedSyncEntry)
    requires Inv(cfg, s) && Tidy(s.logs, s.blobs)
    ensures var s' := MergePush(cfg, s, push, NO_MERGE_FAULTS).0; Tidy(s'.logs, s'.blobs)
  {
    hide Inv, Tidy, Store.Put, Store.Tombstone, MergeSignals, Get;
    var op := push.record.op;
    if op.Tombstone? {
      TombstoneTidy(cfg, s, op.realm, op.hash);
    } else if op.Put? && push.sync.Some? {
      var sync := push.sync.value;
      PutTidy(cfg, s, sync.realm, sync.manifest, sync.artifact);
      PutKeeps(cfg, s, sync.realm, sync.manifest, sync.artifact, NO_PUT_FAULTS);
      var s1 := Store.Put(cfg, s, sync.realm, sync.manifest, sync.artifact, NO_PUT_FAULTS).0;
      MergeSignalsTidy(cfg, s1, sync, true);
      MergeSignalsTidy(cfg, s1, sync, false);
    }
  }

  lemma CompactTidy(cfg: Config, s: State, d: Curator.Decisions, order: seq<RealmHash>)
    requires Inv(cfg, s) && Tidy(s.logs, s.blobs) && CompactReady(s, d, order)
    ensures var s' := Compact(cfg, s, d, order, Completes).0; Tidy(s'.logs, s'.blobs)
  {
    hide Inv, Meaning, DryPass, Curator.Curate, Rewritten, Orphans, BlobTotal, Evolves, Curator.FiniteDecisions;
    if s.healthy && DryPass(cfg, Curator.Curate(s.content, d), s.realms, s.logs, s.journalBytes, order).Ok? {
      var s' := Compact(cfg, s, d, order, Completes).0;
      CompactValue(cfg, s, d, order, Completes);
      CompactKeeps(cfg, s, d, order, Completes);
      RealmsAfter(cfg, s, d, order);
      InvRealms(cfg, s);
      forall rh | rh in s'.logs ensures s'.logs[rh] != [] {
        RewrittenAt(cfg, Curator.Curate(s.content, d), s.realms, s.logs, order, rh);
      }
      TidyMono(s.logs, s.blobs, s'.logs, s'.blobs);
    }
  }

  lemma StepTidy(cfg: Config, s: State, cmd: Command)
    requires Inv(cfg, s) && Tidy(s.logs, s.blobs) && cmd == Clean(cmd)
    ensures var s' := Step(cfg, s, cmd); Tidy(s'.logs, s'.blobs)
  {
    hide Inv, Tidy, Store.Put, Store.Attest, Store.Quarantine, Store.Unquarantine, Store.Tombstone, MergePush, Compact,
         CompactReady, Acceptable;
    match cmd
    case DoPut(realm, manifest, artifact, _) => PutTidy(cfg, s, realm, manifest, artifact);
    case DoAttest(realm, hash, score, _) => AttestTidy(cfg, s, realm, hash, score);
    case DoQuarantine(realm, hash, notice, _) => QuarantineTidy(cfg, s, realm, hash, notice);
    case DoUnquarantine(realm, hash, _) => UnquarantineTidy(cfg, s, realm, hash);
    case DoTombstone(realm, hash, _) => TombstoneTidy(cfg, s, realm, hash);
    case DoMergePush(push, _) => MergePushTidy(cfg, s, push);
    case DoCompact(d, order, _) =>
      if CompactReady(s, d, order) {
        CompactTidy(cfg, s, d, order);
      }
    case DoRecover =>
    case DoReopen =>
  }

  lemma {:induction false} RunTidy(cfg: Config, cmds: seq<Command>)
    requires forall i | 0 <= i < |cmds| :: cmds[i] == Clean(cmds[i])
    ensures var s := Run(cfg, cmds); Tidy(s.logs, s.blobs)
  {
    hide Inv, Step, Clean, Meaning;
    if cmds != [] {
      var front := cmds[..|cmds| - 1];
      RunTidy(cfg, front);
      RunInv(cfg, front);
      StepTidy(cfg, Run(cfg, front), cmds[|cmds| - 1]);
    }
  }

  // ---- no file is torn ----

  lemma CommitWhole(cfg: Config, s: State, op: LogOp, fs: nat)
    ensures Commit(cfg, s, op, fs, NoFault).0.torn == s.torn
  {
  }

  lemma PutWhole(cfg: Config, s: State, realm: RealmId, manifest: Manifest, artifact: Bytes)
    ensures Store.Put(cfg, s, realm, manifest, artifact, NO_PUT_FAULTS).0.torn == s.torn
  {
    hide Fits, RetainedCount, WriteBlob, PutLogged;
    var h := cfg.sha(artifact);
    BlobWhole(cfg, s, h, artifact);
    var (s1, r) := WriteBlob(cfg, s, h, artifact, BlobLands);
    if r.Ok? {
      LoggedWhole(cfg, s1, Key(realm, Hex(h)), manifest, r.value);
    }
  }

  lemma BlobWhole(cfg: Config, s: State, h: nat, artifact: Bytes)
    ensures WriteBlob(cfg, s, h, artifact, BlobLands).0.torn == s.torn
  {
    hide References, ScanBlobs, ReadBlob;
  }

  lemma LoggedWhole(cfg: Config, s: State, key: Key, manifest: Manifest, created: bool)
    requires key.hash.Hex?
    ensures PutLogged(cfg, s, key, manifest, created, NO_PUT_FAULTS).0.torn == s.torn
  {
    hide Fits, Apply;
  }

  lemma SignalsWhole(cfg: Config, s: State, sync: SyncEntry, membership: bool)
    ensures MergeSignals(cfg, s, sync, membership, NO_MERGE_FAULTS).0.torn == s.torn
  {
    hide Commit, MergeNotice, ReadBlob;
    forall s1: State, op, fs
      ensures Commit(cfg, s1, op, fs, NoFault).0.torn == s1.torn
    {
      CommitWhole(cfg, s1, op, fs);
    }
  }

  lemma CompactWhole(cfg: Config, s: State, d: Curator.Decisions, order: seq<RealmHash>)
    ensures Compact(cfg, s, d, order, Completes).0.torn == s.torn
  {
    hide DryPass, Curator.Curate, Curator.Collected, Curator.Isolated, Rewritten, NewHeads, PlannedTotal, Sweep;
    SweepFrame(cfg, Staged(cfg, s, Curator.Curate(s.content, d), order), Completes);
  }

  lemma StepWhole(cfg: Config, s: State, cmd: Command)
    requires cmd == Clean(cmd)
    ensures Step(cfg, s, cmd).torn == s.torn
  {
    hide Commit, Store.Put, MergeSignals, Compact, MergeNotice, RetainedCount, Acceptable, CompactReady;
    forall op, fs
      ensures Commit(cfg, s, op, fs, NoFault).0.torn == s.torn
    {
      CommitWhole(cfg, s, op, fs);
    }
    match cmd {
      case DoPut(realm, manifest, artifact, _) => PutWhole(cfg, s, realm, manifest, artifact);
      case DoMergePush(push, _) =>
        if push.sync.Some? {
          var sync := push.sync.value;
          PutWhole(cfg, s, sync.realm, sync.manifest, sync.artifact);
          var s1 := Store.Put(cfg, s, sync.realm, sync.manifest, sync.artifact, NO_PUT_FAULTS).0;
          SignalsWhole(cfg, s1, sync, true);
          SignalsWhole(cfg, s1, sync, false);
        }
      case DoCompact(d, order, _) => CompactWhole(cfg, s, d, order);
      case _ =>
    }
  }

  lemma {:induction false} RunWhole(cfg: Config, cmds: seq<Command>)
    requires forall i | 0 <= i < |cmds| :: cmds[i] == Clean(cmds[i])
    ensures Run(cfg, cmds).torn == {}
  {
    if cmds != [] {
      hide Step, Clean;
      RunWhole(cfg, cmds[..|cmds| - 1]);
      StepWhole(cfg, Run(cfg, cmds[..|cmds| - 1]), cmds[|cmds| - 1]);
    }
  }

  /**
   * Recovery completeness: on a disk that never fails, recovery with the same key and caps accepts
   * every state a run can leave; neither Realm files nor blobs outnumber the retained keys.
   */
  lemma FaultFreeRunsRecover(cfg: Config, cmds: seq<Command>)
    requires forall i | 0 <= i < |cmds| :: cmds[i] == Clean(cmds[i])
    ensures var s := Run(cfg, cmds);
            && Recover(cfg, s).healthy
            && |s.logs| <= |Retained(Meaning(s.logs))|
            && |s.blobs| <= |Retained(Meaning(s.logs))|
  {
    hide Inv, Run, Meaning, Tidy, Acceptable, Clean;
    RunInv(cfg, cmds);
    RunTidy(cfg, cmds);
    TidyCounts(cfg, Run(cfg, cmds));
    TidyAccepted(cfg, Run(cfg, cmds));
    RunWhole(cfg, cmds);
  }
}
