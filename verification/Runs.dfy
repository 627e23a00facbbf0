/** Whole runs of the store: any commands, in any order, under any faults, with restarts in between. */
module Runs {
  import opened Basics
  import opened Records
  import opened Catalog
  import opened Chain
  import opened Store
  import opened Invariant
  import opened Operations
  import opened Compaction
  import opened CompactionProofs
  import opened Recovery
  import Curator

  datatype Command =
    | DoPut(realm: RealmId, manifest: Manifest, artifact: Bytes, putFaults: PutFaults)
    | DoAttest(realm: RealmId, hash: HashText, score: ReputationScore, fault: AppendFault)
    | DoQuarantine(realm: RealmId, hash: HashText, notice: QuarantineNotice, fault: AppendFault)
    | DoUnquarantine(realm: RealmId, hash: HashText, fault: AppendFault)
    | DoTombstone(realm: RealmId, hash: HashText, fault: AppendFault)
    | DoMergePush(push: SignedSyncEntry, mergeFaults: MergeFaults)
    | DoCompact(decisions: Curator.Decisions, order: seq<RealmHash>, compactFault: CompactFault)
    | DoRecover
    | DoReopen

  /** A compaction takes a listing of the Realm table, and its curator hands out finite scores. */
  ghost predicate CompactReady(s: State, d: Curator.Decisions, order: seq<RealmHash>) {
    Enumerates(order, s.realms.Keys) && Curator.FiniteDecisions(s.content, d)
  }

  ghost function Step(cfg: Config, s: State, cmd: Command): State {
    match cmd
    case DoPut(realm, manifest, artifact, f) => Store.Put(cfg, s, realm, manifest, artifact, f).0
    case DoAttest(realm, hash, score, fault) => Store.Attest(cfg, s, realm, hash, score, fault).0
    case DoQuarantine(realm, hash, notice, fault) => Store.Quarantine(cfg, s, realm, hash, notice, fault).0
    case DoUnquarantine(realm, hash, fault) => Store.Unquarantine(cfg, s, realm, hash, fault).0
    case DoTombstone(realm, hash, fault) => Store.Tombstone(cfg, s, realm, hash, fault).0
    case DoMergePush(push, f) => MergePush(cfg, s, push, f).0
    case DoCompact(d, order, fault) => if CompactReady(s, d, order) then Compact(cfg, s, d, order, fault).0 else s
    case DoRecover => Recover(cfg, s)
    case DoReopen => Reopen(s)
  }

  const EMPTY := State(NOTHING, map[], map[], 0, 0, 0, 0, true, map[], map[], {})

  ghost function Run(cfg: Config, cmds: seq<Command>): State {
    if cmds == [] then EMPTY
    else Step(cfg, Run(cfg, cmds[..|cmds| - 1]), cmds[|cmds| - 1])
  }

  /** What the directory means after the first `n` commands. */
  ghost function MeaningAfter(cfg: Config, cmds: seq<Command>, n: nat): Content
    requires n <= |cmds|
  {
    Meaning(Run(cfg, cmds[..n]).logs)
  }

  // ---- the invariant of every run ----

  lemma EmptyInv(cfg: Config)
    ensures Inv(cfg, EMPTY)
  {
    assert AllKeys(EMPTY.logs) == {};
    assert Meaning(EMPTY.logs) == NOTHING;
    assert LogSizes(cfg, EMPTY.logs) == map[];
    assert BlobSizes(EMPTY.blobs) == map[];
  }

  lemma StepKeeps(cfg: Config, s: State, cmd: Command)
    requires Inv(cfg, s)
    ensures Keeps(cfg, s, Step(cfg, s, cmd))
  {
    hide Inv, Meaning, Keeps, Store.Put, Store.Attest, Store.Quarantine, Store.Unquarantine, Store.Tombstone, MergePush,
         Compact, Recover, Reopen;
    match cmd
    case DoPut(realm, manifest, artifact, f) => PutKeeps(cfg, s, realm, manifest, artifact, f);
    case DoAttest(realm, hash, score, fault) => AttestKeeps(cfg, s, realm, hash, score, fault);
    case DoQuarantine(realm, hash, notice, fault) => QuarantineKeeps(cfg, s, realm, hash, notice, fault);
    case DoUnquarantine(realm, hash, fault) => UnquarantineKeeps(cfg, s, realm, hash, fault);
    case DoTombstone(realm, hash, fault) => TombstoneKeeps(cfg, s, realm, hash, fault);
    case DoMergePush(push, f) => MergePushKeeps(cfg, s, push, f);
    case DoCompact(d, order, fault) =>
      KeepsSame(cfg, s);
      if CompactReady(s, d, order) {
        CompactKeeps(cfg, s, d, order, fault);
      }
    case DoRecover => RecoverKeeps(cfg, s);
    case DoReopen => ReopenKeeps(cfg, s);
  }

  lemma {:induction false} RunInv(cfg: Config, cmds: seq<Command>)
    ensures Inv(cfg, Run(cfg, cmds))
  {
    hide Inv, Step, Meaning;
    if cmds == [] {
      EmptyInv(cfg);
    } else {
      var front := cmds[..|cmds| - 1];
      RunInv(cfg, front);
      StepKeeps(cfg, Run(cfg, front), cmds[|cmds| - 1]);
    }
  }

  lemma {:induction false} RunEvolves(cfg: Config, cmds: seq<Command>, n: nat)
    requires n <= |cmds|
    ensures Evolves(MeaningAfter(cfg, cmds, n), Meaning(Run(cfg, cmds).logs))
    decreases |cmds|
  {
    hide Inv, Step, Meaning;
    if n == |cmds| {
      assert cmds[..n] == cmds;
    } else {
      var front := cmds[..|cmds| - 1];
      RunEvolves(cfg, front, n);
      assert front[..n] == cmds[..n];
      RunInv(cfg, front);
      StepKeeps(cfg, Run(cfg, front), cmds[|cmds| - 1]);
      MeaningDisjoint(Run(cfg, cmds).logs);
      EvolvesTrans(MeaningAfter(cfg, cmds, n), Meaning(Run(cfg, front).logs), Meaning(Run(cfg, cmds).logs));
    }
  }

  // ---- theorems about whole runs ----

  /**
   * Tombstones are permanent: once a key is durably tombstoned, no later command, pushed put,
   * compaction, crash, restart or replay makes it live again.
   */
  lemma TombstonesArePermanent(cfg: Config, cmds: seq<Command>, n: nat, k: Key)
    requires n <= |cmds| && k in MeaningAfter(cfg, cmds, n).tombstones
    ensures var s := Run(cfg, cmds);
            && k in Meaning(s.logs).tombstones && k !in Meaning(s.logs).entries
            && (s.healthy ==> k in s.content.tombstones && k !in s.content.entries)
  {
    hide Meaning, Run, DiskInv;
    RunEvolves(cfg, cmds, n);
    RunInv(cfg, cmds);
    MeaningDisjoint(Run(cfg, cmds).logs);
  }

  /**
   * Birth orders: an entry that is live at two points of a run has the same birth order at both;
   * live birth orders are pairwise distinct; and a healthy store's next one exceeds them all.
   */
  lemma BirthOrdersAreStable(cfg: Config, cmds: seq<Command>, n: nat, k: Key)
    requires n <= |cmds|
    requires k in MeaningAfter(cfg, cmds, n).entries && k in Meaning(Run(cfg, cmds).logs).entries
    ensures MeaningAfter(cfg, cmds, n).entries[k].firstSeen == Meaning(Run(cfg, cmds).logs).entries[k].firstSeen
    ensures DistinctBirths(Meaning(Run(cfg, cmds).logs))
    ensures Run(cfg, cmds).healthy ==> BirthsBelow(Run(cfg, cmds).content, Run(cfg, cmds).nextFirstSeen)
  {
    hide Meaning, Run;
    RunEvolves(cfg, cmds, n);
    RunInv(cfg, cmds);
  }

  /** An entry's proof is the same at any two healthy points of a run between which its manifest is the same. */
  lemma ProofsAreStable(cfg: Config, cmds: seq<Command>, n: nat, realm: RealmId, hash: HashText)
    requires n <= |cmds|
    requires var a, b, k := Run(cfg, cmds[..n]), Run(cfg, cmds), Key(realm, hash);
             && a.healthy && b.healthy && k in a.content.entries && k in b.content.entries
             && a.content.entries[k].manifest == b.content.entries[k].manifest
    ensures Prove(cfg, Run(cfg, cmds[..n]), realm, hash) == Prove(cfg, Run(cfg, cmds), realm, hash)
  {
    hide Meaning, Run, DiskInv;
    RunInv(cfg, cmds[..n]);
    RunInv(cfg, cmds);
    BirthOrdersAreStable(cfg, cmds, n, Key(realm, hash));
  }

  /** A proof taken before a compaction is the proof taken after it, for every entry that was not collected. */
  lemma ProofSurvivesCompaction(
    cfg: Config, s: State, d: Curator.Decisions, order: seq<RealmHash>, realm: RealmId, hash: HashText)
    requires Inv(cfg, s) && s.healthy && CompactReady(s, d, order)
    requires Compact(cfg, s, d, order, Completes).1.Ok?
    requires Curator.DecisionFor(d, Key(realm, hash)) != Curator.Gc
    ensures Prove(cfg, Compact(cfg, s, d, order, Completes).0, realm, hash) == Prove(cfg, s, realm, hash)
  {
    hide Meaning, Compact, DiskInv, Curator.FiniteDecisions;
    CompactPreservesMeaning(cfg, s, d, order);
  }

  /**
   * Exact accounting and caps: at every point of every run the disk is within all caps, every live
   * row of every Realm has its artifact on disk, and while the store is healthy its three running
   * totals are exactly the sums over the disk.
   */
  lemma RunAccounting(cfg: Config, cmds: seq<Command>)
    ensures var s := Run(cfg, cmds);
            && CapsOk(cfg, s.logs, s.blobs)
            && BlobsOk(cfg, Meaning(s.logs), s.blobs)
            && (s.healthy ==>
                  && s.journalBytes == LogTotal(cfg, s.logs)
                  && s.blobBytes == BlobTotal(s.blobs)
                  && s.blobCount == |s.blobs|
                  && WithinCap(RetainedCount(s.content), cfg.maxEntries))
  {
    hide Meaning, Run, LogTotal, BlobTotal, BlobsOk, DistinctBirths, Histories, LogsOk, HeadsOk, RealmsOk;
    RunInv(cfg, cmds);
    var s := Run(cfg, cmds);
    MeaningDisjoint(s.logs);
    if s.healthy {
      RetainedSize(s.content);
    }
  }

  /** Replay refines memory, at every healthy point of every run. */
  lemma RunReplay(cfg: Config, cmds: seq<Command>)
    requires Run(cfg, cmds).healthy
    ensures var s := Run(cfg, cmds);
            && SameMemory(Recovered(cfg, s), s)
            && (forall order | Enumerates(order, s.logs.Keys) :: ReplayAll(s.logs, order) == s.content)
  {
    hide Inv, Run, Recovered, SameMemory, Meaning, ReplayAll;
    RunInv(cfg, cmds);
    ReplayRefinesMemory(cfg, Run(cfg, cmds));
  }

  /** After any run, under any faults, recovery accepts exactly when no file is torn and they are within the key cap. */
  lemma RunRecoverable(cfg: Config, cmds: seq<Command>)
    ensures var s := Run(cfg, cmds);
            && (Recover(cfg, s).healthy <==> WithinCap(|s.logs|, cfg.maxEntries) && s.torn == {})
            && Meaning(Recover(cfg, s).logs) == Meaning(s.logs)
  {
    hide Inv, Run, Meaning, Acceptable;
    RunInv(cfg, cmds);
    TornFiles(cfg, Run(cfg, cmds));
    AcceptsIffFilesFit(cfg, Run(cfg, cmds));
  }

  // ---- the health latch ----

  /** Commands that only look at or change the catalog. */
  predicate CatalogCommand(cmd: Command) {
    !cmd.DoRecover? && !cmd.DoReopen?
  }

  /** An unhealthy store serves and changes nothing: every catalog command leaves it exactly as it is. */
  lemma UnhealthyIsInert(cfg: Config, s: State, cmd: Command)
    requires !s.healthy && CatalogCommand(cmd)
    ensures Step(cfg, s, cmd) == s
  {
  }

  lemma {:induction false} LatchHolds(cfg: Config, cmds: seq<Command>, n: nat)
    requires n <= |cmds| && !Run(cfg, cmds[..n]).healthy
    requires forall i | n <= i < |cmds| :: CatalogCommand(cmds[i])
    ensures Run(cfg, cmds) == Run(cfg, cmds[..n])
    decreases |cmds|
  {
    hide Step;
    if n == |cmds| {
      assert cmds[..n] == cmds;
    } else {
      var front := cmds[..|cmds| - 1];
      assert front[..n] == cmds[..n];
      LatchHolds(cfg, front, n);
      UnhealthyIsInert(cfg, Run(cfg, front), cmds[|cmds| - 1]);
    }
  }

  /** The replies of an unhealthy store: `Unhealthy`, or a refusal decided by the arguments alone. */
  lemma UnhealthyReplies(cfg: Config, s: State, realm: RealmId, hash: HashText)
    requires !s.healthy && hash.Hex?
    ensures Get(cfg, s, realm, hash) == Err(Unhealthy)
    ensures Prove(cfg, s, realm, hash) == Err(Unhealthy)
    ensures forall m, a, f :: Store.Put(cfg, s, realm, m, a, f).1 in {Err(Limit), Err(Invalid), Err(Unhealthy)}
    ensures forall m, a, f | WithinCap(|a|, cfg.maxArtifactBytes) && cfg.validManifest(m) ::
              Store.Put(cfg, s, realm, m, a, f).1 == Err(Unhealthy)
    ensures forall x, f | AttestShapeOk(cfg, realm, x) :: Store.Attest(cfg, s, realm, hash, x, f).1 == Err(Unhealthy)
    ensures forall x, f | MarkShapeOk(cfg, realm, x) :: Store.Quarantine(cfg, s, realm, hash, x, f).1 == Err(Unhealthy)
    ensures forall f :: Store.Unquarantine(cfg, s, realm, hash, f).1 == Err(Unhealthy)
    ensures forall f :: Store.Tombstone(cfg, s, realm, hash, f).1 == Err(Unhealthy)
    ensures forall p, f :: MergePush(cfg, s, p, f).1 == Err(Unhealthy)
    ensures forall d, o, f :: Compact(cfg, s, d, o, f).1 == Err(Unhealthy)
  {
  }
}
