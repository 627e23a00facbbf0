/** Promises the store keeps only under a condition: a witness that breaks each, and the exact condition. */
module Findings {
  import opened Basics
  import opened Records
  import opened Catalog
  import opened Chain
  import opened Store
  import opened Invariant
  import opened Operations
  import opened Compaction
  import opened CompactionProofs
  import opened Recovery
  import opened Runs
  import opened Faults
  import opened Signals
  import Curator

  // ---- a curator's non-finite score ----

  lemma SameFiles(cfg: Config, s: State, d: Curator.Decisions, order: seq<RealmHash>)
    requires Inv(cfg, s) && s.healthy && Enumerates(order, s.realms.Keys)
    ensures Rewritten(cfg, Curator.Curate(s.content, d), s.realms, s.logs, order).Keys == s.logs.Keys
  {
    hide Inv, Meaning, Rewritten, Curator.Curate;
    InvRealms(cfg, s);
    forall rh ensures rh in Rewritten(cfg, Curator.Curate(s.content, d), s.realms, s.logs, order).Keys <==> rh in s.logs.Keys {
      RewrittenAt(cfg, Curator.Curate(s.content, d), s.realms, s.logs, order, rh);
    }
  }

  lemma NonFiniteChainRefused(cfg: Config, s: State, d: Curator.Decisions, order: seq<RealmHash>, k: Key)
    requires Rehearsed(cfg, s, d, order)
    requires k in s.content.entries && !Curator.FiniteDecision(Curator.DecisionFor(d, k))
    ensures !LogsOk(cfg, Rewritten(cfg, Curator.Curate(s.content, d), s.realms, s.logs, order))
  {
    var c := Curator.Curate(s.content, d);
    var rh := RealmSha(k.realm);
    var logs' := Rewritten(cfg, c, s.realms, s.logs, order);
    assert k in c.entries && c.entries[k].reputation.Some? && !c.entries[k].reputation.value.score.Finite?;
    hide Inv, Meaning, Rewritten, DryPass, Curator.Curate, RealmOps, ChainOk, LinesFit, KeysHex, Descends, FiniteScores;
    CandidateFacts(cfg, s, d);
    RealmTabled(cfg, s, k);
    InvRealms(cfg, s);
    RewrittenAt(cfg, c, s.realms, s.logs, order, rh);
    PrefixFits(cfg, s, d, order, rh);
    NewChainOk(cfg, c, k.realm);
    assert !ChainOk(cfg, rh, logs'[rh]);
  }

  /**
   * A completed compaction leaves a directory that recovery accepts if and only if every score the
   * curator handed out for a live entry is finite (and the Realm files were within the key cap).
   */
  lemma CompactedLogRecoversIff(cfg: Config, s: State, d: Curator.Decisions, order: seq<RealmHash>)
    requires Inv(cfg, s) && s.healthy && Enumerates(order, s.realms.Keys)
    requires Compact(cfg, s, d, order, Completes).1.Ok?
    ensures Recover(cfg, Compact(cfg, s, d, order, Completes).0).healthy <==>
              Curator.FiniteDecisions(s.content, d) && WithinCap(|s.logs|, cfg.maxEntries)
  {
    hide Meaning, Inv, DryPass, Curator.Curate, Curator.FiniteDecisions, Finished, Orphans, Acceptable, Compact;
    RehearsedIs(cfg, s, d, order);
    CompactValue(cfg, s, d, order, Completes);
    var s' := Finished(cfg, s, Curator.Curate(s.content, d), order, Orphans(Curator.Curate(s.content, d), s.blobs));
    FinishedFiles(cfg, s, d, order);
    TornFiles(cfg, s);
    if Curator.FiniteDecisions(s.content, d) {
      FinishedInv(cfg, s, d, order, Orphans(Curator.Curate(s.content, d), s.blobs));
      AcceptsIffFilesFit(cfg, s');
    } else {
      NonFiniteRefused(cfg, s, d, order);
    }
  }

  lemma RehearsedIs(cfg: Config, s: State, d: Curator.Decisions, order: seq<RealmHash>)
    requires Inv(cfg, s) && s.healthy && Enumerates(order, s.realms.Keys)
    requires Compact(cfg, s, d, order, Completes).1.Ok?
    ensures Rehearsed(cfg, s, d, order)
  {
    hide Inv, DryPass, Curator.Curate;
  }

  /** A completed rewrite has the files it had, none of them torn. */
  lemma FinishedFiles(cfg: Config, s: State, d: Curator.Decisions, order: seq<RealmHash>)
    requires Inv(cfg, s) && s.healthy && Enumerates(order, s.realms.Keys)
    ensures var c := Curator.Curate(s.content, d);
            var s' := Finished(cfg, s, c, order, Orphans(c, s.blobs));
            |s'.logs| == |s.logs| && s'.torn == s.torn
  {
    hide Inv, Meaning, Curator.Curate, Rewritten, Orphans, BlobTotal, LogTotal, NewHeads;
    var c := Curator.Curate(s.content, d);
    SameFiles(cfg, s, d, order);
    assert Finished(cfg, s, c, order, Orphans(c, s.blobs)).logs.Keys == s.logs.Keys;
  }

  lemma NonFiniteRefused(cfg: Config, s: State, d: Curator.Decisions, order: seq<RealmHash>)
    requires Rehearsed(cfg, s, d, order) && !Curator.FiniteDecisions(s.content, d)
    ensures var c := Curator.Curate(s.content, d);
            var s' := Finished(cfg, s, c, order, Orphans(c, s.blobs));
            !Acceptable(cfg, s'.logs, s'.blobs)
  {
    hide Inv, Meaning, DryPass, Curator.Curate, Rewritten, Orphans, BlobTotal, LogTotal, LogsOk, NewHeads, ScanBlobs;
    var k :| k in s.content.entries && !Curator.FiniteDecision(Curator.DecisionFor(d, k));
    NonFiniteChainRefused(cfg, s, d, order, k);
  }

  /** A small unbounded store in which every artifact hashes to seven. */
  const SMALL := Config(
    "key", 0, 0, 0, 0, (bytes: Bytes) => 7, (op: LogOp, fs: nat) => 10, (m: Manifest) => true, (r: RealmId) => true,
    (x: ReputationScore, r: RealmId, h: HashText) => false, (m: Manifest) => m)

  const A := RealmId("a")
  const B := RealmId("b")
  const PUT_A := DoPut(A, "m", [], NO_PUT_FAULTS)
  const KEY_A := Key(A, Hex(7))

  lemma RunLast(cfg: Config, cmds: seq<Command>, cmd: Command)
    ensures Run(cfg, cmds + [cmd]) == Step(cfg, Run(cfg, cmds), cmd)
  {
    hide Step;
    assert (cmds + [cmd])[..|cmds|] == cmds;
  }

  lemma FirstPut()
    ensures var s := Step(SMALL, EMPTY, PUT_A);
            && s.healthy && s.content == Content(map[KEY_A := Live("m", None, None, 0)], {})
            && s.realms == map[RealmSha(A) := A]
            && s.journalBytes == 26
  {
  }

  lemma OneRowOps(c: Content, live: Live)
    requires c == Content(map[KEY_A := live], {})
    ensures RealmOps(c, A) == LiveOps(KEY_A, live)
  {
    assert LiveHashes(c, A) == {7};
    assert Least({7}) == 7;
    assert Ascending({7}) == [7] + Ascending({7} - {7});
    assert TombHashes(c, A) == {};
    assert OpsForLive(c, A, [7][..0]) == [];
    assert OpsForLive(c, A, [7]) == LiveOps(KEY_A, live);
    assert OpsForTombs(A, []) == [];
  }

  const NAN_SCORE := ReputationScore(NaN, None, None, None)

  lemma TwoRecordChain(ops: seq<Stamped>)
    requires |ops| == 2
    ensures LinesFit(SMALL, ChainFor(SMALL, ops)) && LogBytes(SMALL, ChainFor(SMALL, ops)) == 101
    ensures |ChainFor(SMALL, ops)| == 2
  {
    ChainForBytes(SMALL, ops);
    assert OpsBytes(SMALL, ops[..1]) == OpsBytes(SMALL, ops[..1][..0]) + 10;
    assert Overhead(1) == 16 && Overhead(2) == 81;
    forall i | 0 <= i < 2 ensures LineBytes(SMALL, ChainFor(SMALL, ops)[i]) <= MAX_RECORD_BYTES {
      ChainForRecord(SMALL, ops, i);
    }
  }

  const PROMOTE_TO_NAN: Curator.Decisions := map[KEY_A := Curator.Promote(NaN)]

  const NAN_ROW := Live("m", Some(NAN_SCORE), None, 0)

  lemma NanCandidate(c: Content)
    requires c == Content(map[KEY_A := Live("m", None, None, 0)], {})
    ensures Curator.Curate(c, PROMOTE_TO_NAN) == Content(map[KEY_A := NAN_ROW], {})
    ensures !Curator.FiniteDecisions(c, PROMOTE_TO_NAN)
  {
    var c' := Curator.Curate(c, PROMOTE_TO_NAN);
    assert Curator.DecisionFor(PROMOTE_TO_NAN, KEY_A) == Curator.Promote(NaN);
    assert c'.entries == map[KEY_A := NAN_ROW];
    assert Curator.Collected(c, PROMOTE_TO_NAN) == {};
    assert KEY_A in c.entries && !Curator.FiniteDecision(Curator.DecisionFor(PROMOTE_TO_NAN, KEY_A));
  }

  lemma NanDryPass(c: Content, logs: Logs, total: nat)
    requires c == Content(map[KEY_A := NAN_ROW], {})
    requires total == 26 && LogBytes(SMALL, LogAt(logs, RealmSha(A))) <= total
    ensures DryPass(SMALL, c, map[RealmSha(A) := A], logs, total, [RealmSha(A)]).Ok?
  {
    hide RealmOps, LinesFit, LogBytes, ChainFor, DryPass;
    DryPassOne(SMALL, c, map[RealmSha(A) := A], logs, total, RealmSha(A));
    OneRowOps(c, NAN_ROW);
    assert |LiveOps(KEY_A, NAN_ROW)| == 2;
    TwoRecordChain(RealmOps(c, A));
  }

  lemma NanCompaction(s: State)
    requires Inv(SMALL, s) && s.healthy && s.journalBytes == 26
    requires s.content == Content(map[KEY_A := Live("m", None, None, 0)], {}) && s.realms == map[RealmSha(A) := A]
    ensures Rehearsed(SMALL, s, PROMOTE_TO_NAN, [RealmSha(A)])
    ensures !Curator.FiniteDecisions(s.content, PROMOTE_TO_NAN)
  {
    hide Inv, Curator.Curate, DryPass, Curator.FiniteDecisions, LogBytes;
    NanCandidate(s.content);
    PriorBytes(SMALL, s, RealmSha(A));
    NanDryPass(Curator.Curate(s.content, PROMOTE_TO_NAN), s.logs, s.journalBytes);
  }

  lemma DryPassOne(cfg: Config, c: Content, realms: map<RealmHash, RealmId>, logs: Logs, total: nat, rh: RealmHash)
    ensures DryPass(cfg, c, realms, logs, total, [rh])
              == RewriteTotal(cfg, LogAt(logs, rh), NewLog(cfg, c, realms, rh), total)
  {
    hide RewriteTotal, NewLog;
    assert [rh][..0] == [];
  }

  lemma PriorBytes(cfg: Config, s: State, rh: RealmHash)
    requires Inv(cfg, s) && s.healthy
    ensures LogBytes(cfg, LogAt(s.logs, rh)) <= s.journalBytes
  {
    LogTotalAtLeast(cfg, s.logs, rh);
  }

  lemma NanLoses(s: State)
    requires Inv(SMALL, s) && s.healthy && s.journalBytes == 26
    requires s.content == Content(map[KEY_A := Live("m", None, None, 0)], {}) && s.realms == map[RealmSha(A) := A]
    ensures var (s', r) := Compact(SMALL, s, PROMOTE_TO_NAN, [RealmSha(A)], Completes);
            r.Ok? && !Recover(SMALL, s').healthy
  {
    hide Inv, Compact, Recover, DryPass, Curator.FiniteDecisions, Curator.Curate, Finished, Orphans;
    NanCompaction(s);
    CompactValue(SMALL, s, PROMOTE_TO_NAN, [RealmSha(A)], Completes);
    CompactedLogRecoversIff(SMALL, s, PROMOTE_TO_NAN, [RealmSha(A)]);
  }

  /** The witness: one entry, promoted to NaN. The compaction succeeds, and nothing can recover it. */
  lemma NanPromotionLosesTheLog()
    ensures var s := Run(SMALL, [PUT_A]);
            var (s', r) := Compact(SMALL, s, PROMOTE_TO_NAN, [RealmSha(A)], Completes);
            r.Ok? && !Recover(SMALL, s').healthy
  {
    hide Run, Step, Inv, Compact, Recover;
    assert [] + [PUT_A] == [PUT_A];
    RunLast(SMALL, [], PUT_A);
    RunNothing(SMALL);
    FirstPut();
    RunInv(SMALL, [PUT_A]);
    NanLoses(Run(SMALL, [PUT_A]));
  }

  lemma RunNothing(cfg: Config)
    ensures Run(cfg, []) == EMPTY
  {
  }

  // ---- an empty Realm file ----

  const ONE_KEY := SMALL.(maxEntries := 1)
  const LOST_PUT := DoPut(A, "m", [], PutFaults(BlobLands, Uncertain(false), false))
  const PUT_B := DoPut(B, "m", [], NO_PUT_FAULTS)

  lemma LostPutLeavesAnEmptyFile()
    ensures var s := Step(ONE_KEY, EMPTY, LOST_PUT);
            !s.healthy && s.logs == map[RealmSha(A) := []] && s.blobs == map[7 := []] && s.torn == {}
  {
    hide WriteBlob;
    WriteBlobPlain(ONE_KEY, EMPTY, [], BlobLands);
  }

  lemma EmptyFileMeaning(cfg: Config, logs: Logs)
    requires logs == map[RealmSha(A) := []]
    ensures Meaning(logs) == NOTHING && LogTotal(cfg, logs) == 0 && LogsMax(logs) == 0
  {
    var none: Logs := map[];
    MeaningAddRealm(none, RealmSha(A), []);
    assert AllKeys(none) == {};
    assert BirthMaxima(logs) == map[RealmSha(A) := 0];
    MaxOfRemove(BirthMaxima(logs), RealmSha(A));
    assert BirthMaxima(logs) - {RealmSha(A)} == map[];
    assert LogSizes(cfg, logs) == map[RealmSha(A) := 0];
    TotalRemove(LogSizes(cfg, logs), RealmSha(A));
    assert LogSizes(cfg, logs) - {RealmSha(A)} == map[];
  }

  lemma RecoverEmptyFile(s: State)
    requires Inv(ONE_KEY, s) && s.logs == map[RealmSha(A) := []] && s.blobs == map[7 := []] && s.torn == {}
    ensures AfterRecovery(Step(ONE_KEY, s, DoRecover))
  {
    hide Inv, Acceptable, Meaning, LogTotal, LogsMax;
    AcceptsIffFilesFit(ONE_KEY, s);
    EmptyFileMeaning(ONE_KEY, s.logs);
    assert |s.logs| == 1;
  }

  ghost predicate AfterRecovery(s: State) {
    && s.healthy && s.content == NOTHING
    && s.logs == map[RealmSha(A) := []] && s.blobs == map[7 := []]
    && s.nextFirstSeen == 1 && s.journalBytes == 0
    && s.heads == map[RealmSha(A) := Head(0, Genesis)]
  }

  lemma PutInB(s: State)
    requires AfterRecovery(s)
    ensures var s' := Step(ONE_KEY, s, PUT_B);
            && s'.healthy && s'.content == Content(map[Key(B, Hex(7)) := Live("m", None, None, 1)], {})
            && |s'.logs| == 2
  {
  }

  /**
   * The witness: with room for one key, a first put whose line never reached the disk leaves an empty
   * Realm file; recovery accepts it; a put in another Realm then fills the cap, and the next recovery
   * refuses the directory for having two Realm files. `Runs.RunRecoverable` is the exact condition.
   */
  lemma EmptyFileBlocksRecovery()
    ensures var s := Run(ONE_KEY, [LOST_PUT, DoRecover, PUT_B]);
            s.healthy && |Retained(s.content)| == 1 && !Recover(ONE_KEY, s).healthy
  {
    hide Run, Step, Inv, Recover, Meaning, AfterRecovery;
    RunNothing(ONE_KEY);
    assert [] + [LOST_PUT] == [LOST_PUT];
    RunLast(ONE_KEY, [], LOST_PUT);
    LostPutLeavesAnEmptyFile();
    RunInv(ONE_KEY, [LOST_PUT]);
    assert [LOST_PUT] + [DoRecover] == [LOST_PUT, DoRecover];
    RunLast(ONE_KEY, [LOST_PUT], DoRecover);
    RecoverEmptyFile(Run(ONE_KEY, [LOST_PUT]));
    assert [LOST_PUT, DoRecover] + [PUT_B] == [LOST_PUT, DoRecover, PUT_B];
    RunLast(ONE_KEY, [LOST_PUT, DoRecover], PUT_B);
    PutInB(Run(ONE_KEY, [LOST_PUT, DoRecover]));
    RunRecoverable(ONE_KEY, [LOST_PUT, DoRecover, PUT_B]);
    assert Retained(Run(ONE_KEY, [LOST_PUT, DoRecover, PUT_B]).content) == {Key(B, Hex(7))};
  }

  // ---- a push stranded between its appends ----

  /** The same small store, in which every promotion verifies. */
  const TRUSTING := SMALL.(promotionVerifies := (x: ReputationScore, r: RealmId, h: HashText) => true)

  const ONE := ReputationScore(Finite(1.0), None, None, None)
  const SCORED := SyncEntry(Hex(7), A, "m", [], Some(ONE), None)
  const SCORED_PUSH := SignedSyncEntry(Some(SCORED), BuildRecord(SMALL, 0, Genesis, LogOp.Put(A, Hex(7), "m"), 0))

  lemma ScoreIsDue()
    ensures SignalDue(TRUSTING, EMPTY, SCORED_PUSH) && ScoreDue(TRUSTING, EMPTY, SCORED)
  {
    var (s, fs) := (PutWritten(TRUSTING, EMPTY, SCORED), PutBirth(EMPTY, KEY_A));
    assert PushedPutError(TRUSTING, SCORED_PUSH).None?;
    assert AttestShapeOk(TRUSTING, A, ONE);
    assert Fits(TRUSTING, EMPTY, LogOp.Put(A, Hex(7), "m"), fs);
    assert Fits(TRUSTING, s, LogOp.Attest(A, Hex(7), ONE), fs);
  }

  /**
   * The witness: the first push of a scored entry, whose score record is lost after its put has
   * landed. The Realm is left with the put alone: neither empty, as before, nor scored.
   * `Faults.PushIsWholeIff` is the exact condition.
   */
  lemma StrandedPush()
    ensures var lost := MergeFaults(NO_PUT_FAULTS, Uncertain(false), NoFault);
            !BeforeOrAfter(EMPTY.logs, MergePush(TRUSTING, EMPTY, SCORED_PUSH, lost).0.logs,
                           MergePush(TRUSTING, EMPTY, SCORED_PUSH, NO_MERGE_FAULTS).0.logs)
  {
    hide MergePush, Inv, SignalDue, ScoreDue, BeforeOrAfter;
    ScoreIsDue();
    EmptyInv(TRUSTING);
    PushIsWholeIff(TRUSTING, EMPTY, SCORED_PUSH);
  }
}
