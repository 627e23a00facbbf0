/** What compaction guarantees: meaning, crash safety, blob collection, and no growth when nothing changes. */
module CompactionProofs {
  import opened Basics
  import opened Records
  import opened Catalog
  import opened Chain
  import opened Store
  import opened Invariant
  import opened Operations
  import opened Compaction
  import Curator

  /** `order` lists the Realm table of a healthy store, and the dry pass over it succeeds. */
  ghost predicate Rehearsed(cfg: Config, s: State, d: Curator.Decisions, order: seq<RealmHash>) {
    && Inv(cfg, s) && s.healthy
    && Enumerates(order, s.realms.Keys)
    && DryPass(cfg, Curator.Curate(s.content, d), s.realms, s.logs, s.journalBytes, order).Ok?
  }

  lemma CandidateFacts(cfg: Config, s: State, d: Curator.Decisions)
    requires Inv(cfg, s) && s.healthy
    ensures var c := Curator.Curate(s.content, d);
            && Descends(s.content, c) && Disjoint(c) && KeysHex(c) && BirthsBelow(c, U64_MAX)
            && (FiniteScores(c) <==> Curator.FiniteDecisions(s.content, d))
  {
    hide Meaning, CapsOk, BlobsOk, DistinctBirths, HeadsOk, RealmsOk, FiniteScores;
    MeaningDisjoint(s.logs);
    CurateDescends(s.content, d);
    DiskScoresFinite(cfg, s.logs);
    CurateFinite(s.content, d);
    forall k | k in Retained(s.content) ensures k.hash.Hex? {
      LiveIsHex(cfg, s.logs, k);
    }
  }

  lemma PrefixNamed(s: State, order: seq<RealmHash>, n: nat)
    requires RealmsOk(s.realms, s.logs) && Enumerates(order, s.realms.Keys) && n <= |order|
    ensures RealmsNamed(s.realms, order[..n])
  {
    forall rh | rh in order[..n] ensures rh in s.realms && s.realms[rh] == rh.realm {
      assert rh in order;
    }
  }

  /** At every point of the rewrite each finished Realm's chain fits its limits. */
  lemma PrefixFits(cfg: Config, s: State, d: Curator.Decisions, order: seq<RealmHash>, rh: RealmHash)
    requires Rehearsed(cfg, s, d, order) && rh in order
    ensures var log := NewLog(cfg, Curator.Curate(s.content, d), s.realms, rh);
            LinesFit(cfg, log) && |log| <= U64_MAX
  {
    hide Inv, NewLog, LinesFit;
    var i :| 0 <= i < |order| && order[i] == rh;
    DryPassPrefix(cfg, Curator.Curate(s.content, d), s.realms, s.logs, s.journalBytes, order, i);
  }

  lemma StagedLogs(cfg: Config, s: State, d: Curator.Decisions, order: seq<RealmHash>, n: nat)
    requires Rehearsed(cfg, s, d, order) && Curator.FiniteDecisions(s.content, d) && n <= |order|
    ensures var logs' := Rewritten(cfg, Curator.Curate(s.content, d), s.realms, s.logs, order[..n]);
            LogsOk(cfg, logs') && Histories(logs')
  {
    var c := Curator.Curate(s.content, d);
    hide Meaning, Rewritten, NewLog, DryPass, FiniteScores, LogsOk, Histories, CapsOk, DistinctBirths, BlobsOk, HeadsOk,
         Descends, Curator.Curate, RealmsNamed, LinesFit, KeysHex, BirthsBelow;
    CandidateFacts(cfg, s, d);
    PrefixNamed(s, order, n);
    forall rh | rh in order[..n]
      ensures LinesFit(cfg, NewLog(cfg, c, s.realms, rh)) && |NewLog(cfg, c, s.realms, rh)| <= U64_MAX
    {
      assert rh in order;
      PrefixFits(cfg, s, d, order, rh);
    }
    RewrittenLogsOk(cfg, c, s.realms, s.logs, order[..n]);
  }

  lemma StagedMeaning(cfg: Config, s: State, d: Curator.Decisions, order: seq<RealmHash>, n: nat)
    requires Inv(cfg, s) && s.healthy && Enumerates(order, s.realms.Keys) && n <= |order|
    ensures var c := Curator.Curate(s.content, d);
            var m := Meaning(Rewritten(cfg, c, s.realms, s.logs, order[..n]));
            && m == Mixed(s.content, c, set rh | rh in order[..n])
            && Retained(m) == Retained(s.content)
            && DistinctBirths(m) && BlobsOk(cfg, m, s.blobs) && Evolves(s.content, m)
  {
    var c := Curator.Curate(s.content, d);
    hide Meaning, Rewritten, Mixed, FiniteScores, LogsOk, Histories, CapsOk, DistinctBirths, BlobsOk, HeadsOk,
         Descends, Curator.Curate, RealmsNamed, KeysHex, BirthsBelow, Evolves, Retained;
    CandidateFacts(cfg, s, d);
    PrefixNamed(s, order, n);
    RewrittenMeaning(cfg, c, s.realms, s.logs, order[..n]);
    var m := Meaning(Rewritten(cfg, c, s.realms, s.logs, order[..n]));
    MeaningDisjoint(Rewritten(cfg, c, s.realms, s.logs, order[..n]));
    MixedDescends(s.content, c, set rh | rh in order[..n]);
    DescendsDisk(cfg, s.content, m, s.blobs);
    DescendsRetained(s.content, m);
  }

  lemma StagedTotal(cfg: Config, s: State, d: Curator.Decisions, order: seq<RealmHash>, n: nat)
    requires Rehearsed(cfg, s, d, order) && n <= |order|
    ensures var c := Curator.Curate(s.content, d);
            var total := LogTotal(cfg, Rewritten(cfg, c, s.realms, s.logs, order[..n]));
            && total == PlannedTotal(cfg, c, s.realms, s.logs, s.journalBytes, order[..n])
            && GrowthOk(0, total, cfg.maxLogBytes)
  {
    hide Meaning, LogTotal, Rewritten, DryPass, PlannedTotal, LogsOk, Histories, DistinctBirths, BlobsOk, HeadsOk,
         RealmsOk, BirthsBelow, Curator.Curate;
    var c := Curator.Curate(s.content, d);
    DryPassPrefix(cfg, c, s.realms, s.logs, s.journalBytes, order, n);
    RewrittenTotal(cfg, c, s.realms, s.logs, s.journalBytes, order[..n]);
  }

  /** The disk after the first `n` Realms are replaced is well-formed, whatever happens next. */
  lemma StagedDisk(cfg: Config, s: State, d: Curator.Decisions, order: seq<RealmHash>, n: nat)
    requires Rehearsed(cfg, s, d, order) && Curator.FiniteDecisions(s.content, d) && n <= |order|
    ensures var logs' := Rewritten(cfg, Curator.Curate(s.content, d), s.realms, s.logs, order[..n]);
            DiskInv(cfg, logs', s.blobs) && Evolves(Meaning(s.logs), Meaning(logs'))
  {
    hide Meaning, LogTotal, Rewritten, DryPass, LogsOk, Histories, DistinctBirths, BlobsOk, HeadsOk,
         RealmsOk, BirthsBelow, Curator.Curate, Curator.FiniteDecisions, Evolves, Mixed, PlannedTotal, Retained;
    StagedLogs(cfg, s, d, order, n);
    StagedMeaning(cfg, s, d, order, n);
    StagedTotal(cfg, s, d, order, n);
  }

  lemma DescendsRetained(c: Content, m: Content)
    requires Descends(c, m)
    ensures Retained(c) == Retained(m)
  {
  }

  /** Every key the store retains lies in a Realm of the Realm table. */
  lemma RealmTabled(cfg: Config, s: State, k: Key)
    requires Inv(cfg, s) && s.healthy && k in Retained(s.content)
    ensures RealmSha(k.realm) in s.realms
  {
    hide CapsOk, BlobsOk, DistinctBirths, HeadsOk, LogsOk, Histories;
    MeaningAt(s.logs, k);
  }

  /** Once every Realm is replaced, the disk means exactly the curated catalog. */
  lemma FullRewrite(cfg: Config, s: State, d: Curator.Decisions, order: seq<RealmHash>)
    requires Inv(cfg, s) && s.healthy && Enumerates(order, s.realms.Keys)
    ensures Mixed(s.content, Curator.Curate(s.content, d), set rh | rh in order) == Curator.Curate(s.content, d)
  {
    hide Inv, Meaning;
    var c := Curator.Curate(s.content, d);
    var m := Mixed(s.content, c, set rh | rh in order);
    forall k ensures k in s.content.entries || k in s.content.tombstones ==> RealmSha(k.realm) in order {
      if k in Retained(s.content) {
        RealmTabled(cfg, s, k);
      }
    }
    ContentExt(m, c);
  }

  lemma BlobsSubset(cfg: Config, c: Content, blobs: map<nat, Bytes>, gone: set<nat>)
    requires BlobsOk(cfg, c, blobs) && gone <= Orphans(c, blobs)
    ensures BlobsOk(cfg, c, blobs - gone)
    ensures BlobTotal(blobs - gone) <= BlobTotal(blobs) && |blobs - gone| <= |blobs|
  {
    TotalMonotone(BlobSizes(blobs - gone), BlobSizes(blobs));
    SubsetCount((blobs - gone).Keys, blobs.Keys);
  }

  lemma RealmsAfter(cfg: Config, s: State, d: Curator.Decisions, order: seq<RealmHash>)
    requires Inv(cfg, s) && s.healthy && Enumerates(order, s.realms.Keys)
    ensures RealmsOk(s.realms, Rewritten(cfg, Curator.Curate(s.content, d), s.realms, s.logs, order))
  {
    var c := Curator.Curate(s.content, d);
    var logs' := Rewritten(cfg, c, s.realms, s.logs, order);
    hide Inv, Rewritten, Curator.Curate, RealmOps, Meaning;
    assert RealmsOk(s.realms, s.logs) by { InvRealms(cfg, s); }
    forall rh ensures rh in s.realms <==> rh in logs' && logs'[rh] != [] {
      RewrittenAt(cfg, c, s.realms, s.logs, order, rh);
      if rh in s.realms {
        RealmStaysNonEmpty(cfg, s, d, rh);
      }
    }
  }

  lemma InvRealms(cfg: Config, s: State)
    requires Inv(cfg, s) && s.healthy
    ensures RealmsOk(s.realms, s.logs) && s.content == Meaning(s.logs) && Histories(s.logs)
  {
  }

  /** A Realm with a log retains at least one key, so its rewritten chain is not empty. */
  lemma RealmStaysNonEmpty(cfg: Config, s: State, d: Curator.Decisions, rh: RealmHash)
    requires Inv(cfg, s) && s.healthy && rh in s.realms
    ensures NewLog(cfg, Curator.Curate(s.content, d), s.realms, rh) != []
  {
    var c := Curator.Curate(s.content, d);
    hide Inv, Meaning, Curator.Curate, Retained;
    InvRealms(cfg, s);
    var k := RealmHasKey(cfg, s, rh);
    CandidateFacts(cfg, s, d);
    DescendsRetained(s.content, c);
    ShardHas(cfg, c, k);
    assert Replay([]) == NOTHING;
  }

  lemma ShardHas(cfg: Config, c: Content, k: Key)
    requires Disjoint(c) && KeysHex(c) && k in Retained(c)
    ensures Replay(ChainFor(cfg, RealmOps(c, k.realm))) != NOTHING
  {
    ReplayRealmOps(cfg, c, k.realm);
    assert k in Retained(Shard(c, k.realm));
  }

  lemma RealmHasKey(cfg: Config, s: State, rh: RealmHash) returns (k: Key)
    requires Inv(cfg, s) && s.healthy && rh in s.realms
    ensures k in Retained(s.content) && k.realm == rh.realm
  {
    hide CapsOk, BlobsOk, DistinctBirths, HeadsOk;
    var log := s.logs[rh];
    k := KeyOf(log[0].op);
    assert RecordOk(cfg, rh, log, 0);
    assert Faithful(Replay(log), log[0]);
    MeaningAt(s.logs, k);
  }

  lemma CrashKeeps(cfg: Config, s: State, d: Curator.Decisions, order: seq<RealmHash>, fault: CompactFault)
    requires Rehearsed(cfg, s, d, order) && Curator.FiniteDecisions(s.content, d)
    requires fault.FailsAt? && fault.done < |order|
    ensures Keeps(cfg, s, Compact(cfg, s, d, order, fault).0)
  {
    hide Meaning, DiskInv, MemInv, DryPass, Curator.Curate, BlobTotal, Evolves, NewHeads, PlannedTotal, NewLog;
    var n := fault.done;
    TornFiles(cfg, s);
    StagedDisk(cfg, s, d, order, n);
    StagedDisk(cfg, s, d, order, n + 1);
    assert order[..n + 1][..n] == order[..n];
  }

  /** The state after every Realm is replaced and the blobs of `gone` are removed. */
  ghost function Finished(cfg: Config, s: State, c: Content, order: seq<RealmHash>, gone: set<nat>): State {
    Staged(cfg, s, c, order).(
      blobs := s.blobs - gone, blobBytes := BlobTotal(s.blobs - gone), blobCount := |s.blobs - gone|)
  }

  /** Past staging, only an I/O fault can fail: no limit or accounting error is possible any more. */
  lemma CompactValue(cfg: Config, s: State, d: Curator.Decisions, order: seq<RealmHash>, fault: CompactFault)
    requires Rehearsed(cfg, s, d, order)
    requires fault.FailsAt? ==> fault.done >= |order|
    ensures var c := Curator.Curate(s.content, d);
            var (s', r) := Compact(cfg, s, d, order, fault);
            && (fault.FailsInGc? ==>
                  s' == Finished(cfg, s, c, order, Orphans(c, s.blobs) * fault.removed).(healthy := false) && r == Err(Io))
            && (!fault.FailsInGc? ==> s' == Finished(cfg, s, c, order, Orphans(c, s.blobs)) && r.Ok?)
  {
    hide Meaning, DryPass, Curator.Curate, BlobTotal, LogTotal, NewHeads, Rewritten, PlannedTotal, Orphans, LogsOk,
         Histories, DistinctBirths, BlobsOk, HeadsOk, RealmsOk;
  }

  lemma FinishedDisk(cfg: Config, s: State, d: Curator.Decisions, order: seq<RealmHash>, gone: set<nat>)
    requires Rehearsed(cfg, s, d, order) && Curator.FiniteDecisions(s.content, d)
    requires gone <= Orphans(Curator.Curate(s.content, d), s.blobs)
    ensures var s' := Finished(cfg, s, Curator.Curate(s.content, d), order, gone);
            DiskInv(cfg, s'.logs, s'.blobs) && Evolves(Meaning(s.logs), Meaning(s'.logs))
            && Meaning(s'.logs) == Curator.Curate(s.content, d)
  {
    var c := Curator.Curate(s.content, d);
    hide Meaning, DryPass, Curator.Curate, Rewritten, BlobTotal, LogTotal, Evolves, NewHeads, Orphans, Mixed,
         LogsOk, Histories, DistinctBirths, BlobsOk, HeadsOk, RealmsOk, BirthsBelow, PlannedTotal;
    assert order[..|order|] == order;
    StagedDisk(cfg, s, d, order, |order|);
    StagedMeaning(cfg, s, d, order, |order|);
    FullRewrite(cfg, s, d, order);
    BlobsSubset(cfg, c, s.blobs, gone);
  }

  lemma FinishedInv(cfg: Config, s: State, d: Curator.Decisions, order: seq<RealmHash>, gone: set<nat>)
    requires Rehearsed(cfg, s, d, order) && Curator.FiniteDecisions(s.content, d)
    requires gone <= Orphans(Curator.Curate(s.content, d), s.blobs)
    ensures var s' := Finished(cfg, s, Curator.Curate(s.content, d), order, gone);
            Keeps(cfg, s, s') && s'.healthy && Meaning(s'.logs) == Curator.Curate(s.content, d)
  {
    var c := Curator.Curate(s.content, d);
    hide Meaning, DryPass, Curator.Curate, Rewritten, BlobTotal, LogTotal, Evolves, NewHeads, Orphans, Mixed,
         DiskInv, HeadsOk, RealmsOk, BirthsBelow, PlannedTotal;
    assert order[..|order|] == order;
    FinishedDisk(cfg, s, d, order, gone);
    StagedTotal(cfg, s, d, order, |order|);
    RewrittenHeads(cfg, c, s.realms, s.heads, s.logs, order);
    RealmsAfter(cfg, s, d, order);
    CandidateBirths(s, d);
  }

  lemma CandidateBirths(s: State, d: Curator.Decisions)
    requires BirthsBelow(s.content, s.nextFirstSeen)
    ensures BirthsBelow(Curator.Curate(s.content, d), s.nextFirstSeen)
  {
  }

  /** Compaction keeps the invariant under every fault, and only lets the catalog evolve. */
  lemma CompactKeeps(cfg: Config, s: State, d: Curator.Decisions, order: seq<RealmHash>, fault: CompactFault)
    requires Inv(cfg, s)
    requires s.healthy ==> Enumerates(order, s.realms.Keys) && Curator.FiniteDecisions(s.content, d)
    ensures Keeps(cfg, s, Compact(cfg, s, d, order, fault).0)
  {
    hide Meaning, DiskInv, MemInv, DryPass, Curator.Curate, Rewritten, Staged, Finished, Orphans, Evolves;
    KeepsSame(cfg, s);
    if s.healthy && Rehearsed(cfg, s, d, order) {
      if fault.FailsAt? && fault.done < |order| {
        CrashKeeps(cfg, s, d, order, fault);
      } else {
        CompactValue(cfg, s, d, order, fault);
        var orphans := Orphans(Curator.Curate(s.content, d), s.blobs);
        FinishedInv(cfg, s, d, order, if fault.FailsInGc? then orphans * fault.removed else orphans);
      }
    }
  }

  // ---- meaning ----

  /** The catalog and the blobs after a completed compaction. */
  ghost predicate Compacted(c: Content, c': Content, blobs: map<nat, Bytes>, d: Curator.Decisions) {
    && (forall k :: k in c'.entries <==> k in c.entries && Curator.DecisionFor(d, k) != Curator.Gc)
    && (forall k :: k in c'.tombstones <==> k in c.tombstones || (k in c.entries && Curator.DecisionFor(d, k) == Curator.Gc))
    && (forall k | k in c'.entries && k in c.entries ::
          Curator.Ruled(c.entries[k], c'.entries[k], Curator.DecisionFor(d, k)))
    && (forall h :: h in blobs <==> exists k | k in c'.entries :: k.hash == Hex(h))
  }

  /**
   * A completed compaction: the rewritten chains are accepted from genesis and mean exactly the old
   * catalog with the curator's decisions applied. Collected keys, and only those, moved from live to
   * tombstoned; every other row keeps its manifest and birth order and is re-signalled as decided. The blob
   * directory holds exactly the artifacts that some live row of some Realm references.
   */
  lemma CompactPreservesMeaning(cfg: Config, s: State, d: Curator.Decisions, order: seq<RealmHash>)
    requires Inv(cfg, s) && s.healthy && Enumerates(order, s.realms.Keys) && Curator.FiniteDecisions(s.content, d)
    requires Compact(cfg, s, d, order, Completes).1.Ok?
    ensures var s' := Compact(cfg, s, d, order, Completes).0;
            var c, c' := Meaning(s.logs), Meaning(s'.logs);
            && LogsOk(cfg, s'.logs)
            && s'.healthy && s'.content == c'
            && Compacted(c, c', s'.blobs, d)
  {
    hide Meaning, DryPass, Curator.Curate, Finished, Evolves, Inv, Orphans, Compacted;
    var c := Curator.Curate(s.content, d);
    var s' := Compact(cfg, s, d, order, Completes).0;
    assert Rehearsed(cfg, s, d, order);
    CompactValue(cfg, s, d, order, Completes);
    FinishedInv(cfg, s, d, order, Orphans(c, s.blobs));
    FinishedBlobs(cfg, s, c, order);
    InMemory(cfg, s);
    InMemory(cfg, s');
    CurateCompacts(s.content, d, s.blobs);
  }

  /** What a healthy store's invariant says of its memory. */
  lemma InMemory(cfg: Config, s: State)
    requires Inv(cfg, s) && s.healthy
    ensures s.content == Meaning(s.logs) && LogsOk(cfg, s.logs)
    ensures forall k | k in s.content.entries :: k.hash.Hex? && k.hash.value in s.blobs
  {
    hide Meaning, LogsOk, Histories, DistinctBirths, CapsOk, HeadsOk, RealmsOk, BirthsBelow;
  }

  lemma FinishedBlobs(cfg: Config, s: State, c: Content, order: seq<RealmHash>)
    ensures Finished(cfg, s, c, order, Orphans(c, s.blobs)).blobs == s.blobs - Orphans(c, s.blobs)
    ensures Finished(cfg, s, c, order, Orphans(c, s.blobs)).content == c
  {
  }

  lemma KeptBlobs(c: Content, blobs: map<nat, Bytes>)
    requires forall k | k in c.entries :: k.hash.Hex? && k.hash.value in blobs
    ensures forall h :: h in blobs - Orphans(c, blobs) <==> exists k | k in c.entries :: k.hash == Hex(h)
  {
    forall h
      ensures h in blobs - Orphans(c, blobs) <==> exists k | k in c.entries :: k.hash == Hex(h)
    {
      if k :| k in c.entries && k.hash == Hex(h) {
        assert k.hash.value in blobs;
      }
    }
  }

  /** The curated catalog, with the blobs it leaves unreferenced gone. */
  lemma CurateCompacts(c: Content, d: Curator.Decisions, blobs: map<nat, Bytes>)
    requires forall k | k in c.entries :: k.hash.Hex? && k.hash.value in blobs
    ensures var c' := Curator.Curate(c, d); Compacted(c, c', blobs - Orphans(c', blobs), d)
  {
    hide Orphans, Curator.DecisionFor;
    KeptBlobs(Curator.Curate(c, d), blobs);
  }

  // ---- a keep-all compaction never grows a log ----

  ghost predicate Distinct(ops: seq<Stamped>) {
    forall i, j | 0 <= i < j < |ops| :: ops[i] != ops[j]
  }

  lemma DistinctConcat(a: seq<Stamped>, b: seq<Stamped>)
    requires Distinct(a) && Distinct(b)
    requires forall e | e in a :: e !in b
    ensures Distinct(a + b)
  {
    forall i, j | 0 <= i < j < |a + b| ensures (a + b)[i] != (a + b)[j] {
      if i < |a| <= j {
        assert a[i] in a && b[j - |a|] in b;
      }
    }
  }

  lemma {:induction false} OpsForLiveDistinct(c: Content, realm: RealmId, hs: seq<nat>)
    requires forall i, j | 0 <= i < j < |hs| :: hs[i] != hs[j]
    requires forall h | h in hs :: Key(realm, Hex(h)) in c.entries
    ensures Distinct(OpsForLive(c, realm, hs))
  {
    if hs != [] {
      var front, h := hs[..|hs| - 1], hs[|hs| - 1];
      var key := Key(realm, Hex(h));
      var a, b := OpsForLive(c, realm, front), LiveOps(key, c.entries[key]);
      OpsForLiveDistinct(c, realm, front);
      forall e | e in a ensures e !in b {
        InOpsForLive(c, realm, front, e);
      }
      DistinctConcat(a, b);
    }
  }

  lemma RealmOpsDistinct(c: Content, realm: RealmId)
    ensures Distinct(RealmOps(c, realm))
  {
    var ls, ts := Ascending(LiveHashes(c, realm)), Ascending(TombHashes(c, realm));
    AscendingLists(LiveHashes(c, realm));
    AscendingLists(TombHashes(c, realm));
    OpsForLiveDistinct(c, realm, ls);
    var a, b := OpsForLive(c, realm, ls), OpsForTombs(realm, ts);
    forall e | e in a ensures e !in b {
      InOpsForLive(c, realm, ls, e);
    }
    DistinctConcat(a, b);
  }

  /** Every record a keep-all rewrite writes is, up to position, already in the log it replaces. */
  lemma RewriteComesFromLog(cfg: Config, rh: RealmHash, log: seq<LogRecord>, c: Content, e: Stamped)
    requires ChainOk(cfg, rh, log) && History(log)
    requires Shard(c, rh.realm) == Replay(log)
    requires e in RealmOps(c, rh.realm)
    ensures e in StampsOf(log)
  {
    hide RealmOps, ChainOk;
    InRealmOps(c, rh.realm, e);
    var k := KeyOf(e.op);
    var r := Replay(log);
    assert Has(log, e.op) by {
      if k in c.entries && e in LiveOps(k, c.entries[k]) {
        assert k in Shard(c, rh.realm).entries;
        LiveSources(log, k);
      } else {
        assert k in Shard(c, rh.realm).tombstones;
        TombSource(log, k);
      }
    }
    var i :| 0 <= i < |log| && log[i].op == e.op;
    assert Faithful(r, log[i]);
    assert e.firstSeen == log[i].firstSeen by {
      if k in c.entries && e in LiveOps(k, c.entries[k]) {
        assert k in Shard(c, rh.realm).entries;
      }
    }
    assert StampsOf(log)[i] == e;
  }

  lemma KeepAllShrinks(cfg: Config, rh: RealmHash, log: seq<LogRecord>, c: Content)
    requires ChainOk(cfg, rh, log) && History(log)
    requires Shard(c, rh.realm) == Replay(log)
    ensures |RealmOps(c, rh.realm)| <= |log|
    ensures LogBytes(cfg, ChainFor(cfg, RealmOps(c, rh.realm))) <= LogBytes(cfg, log)
  {
    hide RealmOps, ChainOk, History, Shard;
    var ops := RealmOps(c, rh.realm);
    RealmOpsDistinct(c, rh.realm);
    forall e | e in ops ensures e in StampsOf(log) {
      RewriteComesFromLog(cfg, rh, log, c, e);
    }
    DistinctSubBytes(cfg, ops, StampsOf(log));
    ChainForBytes(cfg, ops);
    forall i | 0 <= i < |log| ensures log[i].prev == TipOf(log[..i]) && log[i].seq_ == i {
      ChainLinks(cfg, rh, log, i);
    }
    ChainBytes(cfg, log);
    OverheadMonotone(|ops|, |log|);
  }

  lemma ChainLinks(cfg: Config, rh: RealmHash, log: seq<LogRecord>, i: nat)
    requires ChainOk(cfg, rh, log) && i < |log|
    ensures log[i].prev == TipOf(log[..i]) && log[i].seq_ == i
  {
    assert RecordOk(cfg, rh, log, i);
  }

  /** Renumbering and re-linking can lengthen one line by 19 digits and 49 link bytes. */
  const SLACK: nat := 68

  ghost predicate Slack(cfg: Config, log: seq<LogRecord>) {
    forall rec | rec in log :: LineBytes(cfg, rec) + SLACK <= MAX_RECORD_BYTES
  }

  lemma KeepAllLinesFit(cfg: Config, rh: RealmHash, log: seq<LogRecord>, c: Content)
    requires ChainOk(cfg, rh, log) && History(log) && Slack(cfg, log)
    requires Shard(c, rh.realm) == Replay(log)
    ensures LinesFit(cfg, ChainFor(cfg, RealmOps(c, rh.realm)))
  {
    hide RealmOps, ChainOk, History, Shard;
    var ops := RealmOps(c, rh.realm);
    var fresh_ := ChainFor(cfg, ops);
    KeepAllShrinks(cfg, rh, log, c);
    ChainShort(cfg, rh, log);
    forall i | 0 <= i < |fresh_| ensures LineBytes(cfg, fresh_[i]) <= MAX_RECORD_BYTES {
      RewriteComesFromLog(cfg, rh, log, c, ops[i]);
      LineFromPool(cfg, ops, log, i);
    }
  }

  lemma LineFromPool(cfg: Config, ops: seq<Stamped>, log: seq<LogRecord>, i: nat)
    requires i < |ops| && i <= U64_MAX && Slack(cfg, log) && ops[i] in StampsOf(log)
    ensures LineBytes(cfg, ChainFor(cfg, ops)[i]) <= MAX_RECORD_BYTES
  {
    hide DecimalWidth;
    ChainForRecord(cfg, ops, i);
    var j :| 0 <= j < |log| && StampsOf(log)[j] == ops[i];
    assert log[j] in log;
    U64Width(i);
  }

  lemma ChainShort(cfg: Config, rh: RealmHash, log: seq<LogRecord>)
    requires ChainOk(cfg, rh, log)
    ensures |log| <= U64_MAX
  {
  }

  lemma ShardIsView(logs: Logs, cfg: Config, rh: RealmHash)
    requires LogsOk(cfg, logs) && rh in logs
    ensures Shard(Meaning(logs), rh.realm) == Replay(logs[rh])
  {
    var a, b := Shard(Meaning(logs), rh.realm), Replay(logs[rh]);
    hide Meaning;
    assert OwnRealm(rh, logs[rh]) by {
      forall i | 0 <= i < |logs[rh]| ensures logs[rh][i].op.realm == rh.realm {
        assert RecordOk(cfg, rh, logs[rh], i);
      }
    }
    forall k
      ensures k in a.entries <==> k in b.entries
      ensures k in a.entries && k in b.entries ==> a.entries[k] == b.entries[k]
      ensures k in a.tombstones <==> k in b.tombstones
    {
      MeaningAt(logs, k);
      if k.realm != rh.realm {
        ReplayStaysInRealm(NOTHING, rh, logs[rh], k);
      }
    }
    ContentExt(a, b);
  }

  /** One Realm's keep-all rewrite fits every limit and does not grow the log. */
  lemma KeepAllRealm(cfg: Config, s: State, rh: RealmHash)
    requires Inv(cfg, s) && s.healthy && rh in s.realms && Slack(cfg, s.logs[rh])
    ensures var log := NewLog(cfg, s.content, s.realms, rh);
            LinesFit(cfg, log) && |log| <= U64_MAX && LogBytes(cfg, log) <= LogBytes(cfg, LogAt(s.logs, rh))
  {
    hide Meaning, CapsOk, BlobsOk, DistinctBirths, HeadsOk, RealmOps, LinesFit, Slack, ChainOk, History;
    ShardIsView(s.logs, cfg, rh);
    KeepAllShrinks(cfg, rh, s.logs[rh], s.content);
    KeepAllLinesFit(cfg, rh, s.logs[rh], s.content);
    ChainShort(cfg, rh, s.logs[rh]);
  }

  ghost predicate AllSlack(cfg: Config, s: State) {
    forall rh | rh in s.realms :: rh in s.logs && Slack(cfg, s.logs[rh])
  }

  lemma LogTotalAtLeast(cfg: Config, logs: Logs, rh: RealmHash)
    ensures LogBytes(cfg, LogAt(logs, rh)) <= LogTotal(cfg, logs)
  {
    LogTotalSet(cfg, logs, rh, []);
  }

  lemma {:induction false} KeepAllDryPass(cfg: Config, s: State, order: seq<RealmHash>, n: nat)
    requires Inv(cfg, s) && s.healthy && Enumerates(order, s.realms.Keys) && AllSlack(cfg, s)
    requires n <= |order|
    ensures var r := DryPass(cfg, s.content, s.realms, s.logs, s.journalBytes, order[..n]);
            r.Ok? && r.value <= s.journalBytes
  {
    hide Meaning, NewLog, LogTotal, LinesFit, AllSlack, Slack, LogsOk, Histories, BlobsOk, DistinctBirths, HeadsOk,
         RealmsOk, BirthsBelow, BlobTotal, Rewritten;
    if n == 0 {
      assert order[..0] == [];
    } else {
      KeepAllDryPass(cfg, s, order, n - 1);
      var front, rh := order[..n - 1], order[n - 1];
      assert order[..n][..n - 1] == front;
      assert rh in order && rh !in front;
      SlackAt(cfg, s, rh);
      KeepAllRealm(cfg, s, rh);
      RewrittenTotal(cfg, s.content, s.realms, s.logs, s.journalBytes, front);
      RewrittenAt(cfg, s.content, s.realms, s.logs, front, rh);
      LogTotalAtLeast(cfg, Rewritten(cfg, s.content, s.realms, s.logs, front), rh);
    }
  }

  /**
   * A compaction that keeps everything cannot be refused by the journal cap: given 68 bytes of slack
   * per record it always succeeds, no Realm's log grows, and the catalog is unchanged.
   */
  lemma KeepAllNeverRefused(cfg: Config, s: State, order: seq<RealmHash>)
    requires Inv(cfg, s) && s.healthy && Enumerates(order, s.realms.Keys) && AllSlack(cfg, s)
    ensures var (s', r) := Compact(cfg, s, map[], order, Completes);
            && r.Ok?
            && Meaning(s'.logs) == Meaning(s.logs)
            && (forall rh | rh in s.logs :: rh in s'.logs && LogBytes(cfg, s'.logs[rh]) <= LogBytes(cfg, s.logs[rh]))
            && LogTotal(cfg, s'.logs) <= LogTotal(cfg, s.logs)
  {
    hide Meaning, NewLog, LogTotal, LogsOk, Histories, BlobsOk, DistinctBirths, HeadsOk, RealmsOk, DryPass,
         Curator.Curate, Rewritten, BlobTotal, Orphans, Evolves, Curator.FiniteDecisions, AllSlack, NewHeads;
    assert order[..|order|] == order;
    KeepAllDryPass(cfg, s, order, |order|);
    RewrittenTotal(cfg, s.content, s.realms, s.logs, s.journalBytes, order);
    Curator.CurateNothing(s.content);
    CompactValue(cfg, s, map[], order, Completes);
    assert Curator.FiniteDecisions(s.content, map[]) by { NoDecisionsFinite(s.content); }
    FinishedInv(cfg, s, map[], order, Orphans(s.content, s.blobs));
    var s' := Compact(cfg, s, map[], order, Completes).0;
    forall rh | rh in s.logs ensures rh in s'.logs && LogBytes(cfg, s'.logs[rh]) <= LogBytes(cfg, s.logs[rh]) {
      RewrittenAt(cfg, s.content, s.realms, s.logs, order, rh);
      if rh in order {
        SlackAt(cfg, s, rh);
        KeepAllRealm(cfg, s, rh);
      }
    }
  }

  lemma NoDecisionsFinite(c: Content)
    ensures Curator.FiniteDecisions(c, map[])
  {
  }

  lemma SlackAt(cfg: Config, s: State, rh: RealmHash)
    requires AllSlack(cfg, s) && rh in s.realms
    ensures rh in s.logs && Slack(cfg, s.logs[rh])
  {
  }
}
