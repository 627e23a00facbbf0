/** Compaction: curate a candidate, rehearse every Realm's rewrite, then replace the chains one by one. */
module Compaction {
  import opened Basics
  import opened Records
  import opened Catalog
  import opened Chain
  import opened Store
  import opened Invariant
  import Curator

  datatype CompactStats = CompactStats(scanned: nat, gc: nat, quarantined: nat, blobsRemoved: nat)

  /**
   * After staging, compaction can fail at the replacement of one Realm (whose file may or may not
   * have landed), or while collecting blobs.
   */
  datatype CompactFault = Completes | FailsAt(done: nat, landed: bool) | FailsInGc(removed: set<nat>)

  // ---- the two passes ----

  ghost function NewLog(cfg: Config, c: Content, realms: map<RealmHash, RealmId>, rh: RealmHash): seq<LogRecord> {
    if rh in realms then ChainFor(cfg, RealmOps(c, realms[rh])) else []
  }

  /** What one Realm's rewrite reports: its new aggregate journal size, or an error. */
  ghost function RewriteTotal(cfg: Config, prior: seq<LogRecord>, log: seq<LogRecord>, total: nat): Result<nat> {
    var priorBytes := LogBytes(cfg, prior);
    if total < priorBytes then Err(Corrupt)
    else if !WithinCap(total - priorBytes, cfg.maxLogBytes) then Err(Limit)
    else if !LinesFit(cfg, log) || |log| > U64_MAX then Err(Limit)
    else if !GrowthOk(total - priorBytes, LogBytes(cfg, log), cfg.maxLogBytes) then Err(Limit)
    else Ok(total - priorBytes + LogBytes(cfg, log))
  }

  /** The dry pass: the planned total after rewriting the Realms of `order`, or the first error. */
  ghost function DryPass(
    cfg: Config, c: Content, realms: map<RealmHash, RealmId>, logs: Logs, total: nat, order: seq<RealmHash>)
    : Result<nat>
  {
    if order == [] then Ok(total)
    else
      match DryPass(cfg, c, realms, logs, total, order[..|order| - 1])
      case Err(e) => Err(e)
      case Ok(sofar) =>
        var rh := order[|order| - 1];
        RewriteTotal(cfg, LogAt(logs, rh), NewLog(cfg, c, realms, rh), sofar)
  }

  /** The disk and the heads once the Realms of `order` have been replaced. */
  ghost function Rewritten(
    cfg: Config, c: Content, realms: map<RealmHash, RealmId>, logs: Logs, order: seq<RealmHash>): Logs
  {
    if order == [] then logs
    else
      var rh := order[|order| - 1];
      Rewritten(cfg, c, realms, logs, order[..|order| - 1])[rh := NewLog(cfg, c, realms, rh)]
  }

  ghost function NewHeads(
    cfg: Config, c: Content, realms: map<RealmHash, RealmId>, heads: map<RealmHash, Head>, order: seq<RealmHash>)
    : map<RealmHash, Head>
  {
    if order == [] then heads
    else
      var rh := order[|order| - 1];
      NewHeads(cfg, c, realms, heads, order[..|order| - 1])[rh := HeadOf(NewLog(cfg, c, realms, rh))]
  }

  ghost function PlannedTotal(
    cfg: Config, c: Content, realms: map<RealmHash, RealmId>, logs: Logs, total: nat, order: seq<RealmHash>): nat
  {
    var r := DryPass(cfg, c, realms, logs, total, order);
    if r.Ok? then r.value else 0
  }

  /** The state once the candidate is staged and the Realms of `order` are replaced. */
  ghost function Staged(cfg: Config, s: State, c: Content, order: seq<RealmHash>): State {
    s.(content := c,
       logs := Rewritten(cfg, c, s.realms, s.logs, order),
       heads := NewHeads(cfg, c, s.realms, s.heads, order),
       journalBytes := PlannedTotal(cfg, c, s.realms, s.logs, s.journalBytes, order))
  }

  ghost function Orphans(c: Content, blobs: map<nat, Bytes>): set<nat> {
    set h | h in blobs && !References(c, h)
  }

  /** The unreferenced blobs a collection removes; a failing one has removed only those in `removed`. */
  ghost function Unlinked(c: Content, blobs: map<nat, Bytes>, fault: CompactFault): set<nat> {
    if fault.FailsInGc? then Orphans(c, blobs) * fault.removed else Orphans(c, blobs)
  }

  /** Replacement number `fault.done` failed; its file may already be the new one. */
  ghost function Interrupted(cfg: Config, s: State, c: Content, order: seq<RealmHash>, fault: CompactFault): State
    requires fault.FailsAt? && fault.done < |order|
  {
    var s1 := Staged(cfg, s, c, order[..fault.done]);
    var rh := order[fault.done];
    s1.(healthy := false,
        logs := if fault.landed then s1.logs[rh := NewLog(cfg, c, s.realms, rh)] else s1.logs)
  }

  /** Audit the blob accounting against the directory, then remove the unreferenced blobs. */
  ghost function Sweep(cfg: Config, s: State, fault: CompactFault): (State, Result<nat>) {
    var usage := ScanBlobs(cfg, s.blobs);
    if usage.Err? then (s.(healthy := false), Err(usage.error))
    else if usage.value != (s.blobBytes, s.blobCount) then (s.(healthy := false), Err(Corrupt))
    else
      var gone := Unlinked(s.content, s.blobs, fault);
      var s1 := s.(blobs := s.blobs - gone, blobBytes := BlobTotal(s.blobs - gone), blobCount := |s.blobs - gone|);
      if fault.FailsInGc? then (s1.(healthy := false), Err(Io)) else (s1, Ok(|gone|))
  }

  ghost function Compact(cfg: Config, s: State, d: Curator.Decisions, order: seq<RealmHash>, fault: CompactFault)
    : (State, Result<CompactStats>)
  {
    if !s.healthy then (s, Err(Unhealthy))
    else
      var c := Curator.Curate(s.content, d);
      match DryPass(cfg, c, s.realms, s.logs, s.journalBytes, order)
      case Err(e) => (s.(healthy := e != Corrupt), Err(e))
      case Ok(_) =>
        if fault.FailsAt? && fault.done < |order| then
          (Interrupted(cfg, s, c, order, fault), Err(Io))
        else
          match Sweep(cfg, Staged(cfg, s, c, order), fault)
          case (s1, Err(e)) => (s1, Err(e))
          case (s1, Ok(removed)) =>
            (s1, Ok(CompactStats(|s.content.entries|, |Curator.Collected(s.content, d)|,
                                 |Curator.Isolated(s.content, d)|, removed)))
  }

  // ---- the canonical ops of a Realm ----

  /** `e` is one of the records a rewrite of `realm` writes for catalog `c`. */
  ghost predicate OpFor(c: Content, realm: RealmId, e: Stamped) {
    var k := KeyOf(e.op);
    && k.realm == realm && k.hash.Hex?
    && ((k in c.entries && e in LiveOps(k, c.entries[k]))
        || (k in c.tombstones && e == Stamped(LogOp.Tombstone(realm, k.hash), 0)))
  }

  lemma {:induction false} InOpsForLive(c: Content, realm: RealmId, hs: seq<nat>, e: Stamped)
    requires forall h | h in hs :: Key(realm, Hex(h)) in c.entries
    ensures e in OpsForLive(c, realm, hs) <==>
              KeyOf(e.op).realm == realm && KeyOf(e.op).hash.Hex? && KeyOf(e.op).hash.value in hs
              && e in LiveOps(KeyOf(e.op), c.entries[KeyOf(e.op)])
  {
    if hs != [] {
      var front, h := hs[..|hs| - 1], hs[|hs| - 1];
      assert hs == front + [h];
      InOpsForLive(c, realm, front, e);
    }
  }

  lemma InRealmOps(c: Content, realm: RealmId, e: Stamped)
    ensures e in RealmOps(c, realm) <==> OpFor(c, realm, e)
  {
    var ls, ts := Ascending(LiveHashes(c, realm)), Ascending(TombHashes(c, realm));
    AscendingLists(LiveHashes(c, realm));
    AscendingLists(TombHashes(c, realm));
    InOpsForLive(c, realm, ls, e);
    if e in OpsForTombs(realm, ts) {
      var i :| 0 <= i < |ts| && e == OpsForTombs(realm, ts)[i];
      assert ts[i] in ts;
    }
    if OpFor(c, realm, e) && e.op.Tombstone? {
      assert KeyOf(e.op) in c.tombstones;
      assert e.op.hash.value in TombHashes(c, realm);
      var i :| 0 <= i < |ts| && ts[i] == e.op.hash.value;
      assert OpsForTombs(realm, ts)[i] == e;
    }
  }

  ghost predicate FiniteScores(c: Content) {
    forall k | k in c.entries && c.entries[k].reputation.Some? :: c.entries[k].reputation.value.score.Finite?
  }

  ghost predicate FiniteScoresIn(c: Content, realm: RealmId) {
    forall k | k in c.entries && k.realm == realm && c.entries[k].reputation.Some? ::
      c.entries[k].reputation.value.score.Finite?
  }

  /** A Realm's rewritten chain is accepted exactly when all of the Realm's scores are finite. */
  lemma NewChainOk(cfg: Config, c: Content, realm: RealmId)
    requires KeysHex(c) && BirthsBelow(c, U64_MAX)
    requires LinesFit(cfg, ChainFor(cfg, RealmOps(c, realm))) && |RealmOps(c, realm)| <= U64_MAX
    ensures ChainOk(cfg, RealmSha(realm), ChainFor(cfg, RealmOps(c, realm))) <==> FiniteScoresIn(c, realm)
  {
    hide LinesFit, Ascending;
    var ops := RealmOps(c, realm);
    forall i | 0 <= i < |ops| ensures StampedOk(RealmSha(realm), ops[i]) {
      InRealmOps(c, realm, ops[i]);
    }
    ChainForOk(cfg, RealmSha(realm), ops);
    if FiniteScoresIn(c, realm) {
      forall i | 0 <= i < |ops| ensures Parses(ops[i].op) {
        InRealmOps(c, realm, ops[i]);
      }
    } else {
      var k :| k in c.entries && k.realm == realm && c.entries[k].reputation.Some?
               && !c.entries[k].reputation.value.score.Finite?;
      var e := Stamped(LogOp.Attest(k.realm, k.hash, c.entries[k].reputation.value), c.entries[k].firstSeen);
      assert k in Retained(c);
      InRealmOps(c, realm, e);
      var i :| 0 <= i < |ops| && ops[i] == e;
      assert !Parses(ops[i].op);
    }
  }

  lemma NewChainHistory(cfg: Config, c: Content, realm: RealmId)
    requires Disjoint(c) && KeysHex(c) && BirthsBelow(c, U64_MAX)
    ensures History(ChainFor(cfg, RealmOps(c, realm)))
  {
    var ops := RealmOps(c, realm);
    var log := ChainFor(cfg, ops);
    ReplayRealmOps(cfg, c, realm);
    forall rec | rec in log ensures Faithful(Replay(log), rec) {
      var i :| 0 <= i < |log| && log[i] == rec;
      ChainForRecord(cfg, ops, i);
      InRealmOps(c, realm, ops[i]);
      assert KeyOf(rec.op) in Shard(c, realm).entries || KeyOf(rec.op) in Shard(c, realm).tombstones;
    }
  }

  // ---- where a catalog row comes from ----

  ghost predicate Has(log: seq<LogRecord>, op: LogOp) {
    exists i :: 0 <= i < |log| && log[i].op == op
  }

  lemma HasFront(log: seq<LogRecord>, op: LogOp)
    requires log != [] && Has(log[..|log| - 1], op)
    ensures Has(log, op)
  {
    var i :| 0 <= i < |log| - 1 && log[..|log| - 1][i].op == op;
    assert log[i].op == op;
  }

  lemma HasLast(log: seq<LogRecord>)
    requires log != []
    ensures Has(log, log[|log| - 1].op)
  {
    assert log[|log| - 1].op == log[|log| - 1].op;
  }

  /** The op that last set each field of a live row is in the log. */
  lemma {:induction false} LiveSources(log: seq<LogRecord>, k: Key)
    requires k in Replay(log).entries
    ensures var l := Replay(log).entries[k];
            && Has(log, LogOp.Put(k.realm, k.hash, l.manifest))
            && (l.quarantine.Some? ==> Has(log, LogOp.Quarantine(k.realm, k.hash, l.quarantine.value)))
            && (l.reputation.Some? ==> Has(log, LogOp.Attest(k.realm, k.hash, l.reputation.value)))
  {
    var front, last := log[..|log| - 1], log[|log| - 1];
    var l := Replay(log).entries[k];
    HasLast(log);
    if k in Replay(front).entries {
      LiveSources(front, k);
      var l0 := Replay(front).entries[k];
      HasFront(log, LogOp.Put(k.realm, k.hash, l0.manifest));
      if l0.quarantine.Some? {
        HasFront(log, LogOp.Quarantine(k.realm, k.hash, l0.quarantine.value));
      }
      if l0.reputation.Some? {
        HasFront(log, LogOp.Attest(k.realm, k.hash, l0.reputation.value));
      }
    }
  }

  lemma {:induction false} TombSource(log: seq<LogRecord>, k: Key)
    requires k in Replay(log).tombstones
    ensures Has(log, LogOp.Tombstone(k.realm, k.hash))
  {
    HasLast(log);
    if k in Replay(log[..|log| - 1]).tombstones {
      TombSource(log[..|log| - 1], k);
      HasFront(log, LogOp.Tombstone(k.realm, k.hash));
    }
  }

  lemma DiskScoresFinite(cfg: Config, logs: Logs)
    requires LogsOk(cfg, logs)
    ensures FiniteScores(Meaning(logs))
  {
    var c := Meaning(logs);
    forall k | k in c.entries && c.entries[k].reputation.Some? ensures c.entries[k].reputation.value.score.Finite? {
      MeaningAt(logs, k);
      var log := logs[RealmSha(k.realm)];
      LiveSources(log, k);
      var i :| 0 <= i < |log| && log[i].op == LogOp.Attest(k.realm, k.hash, c.entries[k].reputation.value);
      assert RecordOk(cfg, RealmSha(k.realm), log, i);
    }
  }

  lemma CurateFinite(c: Content, d: Curator.Decisions)
    requires FiniteScores(c)
    ensures FiniteScores(Curator.Curate(c, d)) <==> Curator.FiniteDecisions(c, d)
  {
    var c' := Curator.Curate(c, d);
    if FiniteScores(c') {
      forall k | k in c.entries ensures Curator.FiniteDecision(Curator.DecisionFor(d, k)) {
        if Curator.DecisionFor(d, k) != Curator.Gc {
          assert k in c'.entries;
        }
      }
    } else {
      var k :| k in c'.entries && c'.entries[k].reputation.Some? && !c'.entries[k].reputation.value.score.Finite?;
      assert !Curator.FiniteDecision(Curator.DecisionFor(d, k));
    }
  }

  // ---- what curation does to a catalog ----

  /** Nothing is forgotten or revived, and the rows that stay live keep their birth orders. */
  ghost predicate Descends(c: Content, m: Content) {
    && Retained(m) == Retained(c)
    && c.tombstones <= m.tombstones
    && forall k | k in m.entries :: k in c.entries && m.entries[k].firstSeen == c.entries[k].firstSeen
  }

  lemma CurateDescends(c: Content, d: Curator.Decisions)
    requires Disjoint(c)
    ensures Descends(c, Curator.Curate(c, d)) && Disjoint(Curator.Curate(c, d))
  {
    var c' := Curator.Curate(c, d);
    forall k ensures k in Retained(c') <==> k in Retained(c) {
    }
  }

  /** The Realms of `done` as in `b`, all others as in `a`. */
  ghost function Mixed(a: Content, b: Content, done: set<RealmHash>): Content {
    Content(
      map k | k in a.entries.Keys + b.entries.Keys && k in (if RealmSha(k.realm) in done then b else a).entries ::
        (if RealmSha(k.realm) in done then b else a).entries[k],
      set k | k in a.tombstones + b.tombstones && k in (if RealmSha(k.realm) in done then b else a).tombstones)
  }

  lemma MixedDescends(c: Content, m: Content, done: set<RealmHash>)
    requires Descends(c, m)
    ensures Descends(c, Mixed(c, m, done))
  {
    var x := Mixed(c, m, done);
    forall k ensures k in Retained(x) <==> k in Retained(c) {
      assert k in Retained(m) <==> k in Retained(c);
    }
  }

  // ---- the rewritten disk ----

  ghost predicate RealmsNamed(realms: map<RealmHash, RealmId>, order: seq<RealmHash>) {
    forall rh | rh in order :: rh in realms && realms[rh] == rh.realm
  }

  lemma {:induction false} RewrittenAt(
    cfg: Config, c: Content, realms: map<RealmHash, RealmId>, logs: Logs, order: seq<RealmHash>, rh: RealmHash)
    ensures var logs' := Rewritten(cfg, c, realms, logs, order);
            && (rh in logs' <==> rh in logs || rh in order)
            && LogAt(logs', rh) == if rh in order then NewLog(cfg, c, realms, rh) else LogAt(logs, rh)
  {
    hide NewLog;
    if order != [] {
      RewrittenAt(cfg, c, realms, logs, order[..|order| - 1], rh);
      assert order == order[..|order| - 1] + [order[|order| - 1]];
    }
  }

  /** A half-finished rewrite means the curated catalog in the Realms done so far and the old one elsewhere. */
  lemma RewrittenMeaning(
    cfg: Config, c: Content, realms: map<RealmHash, RealmId>, logs: Logs, order: seq<RealmHash>)
    requires Disjoint(c) && KeysHex(c) && RealmsNamed(realms, order)
    ensures Meaning(Rewritten(cfg, c, realms, logs, order)) == Mixed(Meaning(logs), c, set rh | rh in order)
  {
    var logs' := Rewritten(cfg, c, realms, logs, order);
    var want := Mixed(Meaning(logs), c, set rh | rh in order);
    hide NewLog, Rewritten, RealmOps;
    forall k
      ensures k in Meaning(logs').entries <==> k in want.entries
      ensures k in Meaning(logs').entries && k in want.entries ==> Meaning(logs').entries[k] == want.entries[k]
      ensures k in Meaning(logs').tombstones <==> k in want.tombstones
    {
      RewrittenView(cfg, c, realms, logs, order, k.realm);
      MeaningAt(logs', k);
      MeaningAt(logs, k);
    }
    ContentExt(Meaning(logs'), want);
  }

  lemma RewrittenView(
    cfg: Config, c: Content, realms: map<RealmHash, RealmId>, logs: Logs, order: seq<RealmHash>, realm: RealmId)
    requires Disjoint(c) && KeysHex(c) && RealmsNamed(realms, order)
    ensures View(Rewritten(cfg, c, realms, logs, order), realm)
              == if RealmSha(realm) in order then Shard(c, realm) else View(logs, realm)
  {
    hide Rewritten, RealmOps, Shard;
    RewrittenAt(cfg, c, realms, logs, order, RealmSha(realm));
    ReplayRealmOps(cfg, c, realm);
  }

  lemma {:induction false} DryPassPrefix(
    cfg: Config, c: Content, realms: map<RealmHash, RealmId>, logs: Logs, total: nat, order: seq<RealmHash>, n: nat)
    requires DryPass(cfg, c, realms, logs, total, order).Ok? && n <= |order|
    ensures DryPass(cfg, c, realms, logs, total, order[..n]).Ok?
    ensures n < |order| ==>
              RewriteTotal(cfg, LogAt(logs, order[n]), NewLog(cfg, c, realms, order[n]),
                           PlannedTotal(cfg, c, realms, logs, total, order[..n])).Ok?
    decreases |order|
  {
    hide NewLog, RewriteTotal;
    if n == |order| {
      assert order[..n] == order;
    } else if n < |order| - 1 {
      var front := order[..|order| - 1];
      DryPassPrefix(cfg, c, realms, logs, total, front, n);
      assert front[..n] == order[..n];
    }
  }

  /** The planned totals of the dry pass are the totals the rewritten disk really has. */
  lemma {:induction false} RewrittenTotal(
    cfg: Config, c: Content, realms: map<RealmHash, RealmId>, logs: Logs, total: nat, order: seq<RealmHash>)
    requires total == LogTotal(cfg, logs)
    requires GrowthOk(0, total, cfg.maxLogBytes)
    requires forall i, j | 0 <= i < j < |order| :: order[i] != order[j]
    requires DryPass(cfg, c, realms, logs, total, order).Ok?
    ensures LogTotal(cfg, Rewritten(cfg, c, realms, logs, order)) == PlannedTotal(cfg, c, realms, logs, total, order)
    ensures GrowthOk(0, PlannedTotal(cfg, c, realms, logs, total, order), cfg.maxLogBytes)
  {
    hide NewLog, LogTotal, LinesFit;
    if order != [] {
      var front, rh := order[..|order| - 1], order[|order| - 1];
      RewrittenTotal(cfg, c, realms, logs, total, front);
      RewrittenAt(cfg, c, realms, logs, front, rh);
      LogTotalSet(cfg, Rewritten(cfg, c, realms, logs, front), rh, NewLog(cfg, c, realms, rh));
    }
  }

  lemma {:induction false} RewrittenHeads(
    cfg: Config, c: Content, realms: map<RealmHash, RealmId>, heads: map<RealmHash, Head>, logs: Logs, order: seq<RealmHash>)
    requires HeadsOk(heads, logs)
    ensures HeadsOk(NewHeads(cfg, c, realms, heads, order), Rewritten(cfg, c, realms, logs, order))
  {
    hide NewLog, HeadsOk;
    if order != [] {
      var front, rh := order[..|order| - 1], order[|order| - 1];
      RewrittenHeads(cfg, c, realms, heads, logs, front);
      HeadsSet(NewHeads(cfg, c, realms, heads, front), Rewritten(cfg, c, realms, logs, front), rh, NewLog(cfg, c, realms, rh));
    }
  }

  lemma RewrittenLogsOk(
    cfg: Config, c: Content, realms: map<RealmHash, RealmId>, logs: Logs, order: seq<RealmHash>)
    requires LogsOk(cfg, logs) && Histories(logs)
    requires Disjoint(c) && KeysHex(c) && BirthsBelow(c, U64_MAX) && FiniteScores(c)
    requires RealmsNamed(realms, order)
    requires forall rh | rh in order :: LinesFit(cfg, NewLog(cfg, c, realms, rh)) && |NewLog(cfg, c, realms, rh)| <= U64_MAX
    ensures LogsOk(cfg, Rewritten(cfg, c, realms, logs, order))
    ensures Histories(Rewritten(cfg, c, realms, logs, order))
  {
    var logs' := Rewritten(cfg, c, realms, logs, order);
    hide Rewritten, RealmOps, ChainOk, History, LinesFit;
    forall rh | rh in logs' ensures ChainOk(cfg, rh, logs'[rh]) && History(logs'[rh]) {
      RewrittenAt(cfg, c, realms, logs, order, rh);
      if rh in order {
        assert NewLog(cfg, c, realms, rh) == ChainFor(cfg, RealmOps(c, rh.realm));
        NewChainOk(cfg, c, rh.realm);
        NewChainHistory(cfg, c, rh.realm);
      }
    }
  }

  lemma DescendsDisk(cfg: Config, c: Content, m: Content, blobs: map<nat, Bytes>)
    requires Descends(c, m) && DistinctBirths(c) && BlobsOk(cfg, c, blobs) && Disjoint(m)
    ensures DistinctBirths(m) && BlobsOk(cfg, m, blobs) && Evolves(c, m)
  {
  }
}
