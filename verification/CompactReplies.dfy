/**
 * What compaction answers, exactly: which rewrites it refuses, that a refusal leaves the store serving and
 * untouched, what it counts, and that accounts which disagree with the directory stop the store.
 */
module CompactReplies {
  import opened Basics
  import opened Records
  import opened Catalog
  import opened Chain
  import opened Store
  import opened Invariant
  import opened Operations
  import opened Compaction
  import opened CompactionProofs
  import opened Effects
  import Curator

  /**
   * Every Realm's new chain has lines within the limit, and after each replacement the journal is within
   * its cap: what a dry pass over the Realms of `order` asks for.
   */
  ghost predicate RewriteFits(
    cfg: Config, c: Content, realms: map<RealmHash, RealmId>, logs: Logs, order: seq<RealmHash>)
  {
    forall i | 0 <= i < |order| :: RealmFits(cfg, c, realms, logs, order, i)
  }

  ghost predicate RealmFits(
    cfg: Config, c: Content, realms: map<RealmHash, RealmId>, logs: Logs, order: seq<RealmHash>, i: nat)
    requires i < |order|
  {
    var log := NewLog(cfg, c, realms, order[i]);
    && LinesFit(cfg, log) && |log| <= U64_MAX
    && GrowthOk(0, LogTotal(cfg, Rewritten(cfg, c, realms, logs, order[..i + 1])), cfg.maxLogBytes)
  }

  lemma FitsPrefix(cfg: Config, c: Content, realms: map<RealmHash, RealmId>, logs: Logs, order: seq<RealmHash>)
    requires order != []
    ensures var n := |order| - 1;
            RewriteFits(cfg, c, realms, logs, order) <==>
              RewriteFits(cfg, c, realms, logs, order[..n]) && RealmFits(cfg, c, realms, logs, order, n)
  {
    hide NewLog, LogTotal, Rewritten, LinesFit;
    var front := order[..|order| - 1];
    forall i | 0 <= i < |front|
      ensures RealmFits(cfg, c, realms, logs, front, i) <==> RealmFits(cfg, c, realms, logs, order, i)
    {
      assert front[..i + 1] == order[..i + 1];
    }
    if RewriteFits(cfg, c, realms, logs, order) {
      assert RealmFits(cfg, c, realms, logs, order, |order| - 1);
      forall i | 0 <= i < |front|
        ensures RealmFits(cfg, c, realms, logs, front, i)
      {
        assert RealmFits(cfg, c, realms, logs, order, i);
      }
    }
  }

  /** The dry pass succeeds exactly on rewrites that fit, and otherwise answers that a limit is reached. */
  lemma {:induction false} DryPassIff(
    cfg: Config, c: Content, realms: map<RealmHash, RealmId>, logs: Logs, order: seq<RealmHash>)
    requires GrowthOk(0, LogTotal(cfg, logs), cfg.maxLogBytes)
    requires forall i, j | 0 <= i < j < |order| :: order[i] != order[j]
    ensures var r := DryPass(cfg, c, realms, logs, LogTotal(cfg, logs), order);
            (r.Ok? <==> RewriteFits(cfg, c, realms, logs, order)) && (r.Err? ==> r.error == Limit)
  {
    hide NewLog, LogTotal, Rewritten, LinesFit, RewriteFits;
    if order == [] {
      assert RewriteFits(cfg, c, realms, logs, order) by { NothingFits(cfg, c, realms, logs); }
    } else {
      var (n, total) := (|order| - 1, LogTotal(cfg, logs));
      var (front, rh) := (order[..n], order[n]);
      DryPassIff(cfg, c, realms, logs, front);
      FitsPrefix(cfg, c, realms, logs, order);
      if DryPass(cfg, c, realms, logs, total, front).Ok? {
        RewrittenTotal(cfg, c, realms, logs, total, front);
        OneMoreRealm(cfg, c, realms, logs, order);
        assert order[..n + 1] == order;
      }
    }
  }

  lemma NothingFits(cfg: Config, c: Content, realms: map<RealmHash, RealmId>, logs: Logs)
    ensures RewriteFits(cfg, c, realms, logs, [])
  {
  }

  /** One more replacement: the old file was part of the total, and the new one takes its place. */
  lemma OneMoreRealm(cfg: Config, c: Content, realms: map<RealmHash, RealmId>, logs: Logs, order: seq<RealmHash>)
    requires order != [] && forall i, j | 0 <= i < j < |order| :: order[i] != order[j]
    ensures var (front, rh) := (order[..|order| - 1], order[|order| - 1]);
            var total := LogTotal(cfg, Rewritten(cfg, c, realms, logs, front));
            && LogBytes(cfg, LogAt(logs, rh)) <= total
            && LogTotal(cfg, Rewritten(cfg, c, realms, logs, order)) ==
               total - LogBytes(cfg, LogAt(logs, rh)) + LogBytes(cfg, NewLog(cfg, c, realms, rh))
  {
    hide NewLog, LogTotal;
    var (front, rh) := (order[..|order| - 1], order[|order| - 1]);
    RewrittenAt(cfg, c, realms, logs, front, rh);
    LogTotalAtLeast(cfg, Rewritten(cfg, c, realms, logs, front), rh);
    LogTotalSet(cfg, Rewritten(cfg, c, realms, logs, front), rh, NewLog(cfg, c, realms, rh));
  }

  /** What a completed compaction counts. */
  ghost predicate Counted(c: Content, c': Content, blobs: map<nat, Bytes>, blobs': map<nat, Bytes>,
                          d: Curator.Decisions, stats: CompactStats) {
    && stats.scanned == |c.entries|
    && stats.gc == |c'.tombstones| - |c.tombstones|
    && stats.quarantined == |set k | k in c.entries && k in d && d[k].Quarantine?|
    && stats.blobsRemoved == |blobs| - |blobs'|
  }

  /**
   * A rewrite that does not fit is refused as a limit and changes nothing; the store goes on serving. One
   * that fits succeeds, unless the disk fails, which stops the store. No other answer is possible.
   */
  ghost predicate CompactAnswers(
    cfg: Config, s: State, d: Curator.Decisions, order: seq<RealmHash>, fault: CompactFault,
    s': State, r: Result<CompactStats>)
  {
    var c := Meaning(s.logs);
    if !RewriteFits(cfg, Curator.Curate(c, d), s.realms, s.logs, order) then r == Err(Limit) && s' == s
    else if (fault.FailsAt? && fault.done < |order|) || fault.FailsInGc? then r == Err(Io) && !s'.healthy
    else r.Ok? && s'.healthy && Counted(c, s'.content, s.blobs, s'.blobs, d, r.value)
  }

  lemma JournalWithin(cfg: Config, s: State)
    requires Inv(cfg, s) && s.healthy
    ensures s.journalBytes == LogTotal(cfg, s.logs) && GrowthOk(0, s.journalBytes, cfg.maxLogBytes)
  {
  }

  lemma CuratedTombstones(c: Content, d: Curator.Decisions)
    requires Disjoint(c)
    ensures |Curator.Curate(c, d).tombstones| == |c.tombstones| + |Curator.Collected(c, d)|
    ensures Curator.Isolated(c, d) == set k | k in c.entries && k in d && d[k].Quarantine?
  {
    assert c.tombstones !! Curator.Collected(c, d);
  }

  lemma SweptCount(c: Content, blobs: map<nat, Bytes>)
    ensures |Orphans(c, blobs)| == |blobs| - |blobs - Orphans(c, blobs)|
  {
    hide References;
    var gone := Orphans(c, blobs);
    assert (blobs - gone).Keys + gone == blobs.Keys && (blobs - gone).Keys !! gone;
    assert |blobs - gone| == |(blobs - gone).Keys| && |blobs| == |blobs.Keys|;
  }

  /** The reply of a compaction that was rehearsed and whose disk does not fail. */
  lemma CompletedStats(cfg: Config, s: State, d: Curator.Decisions, order: seq<RealmHash>, fault: CompactFault)
    requires Rehearsed(cfg, s, d, order) && !fault.FailsInGc? && (fault.FailsAt? ==> fault.done >= |order|)
    ensures var (c, r) := (Curator.Curate(s.content, d), Compact(cfg, s, d, order, fault).1);
            r.Ok? ==> r.value == CompactStats(|s.content.entries|, |Curator.Collected(s.content, d)|,
                                              |Curator.Isolated(s.content, d)|, |Orphans(c, s.blobs)|)
  {
    hide Inv, DryPass, Curator.Curate, Curator.Collected, Curator.Isolated, ScanBlobs, BlobTotal, Orphans, Rewritten,
         NewHeads, PlannedTotal;
  }

  lemma CompactReplies(cfg: Config, s: State, d: Curator.Decisions, order: seq<RealmHash>, fault: CompactFault)
    requires Inv(cfg, s) && s.healthy && Enumerates(order, s.realms.Keys)
    ensures var (s', r) := Compact(cfg, s, d, order, fault); CompactAnswers(cfg, s, d, order, fault, s', r)
  {
    hide Inv, Meaning, DryPass, Curator.Curate, Curator.Collected, Curator.Isolated, RewriteFits, Sweep, Staged,
         Interrupted, Finished, Orphans;
    var c := Curator.Curate(s.content, d);
    HealthyContent(cfg, s);
    JournalWithin(cfg, s);
    DryPassIff(cfg, c, s.realms, s.logs, order);
    if Rehearsed(cfg, s, d, order) {
      if fault.FailsAt? && fault.done < |order| {
        InterruptedStops(cfg, s, c, order, fault);
      } else {
        CompactValue(cfg, s, d, order, fault);
        if !fault.FailsInGc? {
          CompletedStats(cfg, s, d, order, fault);
          InvDisjoint(cfg, s);
          CuratedTombstones(s.content, d);
          SweptCount(c, s.blobs);
          FinishedIs(cfg, s, c, order);
        }
      }
    }
  }

  lemma InterruptedStops(cfg: Config, s: State, c: Content, order: seq<RealmHash>, fault: CompactFault)
    requires fault.FailsAt? && fault.done < |order|
    ensures !Interrupted(cfg, s, c, order, fault).healthy
  {
    hide Staged;
  }

  lemma FinishedIs(cfg: Config, s: State, c: Content, order: seq<RealmHash>)
    ensures var s' := Finished(cfg, s, c, order, Orphans(c, s.blobs));
            s'.content == c && s'.blobs == s.blobs - Orphans(c, s.blobs) && s'.healthy == s.healthy
  {
  }

  /**
   * On any store at all: if the accounts of the blobs disagree with the directory, or the journal's are
   * smaller than a file in it, compaction does not succeed; and an answer of corruption stops the store.
   */
  lemma BadAccountsStop(cfg: Config, s: State, d: Curator.Decisions, order: seq<RealmHash>, fault: CompactFault)
    ensures var (s', r) := Compact(cfg, s, d, order, fault);
            && (r == Err(Corrupt) ==> !s'.healthy)
            && (ScanBlobs(cfg, s.blobs) != Ok((s.blobBytes, s.blobCount)) ==> r.Err?)
            && (order != [] && s.journalBytes < LogBytes(cfg, LogAt(s.logs, order[0])) ==> r.Err?)
            && (r.Err? && r != Err(Limit) ==> !s'.healthy)
  {
    hide Curator.Curate, Curator.Collected, Curator.Isolated, ScanBlobs, NewLog, RewriteTotal, LogBytes, DryPass, Sweep,
         Interrupted, Staged;
    var c := Curator.Curate(s.content, d);
    DryPassErrors(cfg, c, s.realms, s.logs, s.journalBytes, order);
    if order != [] {
      SmallTotalRefused(cfg, c, s.realms, s.logs, s.journalBytes, order);
    }
    if fault.FailsAt? && fault.done < |order| {
      InterruptedStops(cfg, s, c, order, fault);
    }
    BadBlobsStop(cfg, Staged(cfg, s, c, order), fault);
    StagedBlobs(cfg, s, c, order);
  }

  lemma StagedBlobs(cfg: Config, s: State, c: Content, order: seq<RealmHash>)
    ensures var s' := Staged(cfg, s, c, order);
            s'.blobs == s.blobs && s'.blobBytes == s.blobBytes && s'.blobCount == s.blobCount
  {
  }

  lemma BadBlobsStop(cfg: Config, s: State, fault: CompactFault)
    ensures var (s', r) := Sweep(cfg, s, fault);
            && (r.Err? ==> !s'.healthy)
            && (ScanBlobs(cfg, s.blobs) != Ok((s.blobBytes, s.blobCount)) ==> r.Err?)
  {
    hide ScanBlobs, BlobTotal, Unlinked;
  }

  lemma {:induction false} DryPassErrors(
    cfg: Config, c: Content, realms: map<RealmHash, RealmId>, logs: Logs, total: nat, order: seq<RealmHash>)
    ensures var r := DryPass(cfg, c, realms, logs, total, order); r.Err? ==> r.error == Corrupt || r.error == Limit
  {
    hide NewLog, LogBytes;
    if order != [] {
      DryPassErrors(cfg, c, realms, logs, total, order[..|order| - 1]);
    }
  }

  lemma {:induction false} SmallTotalRefused(
    cfg: Config, c: Content, realms: map<RealmHash, RealmId>, logs: Logs, total: nat, order: seq<RealmHash>)
    requires order != []
    ensures total < LogBytes(cfg, LogAt(logs, order[0])) ==> DryPass(cfg, c, realms, logs, total, order).Err?
  {
    hide NewLog, LogBytes;
    if |order| == 1 {
      assert order[..0] == [];
    } else {
      SmallTotalRefused(cfg, c, realms, logs, total, order[..|order| - 1]);
    }
  }
}
