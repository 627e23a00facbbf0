/** Recovery: what it accepts, what it rebuilds, and that it rebuilds what memory already held. */
module Recovery {
  import opened Basics
  import opened Records
  import opened Catalog
  import opened Chain
  import opened Store
  import opened Invariant
  import opened Operations

  function LogMax(log: seq<LogRecord>): nat {
    if log == [] then 0 else Max(LogMax(log[..|log| - 1]), log[|log| - 1].firstSeen)
  }

  function BirthMaxima(logs: Logs): map<RealmHash, nat> {
    map rh | rh in logs :: LogMax(logs[rh])
  }

  ghost function LogsMax(logs: Logs): nat {
    MaxOf(BirthMaxima(logs))
  }

  function RecordCounts(logs: Logs): map<RealmHash, nat> {
    map rh | rh in logs :: |logs[rh]|
  }

  ghost function RecordCount(logs: Logs): nat {
    Total(RecordCounts(logs))
  }

  function RealmNames(logs: Logs): map<RealmHash, RealmId> {
    map rh | rh in logs && logs[rh] != [] :: rh.realm
  }

  function HeadsFor(logs: Logs): map<RealmHash, Head> {
    map rh | rh in logs :: HeadOf(logs[rh])
  }

  /** Exactly what recovery demands of a directory. */
  ghost predicate Acceptable(cfg: Config, logs: Logs, blobs: map<nat, Bytes>) {
    && ScanBlobs(cfg, blobs).Ok?
    && GrowthOk(0, LogTotal(cfg, logs), cfg.maxLogBytes)
    && WithinCap(|logs|, cfg.maxEntries)
    && LogsOk(cfg, logs)
    && WithinCap(|Retained(Meaning(logs))|, cfg.maxEntries)
  }

  /** The memory a successful recovery installs. */
  ghost function Recovered(cfg: Config, s: State): State {
    State(
      Meaning(s.logs),
      RealmNames(s.logs),
      HeadsFor(s.logs),
      if LogsMax(s.logs) + 1 > U64_MAX then U64_MAX else LogsMax(s.logs) + 1,
      LogTotal(cfg, s.logs),
      BlobTotal(s.blobs),
      |s.blobs|,
      true,
      s.logs,
      s.blobs,
      s.torn)
  }

  /**
   * Recovery is fail-closed: a refusal changes nothing but latches the store. A fragment of a line is
   * no record, so a torn file is refused.
   */
  ghost function Recover(cfg: Config, s: State): State {
    if Acceptable(cfg, s.logs, s.blobs) && s.torn !! s.logs.Keys then Recovered(cfg, s) else s.(healthy := false)
  }

  /** A store reopened on a directory forgets everything, and serves only if the directory is empty. */
  function Reopen(s: State): State {
    State(NOTHING, map[], map[], 0, 0, 0, 0, s.logs == map[] && s.blobs == map[], s.logs, s.blobs, s.torn)
  }

  // ---- birth orders ----

  lemma {:induction false} LogMaxBelow(log: seq<LogRecord>, b: nat)
    requires 0 < b && forall rec | rec in log :: rec.firstSeen < b
    ensures LogMax(log) < b
  {
    if log != [] {
      assert log[|log| - 1] in log;
      LogMaxBelow(log[..|log| - 1], b);
    }
  }

  /** A live row's birth order is carried by a record of its log. */
  lemma {:induction false} BirthInLog(log: seq<LogRecord>, k: Key)
    requires k in Replay(log).entries
    ensures Replay(log).entries[k].firstSeen <= LogMax(log)
  {
    var front, last := log[..|log| - 1], log[|log| - 1];
    if k in Replay(front).entries {
      BirthInLog(front, k);
    }
  }

  lemma RecoveredBirths(logs: Logs)
    requires Histories(logs)
    ensures BirthsBelow(Meaning(logs), LogsMax(logs) + 1)
    ensures LogsMax(logs) + 1 <= U64_MAX
  {
    forall k | k in Meaning(logs).entries ensures Meaning(logs).entries[k].firstSeen < LogsMax(logs) + 1 {
      MeaningAt(logs, k);
      BirthInLog(logs[RealmSha(k.realm)], k);
      MaxOfRemove(BirthMaxima(logs), RealmSha(k.realm));
    }
    forall rh | rh in logs ensures LogMax(logs[rh]) < U64_MAX {
      forall rec | rec in logs[rh] ensures rec.firstSeen < U64_MAX {
        assert Faithful(Replay(logs[rh]), rec);
      }
      LogMaxBelow(logs[rh], U64_MAX);
    }
    MaxOfBelow(BirthMaxima(logs), U64_MAX);
  }

  lemma RecoveredHeads(cfg: Config, s: State)
    ensures HeadsOk(Recovered(cfg, s).heads, s.logs)
  {
    hide Meaning, LogTotal;
    forall rh ensures HeadAt(Recovered(cfg, s).heads, rh) == HeadOf(LogAt(s.logs, rh)) {
    }
  }

  /** From a well-formed disk, recovery restores the whole invariant. */
  lemma RecoverKeeps(cfg: Config, s: State)
    requires Inv(cfg, s)
    ensures Keeps(cfg, s, Recover(cfg, s))
  {
    hide Meaning, LogTotal, BlobTotal, LogsOk, Histories, DistinctBirths, BlobsOk, HeadsOk, BirthsBelow, LogsMax, Acceptable, CapsOk;
    RecoveredHeads(cfg, s);
    RecoveredBirths(s.logs);
  }

  lemma ReopenKeeps(cfg: Config, s: State)
    requires Inv(cfg, s)
    ensures Keeps(cfg, s, Reopen(s))
  {
    hide LogsOk, Histories, DistinctBirths, BlobsOk, CapsOk;
    if s.logs == map[] {
      assert AllKeys(s.logs) == {};
      assert Meaning(s.logs) == NOTHING;
      assert LogSizes(cfg, s.logs) == map[];
    }
    if s.blobs == map[] {
      assert BlobSizes(s.blobs) == map[];
    }
  }

  // ---- acceptance ----

  /**
   * On any disk the store can leave behind, under any faults, recovery accepts exactly when the
   * number of Realm files is within the key cap. (An append that fails while opening a Realm's first
   * file can leave it empty, so files can outnumber keys.)
   */
  lemma AcceptsIffFilesFit(cfg: Config, s: State)
    requires Inv(cfg, s)
    ensures Acceptable(cfg, s.logs, s.blobs) <==> WithinCap(|s.logs|, cfg.maxEntries)
  {
    hide Meaning, LogTotal, BlobTotal, LogsOk, Histories, DistinctBirths, BlobsOk, MemInv;
  }

  /** No empty Realm file, and no blob that was never a retained key's artifact. */
  ghost predicate Tidy(logs: Logs, blobs: map<nat, Bytes>) {
    && (forall rh | rh in logs :: logs[rh] != [])
    && (forall h | h in blobs :: Kept(Meaning(logs), h))
  }

  ghost predicate Kept(c: Content, h: nat) {
    exists k | k in Retained(c) :: k.hash == Hex(h)
  }

  lemma {:induction false} RealmImage(ks: set<Key>, image: set<RealmHash>)
    requires forall rh | rh in image :: exists k | k in ks :: RealmSha(k.realm) == rh
    ensures |image| <= |ks|
    decreases |ks|
  {
    if image != {} {
      var rh :| rh in image;
      var k :| k in ks && RealmSha(k.realm) == rh;
      forall r | r in image - {rh} ensures exists q | q in ks - {k} :: RealmSha(q.realm) == r {
        var q :| q in ks && RealmSha(q.realm) == r;
        assert q in ks - {k};
      }
      RealmImage(ks - {k}, image - {rh});
    }
  }

  lemma {:induction false} HashImage(ks: set<Key>, image: set<nat>)
    requires forall h | h in image :: exists k | k in ks :: k.hash == Hex(h)
    ensures |image| <= |ks|
    decreases |ks|
  {
    if image != {} {
      var h :| h in image;
      var k :| k in ks && k.hash == Hex(h);
      forall r | r in image - {h} ensures exists q | q in ks - {k} :: q.hash == Hex(r) {
        var q :| q in ks && q.hash == Hex(r);
        assert q in ks - {k};
      }
      HashImage(ks - {k}, image - {h});
    }
  }

  /** On a tidy disk neither Realm files nor blob files outnumber the retained keys. */
  lemma TidyCounts(cfg: Config, s: State)
    requires Inv(cfg, s) && Tidy(s.logs, s.blobs)
    ensures |s.logs| <= |Retained(Meaning(s.logs))|
    ensures |s.blobs| <= |Retained(Meaning(s.logs))|
  {
    hide Meaning, DistinctBirths, BlobsOk, MemInv, CapsOk;
    var ks := Retained(Meaning(s.logs));
    forall rh | rh in s.logs.Keys ensures exists k | k in ks :: RealmSha(k.realm) == rh {
      var log := s.logs[rh];
      assert RecordOk(cfg, rh, log, 0);
      assert Faithful(Replay(log), log[0]);
      MeaningAt(s.logs, KeyOf(log[0].op));
      assert KeyOf(log[0].op) in ks;
    }
    RealmImage(ks, s.logs.Keys);
    forall h | h in s.blobs.Keys ensures exists k | k in ks :: k.hash == Hex(h) {
      assert Kept(Meaning(s.logs), h);
    }
    HashImage(ks, s.blobs.Keys);
  }

  /** With the same key and caps, recovery accepts every tidy disk. */
  lemma TidyAccepted(cfg: Config, s: State)
    requires Inv(cfg, s) && Tidy(s.logs, s.blobs)
    ensures Acceptable(cfg, s.logs, s.blobs)
  {
    hide Meaning, LogTotal, BlobTotal, LogsOk, Histories, DistinctBirths, BlobsOk, MemInv, Tidy;
    TidyCounts(cfg, s);
    AcceptsIffFilesFit(cfg, s);
  }

  // ---- replay refines memory ----

  /** Replaying whole Realm files from nothing, in the given order. */
  function ReplayAll(logs: Logs, order: seq<RealmHash>): Content
    requires forall rh | rh in order :: rh in logs
  {
    if order == [] then NOTHING
    else ReplayFrom(ReplayAll(logs, order[..|order| - 1]), logs[order[|order| - 1]])
  }

  lemma {:induction false} ReplayAllIsMeaning(logs: Logs, order: seq<RealmHash>)
    requires forall rh | rh in order :: rh in logs && OwnRealm(rh, logs[rh])
    requires forall i, j | 0 <= i < j < |order| :: order[i] != order[j]
    ensures ReplayAll(logs, order) == Meaning(map rh | rh in order :: logs[rh])
  {
    var done := map rh | rh in order :: logs[rh];
    if order == [] {
      assert done == map[];
      assert AllKeys(done) == {};
    } else {
      var front, rh := order[..|order| - 1], order[|order| - 1];
      var before := map r | r in front :: logs[r];
      assert order == front + [rh];
      assert done == before[rh := logs[rh]];
      ReplayAllIsMeaning(logs, front);
      MeaningAddRealm(before, rh, logs[rh]);
    }
  }

  lemma ChainOwnRealm(cfg: Config, rh: RealmHash, log: seq<LogRecord>)
    requires ChainOk(cfg, rh, log)
    ensures OwnRealm(rh, log)
  {
    forall i | 0 <= i < |log| ensures log[i].op.realm == rh.realm {
      assert RecordOk(cfg, rh, log, i);
    }
  }

  /** The catalog a recovery rebuilds does not depend on the order of the Realm files. */
  lemma AnyOrderReplays(cfg: Config, logs: Logs, order: seq<RealmHash>)
    requires LogsOk(cfg, logs) && Enumerates(order, logs.Keys)
    ensures ReplayAll(logs, order) == Meaning(logs)
  {
    forall rh | rh in order ensures rh in logs && OwnRealm(rh, logs[rh]) {
      ChainOwnRealm(cfg, rh, logs[rh]);
    }
    ReplayAllIsMeaning(logs, order);
    assert (map rh | rh in order :: logs[rh]) == logs;
  }

  /** Two states whose catalogs, Realm names, heads and accounting are the same. */
  ghost predicate SameMemory(a: State, b: State) {
    && a.content == b.content
    && a.realms == b.realms
    && (forall rh :: HeadAt(a.heads, rh) == HeadAt(b.heads, rh))
    && a.journalBytes == b.journalBytes
    && a.blobBytes == b.blobBytes
    && a.blobCount == b.blobCount
  }

  /**
   * Replaying the logs from empty, one Realm file after another, rebuilds exactly the memory of a
   * healthy store; the next birth order it picks exceeds every live one.
   */
  lemma ReplayRefinesMemory(cfg: Config, s: State)
    requires Inv(cfg, s) && s.healthy
    ensures SameMemory(Recovered(cfg, s), s)
    ensures forall order | Enumerates(order, s.logs.Keys) :: ReplayAll(s.logs, order) == s.content
    ensures BirthsBelow(s.content, Recovered(cfg, s).nextFirstSeen)
  {
    hide Meaning, LogTotal, BlobTotal, LogsOk, DistinctBirths, BlobsOk, LogsMax, CapsOk;
    var r := Recovered(cfg, s);
    assert r.realms == s.realms;
    forall order | Enumerates(order, s.logs.Keys) ensures ReplayAll(s.logs, order) == s.content {
      AnyOrderReplays(cfg, s.logs, order);
    }
    RecoveredHeads(cfg, s);
    RecoveredBirths(s.logs);
    forall rh ensures HeadAt(r.heads, rh) == HeadAt(s.heads, rh) {
      assert HeadAt(s.heads, rh) == HeadOf(LogAt(s.logs, rh));
      assert HeadAt(r.heads, rh) == HeadOf(LogAt(s.logs, rh));
    }
  }
}
