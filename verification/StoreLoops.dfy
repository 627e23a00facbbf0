/** The store's loops over values it has already read: directory scans, chain building, curation and replay. */
module StoreLoops {
  import opened Basics
  import opened Records
  import opened Catalog
  import opened Chain
  import opened Store
  import opened Invariant
  import opened Compaction
  import opened Recovery
  import Curator

  // ---- scanning the blob directory ----

  /** Add up the blob directory file by file, refusing as soon as a running total passes its cap. */
  method ScanBlobUsage(cfg: Config, blobs: map<nat, Bytes>) returns (r: Result<(nat, nat)>)
    ensures r == ScanBlobs(cfg, blobs)
  {
    var todo := blobs.Keys;
    var bytes: nat, count: nat := 0, 0;
    hide ScanBlobs, BlobTotal, BytesIn;
    AllBytes(blobs);
    while todo != {}
      invariant todo <= blobs.Keys
      invariant bytes + BytesIn(blobs, todo) == BlobTotal(blobs) && count + |todo| == |blobs|
      invariant GrowthOk(0, bytes, cfg.maxBlobBytes) && WithinCap(count, cfg.maxEntries)
      decreases todo
    {
      var h :| h in todo;
      BytesInRemove(blobs, todo, h);
      ScanVerdict(cfg, blobs, bytes + |blobs[h]|, count + 1);
      if !GrowthOk(bytes, |blobs[h]|, cfg.maxBlobBytes) {
        return Err(Limit);
      }
      bytes := bytes + |blobs[h]|;
      count := count + 1;
      if !WithinCap(count, cfg.maxEntries) {
        return Err(Limit);
      }
      todo := todo - {h};
    }
    ScanVerdict(cfg, blobs, bytes, count);
    return Ok((bytes, count));
  }

  function SizesIn(blobs: map<nat, Bytes>, todo: set<nat>): map<nat, nat> {
    map h | h in todo && h in blobs :: |blobs[h]|
  }

  ghost function BytesIn(blobs: map<nat, Bytes>, todo: set<nat>): nat {
    Total(SizesIn(blobs, todo))
  }

  lemma AllBytes(blobs: map<nat, Bytes>)
    ensures BytesIn(blobs, blobs.Keys) == BlobTotal(blobs) && BytesIn(blobs, {}) == 0
  {
    assert SizesIn(blobs, blobs.Keys) == BlobSizes(blobs);
    assert SizesIn(blobs, {}) == map[];
  }

  lemma BytesInRemove(blobs: map<nat, Bytes>, todo: set<nat>, h: nat)
    requires h in todo && h in blobs
    ensures BytesIn(blobs, todo) == |blobs[h]| + BytesIn(blobs, todo - {h})
  {
    TotalRemove(SizesIn(blobs, todo), h);
    assert SizesIn(blobs, todo) - {h} == SizesIn(blobs, todo - {h});
  }

  lemma ScanVerdict(cfg: Config, blobs: map<nat, Bytes>, bytes: nat, count: nat)
    requires bytes <= BlobTotal(blobs) && count <= |blobs|
    ensures var ok := GrowthOk(0, bytes, cfg.maxBlobBytes) && WithinCap(count, cfg.maxEntries);
            && (!ok ==> ScanBlobs(cfg, blobs) == Err(Limit))
            && (ok && bytes == BlobTotal(blobs) && count == |blobs| ==> ScanBlobs(cfg, blobs) == Ok((bytes, count)))
  {
  }

  // ---- building a compaction buffer ----

  /** The chain for `ops` respects the line limit, the sequence width and the byte budget. */
  ghost predicate ChainFits(cfg: Config, ops: seq<Stamped>, budget: Option<nat>) {
    var log := ChainFor(cfg, ops);
    && LinesFit(cfg, log) && |log| <= U64_MAX
    && LogBytes(cfg, log) <= U64_MAX
    && (budget.Some? ==> LogBytes(cfg, log) <= budget.value)
  }

  lemma {:induction false} LogBytesPrefix(cfg: Config, log: seq<LogRecord>, n: nat)
    requires n <= |log|
    ensures LogBytes(cfg, log[..n]) <= LogBytes(cfg, log)
  {
    if n < |log| {
      LogBytesPrefix(cfg, log[..|log| - 1], n);
      assert log[..|log| - 1][..n] == log[..n];
    } else {
      assert log[..n] == log;
    }
  }

  /** If some prefix of the ops does not fit, neither do the ops. */
  lemma ChainFitsPrefix(cfg: Config, ops: seq<Stamped>, n: nat, budget: Option<nat>)
    requires n <= |ops|
    ensures ChainFits(cfg, ops, budget) ==> ChainFits(cfg, ops[..n], budget)
  {
    if ChainFits(cfg, ops, budget) {
      var log := ChainFor(cfg, ops);
      ChainForAt(cfg, ops, n);
      LogBytesPrefix(cfg, log, n);
      forall i | 0 <= i < n ensures LineBytes(cfg, log[..n][i]) <= MAX_RECORD_BYTES {
        assert log[..n][i] == log[i];
      }
    }
  }

  lemma LinesFitNext(cfg: Config, log: seq<LogRecord>, rec: LogRecord)
    ensures LinesFit(cfg, log + [rec]) <==> LinesFit(cfg, log) && LineBytes(cfg, rec) <= MAX_RECORD_BYTES
  {
    hide LineBytes;
    if LinesFit(cfg, log + [rec]) {
      assert (log + [rec])[|log|] == rec;
      forall i | 0 <= i < |log| ensures LineBytes(cfg, log[i]) <= MAX_RECORD_BYTES {
        assert (log + [rec])[i] == log[i];
      }
    }
  }

  lemma ChainForNext(cfg: Config, ops: seq<Stamped>, e: Stamped)
    ensures var log := ChainFor(cfg, ops);
            var rec := BuildRecord(cfg, |log|, TipOf(log), e.op, e.firstSeen);
            && ChainFor(cfg, ops + [e]) == log + [rec]
            && LogBytes(cfg, log + [rec]) == LogBytes(cfg, log) + LineBytes(cfg, rec)
            && (LinesFit(cfg, log + [rec]) <==> LinesFit(cfg, log) && LineBytes(cfg, rec) <= MAX_RECORD_BYTES)
  {
    hide LineBytes, LinesFit, BuildRecord, TipOf;
    var log := ChainFor(cfg, ops);
    var rec := BuildRecord(cfg, |log|, TipOf(log), e.op, e.firstSeen);
    assert (ops + [e])[..|ops|] == ops;
    assert (log + [rec])[..|log|] == log;
    LinesFitNext(cfg, log, rec);
  }

  lemma ChainFitsNext(cfg: Config, ops: seq<Stamped>, e: Stamped, budget: Option<nat>)
    requires ChainFits(cfg, ops, budget)
    ensures var log := ChainFor(cfg, ops);
            var rec := BuildRecord(cfg, |log|, TipOf(log), e.op, e.firstSeen);
            && ChainFor(cfg, ops + [e]) == log + [rec]
            && LogBytes(cfg, log + [rec]) == LogBytes(cfg, log) + LineBytes(cfg, rec)
            && (ChainFits(cfg, ops + [e], budget) <==>
                  && LineBytes(cfg, rec) <= MAX_RECORD_BYTES
                  && LogBytes(cfg, log) + LineBytes(cfg, rec) <= U64_MAX
                  && (budget.Some? ==> LogBytes(cfg, log) + LineBytes(cfg, rec) <= budget.value)
                  && |log| + 1 <= U64_MAX)
  {
    hide ChainFor, LogBytes, LinesFit, LineBytes;
    ChainForNext(cfg, ops, e);
  }

  /** Encode one key's records onto the buffer, checking every limit before it grows. */
  method PushRecords(
    cfg: Config, buffer: seq<LogRecord>, bytes: nat, ops: seq<Stamped>, budget: Option<nat>, ghost done: seq<Stamped>)
    returns (ok: bool, buffer': seq<LogRecord>, bytes': nat)
    requires ChainFits(cfg, done, budget) && buffer == ChainFor(cfg, done) && bytes == LogBytes(cfg, buffer)
    ensures ok <==> ChainFits(cfg, done + ops, budget)
    ensures ok ==> buffer' == ChainFor(cfg, done + ops) && bytes' == LogBytes(cfg, buffer')
  {
    hide LogBytes, ChainFor, LineBytes, LinesFit;
    buffer', bytes' := buffer, bytes;
    var i := 0;
    assert done + ops[..0] == done;
    while i < |ops|
      invariant 0 <= i <= |ops|
      invariant ChainFits(cfg, done + ops[..i], budget)
      invariant buffer' == ChainFor(cfg, done + ops[..i]) && bytes' == LogBytes(cfg, buffer')
    {
      ghost var sofar := done + ops[..i];
      ChainFitsNext(cfg, sofar, ops[i], budget);
      assert sofar + [ops[i]] == done + ops[..i + 1];
      var rec := BuildRecord(cfg, |buffer'|, TipOf(buffer'), ops[i].op, ops[i].firstSeen);
      var line := LineBytes(cfg, rec);
      if line > MAX_RECORD_BYTES || bytes' + line > U64_MAX || (budget.Some? && bytes' + line > budget.value)
         || |buffer'| + 1 > U64_MAX {
        ChainFitsPrefix(cfg, done + ops, |done| + i + 1, budget);
        assert (done + ops)[..|done| + i + 1] == done + ops[..i + 1];
        return false, buffer', bytes';
      }
      buffer', bytes' := buffer' + [rec], bytes' + line;
      i := i + 1;
    }
    assert done + ops[..i] == done + ops;
    return true, buffer', bytes';
  }

  lemma {:induction false} OpsForLiveConcat(c: Content, realm: RealmId, a: seq<nat>, b: seq<nat>)
    requires forall h | h in a + b :: Key(realm, Hex(h)) in c.entries
    ensures (forall h | h in a :: Key(realm, Hex(h)) in c.entries) && (forall h | h in b :: Key(realm, Hex(h)) in c.entries)
    ensures OpsForLive(c, realm, a + b) == OpsForLive(c, realm, a) + OpsForLive(c, realm, b)
  {
    assert forall h | h in a :: h in a + b;
    assert forall h | h in b :: h in a + b;
    if b == [] {
      assert a + b == a;
    } else {
      assert (a + b)[..|a + b| - 1] == a + b[..|b| - 1];
      OpsForLiveConcat(c, realm, a, b[..|b| - 1]);
    }
  }

  lemma OpsForTombsConcat(realm: RealmId, a: seq<nat>, b: seq<nat>)
    ensures OpsForTombs(realm, a + b) == OpsForTombs(realm, a) + OpsForTombs(realm, b)
  {
  }

  /** `done` is the part of the ascending listing of `all` already taken; `todo` is what remains. */
  ghost predicate Sorting(all: set<nat>, done: seq<nat>, todo: set<nat>) {
    todo <= all && done + Ascending(todo) == Ascending(all)
  }

  lemma SortNext(all: set<nat>, done: seq<nat>, todo: set<nat>, h: nat)
    requires Sorting(all, done, todo) && IsLeast(h, todo)
    ensures Sorting(all, done + [h], todo - {h})
    ensures h in all
    ensures exists n :: 0 <= n < |Ascending(all)| && Ascending(all)[..n] == done && Ascending(all)[n] == h
  {
    assert Least(todo) == h;
    assert Ascending(todo) == [h] + Ascending(todo - {h});
    assert done + ([h] + Ascending(todo - {h})) == (done + [h]) + Ascending(todo - {h});
    assert Ascending(all)[..|done|] == done;
  }

  lemma LivePrefix(c: Content, realm: RealmId, done: seq<nat>, h: nat, todo: set<nat>)
    requires Sorting(LiveHashes(c, realm), done, todo) && IsLeast(h, todo)
    ensures Key(realm, Hex(h)) in c.entries
    ensures forall x | x in done + [h] :: Key(realm, Hex(x)) in c.entries
    ensures forall x | x in done :: Key(realm, Hex(x)) in c.entries
    ensures OpsForLive(c, realm, done + [h]) ==
            OpsForLive(c, realm, done) + LiveOps(Key(realm, Hex(h)), c.entries[Key(realm, Hex(h))])
    ensures exists n :: 0 <= n <= |RealmOps(c, realm)| && RealmOps(c, realm)[..n] == OpsForLive(c, realm, done + [h])
  {
    var all := LiveHashes(c, realm);
    SortNext(all, done, todo, h);
    AscendingLists(all);
    var rest := Ascending(todo - {h});
    assert (done + [h]) + rest == Ascending(all);
    assert (done + [h])[..|done|] == done;
    hide LiveOps, Sorting;
    LiveBegins(c, realm, done + [h], rest);
  }

  /** The operations of the first live keys begin the operations of the Realm. */
  lemma LiveBegins(c: Content, realm: RealmId, first: seq<nat>, rest: seq<nat>)
    requires first + rest == Ascending(LiveHashes(c, realm))
    requires forall x | x in first + rest :: Key(realm, Hex(x)) in c.entries
    ensures forall x | x in first :: Key(realm, Hex(x)) in c.entries
    ensures exists n :: 0 <= n <= |RealmOps(c, realm)| && RealmOps(c, realm)[..n] == OpsForLive(c, realm, first)
  {
    hide LiveOps, OpsForTombs, TombHashes, LiveHashes;
    OpsForLiveConcat(c, realm, first, rest);
    var n := |OpsForLive(c, realm, first)|;
    assert RealmOps(c, realm)[..n] == OpsForLive(c, realm, first);
  }

  lemma TombPrefix(c: Content, realm: RealmId, done: seq<nat>, h: nat, todo: set<nat>)
    requires Sorting(TombHashes(c, realm), done, todo) && IsLeast(h, todo)
    ensures AllLive(c, realm)
    ensures exists n :: 0 <= n <= |RealmOps(c, realm)|
              && RealmOps(c, realm)[..n] == LiveOpsOf(c, realm) + (OpsForTombs(realm, done) + [Stamped(LogOp.Tombstone(realm, Hex(h)), 0)])
    ensures OpsForTombs(realm, done + [h]) == OpsForTombs(realm, done) + [Stamped(LogOp.Tombstone(realm, Hex(h)), 0)]
  {
    AscendingLists(LiveHashes(c, realm));
    var all := TombHashes(c, realm);
    SortNext(all, done, todo, h);
    var rest := Ascending(todo - {h});
    assert (done + [h]) + rest == Ascending(all);
    OpsForTombsConcat(realm, done + [h], rest);
    OpsForTombsConcat(realm, done, [h]);
    var part := LiveOpsOf(c, realm) + OpsForTombs(realm, done + [h]);
    assert RealmOps(c, realm) == part + OpsForTombs(realm, rest);
    assert RealmOps(c, realm)[..|part|] == part;
  }

  ghost predicate AllLive(c: Content, realm: RealmId) {
    forall h | h in Ascending(LiveHashes(c, realm)) :: Key(realm, Hex(h)) in c.entries
  }

  ghost function LiveOpsOf(c: Content, realm: RealmId): seq<Stamped> {
    AscendingLists(LiveHashes(c, realm));
    OpsForLive(c, realm, Ascending(LiveHashes(c, realm)))
  }

  /** One Realm's canonical replacement chain, or a refusal if any limit or the budget would be passed. */
  method BuildCompactionBuffer(cfg: Config, c: Content, realm: RealmId, budget: Option<nat>)
    returns (r: Result<seq<LogRecord>>)
    ensures r == if ChainFits(cfg, RealmOps(c, realm), budget) then Ok(ChainFor(cfg, RealmOps(c, realm))) else Err(Limit)
  {
    hide ChainFits, ChainFor, LogBytes, RealmOps, OpsForTombs, LiveOps, Ascending;
    var buffer: seq<LogRecord>, bytes: nat := [], 0;
    var todo := LiveHashes(c, realm);
    ghost var done: seq<nat> := [];
    NothingYet(cfg, c, realm, budget);
    while todo != {}
      invariant Sorting(LiveHashes(c, realm), done, todo)
      invariant forall x | x in done :: Key(realm, Hex(x)) in c.entries
      invariant ChainFits(cfg, OpsForLive(c, realm, done), budget)
      invariant buffer == ChainFor(cfg, OpsForLive(c, realm, done)) && bytes == LogBytes(cfg, buffer)
      decreases todo
    {
      var h := LeastOf(todo);
      LivePrefix(c, realm, done, h, todo);
      var key := Key(realm, Hex(h));
      var ok, buffer', bytes' := PushRecords(cfg, buffer, bytes, LiveOps(key, c.entries[key]), budget, OpsForLive(c, realm, done));
      ghost var n :| 0 <= n <= |RealmOps(c, realm)| && RealmOps(c, realm)[..n] == OpsForLive(c, realm, done + [h]);
      ChainFitsPrefix(cfg, RealmOps(c, realm), n, budget);
      if !ok {
        return Err(Limit);
      }
      SortNext(LiveHashes(c, realm), done, todo, h);
      buffer, bytes, todo, done := buffer', bytes', todo - {h}, done + [h];
    }
    assert done == Ascending(LiveHashes(c, realm)) by { SortDone(LiveHashes(c, realm), done); }
    r := PushTombstones(cfg, c, realm, budget, buffer, bytes);
  }

  lemma SortDone(all: set<nat>, done: seq<nat>)
    requires Sorting(all, done, {})
    ensures done == Ascending(all)
  {
    assert done + [] == done;
  }

  method PushTombstones(
    cfg: Config, c: Content, realm: RealmId, budget: Option<nat>, live: seq<LogRecord>, liveBytes: nat)
    returns (r: Result<seq<LogRecord>>)
    requires ChainFits(cfg, LiveOpsOf(c, realm), budget)
    requires live == ChainFor(cfg, LiveOpsOf(c, realm)) && liveBytes == LogBytes(cfg, live)
    ensures r == if ChainFits(cfg, RealmOps(c, realm), budget) then Ok(ChainFor(cfg, RealmOps(c, realm))) else Err(Limit)
  {
    hide ChainFits, ChainFor, LogBytes, RealmOps, OpsForTombs, LiveOpsOf, Ascending;
    var buffer, bytes := live, liveBytes;
    var todo := TombHashes(c, realm);
    ghost var done: seq<nat> := [];
    NoTombsYet(c, realm);
    while todo != {}
      invariant Sorting(TombHashes(c, realm), done, todo)
      invariant ChainFits(cfg, LiveOpsOf(c, realm) + OpsForTombs(realm, done), budget)
      invariant buffer == ChainFor(cfg, LiveOpsOf(c, realm) + OpsForTombs(realm, done)) && bytes == LogBytes(cfg, buffer)
      decreases todo
    {
      var h := LeastOf(todo);
      TombPrefix(c, realm, done, h, todo);
      var ops := [Stamped(LogOp.Tombstone(realm, Hex(h)), 0)];
      ghost var sofar := LiveOpsOf(c, realm) + OpsForTombs(realm, done);
      var ok, buffer', bytes' := PushRecords(cfg, buffer, bytes, ops, budget, sofar);
      assert sofar + ops == LiveOpsOf(c, realm) + (OpsForTombs(realm, done) + ops);
      ghost var n :| 0 <= n <= |RealmOps(c, realm)|
                     && RealmOps(c, realm)[..n] == LiveOpsOf(c, realm) + (OpsForTombs(realm, done) + ops);
      ChainFitsPrefix(cfg, RealmOps(c, realm), n, budget);
      if !ok {
        return Err(Limit);
      }
      SortNext(TombHashes(c, realm), done, todo, h);
      buffer, bytes, todo, done := buffer', bytes', todo - {h}, done + [h];
    }
    SortDone(TombHashes(c, realm), done);
    WholeRealm(c, realm);
    return Ok(buffer);
  }

  lemma NoTombsYet(c: Content, realm: RealmId)
    ensures Sorting(TombHashes(c, realm), [], TombHashes(c, realm))
    ensures LiveOpsOf(c, realm) + OpsForTombs(realm, []) == LiveOpsOf(c, realm)
  {
    assert [] + Ascending(TombHashes(c, realm)) == Ascending(TombHashes(c, realm));
    assert OpsForTombs(realm, []) == [];
  }

  lemma WholeRealm(c: Content, realm: RealmId)
    ensures RealmOps(c, realm) == LiveOpsOf(c, realm) + OpsForTombs(realm, Ascending(TombHashes(c, realm)))
  {
  }

  lemma NothingYet(cfg: Config, c: Content, realm: RealmId, budget: Option<nat>)
    ensures Sorting(LiveHashes(c, realm), [], LiveHashes(c, realm))
    ensures OpsForLive(c, realm, []) == [] && ChainFor(cfg, []) == [] && LogBytes(cfg, []) == 0
    ensures ChainFits(cfg, [], budget)
  {
    assert [] + Ascending(LiveHashes(c, realm)) == Ascending(LiveHashes(c, realm));
  }

  method LeastOf(s: set<nat>) returns (m: nat)
    requires s != {}
    ensures IsLeast(m, s)
  {
    m :| m in s;
    var rest := s - {m};
    while rest != {}
      invariant m in s && rest <= s
      invariant forall x | x in s && x !in rest :: m <= x
      decreases rest
    {
      var x :| x in rest;
      if x < m {
        m := x;
      }
      rest := rest - {x};
    }
  }

  // ---- curating the candidate ----

  /** Applying one more decision to the candidate is deciding one more key. */
  lemma CurateNext(c: Content, d: Curator.Decisions, todo: set<Key>, k: Key)
    requires todo <= c.entries.Keys && k in todo
    ensures var before, after := Curator.Curate(c, d - todo), Curator.Curate(c, d - (todo - {k}));
            && k in before.entries && before.entries[k] == c.entries[k]
            && after == (if Curator.DecisionFor(d, k) == Curator.Gc
                         then Content(before.entries - {k}, before.tombstones + {k})
                         else before.(entries := before.entries[k := Curator.Curated(c.entries[k], Curator.DecisionFor(d, k))]))
  {
    var before, after := Curator.Curate(c, d - todo), Curator.Curate(c, d - (todo - {k}));
    forall q | q in c.entries && q != k
      ensures Curator.DecisionFor(d - todo, q) == Curator.DecisionFor(d - (todo - {k}), q)
    {
    }
    assert Curator.DecisionFor(d - todo, k) == Curator.Keep;
    assert Curator.DecisionFor(d - (todo - {k}), k) == Curator.DecisionFor(d, k);
    var want := if Curator.DecisionFor(d, k) == Curator.Gc
                then Content(before.entries - {k}, before.tombstones + {k})
                else before.(entries := before.entries[k := Curator.Curated(c.entries[k], Curator.DecisionFor(d, k))]);
    ContentExt(after, want);
  }

  lemma DecisionNext(d: Curator.Decisions, todo: set<Key>, k: Key, q: Key)
    requires k in todo
    ensures Curator.DecisionFor(d - (todo - {k}), q) == if q == k then Curator.DecisionFor(d, k) else Curator.DecisionFor(d - todo, q)
    ensures Curator.DecisionFor(d - todo, k) == Curator.Keep
  {
  }

  lemma CollectNext(c: Content, d: Curator.Decisions, todo: set<Key>, k: Key)
    requires todo <= c.entries.Keys && k in todo
    ensures |Curator.Collected(c, d - (todo - {k}))|
              == |Curator.Collected(c, d - todo)| + if Curator.DecisionFor(d, k) == Curator.Gc then 1 else 0
  {
    var a, b := Curator.Collected(c, d - todo), Curator.Collected(c, d - (todo - {k}));
    hide Curator.DecisionFor;
    DecisionNext(d, todo, k, k);
    forall q ensures q in b <==> q in a || (q == k && Curator.DecisionFor(d, k) == Curator.Gc) {
      DecisionNext(d, todo, k, q);
    }
    assert b == a + if Curator.DecisionFor(d, k) == Curator.Gc then {k} else {};
  }

  lemma IsolateNext(c: Content, d: Curator.Decisions, todo: set<Key>, k: Key)
    requires todo <= c.entries.Keys && k in todo
    ensures |Curator.Isolated(c, d - (todo - {k}))|
              == |Curator.Isolated(c, d - todo)| + if Curator.DecisionFor(d, k).Quarantine? then 1 else 0
  {
    var a, b := Curator.Isolated(c, d - todo), Curator.Isolated(c, d - (todo - {k}));
    hide Curator.DecisionFor;
    DecisionNext(d, todo, k, k);
    forall q ensures q in b <==> q in a || (q == k && Curator.DecisionFor(d, k).Quarantine?) {
      DecisionNext(d, todo, k, q);
    }
    assert b == a + if Curator.DecisionFor(d, k).Quarantine? then {k} else {};
  }

  /** Ask for one decision per live key and apply it to a private candidate. */
  method CurateCatalog(c: Content, d: Curator.Decisions)
    returns (candidate: Content, scanned: nat, gc: nat, quarantined: nat)
    ensures candidate == Curator.Curate(c, d)
    ensures scanned == |c.entries| && gc == |Curator.Collected(c, d)| && quarantined == |Curator.Isolated(c, d)|
  {
    hide Curator.Curate, Curator.Collected, Curator.Isolated, Curator.Curated;
    var todo := c.entries.Keys;
    candidate, scanned, gc, quarantined := c, 0, 0, 0;
    NoDecisions(c, d);
    while todo != {}
      invariant todo <= c.entries.Keys
      invariant candidate == Curator.Curate(c, d - todo)
      invariant scanned + |todo| == |c.entries|
      invariant gc == |Curator.Collected(c, d - todo)| && quarantined == |Curator.Isolated(c, d - todo)|
      decreases todo
    {
      var k :| k in todo;
      CurateNext(c, d, todo, k);
      CollectNext(c, d, todo, k);
      IsolateNext(c, d, todo, k);
      scanned := scanned + 1;
      var decision := Curator.DecisionFor(d, k);
      if decision == Curator.Gc {
        candidate := Content(candidate.entries - {k}, candidate.tombstones + {k});
        gc := gc + 1;
      } else {
        candidate := candidate.(entries := candidate.entries[k := Curator.Curated(candidate.entries[k], decision)]);
        quarantined := quarantined + if decision.Quarantine? then 1 else 0;
      }
      todo := todo - {k};
    }
    assert d - {} == d;
  }

  lemma NoDecisions(c: Content, d: Curator.Decisions)
    ensures Curator.Curate(c, d - c.entries.Keys) == c
    ensures Curator.Collected(c, d - c.entries.Keys) == {} && Curator.Isolated(c, d - c.entries.Keys) == {}
  {
    forall k | k in c.entries ensures Curator.DecisionFor(d - c.entries.Keys, k) == Curator.Keep {
    }
    assert Curator.Curate(c, d - c.entries.Keys).entries == c.entries;
  }

  // ---- replaying one Realm file ----

  /** The first check a record fails, in the order recovery makes them. */
  function RecordError(cfg: Config, rh: RealmHash, rec: LogRecord, tip: Link, seq_: nat): Option<Error> {
    if LineBytes(cfg, rec) > MAX_RECORD_BYTES then Some(Limit)
    else if !Parses(rec.op) || rec.firstSeen > U64_MAX then Some(Corrupt)
    else if rec.author != cfg.pubkey then Some(ForeignAuthor)
    else if !Verifies(rec) then Some(BadSignature)
    else if rec.prev != tip || rec.seq_ != seq_ then Some(ChainBroken)
    else if !rec.op.hash.Hex? then Some(Corrupt)
    else if RealmSha(rec.op.realm) != rh then Some(Corrupt)
    else if seq_ + 1 > U64_MAX then Some(Corrupt)
    else None
  }

  /** Why a file was refused: the first bad record's first failing check, or one retained key too many. */
  ghost predicate FileFault(cfg: Config, rh: RealmHash, log: seq<LogRecord>, start: Content, e: Error) {
    exists i :: 0 <= i < |log| && FaultAt(cfg, rh, log, start, i, e)
  }

  /** Record `i` is the first that recovery stops at, and `e` says why. */
  ghost predicate FaultAt(cfg: Config, rh: RealmHash, log: seq<LogRecord>, start: Content, i: nat, e: Error)
    requires i < |log|
  {
    var bad := RecordError(cfg, rh, log[i], TipOf(log[..i]), i);
    && i <= U64_MAX && (forall j | 0 <= j < i :: RecordOk(cfg, rh, log, j))
    && WithinCap(|Retained(ReplayFrom(start, log[..i]))|, cfg.maxEntries)
    && if bad.Some? then e == bad.value
       else e == Capacity && !WithinCap(|Retained(ReplayFrom(start, log[..i + 1]))|, cfg.maxEntries)
  }

  /** There is one such record and one such reason. */
  lemma FileFaultUnique(cfg: Config, rh: RealmHash, log: seq<LogRecord>, start: Content, e: Error, f: Error)
    requires Disjoint(start) && FileFault(cfg, rh, log, start, e) && FileFault(cfg, rh, log, start, f)
    ensures e == f
  {
    hide RecordError, Retained, ReplayFrom;
    var i :| 0 <= i < |log| && FaultAt(cfg, rh, log, start, i, e);
    var j :| 0 <= j < |log| && FaultAt(cfg, rh, log, start, j, f);
    if i < j {
      NoEarlierFault(cfg, rh, log, start, i, j, f);
    } else if j < i {
      NoEarlierFault(cfg, rh, log, start, j, i, e);
    }
  }

  lemma NoEarlierFault(cfg: Config, rh: RealmHash, log: seq<LogRecord>, start: Content, i: nat, j: nat, e: Error)
    requires Disjoint(start) && i < j < |log| && FaultAt(cfg, rh, log, start, j, e)
    ensures forall f :: !FaultAt(cfg, rh, log, start, i, f)
  {
    hide RecordError, Retained, ReplayFrom;
    RecordVerdict(cfg, rh, log, i);
    RetainedPrefix(start, log[..j], i + 1);
    assert log[..j][..i + 1] == log[..i + 1];
  }

  lemma RecordVerdict(cfg: Config, rh: RealmHash, log: seq<LogRecord>, i: nat)
    requires i < |log|
    ensures RecordError(cfg, rh, log[i], TipOf(log[..i]), i).None? <==> RecordOk(cfg, rh, log, i) && i + 1 <= U64_MAX
  {
  }

  lemma RetainedPrefix(start: Content, log: seq<LogRecord>, n: nat)
    requires Disjoint(start) && n <= |log|
    ensures |Retained(ReplayFrom(start, log[..n]))| <= |Retained(ReplayFrom(start, log))|
    decreases |log|
  {
    if n == |log| {
      assert log[..n] == log;
    } else {
      var front := log[..|log| - 1];
      RetainedPrefix(start, front, n);
      assert front[..n] == log[..n];
      ReplayDisjoint(start, front);
      ApplyEvolves(ReplayFrom(start, front), log[|log| - 1].op, log[|log| - 1].firstSeen);
      SubsetCount(Retained(ReplayFrom(start, front)), Retained(ReplayFrom(start, log)));
    }
  }

  /** Recovery's capacity test is exact: it refuses precisely the op that would retain one key too many. */
  lemma CapacityVerdict(cfg: Config, c: Content, op: LogOp, fs: nat)
    requires Disjoint(c) && WithinCap(|Retained(c)|, cfg.maxEntries)
    ensures !WithinCap(|Retained(Apply(c, op, fs))|, cfg.maxEntries) <==>
              && cfg.maxEntries != 0 && (op.Put? || op.Tombstone?)
              && KeyOf(op) !in c.entries && KeyOf(op) !in c.tombstones
              && |c.entries| + |c.tombstones| >= cfg.maxEntries
  {
    hide Retained, Apply;
    RetainedSize(c);
    RetainedIn(c, KeyOf(op));
    RetainedAfter(c, op, fs);
  }

  /** Check and apply the records of one file, one by one, onto what earlier files said. */
  method ReplayFile(cfg: Config, rh: RealmHash, log: seq<LogRecord>, start: Content)
    returns (r: Result<(Content, Link, nat)>)
    requires Disjoint(start) && WithinCap(|Retained(start)|, cfg.maxEntries)
    ensures r.Ok? <==> ChainOk(cfg, rh, log) && WithinCap(|Retained(ReplayFrom(start, log))|, cfg.maxEntries)
    ensures r.Ok? ==> r.value == (ReplayFrom(start, log), TipOf(log), LogMax(log))
    ensures r.Err? ==> FileFault(cfg, rh, log, start, r.error)
  {
    hide RecordError, Apply, Retained;
    var c, tip, youngest: nat, i := start, Genesis, 0, 0;
    assert log[..0] == [];
    while i < |log|
      invariant 0 <= i <= |log| && i <= U64_MAX
      invariant c == ReplayFrom(start, log[..i]) && tip == TipOf(log[..i]) && youngest == LogMax(log[..i])
      invariant forall j | 0 <= j < i :: RecordOk(cfg, rh, log, j)
      invariant WithinCap(|Retained(c)|, cfg.maxEntries)
    {
      var rec := log[i];
      RecordVerdict(cfg, rh, log, i);
      var bad := RecordError(cfg, rh, rec, tip, i);
      if bad.Some? {
        assert FaultAt(cfg, rh, log, start, i, bad.value);
        return Err(bad.value);
      }
      assert log[..i + 1][..i] == log[..i];
      ReplayDisjoint(start, log[..i]);
      CapacityVerdict(cfg, c, rec.op, rec.firstSeen);
      if cfg.maxEntries != 0 && (rec.op.Put? || rec.op.Tombstone?) && KeyOf(rec.op) !in c.entries
         && KeyOf(rec.op) !in c.tombstones && |c.entries| + |c.tombstones| >= cfg.maxEntries {
        RetainedPrefix(start, log, i + 1);
        assert FaultAt(cfg, rh, log, start, i, Capacity);
        return Err(Capacity);
      }
      c := Apply(c, rec.op, rec.firstSeen);
      tip, youngest, i := RecordSha(rec), Max(youngest, rec.firstSeen), i + 1;
    }
    assert log[..i] == log;
    return Ok((c, tip, youngest));
  }

  // ---- collecting and replaying all Realm files ----

  function SizesOf(cfg: Config, logs: Logs, todo: set<RealmHash>): map<RealmHash, nat> {
    map rh | rh in todo && rh in logs :: LogBytes(cfg, logs[rh])
  }

  ghost function Remaining(cfg: Config, logs: Logs, todo: set<RealmHash>): nat {
    Total(SizesOf(cfg, logs, todo))
  }

  lemma RemainingAll(cfg: Config, logs: Logs)
    ensures Remaining(cfg, logs, logs.Keys) == LogTotal(cfg, logs) && Remaining(cfg, logs, {}) == 0
  {
    assert SizesOf(cfg, logs, logs.Keys) == LogSizes(cfg, logs);
    assert SizesOf(cfg, logs, {}) == map[];
  }

  lemma RemainingNext(cfg: Config, logs: Logs, todo: set<RealmHash>, rh: RealmHash)
    requires rh in todo && rh in logs
    ensures Remaining(cfg, logs, todo) == LogBytes(cfg, logs[rh]) + Remaining(cfg, logs, todo - {rh})
  {
    TotalRemove(SizesOf(cfg, logs, todo), rh);
    assert SizesOf(cfg, logs, todo) - {rh} == SizesOf(cfg, logs, todo - {rh});
  }

  /** Size up the log directory, refusing as soon as the running total or the file count passes its cap. */
  method CollectFiles(cfg: Config, logs: Logs) returns (r: Result<nat>)
    ensures r.Ok? <==> GrowthOk(0, LogTotal(cfg, logs), cfg.maxLogBytes) && WithinCap(|logs|, cfg.maxEntries)
    ensures r.Ok? ==> r.value == LogTotal(cfg, logs)
    ensures r.Err? ==>
              (r.error == Limit && !GrowthOk(0, LogTotal(cfg, logs), cfg.maxLogBytes))
              || (r.error == Capacity && !WithinCap(|logs|, cfg.maxEntries))
  {
    hide LogTotal, Remaining, LogBytes;
    var todo := logs.Keys;
    var total: nat, files: nat := 0, 0;
    RemainingAll(cfg, logs);
    while todo != {}
      invariant todo <= logs.Keys && files + |todo| == |logs|
      invariant total + Remaining(cfg, logs, todo) == LogTotal(cfg, logs)
      invariant GrowthOk(0, total, cfg.maxLogBytes) && WithinCap(files, cfg.maxEntries)
      decreases todo
    {
      var rh :| rh in todo;
      RemainingNext(cfg, logs, todo, rh);
      var bytes := LogBytes(cfg, logs[rh]);
      if !GrowthOk(total, bytes, cfg.maxLogBytes) {
        return Err(Limit);
      }
      if cfg.maxEntries != 0 && files >= cfg.maxEntries {
        return Err(Capacity);
      }
      total, files, todo := total + bytes, files + 1, todo - {rh};
    }
    return Ok(total);
  }

  datatype Replayed = Replayed(
    content: Content, realms: map<RealmHash, RealmId>, heads: map<RealmHash, Head>, youngest: nat, count: nat)

  /** Everything replay accumulates from the files of `done`. */
  ghost predicate ReplayedFrom(cfg: Config, done: Logs, a: Replayed) {
    && LogsOk(cfg, done)
    && a.content == Meaning(done)
    && WithinCap(|Retained(a.content)|, cfg.maxEntries)
    && a.realms == RealmNames(done)
    && a.heads == HeadsFor(done)
    && a.youngest == LogsMax(done)
    && a.count == RecordCount(done)
  }

  lemma ReplayNothing(cfg: Config)
    ensures ReplayedFrom(cfg, map[], Replayed(NOTHING, map[], map[], 0, 0))
  {
    var none: Logs := map[];
    assert AllKeys(none) == {};
    assert RealmNames(none) == map[] && HeadsFor(none) == map[];
    assert BirthMaxima(none) == map[] && RecordCounts(none) == map[];
  }

  lemma ContentOneMore(cfg: Config, done: Logs, rh: RealmHash, log: seq<LogRecord>)
    requires LogsOk(cfg, done) && rh !in done && ChainOk(cfg, rh, log)
    ensures LogsOk(cfg, done[rh := log]) && Meaning(done[rh := log]) == ReplayFrom(Meaning(done), log)
  {
    ChainOwnRealm(cfg, rh, log);
    MeaningAddRealm(done, rh, log);
  }

  lemma TablesOneMore(done: Logs, rh: RealmHash, log: seq<LogRecord>)
    requires rh !in done
    ensures RealmNames(done[rh := log]) == if log == [] then RealmNames(done) else RealmNames(done)[rh := rh.realm]
    ensures HeadsFor(done[rh := log]) == HeadsFor(done)[rh := Head(|log|, TipOf(log))]
  {
  }

  lemma YoungestOneMore(done: Logs, rh: RealmHash, log: seq<LogRecord>)
    requires rh !in done
    ensures LogsMax(done[rh := log]) == Max(LogsMax(done), LogMax(log))
  {
    var more := done[rh := log];
    MaxOfRemove(BirthMaxima(more), rh);
    assert BirthMaxima(more) - {rh} == BirthMaxima(done);
  }

  lemma CountsOneMore(done: Logs, rh: RealmHash, log: seq<LogRecord>)
    requires rh !in done
    ensures RecordCount(done[rh := log]) == RecordCount(done) + |log|
  {
    var more := done[rh := log];
    TotalRemove(RecordCounts(more), rh);
    assert RecordCounts(more) - {rh} == RecordCounts(done);
  }

  lemma ReplayOneMore(cfg: Config, done: Logs, a: Replayed, rh: RealmHash, log: seq<LogRecord>)
    requires ReplayedFrom(cfg, done, a) && rh !in done && ChainOk(cfg, rh, log)
    requires WithinCap(|Retained(ReplayFrom(a.content, log))|, cfg.maxEntries)
    ensures ReplayedFrom(cfg, done[rh := log], Replayed(
              ReplayFrom(a.content, log), if log == [] then a.realms else a.realms[rh := rh.realm],
              a.heads[rh := Head(|log|, TipOf(log))], Max(a.youngest, LogMax(log)), a.count + |log|))
  {
    hide LogsOk, ChainOk, Meaning, ReplayFrom, RealmNames, HeadsFor, LogsMax, RecordCount, Retained;
    ContentOneMore(cfg, done, rh, log);
    TablesOneMore(done, rh, log);
    YoungestOneMore(done, rh, log);
    CountsOneMore(done, rh, log);
  }

  /** A file that cannot be replayed makes the whole directory unacceptable. */
  lemma RefusedFile(cfg: Config, logs: Logs, done: Logs, rh: RealmHash)
    requires rh in logs && rh !in done && LogsOk(cfg, done) && done.Keys <= logs.Keys
    requires forall r | r in done :: done[r] == logs[r]
    requires !ChainOk(cfg, rh, logs[rh])
             || !WithinCap(|Retained(ReplayFrom(Meaning(done), logs[rh]))|, cfg.maxEntries)
    ensures !(LogsOk(cfg, logs) && WithinCap(|Retained(Meaning(logs))|, cfg.maxEntries))
  {
    if LogsOk(cfg, logs) {
      ChainOwnRealm(cfg, rh, logs[rh]);
      MeaningAddRealm(done, rh, logs[rh]);
      var more := done[rh := logs[rh]];
      forall k | k in Retained(Meaning(more)) ensures k in Retained(Meaning(logs)) {
        MeaningAt(more, k);
        MeaningAt(logs, k);
      }
      SubsetCount(Retained(Meaning(more)), Retained(Meaning(logs)));
    }
  }

  /** The first `i` files of the directory. */
  function FirstFiles(logs: Logs, order: seq<RealmHash>, i: nat): Logs
    requires i <= |order|
  {
    map rh | rh in order[..i] && rh in logs :: logs[rh]
  }

  lemma OneMoreFile(logs: Logs, order: seq<RealmHash>, i: nat)
    requires i < |order| && Enumerates(order, logs.Keys)
    ensures order[i] in logs && order[i] !in FirstFiles(logs, order, i)
    ensures FirstFiles(logs, order, i + 1) == FirstFiles(logs, order, i)[order[i] := logs[order[i]]]
  {
    assert order[..i + 1] == order[..i] + [order[i]];
    assert order[i] in order;
  }

  /** Number `i` is the first file that cannot be replayed after those before it, and `e` says why. */
  ghost predicate FirstFault(cfg: Config, logs: Logs, torn: set<RealmHash>, order: seq<RealmHash>, i: nat, e: Error)
    requires i < |order| && order[i] in logs
  {
    var done, rh := FirstFiles(logs, order, i), order[i];
    && LogsOk(cfg, done) && torn !! done.Keys && WithinCap(|Retained(Meaning(done))|, cfg.maxEntries)
    && (|| FileFault(cfg, rh, logs[rh], Meaning(done), e)
        || (e == Corrupt && rh in torn && ChainOk(cfg, rh, logs[rh])
            && WithinCap(|Retained(ReplayFrom(Meaning(done), logs[rh]))|, cfg.maxEntries)))
  }

  /** Why a directory was refused: the first file in order that is bad, or that ends in a fragment. */
  ghost predicate DirectoryFault(cfg: Config, logs: Logs, torn: set<RealmHash>, order: seq<RealmHash>, e: Error) {
    exists i :: 0 <= i < |order| && order[i] in logs && FirstFault(cfg, logs, torn, order, i, e)
  }

  /** Replay every Realm file, in the order of their sorted names, into a private candidate. */
  method ReplayFiles(cfg: Config, logs: Logs, torn: set<RealmHash>, order: seq<RealmHash>) returns (r: Result<Replayed>)
    requires Enumerates(order, logs.Keys)
    ensures r.Ok? <==> LogsOk(cfg, logs) && WithinCap(|Retained(Meaning(logs))|, cfg.maxEntries) && torn !! logs.Keys
    ensures r.Ok? ==> ReplayedFrom(cfg, logs, r.value)
    ensures r.Err? ==> DirectoryFault(cfg, logs, torn, order, r.error)
  {
    hide Meaning, LogsOk, LogsMax, RecordCount, RealmNames, HeadsFor, ChainOk, FileFault, ReplayFrom, Retained, TipOf, LogMax,
         FirstFiles;
    var a := Replayed(NOTHING, map[], map[], 0, 0);
    ReplayNothing(cfg);
    NoFiles(logs, order);
    for i := 0 to |order|
      invariant torn !! FirstFiles(logs, order, i).Keys
      invariant ReplayedFrom(cfg, FirstFiles(logs, order, i), a)
    {
      ghost var done := FirstFiles(logs, order, i);
      OneMoreFile(logs, order, i);
      var rh := order[i];
      var log := logs[rh];
      MeaningDisjoint(done);
      SomeFiles(logs, order, i);
      var f := ReplayFile(cfg, rh, log, a.content);
      if f.Err? {
        RefusedFile(cfg, logs, done, rh);
        assert FirstFault(cfg, logs, torn, order, i, f.error);
        return Err(f.error);
      }
      if rh in torn {
        assert FirstFault(cfg, logs, torn, order, i, Corrupt);
        return Err(Corrupt);
      }
      ReplayOneMore(cfg, done, a, rh, log);
      a := Replayed(f.value.0, if log == [] then a.realms else a.realms[rh := rh.realm],
                    a.heads[rh := Head(|log|, f.value.1)], Max(a.youngest, f.value.2), a.count + |log|);
    }
    AllFiles(logs, order);
    return Ok(a);
  }

  lemma NoFiles(logs: Logs, order: seq<RealmHash>)
    ensures FirstFiles(logs, order, 0) == map[]
  {
  }

  lemma SomeFiles(logs: Logs, order: seq<RealmHash>, i: nat)
    requires i <= |order|
    ensures var done := FirstFiles(logs, order, i);
            done.Keys <= logs.Keys && forall r | r in done :: done[r] == logs[r]
  {
  }

  lemma AllFiles(logs: Logs, order: seq<RealmHash>)
    requires Enumerates(order, logs.Keys)
    ensures FirstFiles(logs, order, |order|) == logs
  {
    assert order[..|order|] == order;
  }

  // ---- one Realm's rewrite, and the rehearsal of all of them ----

  /** The replacement chain of one Realm and the journal total it would leave. */
  method RewriteRealm(
    cfg: Config, c: Content, realms: map<RealmHash, RealmId>, prior: seq<LogRecord>, rh: RealmHash, total: nat)
    returns (r: Result<(seq<LogRecord>, nat)>)
    requires rh in realms
    ensures var log := NewLog(cfg, c, realms, rh);
            r == match RewriteTotal(cfg, prior, log, total)
                 case Ok(n) => Ok((log, n))
                 case Err(e) => Err(e)
  {
    hide LogBytes, LinesFit, ChainFor, RealmOps;
    var priorBytes := LogBytes(cfg, prior);
    if total < priorBytes {
      return Err(Corrupt);
    }
    var other := total - priorBytes;
    if !WithinCap(other, cfg.maxLogBytes) {
      return Err(Limit);
    }
    var budget := if cfg.maxLogBytes == 0 then None else Some(cfg.maxLogBytes - other);
    var built := BuildCompactionBuffer(cfg, c, realms[rh], budget);
    if built.Err? {
      return Err(built.error);
    }
    if !GrowthOk(other, LogBytes(cfg, built.value), cfg.maxLogBytes) {
      return Err(Limit);
    }
    return Ok((built.value, other + LogBytes(cfg, built.value)));
  }

  lemma {:induction false} DryPassStops(
    cfg: Config, c: Content, realms: map<RealmHash, RealmId>, logs: Logs, total: nat, order: seq<RealmHash>, n: nat)
    requires n <= |order| && DryPass(cfg, c, realms, logs, total, order[..n]).Err?
    ensures DryPass(cfg, c, realms, logs, total, order) == DryPass(cfg, c, realms, logs, total, order[..n])
    decreases |order|
  {
    hide NewLog, RewriteTotal;
    if n == |order| {
      assert order[..n] == order;
    } else {
      var front := order[..|order| - 1];
      assert front[..n] == order[..n];
      DryPassStops(cfg, c, realms, logs, total, front, n);
    }
  }

  lemma DryPassNext(
    cfg: Config, c: Content, realms: map<RealmHash, RealmId>, logs: Logs, total: nat, order: seq<RealmHash>, i: nat)
    requires i < |order|
    ensures DryPass(cfg, c, realms, logs, total, order[..i + 1]) ==
            match DryPass(cfg, c, realms, logs, total, order[..i])
            case Err(e) => Err(e)
            case Ok(sofar) => RewriteTotal(cfg, LogAt(logs, order[i]), NewLog(cfg, c, realms, order[i]), sofar)
  {
    hide NewLog, RewriteTotal;
    assert order[..i + 1][..i] == order[..i];
  }

  /** The dry pass: walk every Realm against a scratch total, changing nothing. */
  method Rehearse(
    cfg: Config, c: Content, realms: map<RealmHash, RealmId>, logs: Logs, total: nat, order: seq<RealmHash>)
    returns (r: Result<nat>)
    requires forall rh | rh in order :: rh in realms
    ensures r == DryPass(cfg, c, realms, logs, total, order)
  {
    hide NewLog, RewriteTotal, DryPass;
    var planned := total;
    DryPassStart(cfg, c, realms, logs, total);
    for i := 0 to |order|
      invariant DryPass(cfg, c, realms, logs, total, order[..i]) == Ok(planned)
    {
      var one := RewriteRealm(cfg, c, realms, LogAt(logs, order[i]), order[i], planned);
      DryPassNext(cfg, c, realms, logs, total, order, i);
      if one.Err? {
        DryPassStops(cfg, c, realms, logs, total, order, i + 1);
        return Err(one.error);
      }
      planned := one.value.1;
    }
    assert order[..|order|] == order;
    return Ok(planned);
  }

  lemma DryPassStart(cfg: Config, c: Content, realms: map<RealmHash, RealmId>, logs: Logs, total: nat)
    ensures DryPass(cfg, c, realms, logs, total, []) == Ok(total)
  {
  }

  /** Replacing one more Realm takes the staged state one step further. */
  lemma StagedNext(cfg: Config, s: State, c: Content, order: seq<RealmHash>, i: nat)
    requires i < |order| && order[i] !in order[..i]
    requires DryPass(cfg, c, s.realms, s.logs, s.journalBytes, order).Ok?
    ensures var (now, rh) := (Staged(cfg, s, c, order[..i]), order[i]);
            var log := NewLog(cfg, c, s.realms, rh);
            && RewriteTotal(cfg, LogAt(now.logs, rh), log, now.journalBytes).Ok?
            && Staged(cfg, s, c, order[..i + 1]) == now.(
                 logs := now.logs[rh := log], heads := now.heads[rh := HeadOf(log)],
                 journalBytes := RewriteTotal(cfg, LogAt(now.logs, rh), log, now.journalBytes).value)
  {
    hide NewLog, RewriteTotal;
    DryPassPrefix(cfg, c, s.realms, s.logs, s.journalBytes, order, i);
    RewrittenAt(cfg, c, s.realms, s.logs, order[..i], order[i]);
    assert order[..i + 1][..i] == order[..i];
  }
}
