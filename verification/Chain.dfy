/** Hash-chained logs: what recovery accepts, and the canonical chain compaction writes for a Realm. */
module Chain {
  import opened Basics
  import opened Records
  import opened Catalog

  function TipOf(log: seq<LogRecord>): Link {
    if log == [] then Genesis else RecordSha(log[|log| - 1])
  }

  function HeadOf(log: seq<LogRecord>): Head {
    Head(|log|, TipOf(log))
  }

  /** Record `i` passes every per-record check of recovery. */
  predicate RecordOk(cfg: Config, rh: RealmHash, log: seq<LogRecord>, i: nat)
    requires i < |log|
  {
    var rec := log[i];
    && LineBytes(cfg, rec) <= MAX_RECORD_BYTES
    && Parses(rec.op)
    && rec.firstSeen <= U64_MAX
    && rec.author == cfg.pubkey
    && Verifies(rec)
    && rec.prev == TipOf(log[..i])
    && rec.seq_ == i
    && rec.op.hash.Hex?
    && RealmSha(rec.op.realm) == rh
  }

  predicate ChainOk(cfg: Config, rh: RealmHash, log: seq<LogRecord>) {
    && |log| <= U64_MAX
    && forall i | 0 <= i < |log| :: RecordOk(cfg, rh, log, i)
  }

  lemma ChainPrefix(cfg: Config, rh: RealmHash, log: seq<LogRecord>, n: nat)
    requires n <= |log|
    requires forall i | 0 <= i < n :: RecordOk(cfg, rh, log, i)
    requires n <= U64_MAX
    ensures ChainOk(cfg, rh, log[..n])
  {
    forall i | 0 <= i < n ensures RecordOk(cfg, rh, log[..n], i) {
      assert log[..n][..i] == log[..i];
      assert RecordOk(cfg, rh, log, i);
    }
  }

  lemma ChainExtend(cfg: Config, rh: RealmHash, log: seq<LogRecord>, op: LogOp, fs: nat)
    requires ChainOk(cfg, rh, log)
    requires |log| < U64_MAX && fs <= U64_MAX
    requires op.hash.Hex? && RealmSha(op.realm) == rh && Parses(op)
    requires LineBytes(cfg, BuildRecord(cfg, |log|, TipOf(log), op, fs)) <= MAX_RECORD_BYTES
    ensures ChainOk(cfg, rh, log + [BuildRecord(cfg, |log|, TipOf(log), op, fs)])
  {
    var log' := log + [BuildRecord(cfg, |log|, TipOf(log), op, fs)];
    forall i | 0 <= i < |log'| ensures RecordOk(cfg, rh, log', i) {
      assert log'[..i] == log[..i];
      if i < |log| {
        assert RecordOk(cfg, rh, log, i);
      } else {
        assert log[..i] == log;
      }
    }
  }

  /**
   * The chain tip commits to the whole history: two accepted logs with the same tip are equal,
   * record for record, even if they were accepted under different settings or stems.
   */
  lemma {:induction false} TipCommits(
    cfgA: Config, cfgB: Config, rhA: RealmHash, rhB: RealmHash, a: seq<LogRecord>, b: seq<LogRecord>)
    requires ChainOk(cfgA, rhA, a) && ChainOk(cfgB, rhB, b)
    requires TipOf(a) == TipOf(b)
    ensures a == b
  {
    if a != [] {
      var n, m := |a| - 1, |b| - 1;
      assert RecordOk(cfgA, rhA, a, n) && RecordOk(cfgB, rhB, b, m);
      ChainPrefix(cfgA, rhA, a, n);
      ChainPrefix(cfgB, rhB, b, m);
      TipCommits(cfgA, cfgB, rhA, rhB, a[..n], b[..m]);
      assert a == a[..n] + [a[n]] && b == b[..m] + [b[m]];
    }
  }

  // ---- writing a chain from genesis ----

  /** An op with the birth order its record carries. */
  datatype Stamped = Stamped(op: LogOp, firstSeen: nat)

  function ChainFor(cfg: Config, ops: seq<Stamped>): (log: seq<LogRecord>)
    ensures |log| == |ops|
  {
    if ops == [] then []
    else
      var front, last := ChainFor(cfg, ops[..|ops| - 1]), ops[|ops| - 1];
      front + [BuildRecord(cfg, |front|, TipOf(front), last.op, last.firstSeen)]
  }

  lemma {:induction false} ChainForAt(cfg: Config, ops: seq<Stamped>, n: nat)
    requires n <= |ops|
    ensures ChainFor(cfg, ops)[..n] == ChainFor(cfg, ops[..n])
  {
    if n < |ops| {
      var front := ops[..|ops| - 1];
      ChainForAt(cfg, front, n);
      assert front[..n] == ops[..n];
      assert ChainFor(cfg, ops)[..n] == ChainFor(cfg, front)[..n];
    } else {
      assert ops[..n] == ops;
    }
  }

  /** Every record fits the per-record byte limit. */
  predicate LinesFit(cfg: Config, log: seq<LogRecord>) {
    forall i | 0 <= i < |log| :: LineBytes(cfg, log[i]) <= MAX_RECORD_BYTES
  }

  predicate StampedOk(rh: RealmHash, e: Stamped) {
    e.op.hash.Hex? && RealmSha(e.op.realm) == rh && e.firstSeen <= U64_MAX
  }

  /** A freshly written chain is accepted exactly when all of its scores can be read back. */
  lemma {:induction false} ChainForOk(cfg: Config, rh: RealmHash, ops: seq<Stamped>)
    requires |ops| <= U64_MAX
    requires forall i | 0 <= i < |ops| :: StampedOk(rh, ops[i])
    requires LinesFit(cfg, ChainFor(cfg, ops))
    ensures ChainOk(cfg, rh, ChainFor(cfg, ops)) <==> forall i | 0 <= i < |ops| :: Parses(ops[i].op)
  {
    var log := ChainFor(cfg, ops);
    forall i | 0 <= i < |ops|
      ensures RecordOk(cfg, rh, log, i) <==> Parses(ops[i].op)
    {
      ChainForAt(cfg, ops, i);
      ChainForAt(cfg, ops, i + 1);
      assert ops[..i + 1][..i] == ops[..i];
      assert log[..i + 1] == ChainFor(cfg, ops[..i]) +
          [BuildRecord(cfg, i, TipOf(ChainFor(cfg, ops[..i])), ops[i].op, ops[i].firstSeen)];
      assert log[i] == log[..i + 1][i];
      assert StampedOk(rh, ops[i]);
    }
    if ChainOk(cfg, rh, log) {
      forall i | 0 <= i < |ops| ensures Parses(ops[i].op) {
        assert RecordOk(cfg, rh, log, i);
      }
    }
  }

  lemma ChainForRecord(cfg: Config, ops: seq<Stamped>, i: nat)
    requires i < |ops|
    ensures ChainFor(cfg, ops)[i].op == ops[i].op
    ensures ChainFor(cfg, ops)[i].firstSeen == ops[i].firstSeen
    ensures ChainFor(cfg, ops)[i].seq_ == i
    ensures LinkBytes(ChainFor(cfg, ops)[i].prev) == LinkOverhead(i)
  {
    ChainForAt(cfg, ops, i + 1);
    assert ops[..i + 1][..i] == ops[..i];
    assert ChainFor(cfg, ops)[i] == ChainFor(cfg, ops)[..i + 1][i];
  }

  function ReplayOps(c: Content, ops: seq<Stamped>): Content {
    if ops == [] then c
    else
      var last := ops[|ops| - 1];
      Apply(ReplayOps(c, ops[..|ops| - 1]), last.op, last.firstSeen)
  }

  lemma {:induction false} ReplayChainFor(cfg: Config, c: Content, ops: seq<Stamped>)
    ensures ReplayFrom(c, ChainFor(cfg, ops)) == ReplayOps(c, ops)
  {
    if ops != [] {
      var front := ops[..|ops| - 1];
      ReplayChainFor(cfg, c, front);
      ReplayAppend(c, ChainFor(cfg, front), ChainFor(cfg, ops)[|ops| - 1]);
    }
  }

  lemma {:induction false} ReplayOpsConcat(c: Content, a: seq<Stamped>, b: seq<Stamped>)
    ensures ReplayOps(c, a + b) == ReplayOps(ReplayOps(c, a), b)
  {
    if b == [] {
      assert a + b == a;
    } else {
      assert (a + b)[..|a + b| - 1] == a + b[..|b| - 1];
      ReplayOpsConcat(c, a, b[..|b| - 1]);
    }
  }

  // ---- a Realm's canonical ops ----

  function LiveOps(key: Key, live: Live): seq<Stamped> {
    [Stamped(Put(key.realm, key.hash, live.manifest), live.firstSeen)]
    + (if live.quarantine.Some?
       then [Stamped(Quarantine(key.realm, key.hash, live.quarantine.value), live.firstSeen)] else [])
    + (if live.reputation.Some?
       then [Stamped(Attest(key.realm, key.hash, live.reputation.value), live.firstSeen)] else [])
  }

  function LiveHashes(c: Content, realm: RealmId): set<nat> {
    set k | k in c.entries && k.realm == realm && k.hash.Hex? :: k.hash.value
  }

  function TombHashes(c: Content, realm: RealmId): set<nat> {
    set k | k in c.tombstones && k.realm == realm && k.hash.Hex? :: k.hash.value
  }

  function OpsForLive(c: Content, realm: RealmId, hs: seq<nat>): seq<Stamped>
    requires forall h | h in hs :: Key(realm, Hex(h)) in c.entries
  {
    if hs == [] then []
    else
      var key := Key(realm, Hex(hs[|hs| - 1]));
      OpsForLive(c, realm, hs[..|hs| - 1]) + LiveOps(key, c.entries[key])
  }

  function OpsForTombs(realm: RealmId, hs: seq<nat>): seq<Stamped> {
    seq(|hs|, i requires 0 <= i < |hs| => Stamped(Tombstone(realm, Hex(hs[i])), 0))
  }

  /** Live keys in ascending order, each with its signals, then tombstones in ascending order. */
  ghost function RealmOps(c: Content, realm: RealmId): seq<Stamped> {
    AscendingLists(LiveHashes(c, realm));
    OpsForLive(c, realm, Ascending(LiveHashes(c, realm)))
    + OpsForTombs(realm, Ascending(TombHashes(c, realm)))
  }

  /** The part of a catalog that one Realm owns. */
  function Shard(c: Content, realm: RealmId): Content {
    Content(map k | k in c.entries && k.realm == realm :: c.entries[k],
            set k | k in c.tombstones && k.realm == realm)
  }

  ghost predicate KeysHex(c: Content) {
    forall k | k in Retained(c) :: k.hash.Hex?
  }

  lemma ReplayLiveOps(c: Content, key: Key, live: Live)
    requires key !in Retained(c)
    ensures ReplayOps(c, LiveOps(key, live)) == c.(entries := c.entries[key := live])
  {
    var put := Stamped(Put(key.realm, key.hash, live.manifest), live.firstSeen);
    var q := if live.quarantine.Some?
             then [Stamped(Quarantine(key.realm, key.hash, live.quarantine.value), live.firstSeen)] else [];
    var r := if live.reputation.Some?
             then [Stamped(Attest(key.realm, key.hash, live.reputation.value), live.firstSeen)] else [];
    ReplayOpsConcat(c, [put] + q, r);
    ReplayOpsConcat(c, [put], q);
    var c1 := ReplayOps(c, [put]);
    assert c1 == c.(entries := c.entries[key := Live(live.manifest, None, None, live.firstSeen)]);
    var c2 := ReplayOps(c1, q);
    assert c2 == c.(entries := c.entries[key := Live(live.manifest, None, live.quarantine, live.firstSeen)]);
    assert ReplayOps(c2, r) == c.(entries := c.entries[key := live]);
  }

  lemma {:induction false} ReplayOpsForLive(c: Content, realm: RealmId, hs: seq<nat>)
    requires forall i, j | 0 <= i < j < |hs| :: hs[i] != hs[j]
    requires forall h | h in hs :: Key(realm, Hex(h)) in c.entries
    ensures var r := ReplayOps(NOTHING, OpsForLive(c, realm, hs));
            && r.tombstones == {}
            && (forall k :: k in r.entries <==> k.realm == realm && k.hash.Hex? && k.hash.value in hs)
            && (forall k | k in r.entries :: k in c.entries && r.entries[k] == c.entries[k])
  {
    if hs != [] {
      var front, h := hs[..|hs| - 1], hs[|hs| - 1];
      var key := Key(realm, Hex(h));
      ReplayOpsForLive(c, realm, front);
      var r := ReplayOps(NOTHING, OpsForLive(c, realm, front));
      assert hs == front + [h];
      assert key !in Retained(r);
      ReplayLiveOps(r, key, c.entries[key]);
      ReplayOpsConcat(NOTHING, OpsForLive(c, realm, front), LiveOps(key, c.entries[key]));
    }
  }

  lemma {:induction false} ReplayOpsForTombs(c: Content, realm: RealmId, hs: seq<nat>)
    requires forall h | h in hs :: Key(realm, Hex(h)) !in c.entries
    ensures var r := ReplayOps(c, OpsForTombs(realm, hs));
            && r.entries == c.entries
            && forall k :: k in r.tombstones <==>
                 k in c.tombstones || (k.realm == realm && k.hash.Hex? && k.hash.value in hs)
  {
    if hs != [] {
      var front, h := hs[..|hs| - 1], hs[|hs| - 1];
      assert hs == front + [h];
      ReplayOpsForTombs(c, realm, front);
      assert OpsForTombs(realm, hs)[..|hs| - 1] == OpsForTombs(realm, front);
    }
  }

  /** Replaying a Realm's canonical chain gives back exactly that Realm's part of the catalog. */
  lemma ReplayRealmOps(cfg: Config, c: Content, realm: RealmId)
    requires Disjoint(c) && KeysHex(c)
    ensures Replay(ChainFor(cfg, RealmOps(c, realm))) == Shard(c, realm)
  {
    var ls, ts := LiveHashes(c, realm), TombHashes(c, realm);
    AscendingLists(ls);
    AscendingLists(ts);
    var live, tombs := OpsForLive(c, realm, Ascending(ls)), OpsForTombs(realm, Ascending(ts));
    ReplayChainFor(cfg, NOTHING, live + tombs);
    ReplayOpsConcat(NOTHING, live, tombs);
    ReplayOpsForLive(c, realm, Ascending(ls));
    var r := ReplayOps(NOTHING, live);
    forall h | h in Ascending(ts) ensures Key(realm, Hex(h)) !in r.entries {
      assert Key(realm, Hex(h)) in c.tombstones;
    }
    ReplayOpsForTombs(r, realm, Ascending(ts));
    var out, want := ReplayOps(r, tombs), Shard(c, realm);
    forall k
      ensures k in out.entries <==> k in want.entries
      ensures k in out.tombstones <==> k in want.tombstones
    {
      if k in c.entries || k in c.tombstones {
        assert k in Retained(c);
        assert k == Key(k.realm, Hex(k.hash.value));
      }
    }
    ContentExt(out, want);
  }

  // ---- the byte length of a canonical chain ----

  function LinkOverhead(i: nat): nat {
    if i == 0 then 15 else 64
  }

  /** Bytes spent on `seq` and `prev_hash` by a chain of `n` records; it depends only on `n`. */
  function Overhead(n: nat): nat {
    if n == 0 then 0 else Overhead(n - 1) + DecimalWidth(n - 1) + LinkOverhead(n - 1)
  }

  function OpsBytes(cfg: Config, ops: seq<Stamped>): nat {
    if ops == [] then 0
    else OpsBytes(cfg, ops[..|ops| - 1]) + cfg.base(ops[|ops| - 1].op, ops[|ops| - 1].firstSeen)
  }

  function StampsOf(log: seq<LogRecord>): (ops: seq<Stamped>)
    ensures |ops| == |log|
    ensures forall i | 0 <= i < |log| :: ops[i] == Stamped(log[i].op, log[i].firstSeen)
  {
    seq(|log|, i requires 0 <= i < |log| => Stamped(log[i].op, log[i].firstSeen))
  }

  /**
   * An accepted file is exactly what this store would have written for its operations: numbered from
   * zero, each record linked to the one before, signed with this store's key over its own content.
   */
  lemma {:induction false} AcceptedIsWritten(cfg: Config, rh: RealmHash, log: seq<LogRecord>)
    requires ChainOk(cfg, rh, log)
    ensures log == ChainFor(cfg, StampsOf(log))
  {
    if log != [] {
      var n := |log| - 1;
      ChainPrefix(cfg, rh, log, n);
      AcceptedIsWritten(cfg, rh, log[..n]);
      assert RecordOk(cfg, rh, log, n);
      assert StampsOf(log)[..n] == StampsOf(log[..n]);
      assert log == log[..n] + [log[n]];
    }
  }

  /** What a file's operations must be for the file this store writes for them to be accepted. */
  predicate Writable(cfg: Config, rh: RealmHash, log: seq<LogRecord>) {
    && |log| <= U64_MAX && LinesFit(cfg, log)
    && forall i | 0 <= i < |log| :: StampedOk(rh, Stamped(log[i].op, log[i].firstSeen)) && Parses(log[i].op)
  }

  /** Recovery accepts a file if and only if this store wrote it, with readable operations of that Realm. */
  lemma AcceptedIffWritten(cfg: Config, rh: RealmHash, log: seq<LogRecord>)
    ensures ChainOk(cfg, rh, log) <==> log == ChainFor(cfg, StampsOf(log)) && Writable(cfg, rh, log)
  {
    if ChainOk(cfg, rh, log) {
      AcceptedIsWritten(cfg, rh, log);
      forall i | 0 <= i < |log|
        ensures LineBytes(cfg, log[i]) <= MAX_RECORD_BYTES
        ensures StampedOk(rh, Stamped(log[i].op, log[i].firstSeen)) && Parses(log[i].op)
      {
        assert RecordOk(cfg, rh, log, i);
      }
    } else if log == ChainFor(cfg, StampsOf(log)) && Writable(cfg, rh, log) {
      ChainForOk(cfg, rh, StampsOf(log));
    }
  }

  /** An accepted chain's bytes are its ops' bytes plus an overhead that depends only on its length. */
  lemma {:induction false} ChainBytes(cfg: Config, log: seq<LogRecord>)
    requires forall i | 0 <= i < |log| :: log[i].prev == TipOf(log[..i]) && log[i].seq_ == i
    ensures LogBytes(cfg, log) == OpsBytes(cfg, StampsOf(log)) + Overhead(|log|)
  {
    if log != [] {
      var n := |log| - 1;
      forall i | 0 <= i < n ensures log[..n][i].prev == TipOf(log[..n][..i]) {
        assert log[..n][..i] == log[..i];
      }
      ChainBytes(cfg, log[..n]);
      assert StampsOf(log)[..n] == StampsOf(log[..n]);
    }
  }

  lemma {:induction false} ChainForBytes(cfg: Config, ops: seq<Stamped>)
    ensures LogBytes(cfg, ChainFor(cfg, ops)) == OpsBytes(cfg, ops) + Overhead(|ops|)
  {
    if ops != [] {
      var front := ops[..|ops| - 1];
      ChainForBytes(cfg, front);
      var log := ChainFor(cfg, ops);
      assert log[..|log| - 1] == ChainFor(cfg, front);
    }
  }

  lemma {:induction false} OverheadMonotone(m: nat, n: nat)
    requires m <= n
    ensures Overhead(m) <= Overhead(n)
  {
    if m < n {
      OverheadMonotone(m, n - 1);
    }
  }

  lemma {:induction false} OpsBytesConcat(cfg: Config, a: seq<Stamped>, b: seq<Stamped>)
    ensures OpsBytes(cfg, a + b) == OpsBytes(cfg, a) + OpsBytes(cfg, b)
  {
    if b == [] {
      assert a + b == a;
    } else {
      assert (a + b)[..|a + b| - 1] == a + b[..|b| - 1];
      OpsBytesConcat(cfg, a, b[..|b| - 1]);
    }
  }

  lemma OpsBytesRemove(cfg: Config, pool: seq<Stamped>, p: nat)
    requires p < |pool|
    ensures OpsBytes(cfg, pool) == OpsBytes(cfg, pool[..p] + pool[p + 1..]) + cfg.base(pool[p].op, pool[p].firstSeen)
  {
    assert pool == pool[..p + 1] + pool[p + 1..];
    OpsBytesConcat(cfg, pool[..p + 1], pool[p + 1..]);
    OpsBytesConcat(cfg, pool[..p], pool[p + 1..]);
    assert pool[..p + 1][..p] == pool[..p];
  }

  lemma StillInPool(ops: seq<Stamped>, pool: seq<Stamped>, p: nat, e: Stamped)
    requires ops != [] && p < |pool| && pool[p] == ops[|ops| - 1]
    requires forall i, j | 0 <= i < j < |ops| :: ops[i] != ops[j]
    requires e in ops[..|ops| - 1] && e in pool
    ensures e in pool[..p] + pool[p + 1..]
  {
    var q :| 0 <= q < |pool| && pool[q] == e;
    if q < p {
      assert pool[..p][q] == e;
    } else {
      assert pool[p + 1..][q - p - 1] == e;
    }
  }

  /** Distinct ops, all taken from `pool`, weigh no more than the pool and are no more numerous. */
  lemma {:induction false} DistinctSubBytes(cfg: Config, ops: seq<Stamped>, pool: seq<Stamped>)
    requires forall i, j | 0 <= i < j < |ops| :: ops[i] != ops[j]
    requires forall e | e in ops :: e in pool
    ensures |ops| <= |pool|
    ensures OpsBytes(cfg, ops) <= OpsBytes(cfg, pool)
  {
    if ops != [] {
      assert ops[|ops| - 1] in ops;
      var p :| 0 <= p < |pool| && pool[p] == ops[|ops| - 1];
      var front, pool' := ops[..|ops| - 1], pool[..p] + pool[p + 1..];
      forall e | e in front ensures e in pool' {
        assert e in ops;
        StillInPool(ops, pool, p, e);
      }
      DistinctSubBytes(cfg, front, pool');
      OpsBytesRemove(cfg, pool, p);
    }
  }
}
