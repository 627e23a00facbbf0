/**
 * What every operation keeps, under every fault: the disk alone always carries a well-formed
 * history within its caps, and while the store is healthy memory is exactly what the disk means.
 */
module Invariant {
  import opened Basics
  import opened Records
  import opened Catalog
  import opened Chain
  import opened Store

  // ---- the disk ----

  ghost predicate LogsOk(cfg: Config, logs: Logs) {
    forall rh | rh in logs :: ChainOk(cfg, rh, logs[rh])
  }

  /** A record is about a key its log still retains, under that key's one birth order. */
  ghost predicate Faithful(c: Content, rec: LogRecord) {
    && KeyOf(rec.op) in Retained(c)
    && rec.firstSeen < U64_MAX
    && (rec.op.Tombstone? ==> rec.firstSeen == 0)
    && (!rec.op.Tombstone? && KeyOf(rec.op) in c.entries ==>
          rec.firstSeen == c.entries[KeyOf(rec.op)].firstSeen)
  }

  ghost predicate History(log: seq<LogRecord>) {
    forall rec | rec in log :: Faithful(Replay(log), rec)
  }

  ghost predicate Histories(logs: Logs) {
    forall rh | rh in logs :: History(logs[rh])
  }

  ghost predicate DistinctBirths(c: Content) {
    forall a, b | a in c.entries && b in c.entries && a != b ::
      c.entries[a].firstSeen != c.entries[b].firstSeen
  }

  /** Every live row has its artifact on disk, and every blob hashes to its name. */
  ghost predicate BlobsOk(cfg: Config, c: Content, blobs: map<nat, Bytes>) {
    && (forall k | k in c.entries :: k.hash.Hex? && k.hash.value in blobs)
    && (forall h | h in blobs :: cfg.sha(blobs[h]) == h && WithinCap(|blobs[h]|, cfg.maxArtifactBytes))
  }

  ghost predicate CapsOk(cfg: Config, logs: Logs, blobs: map<nat, Bytes>) {
    && WithinCap(|Retained(Meaning(logs))|, cfg.maxEntries)
    && GrowthOk(0, LogTotal(cfg, logs), cfg.maxLogBytes)
    && GrowthOk(0, BlobTotal(blobs), cfg.maxBlobBytes)
    && WithinCap(|blobs|, cfg.maxEntries)
  }

  ghost predicate DiskInv(cfg: Config, logs: Logs, blobs: map<nat, Bytes>) {
    && LogsOk(cfg, logs)
    && Histories(logs)
    && DistinctBirths(Meaning(logs))
    && BlobsOk(cfg, Meaning(logs), blobs)
    && CapsOk(cfg, logs, blobs)
  }

  // ---- memory ----

  ghost predicate RealmsOk(realms: map<RealmHash, RealmId>, logs: Logs) {
    && (forall rh :: rh in realms <==> rh in logs && logs[rh] != [])
    && (forall rh | rh in realms :: realms[rh] == rh.realm)
  }

  /** An absent head and an absent log both stand for a chain at genesis. */
  ghost predicate HeadsOk(heads: map<RealmHash, Head>, logs: Logs) {
    forall rh :: HeadAt(heads, rh) == HeadOf(LogAt(logs, rh))
  }

  ghost predicate BirthsBelow(c: Content, next: nat) {
    forall k | k in c.entries :: c.entries[k].firstSeen < next
  }

  ghost predicate MemInv(cfg: Config, s: State) {
    && s.content == Meaning(s.logs)
    && RealmsOk(s.realms, s.logs)
    && HeadsOk(s.heads, s.logs)
    && BirthsBelow(s.content, s.nextFirstSeen)
    && s.nextFirstSeen <= U64_MAX
    && s.journalBytes == LogTotal(cfg, s.logs)
    && s.blobBytes == BlobTotal(s.blobs)
    && s.blobCount == |s.blobs|
    && s.torn == {}
  }

  ghost predicate Inv(cfg: Config, s: State) {
    DiskInv(cfg, s.logs, s.blobs) && s.torn <= s.logs.Keys && (s.healthy ==> MemInv(cfg, s))
  }

  // ---- small facts ----

  lemma InvDisjoint(cfg: Config, s: State)
    requires Inv(cfg, s) && s.healthy
    ensures Disjoint(s.content)
  {
    MeaningDisjoint(s.logs);
  }

  lemma TornFiles(cfg: Config, s: State)
    requires Inv(cfg, s)
    ensures s.torn <= s.logs.Keys && (s.healthy ==> s.torn == {})
    ensures s.torn !! s.logs.Keys <==> s.torn == {}
  {
  }

  lemma RetainedSize(c: Content)
    requires Disjoint(c)
    ensures RetainedCount(c) == |Retained(c)|
  {
  }

  lemma LogTotalSet(cfg: Config, logs: Logs, rh: RealmHash, log: seq<LogRecord>)
    ensures LogTotal(cfg, logs[rh := log]) + LogBytes(cfg, LogAt(logs, rh)) == LogTotal(cfg, logs) + LogBytes(cfg, log)
  {
    var m := LogSizes(cfg, logs);
    assert LogSizes(cfg, logs[rh := log]) == m[rh := LogBytes(cfg, log)];
    TotalUpdate(m, rh, LogBytes(cfg, log));
    if rh in logs {
      TotalRemove(m, rh);
    } else {
      assert m - {rh} == m;
    }
  }

  lemma BlobTotalAdd(blobs: map<nat, Bytes>, h: nat, bytes: Bytes)
    requires h !in blobs
    ensures BlobTotal(blobs[h := bytes]) == BlobTotal(blobs) + |bytes|
    ensures |blobs[h := bytes]| == |blobs| + 1
  {
    var m := BlobSizes(blobs);
    assert BlobSizes(blobs[h := bytes]) == m[h := |bytes|];
    TotalUpdate(m, h, |bytes|);
    assert m - {h} == m;
  }

  lemma BlobTotalRemove(blobs: map<nat, Bytes>, h: nat)
    requires h in blobs
    ensures BlobTotal(blobs - {h}) + |blobs[h]| == BlobTotal(blobs)
    ensures |blobs - {h}| + 1 == |blobs|
  {
    var m := BlobSizes(blobs);
    assert BlobSizes(blobs - {h}) == m - {h};
    TotalRemove(m, h);
    assert (blobs - {h}).Keys == blobs.Keys - {h};
  }

  lemma LiveIsHex(cfg: Config, logs: Logs, k: Key)
    requires LogsOk(cfg, logs) && Histories(logs)
    requires k in Retained(Meaning(logs))
    ensures k.hash.Hex?
  {
    MeaningAt(logs, k);
    RetainedHasRecord(logs[RealmSha(k.realm)], k);
    var i :| 0 <= i < |logs[RealmSha(k.realm)]| && KeyOf(logs[RealmSha(k.realm)][i].op) == k;
    assert RecordOk(cfg, RealmSha(k.realm), logs[RealmSha(k.realm)], i);
  }

  lemma {:induction false} RetainedHasRecord(log: seq<LogRecord>, k: Key)
    requires k in Retained(Replay(log))
    ensures exists i :: 0 <= i < |log| && KeyOf(log[i].op) == k
  {
    var n := |log| - 1;
    var last := log[n];
    if KeyOf(last.op) != k {
      ApplyElsewhere(Replay(log[..n]), last.op, last.firstSeen, k);
      RetainedHasRecord(log[..n], k);
      var i :| 0 <= i < n && KeyOf(log[..n][i].op) == k;
      assert KeyOf(log[i].op) == k;
    }
  }

  // ---- appending one record ----

  /** What an operation establishes before it appends. */
  ghost predicate Ready(cfg: Config, logs: Logs, blobs: map<nat, Bytes>, op: LogOp, fs: nat) {
    var c, key := Meaning(logs), KeyOf(op);
    && op.hash.Hex?
    && Parses(op)
    && fs < U64_MAX
    && key !in c.tombstones
    && (key in c.entries && !op.Tombstone? ==> fs == c.entries[key].firstSeen)
    && (key !in c.entries ==> op.Put? || op.Tombstone?)
    && (key !in c.entries ==> WithinCap(|Retained(c)| + 1, cfg.maxEntries))
    && (op.Put? ==> op.hash.value in blobs)
    && (op.Put? && key !in c.entries ==> forall k | k in c.entries :: c.entries[k].firstSeen != fs)
    && (op.Tombstone? ==> fs == 0)
  }

  /** The record can follow a history whose catalog is `c`. */
  ghost predicate Follows(c: Content, rec: LogRecord) {
    var key := KeyOf(rec.op);
    && rec.firstSeen < U64_MAX
    && key !in c.tombstones
    && (key in c.entries && !rec.op.Tombstone? ==> rec.firstSeen == c.entries[key].firstSeen)
    && (key !in c.entries ==> rec.op.Put? || rec.op.Tombstone?)
    && (rec.op.Tombstone? ==> rec.firstSeen == 0)
  }

  lemma FaithfulStays(c: Content, r: LogRecord, rec: LogRecord)
    requires Faithful(c, r) && Follows(c, rec)
    ensures Faithful(Apply(c, rec.op, rec.firstSeen), r)
  {
    if KeyOf(r.op) != KeyOf(rec.op) {
      ApplyElsewhere(c, rec.op, rec.firstSeen, KeyOf(r.op));
    }
  }

  lemma FaithfulAtOnce(c: Content, rec: LogRecord)
    requires Follows(c, rec)
    ensures Faithful(Apply(c, rec.op, rec.firstSeen), rec)
  {
  }

  lemma HistoryAppend(log: seq<LogRecord>, rec: LogRecord)
    requires History(log) && Follows(Replay(log), rec)
    ensures History(log + [rec])
  {
    ReplayAppend(NOTHING, log, rec);
    assert Replay(log + [rec]) == Apply(Replay(log), rec.op, rec.firstSeen);
    hide Apply, Faithful, Follows, Replay;
    var c := Replay(log);
    forall r | r in log + [rec]
      ensures Faithful(Replay(log + [rec]), r)
    {
      if r in log {
        FaithfulStays(c, r, rec);
      } else {
        FaithfulAtOnce(c, rec);
      }
    }
  }

  lemma RetainedIn(c: Content, k: Key)
    ensures k in Retained(c) <==> k in c.entries || k in c.tombstones
  {
  }

  lemma ApplyRetains(c: Content, op: LogOp, fs: nat, k: Key)
    ensures var c' := Apply(c, op, fs);
            k in c'.entries || k in c'.tombstones <==>
              k in c.entries || k in c.tombstones || ((op.Put? || op.Tombstone?) && k == KeyOf(op))
  {
  }

  lemma RetainedAfter(c: Content, op: LogOp, fs: nat)
    ensures |Retained(Apply(c, op, fs))| ==
            |Retained(c)| + if (op.Put? || op.Tombstone?) && KeyOf(op) !in Retained(c) then 1 else 0
  {
    hide Retained, Apply;
    var added := if op.Put? || op.Tombstone? then {KeyOf(op)} else {};
    forall k
      ensures k in Retained(Apply(c, op, fs)) <==> k in Retained(c) + added
    {
      RetainedIn(c, k);
      RetainedIn(Apply(c, op, fs), k);
      ApplyRetains(c, op, fs, k);
    }
    assert Retained(Apply(c, op, fs)) == Retained(c) + added;
    if KeyOf(op) in Retained(c) {
      assert Retained(c) + added == Retained(c);
    }
  }

  lemma ApplyDistinct(c: Content, op: LogOp, fs: nat)
    requires DistinctBirths(c)
    requires op.Put? && KeyOf(op) !in c.entries ==> forall k | k in c.entries :: c.entries[k].firstSeen != fs
    ensures DistinctBirths(Apply(c, op, fs))
  {
  }

  lemma ApplyBlobs(cfg: Config, c: Content, blobs: map<nat, Bytes>, op: LogOp, fs: nat)
    requires BlobsOk(cfg, c, blobs)
    requires op.Put? ==> op.hash.Hex? && op.hash.value in blobs
    ensures BlobsOk(cfg, Apply(c, op, fs), blobs)
  {
    var c' := Apply(c, op, fs);
    forall k | k in c'.entries ensures k.hash.Hex? && k.hash.value in blobs {
      if k != KeyOf(op) {
        ApplyElsewhere(c, op, fs, k);
      }
    }
  }

  /** The log that results from appending `op` at the log's own head. */
  function Grown(cfg: Config, log: seq<LogRecord>, op: LogOp, fs: nat): seq<LogRecord> {
    log + [BuildRecord(cfg, |log|, TipOf(log), op, fs)]
  }

  function GrownLogs(cfg: Config, logs: Logs, op: LogOp, fs: nat): Logs {
    logs[RealmSha(op.realm) := Grown(cfg, LogAt(logs, RealmSha(op.realm)), op, fs)]
  }

  lemma GrownMeaning(cfg: Config, logs: Logs, op: LogOp, fs: nat)
    ensures Meaning(GrownLogs(cfg, logs, op, fs)) == Apply(Meaning(logs), op, fs)
    ensures Evolves(Meaning(logs), Meaning(GrownLogs(cfg, logs, op, fs)))
  {
    var log := LogAt(logs, RealmSha(op.realm));
    MeaningAppend(logs, BuildRecord(cfg, |log|, TipOf(log), op, fs));
    MeaningDisjoint(logs);
    ApplyEvolves(Meaning(logs), op, fs);
  }

  lemma GrownTotal(cfg: Config, logs: Logs, op: LogOp, fs: nat)
    ensures var log := LogAt(logs, RealmSha(op.realm));
            LogTotal(cfg, GrownLogs(cfg, logs, op, fs))
              == LogTotal(cfg, logs) + LineBytes(cfg, BuildRecord(cfg, |log|, TipOf(log), op, fs))
  {
    var log := LogAt(logs, RealmSha(op.realm));
    LogTotalSet(cfg, logs, RealmSha(op.realm), Grown(cfg, log, op, fs));
    assert Grown(cfg, log, op, fs)[..|log|] == log;
  }

  ghost predicate Room(cfg: Config, logs: Logs, op: LogOp, fs: nat) {
    var log := LogAt(logs, RealmSha(op.realm));
    var rec := BuildRecord(cfg, |log|, TipOf(log), op, fs);
    var total := LogTotal(cfg, logs) + LineBytes(cfg, rec);
    && |log| < U64_MAX
    && LineBytes(cfg, rec) <= 4_194_304
    && total <= U64_MAX && (cfg.maxLogBytes == 0 || total <= cfg.maxLogBytes)
  }

  lemma GrownLogsOk(cfg: Config, logs: Logs, blobs: map<nat, Bytes>, op: LogOp, fs: nat)
    requires LogsOk(cfg, logs) && Histories(logs)
    requires Ready(cfg, logs, blobs, op, fs) && Room(cfg, logs, op, fs)
    ensures LogsOk(cfg, GrownLogs(cfg, logs, op, fs)) && Histories(GrownLogs(cfg, logs, op, fs))
  {
    var rh := RealmSha(op.realm);
    var log := LogAt(logs, rh);
    ChainExtend(cfg, rh, log, op, fs);
    MeaningAt(logs, KeyOf(op));
    HistoryAppend(log, BuildRecord(cfg, |log|, TipOf(log), op, fs));
  }

  /** One more record keeps the disk well-formed. */
  lemma AppendKeepsDisk(cfg: Config, logs: Logs, blobs: map<nat, Bytes>, op: LogOp, fs: nat)
    requires DiskInv(cfg, logs, blobs)
    requires Ready(cfg, logs, blobs, op, fs) && Room(cfg, logs, op, fs)
    ensures DiskInv(cfg, GrownLogs(cfg, logs, op, fs), blobs)
  {
    var c := Meaning(logs);
    GrownLogsOk(cfg, logs, blobs, op, fs);
    GrownMeaning(cfg, logs, op, fs);
    GrownTotal(cfg, logs, op, fs);
    ApplyDistinct(c, op, fs);
    ApplyBlobs(cfg, c, blobs, op, fs);
    RetainedAfter(c, op, fs);
  }

  /** An append whose line did not land leaves at most an empty file. */
  lemma TouchKeepsDisk(cfg: Config, logs: Logs, blobs: map<nat, Bytes>, rh: RealmHash)
    requires DiskInv(cfg, logs, blobs)
    ensures DiskInv(cfg, logs[rh := LogAt(logs, rh)], blobs)
    ensures Meaning(logs[rh := LogAt(logs, rh)]) == Meaning(logs)
  {
    hide Meaning, LogTotal, BlobsOk, DistinctBirths;
    var logs' := logs[rh := LogAt(logs, rh)];
    if rh in logs {
      assert logs' == logs;
    } else {
      MeaningAddRealm(logs, rh, []);
      LogTotalSet(cfg, logs, rh, []);
    }
  }

  lemma HeadsTouch(heads: map<RealmHash, Head>, logs: Logs, rh: RealmHash)
    requires HeadsOk(heads, logs)
    ensures HeadsOk(heads[rh := HeadAt(heads, rh)], logs)
  {
    forall r ensures HeadAt(heads[rh := HeadAt(heads, rh)], r) == HeadOf(LogAt(logs, r)) {
      assert HeadAt(heads, r) == HeadOf(LogAt(logs, r));
    }
  }

  lemma HeadsSet(heads: map<RealmHash, Head>, logs: Logs, rh: RealmHash, log: seq<LogRecord>)
    requires HeadsOk(heads, logs)
    ensures HeadsOk(heads[rh := HeadOf(log)], logs[rh := log])
  {
    var heads', logs' := heads[rh := HeadOf(log)], logs[rh := log];
    forall r ensures HeadAt(heads', r) == HeadOf(LogAt(logs', r)) {
      assert HeadAt(heads, r) == HeadOf(LogAt(logs, r));
    }
  }

  lemma FitsIsRoom(cfg: Config, s: State, op: LogOp, fs: nat)
    requires MemInv(cfg, s)
    ensures Fits(cfg, s, op, fs) <==> Room(cfg, s.logs, op, fs)
  {
    assert HeadAt(s.heads, RealmSha(op.realm)) == HeadOf(LogAt(s.logs, RealmSha(op.realm)));
  }

  /** An append that did not succeed keeps the whole invariant, whatever the fault was. */
  lemma AppendFails(cfg: Config, s: State, op: LogOp, fs: nat, fault: AppendFault)
    requires Inv(cfg, s) && s.healthy
    requires Ready(cfg, s.logs, s.blobs, op, fs)
    requires !Append(cfg, s, op, fs, fault).1.Appended?
    ensures var s' := Append(cfg, s, op, fs, fault).0;
            Inv(cfg, s') && Evolves(Meaning(s.logs), Meaning(s'.logs)) && s'.blobs == s.blobs
  {
    hide DiskInv, Meaning, Ready, Apply, LogTotal;
    var rh := RealmSha(op.realm);
    var (s', out) := Append(cfg, s, op, fs, fault);
    if out.BeforeWrite? {
      HeadsTouch(s.heads, s.logs, rh);
    } else {
      FitsIsRoom(cfg, s, op, fs);
      assert HeadAt(s.heads, rh) == HeadOf(LogAt(s.logs, rh));
      if fault.Uncertain? && fault.landed {
        AppendKeepsDisk(cfg, s.logs, s.blobs, op, fs);
        GrownMeaning(cfg, s.logs, op, fs);
      } else {
        TouchKeepsDisk(cfg, s.logs, s.blobs, rh);
        assert LogAt(s.logs, rh) + [] == LogAt(s.logs, rh);
      }
    }
  }

  /** A successful append leaves memory exactly one `Apply` behind the disk. */
  lemma AppendLands(cfg: Config, s: State, op: LogOp, fs: nat, fault: AppendFault)
    requires Inv(cfg, s) && s.healthy
    requires Ready(cfg, s.logs, s.blobs, op, fs)
    requires Append(cfg, s, op, fs, fault).1.Appended?
    ensures var s' := Append(cfg, s, op, fs, fault).0;
            && s' == s.(logs := GrownLogs(cfg, s.logs, op, fs), heads := s'.heads, journalBytes := s'.journalBytes)
            && DiskInv(cfg, s'.logs, s.blobs)
            && Meaning(s'.logs) == Apply(s.content, op, fs)
            && Evolves(Meaning(s.logs), Meaning(s'.logs))
            && HeadsOk(s'.heads, s'.logs)
            && s'.journalBytes == LogTotal(cfg, s'.logs)
  {
    hide DiskInv, Meaning, Ready, Apply, LogTotal;
    var rh := RealmSha(op.realm);
    FitsIsRoom(cfg, s, op, fs);
    assert HeadAt(s.heads, rh) == HeadOf(LogAt(s.logs, rh));
    AppendKeepsDisk(cfg, s.logs, s.blobs, op, fs);
    GrownMeaning(cfg, s.logs, op, fs);
    GrownTotal(cfg, s.logs, op, fs);
    HeadsSet(s.heads, s.logs, rh, Grown(cfg, LogAt(s.logs, rh), op, fs));
  }

  lemma RealmsGrow(cfg: Config, s: State, op: LogOp, fs: nat)
    requires RealmsOk(s.realms, s.logs)
    ensures RealmsOk(s.realms[RealmSha(op.realm) := op.realm], GrownLogs(cfg, s.logs, op, fs))
  {
  }

  /** Append, bump the birth counter if asked, and apply: memory has caught up with the disk. */
  lemma AppendApplied(cfg: Config, s: State, op: LogOp, fs: nat, fault: AppendFault, next: nat)
    requires Inv(cfg, s) && s.healthy
    requires Ready(cfg, s.logs, s.blobs, op, fs)
    requires Append(cfg, s, op, fs, fault).1.Appended?
    requires next <= U64_MAX && BirthsBelow(Apply(s.content, op, fs), next)
    ensures var s' := ApplyInMemory(Append(cfg, s, op, fs, fault).0.(nextFirstSeen := next), op, fs);
            Inv(cfg, s') && Evolves(Meaning(s.logs), Meaning(s'.logs)) && s'.blobs == s.blobs
  {
    hide DiskInv, Meaning, Ready, Apply, LogTotal, RealmsOk, HeadsOk, BirthsBelow;
    AppendLands(cfg, s, op, fs, fault);
    RealmsGrow(cfg, s, op, fs);
  }

  lemma ApplyBirthsBelow(c: Content, op: LogOp, fs: nat, next: nat)
    requires BirthsBelow(c, next)
    requires op.Put? && KeyOf(op) !in c.entries ==> fs < next
    ensures BirthsBelow(Apply(c, op, fs), next)
  {
  }

  /** Every signal operation ends in a `Commit`; it keeps the invariant under every fault. */
  lemma CommitKeeps(cfg: Config, s: State, op: LogOp, fs: nat, fault: AppendFault)
    requires Inv(cfg, s) && s.healthy
    requires Ready(cfg, s.logs, s.blobs, op, fs) && !op.Put?
    ensures var s' := Commit(cfg, s, op, fs, fault).0;
            Inv(cfg, s') && Evolves(Meaning(s.logs), Meaning(s'.logs)) && s'.blobs == s.blobs
  {
    var (s1, out) := Append(cfg, s, op, fs, fault);
    if out.Appended? {
      ApplyBirthsBelow(s.content, op, fs, s.nextFirstSeen);
      AppendApplied(cfg, s, op, fs, fault, s.nextFirstSeen);
      AppendLands(cfg, s, op, fs, fault);
      assert s1.(nextFirstSeen := s.nextFirstSeen) == s1;
    } else {
      AppendFails(cfg, s, op, fs, fault);
    }
  }
}
