/**
 * When no cap is reached: facts about the pushes and the settings alone, which a caller can check
 * beforehand, under which every merge of them into an empty store goes through.
 */
module Ample {
  import opened Basics
  import opened Records
  import opened Catalog
  import opened Chain
  import opened Store
  import opened Invariant
  import opened Operations
  import opened Recovery
  import opened Runs
  import opened Guarantees
  import opened Effects
  import opened Faults
  import opened FaultFree
  import opened Replication
  import opened Peers
  import Findings

  // ---- room for records ----

  function Times(m: nat, line: nat): nat {
    if m == 0 then 0 else Times(m - 1, line) + line
  }

  /** The journal has room for `m` more records of at most `line` bytes each, in whatever Realms. */
  ghost predicate Slots(cfg: Config, s: State, line: nat, m: nat) {
    && line <= MAX_RECORD_BYTES
    && (forall rh :: HeadAt(s.heads, rh).nextSeq + m <= U64_MAX)
    && GrowthOk(s.journalBytes, Times(m, line), cfg.maxLogBytes)
  }

  /** Under any birth order, the record of this operation takes at most `line` bytes wherever it goes. */
  ghost predicate Short(cfg: Config, op: LogOp, line: nat) {
    forall fs | 0 <= fs <= U64_MAX :: cfg.base(op, fs) + 20 + 64 <= line
  }

  lemma SlotFits(cfg: Config, s: State, op: LogOp, fs: nat, line: nat, m: nat)
    requires s.healthy && Slots(cfg, s, line, m + 1) && Short(cfg, op, line) && fs <= U64_MAX
    ensures Fits(cfg, s, op, fs)
    ensures var (s', out) := Append(cfg, s, op, fs, NoFault); out == Appended && Slots(cfg, s', line, m)
  {
    var rec := NextRecord(cfg, s, op, fs);
    assert HeadAt(s.heads, RealmSha(op.realm)).nextSeq + m + 1 <= U64_MAX;
    U64Width(rec.seq_);
    assert LineBytes(cfg, rec) <= line;
    var s' := Append(cfg, s, op, fs, NoFault).0;
    forall rh
      ensures HeadAt(s'.heads, rh).nextSeq + m <= U64_MAX
    {
      assert HeadAt(s.heads, rh).nextSeq + (m + 1) <= U64_MAX;
    }
  }

  /** With a slot left, a commit goes through and takes one. */
  lemma SlotCommits(cfg: Config, s: State, op: LogOp, fs: nat, line: nat, m: nat)
    requires s.healthy && Slots(cfg, s, line, m + 1) && Short(cfg, op, line) && fs <= U64_MAX
    ensures var (s', r) := Commit(cfg, s, op, fs, NoFault);
            && r == Ok(true) && s'.healthy && Slots(cfg, s', line, m) && s'.content == Apply(s.content, op, fs)
            && s'.blobs == s.blobs && s'.blobBytes == s.blobBytes && s'.nextFirstSeen == s.nextFirstSeen
  {
    SlotFits(cfg, s, op, fs, line, m);
    SlotsOfMemory(cfg, Append(cfg, s, op, fs, NoFault).0, op, fs, line, m);
    hide Fits, Apply, Slots;
  }

  lemma SlotsOfMemory(cfg: Config, s: State, op: LogOp, fs: nat, line: nat, m: nat)
    requires Slots(cfg, s, line, m)
    ensures Slots(cfg, ApplyInMemory(s, op, fs), line, m)
    ensures forall n :: Slots(cfg, ApplyInMemory(s.(nextFirstSeen := n), op, fs), line, m)
  {
  }

  lemma FewerSlots(cfg: Config, s: State, line: nat, m: nat)
    requires Slots(cfg, s, line, m + 1)
    ensures Slots(cfg, s, line, m)
  {
    forall rh
      ensures HeadAt(s.heads, rh).nextSeq + m <= U64_MAX
    {
      assert HeadAt(s.heads, rh).nextSeq + (m + 1) <= U64_MAX;
    }
  }

  // ---- what the pushes need ----

  /** The records a push can cause are all short: its own, its score's, and its marker's with any merged peers. */
  ghost predicate ShortPush(cfg: Config, p: SignedSyncEntry, line: nat) {
    var op := p.record.op;
    && Short(cfg, op, line)
    && (p.sync.Some? && p.sync.value.reputation.Some? ==>
          Short(cfg, LogOp.Attest(op.realm, op.hash, p.sync.value.reputation.value), line))
    && (p.sync.Some? && p.sync.value.quarantine.Some? ==>
          forall n: QuarantineNotice | NoticeShapeOk(n) && n.reason == p.sync.value.quarantine.value.reason ::
            Short(cfg, LogOp.Quarantine(op.realm, op.hash, n), line))
  }

  /** The keys the pushes are about. */
  function KeysOf(ps: seq<SignedSyncEntry>): set<Key> {
    set p | p in ps :: KeyOf(p.record.op)
  }

  lemma {:induction false} KeysCount(ps: seq<SignedSyncEntry>)
    ensures |KeysOf(ps)| <= |ps|
  {
    if ps != [] {
      var (front, p) := (ps[..|ps| - 1], ps[|ps| - 1]);
      KeysCount(front);
      assert ps == front + [p];
      assert KeysOf(ps) == KeysOf(front) + {KeyOf(p.record.op)};
    }
  }

  function ArtifactSize(p: SignedSyncEntry): nat {
    if p.sync.Some? then |p.sync.value.artifact| else 0
  }

  function ArtifactBytes(ps: seq<SignedSyncEntry>): nat {
    if ps == [] then 0 else ArtifactBytes(ps[..|ps| - 1]) + ArtifactSize(ps[|ps| - 1])
  }

  /** The peers that any of the pushes names for the key. */
  function PeersNamed(cfg: Config, ps: seq<SignedSyncEntry>, k: Key): set<string> {
    if ps == [] then {}
    else
      var (front, p) := (ps[..|ps| - 1], ps[|ps| - 1]);
      PeersNamed(cfg, front, k) + if Flags(cfg, p, k) then Names(PeersOf(cfg, p, k)) else {}
  }

  /** The list has room for every one of the named peers that it lacks. */
  predicate RoomForAll(list: seq<string>, named: set<string>) {
    |list| + |named - Names(list)| <= MAX_ATTESTING_PEERS
  }

  /**
   * The settings have room for the pushes: keys and artifacts within their caps, three short records
   * per push within the journal's, and in each peer list room for all the other peers named for its key.
   */
  ghost predicate Ample(cfg: Config, ps: seq<SignedSyncEntry>, line: nat) {
    && line <= MAX_RECORD_BYTES && 3 * |ps| < U64_MAX
    && GrowthOk(0, Times(3 * |ps|, line), cfg.maxLogBytes)
    && WithinCap(|KeysOf(ps)|, cfg.maxEntries)
    && GrowthOk(0, ArtifactBytes(ps), cfg.maxBlobBytes)
    && (forall p | p in ps && Accepted(cfg, p) :: ShortPush(cfg, p, line))
    && (forall p, k | p in ps && Flags(cfg, p, k) :: RoomForAll(PeersOf(cfg, p, k), PeersNamed(cfg, ps, k)))
  }

  /** There are such pushes: the small store has room for a push of a scored entry, and accepts it. */
  lemma ScoredPushIsAmple()
    ensures Ample(Findings.TRUSTING, [Findings.SCORED_PUSH], 94) && Accepted(Findings.TRUSTING, Findings.SCORED_PUSH)
  {
    var (cfg, p) := (Findings.TRUSTING, Findings.SCORED_PUSH);
    assert PushedPutError(cfg, p).None?;
    assert Times(3, 94) == Times(2, 94) + 94 == Times(1, 94) + 188 == 282;
    assert [p][..0] == [];
    KeysCount([p]);
  }

  // ---- what is left of the room ----

  /** Room for `m` more records, `bytes` more of artifacts and `births` more entries. */
  ghost predicate Left(cfg: Config, s: State, line: nat, m: nat, bytes: nat, births: nat) {
    && s.healthy
    && Slots(cfg, s, line, m)
    && GrowthOk(s.blobBytes, bytes, cfg.maxBlobBytes)
    && s.nextFirstSeen + births <= U64_MAX
  }

  /** There is a free place for one more key, unless this one has one. */
  ghost predicate Place(cfg: Config, s: State, k: Key) {
    k !in Retained(s.content) ==>
      && WithinCap(RetainedCount(s.content) + 1, cfg.maxEntries) && WithinCap(s.blobCount + 1, cfg.maxEntries)
      && s.blobCount < U64_MAX
  }

  // ---- a put goes through ----

  lemma BirthFits(cfg: Config, s: State, key: Key)
    requires Inv(cfg, s) && s.healthy
    ensures PutBirth(s, key) <= U64_MAX
  {
    hide Meaning, DiskInv, HeadsOk, RealmsOk, LogTotal, BlobTotal;
  }

  /** The blob is there, or there is room for it. */
  lemma BlobGoesIn(cfg: Config, s: State, realm: RealmId, artifact: Bytes, bytes: nat)
    requires Inv(cfg, s) && s.healthy && GrowthOk(s.blobBytes, |artifact| + bytes, cfg.maxBlobBytes)
    requires Place(cfg, s, Key(realm, Hex(cfg.sha(artifact)))) && Key(realm, Hex(cfg.sha(artifact))) !in s.content.tombstones
    ensures var (s1, w) := WriteBlob(cfg, s, cfg.sha(artifact), artifact, BlobLands);
            && w.Ok? && GrowthOk(s1.blobBytes, bytes, cfg.maxBlobBytes)
            && s1 == s.(blobs := s1.blobs, blobBytes := s1.blobBytes, blobCount := s1.blobCount)
  {
    hide Meaning, LogsOk, Histories, DistinctBirths, CapsOk, HeadsOk, RealmsOk, LogTotal, BlobTotal, WriteBlob, RetainedCount;
    WriteBlobPlain(cfg, s, artifact, BlobLands);
  }

  lemma PutLoggedGoesThrough(
    cfg: Config, s: State, s1: State, key: Key, manifest: Manifest, created: bool, line: nat, m: nat)
    requires s.healthy && key.hash.Hex? && s1 == s.(blobs := s1.blobs, blobBytes := s1.blobBytes, blobCount := s1.blobCount)
    requires Slots(cfg, s, line, m + 1) && Short(cfg, LogOp.Put(key.realm, key.hash, manifest), line)
    requires PutBirth(s, key) <= U64_MAX
    ensures var (s', r) := PutLogged(cfg, s1, key, manifest, created, NO_PUT_FAULTS);
            && r.Ok? && s'.healthy && Slots(cfg, s', line, m)
            && s'.blobBytes == s1.blobBytes && s'.nextFirstSeen <= s.nextFirstSeen + 1
  {
    var op := LogOp.Put(key.realm, key.hash, manifest);
    SlotFits(cfg, s1, op, PutBirth(s1, key), line, m);
    SlotsOfMemory(cfg, Append(cfg, s1, op, PutBirth(s1, key), NoFault).0, op, PutBirth(s1, key), line, m);
    hide Fits, Apply, Slots, Short;
  }

  lemma PutGoesThrough(
    cfg: Config, s: State, realm: RealmId, manifest: Manifest, artifact: Bytes, line: nat, m: nat, bytes: nat, births: nat)
    requires Inv(cfg, s) && Left(cfg, s, line, m + 1, |artifact| + bytes, births + 1)
    requires WithinCap(|artifact|, cfg.maxArtifactBytes) && cfg.validManifest(manifest)
    requires Short(cfg, LogOp.Put(realm, Hex(cfg.sha(artifact)), manifest), line)
    requires Place(cfg, s, Key(realm, Hex(cfg.sha(artifact))))
    ensures var (s', r) := Store.Put(cfg, s, realm, manifest, artifact, NO_PUT_FAULTS);
            r.Ok? && Left(cfg, s', line, m, bytes, births)
  {
    hide Inv, Fits, WriteBlob, PutLogged, Slots, RetainedCount, Short;
    var h := cfg.sha(artifact);
    var key := Key(realm, Hex(h));
    FewerSlots(cfg, s, line, m);
    if key !in s.content.tombstones {
      BirthFits(cfg, s, key);
      SlotFits(cfg, s, LogOp.Put(realm, Hex(h), manifest), PutBirth(s, key), line, m);
      BlobGoesIn(cfg, s, realm, artifact, bytes);
      var (s1, w) := WriteBlob(cfg, s, h, artifact, BlobLands);
      PutLoggedGoesThrough(cfg, s, s1, key, manifest, w.value, line, m);
    }
  }

  // ---- signals go through ----

  /** The score step takes at most one slot and cannot fail. */
  lemma ScoreGoesThrough(
    cfg: Config, s: State, k: Key, incoming: Option<ReputationScore>, line: nat, m: nat, bytes: nat, births: nat)
    requires Inv(cfg, s) && Left(cfg, s, line, m + 1, bytes, births) && k.hash.Hex?
    requires incoming.Some? ==> Short(cfg, LogOp.Attest(k.realm, k.hash, incoming.value), line)
    ensures var (s', r) := MergeReputation(cfg, s, k.realm, k.hash, incoming, NoFault);
            && r.Ok? && Inv(cfg, s') && Left(cfg, s', line, m, bytes, births)
            && Marker(s'.content, k) == Marker(s.content, k)
            && (k in s'.content.entries <==> k in s.content.entries)
  {
    hide Inv, Commit, Slots, Short, ReadBlob, AttestShapeOk;
    assert k == Key(k.realm, k.hash);
    FewerSlots(cfg, s, line, m);
    if incoming.Some? {
      AttestKeeps(cfg, s, k.realm, k.hash, incoming.value, NoFault);
    }
    if k in s.content.entries {
      LiveIsReadable(cfg, s, k);
      if incoming.Some? {
        BirthFits(cfg, s, k);
        var op := LogOp.Attest(k.realm, k.hash, incoming.value);
        SlotCommits(cfg, s, op, PutBirth(s, k), line, m);
        AttestedRow(s.content, op, PutBirth(s, k));
      }
    }
  }

  lemma AttestedRow(c: Content, op: LogOp, fs: nat)
    requires op.Attest?
    ensures var c' := Apply(c, op, fs);
            && Marker(c', KeyOf(op)) == Marker(c, KeyOf(op))
            && (KeyOf(op) in c'.entries <==> KeyOf(op) in c.entries)
  {
  }

  /** A marker that can be merged is, and takes one slot; any other takes none. */
  lemma MarkerGoesThrough(
    cfg: Config, s: State, k: Key, incoming: Option<QuarantineNotice>, line: nat, m: nat, bytes: nat, births: nat)
    requires Inv(cfg, s) && Left(cfg, s, line, m + 1, bytes, births) && k.hash.Hex?
    requires incoming.Some? && MarkShapeOk(cfg, k.realm, incoming.value) ==>
               forall n: QuarantineNotice | NoticeShapeOk(n) && n.reason == incoming.value.reason ::
                 Short(cfg, LogOp.Quarantine(k.realm, k.hash, n), line)
    ensures var (s', r) := MergeQuarantine(cfg, s, k.realm, k.hash, incoming, NoFault);
            && r.Ok? && Left(cfg, s', line, m, bytes, births)
            && (incoming.Some? && MarkShapeOk(cfg, k.realm, incoming.value) && k in s.content.entries ==>
                  (r.value <==> MergeNotice(incoming.value, Marker(s.content, k)).Some?))
            && (k in s'.content.entries <==> k in s.content.entries)
            && (k in s'.content.tombstones <==> k in s.content.tombstones)
  {
    hide Inv, Commit, Slots, Short, MarkShapeOk, MergeNotice;
    assert k == Key(k.realm, k.hash);
    FewerSlots(cfg, s, line, m);
    if incoming.Some? && MarkShapeOk(cfg, k.realm, incoming.value) && k in s.content.entries {
      var n := MergeNotice(incoming.value, s.content.entries[k].quarantine);
      if n.Some? {
        BirthFits(cfg, s, k);
        MergedShape(incoming.value, s.content.entries[k].quarantine);
        var op := LogOp.Quarantine(k.realm, k.hash, n.value);
        SlotCommits(cfg, s, op, PutBirth(s, k), line, m);
        MarkedRow(s.content, op, PutBirth(s, k));
      }
    }
  }

  lemma MergedShape(x: QuarantineNotice, earlier: Option<QuarantineNotice>)
    requires MergeNotice(x, earlier).Some?
    ensures NoticeShapeOk(MergeNotice(x, earlier).value) && MergeNotice(x, earlier).value.reason == x.reason
  {
  }

  lemma MarkedRow(c: Content, op: LogOp, fs: nat)
    requires op.Quarantine?
    ensures var c' := Apply(c, op, fs);
            (KeyOf(op) in c'.entries <==> KeyOf(op) in c.entries) && c'.tombstones == c.tombstones
  {
  }

  // ---- a push goes through ----

  lemma EvictionGoesThrough(cfg: Config, s: State, p: SignedSyncEntry, line: nat, m: nat, bytes: nat, births: nat)
    requires Inv(cfg, s) && Accepted(cfg, p) && p.record.op.Tombstone? && Short(cfg, p.record.op, line)
    requires Left(cfg, s, line, m + 1, bytes, births) && Place(cfg, s, KeyOf(p.record.op))
    ensures Unrefused(cfg, s, p) && Left(cfg, MergePush(cfg, s, p, NO_MERGE_FAULTS).0, line, m, bytes, births)
  {
    hide Inv, Commit, Slots, Short, RetainedCount;
    var op := p.record.op;
    FewerSlots(cfg, s, line, m);
    SlotCommits(cfg, s, op, 0, line, m);
    EvictedRow(s.content, op);
  }

  lemma EvictedRow(c: Content, op: LogOp)
    requires op.Tombstone?
    ensures KeyOf(op) in Retained(Apply(c, op, 0)) && KeyOf(op) !in Apply(c, op, 0).entries
  {
  }

  /** The marker of the push, if any, can be merged into the row's. */
  ghost predicate Mergeable(cfg: Config, c: Content, p: SignedSyncEntry) {
    var k := KeyOf(p.record.op);
    Flags(cfg, p, k) ==> MergeNotice(p.sync.value.quarantine.value, Marker(c, k)).Some?
  }

  lemma SignalsGoThrough(
    cfg: Config, s: State, sync: SyncEntry, membership: bool, line: nat, m: nat, bytes: nat, births: nat)
    requires Inv(cfg, s) && Left(cfg, s, line, m + 2, bytes, births) && sync.hash.Hex?
    requires sync.reputation.Some? ==> Short(cfg, LogOp.Attest(sync.realm, sync.hash, sync.reputation.value), line)
    requires sync.quarantine.Some? && MarkShapeOk(cfg, sync.realm, sync.quarantine.value) ==>
               forall n: QuarantineNotice | NoticeShapeOk(n) && n.reason == sync.quarantine.value.reason ::
                 Short(cfg, LogOp.Quarantine(sync.realm, sync.hash, n), line)
    ensures var (s', r) := MergeSignals(cfg, s, sync, membership, NO_MERGE_FAULTS);
            var k := Key(sync.realm, sync.hash);
            && r.Ok? && Left(cfg, s', line, m, bytes, births)
            && (k in s'.content.entries <==> k in s.content.entries)
            && (sync.quarantine.Some? && MarkShapeOk(cfg, sync.realm, sync.quarantine.value) && k in s.content.entries ==>
                  (r.value.quarantine <==> MergeNotice(sync.quarantine.value, Marker(s.content, k)).Some?))
  {
    hide Inv, Left, Short, MarkShapeOk, MergeNotice, MergeReputation, MergeQuarantine, NoticeShapeOk;
    var k := Key(sync.realm, sync.hash);
    ScoreGoesThrough(cfg, s, k, sync.reputation, line, m + 1, bytes, births);
    var s1 := MergeReputation(cfg, s, k.realm, k.hash, sync.reputation, NoFault).0;
    MarkerGoesThrough(cfg, s1, k, sync.quarantine, line, m, bytes, births);
  }

  lemma TombstonedSignals(cfg: Config, s: State, sync: SyncEntry, membership: bool)
    requires s.healthy && sync.hash.Hex? && Key(sync.realm, sync.hash) !in s.content.entries
    ensures MergeSignals(cfg, s, sync, membership, NO_MERGE_FAULTS).0 == s
    ensures MergeSignals(cfg, s, sync, membership, NO_MERGE_FAULTS).1.Ok?
  {
    hide Commit, MergeNotice;
  }

  /**
   * An offer of a key that is not tombstoned is a put and its signals, of which only a marker that cannot
   * be merged is refused.
   */
  lemma OfferGoesThrough(cfg: Config, s: State, p: SignedSyncEntry, line: nat, m: nat, bytes: nat, births: nat)
    requires Inv(cfg, s) && Accepted(cfg, p) && p.record.op.Put? && ShortPush(cfg, p, line)
    requires Left(cfg, s, line, m + 3, ArtifactSize(p) + bytes, births + 1)
    requires Place(cfg, s, KeyOf(p.record.op))
    ensures var (s', r) := MergePush(cfg, s, p, NO_MERGE_FAULTS);
            var k := KeyOf(p.record.op);
            && r.Ok? && k in Retained(s'.content) && Left(cfg, s', line, m, bytes, births)
            && (k in s.content.tombstones ==> k !in s'.content.entries)
            && (Flags(cfg, p, k) && k !in s.content.tombstones ==>
                  (r.value.quarantine <==> MergeNotice(p.sync.value.quarantine.value, Marker(s.content, k)).Some?))
  {
    var (sync, k) := (p.sync.value, KeyOf(p.record.op));
    assert sync.hash == Hex(cfg.sha(sync.artifact)) && k == Key(sync.realm, sync.hash);
    assert LogOp.Put(sync.realm, sync.hash, sync.manifest) == p.record.op;
    hide Inv, Left, Place, Short, MarkShapeOk, MergeNotice, MergeSignals, Store.Put, NoticeShapeOk;
    LeftHealthy(cfg, s, line, m + 3, ArtifactSize(p) + bytes, births + 1);
    PutGoesThrough(cfg, s, sync.realm, sync.manifest, sync.artifact, line, m + 2, bytes, births);
    var s1 := Store.Put(cfg, s, sync.realm, sync.manifest, sync.artifact, NO_PUT_FAULTS).0;
    PutContent(cfg, s, k, sync.manifest, sync.artifact);
    LeftHealthy(cfg, s1, line, m + 2, bytes, births);
    GetGoesThrough(cfg, s, k);
    GetGoesThrough(cfg, s1, k);
    var membership := Get(cfg, s, k.realm, k.hash).value.None? && Get(cfg, s1, k.realm, k.hash).value.Some?;
    assert MergePush(cfg, s, p, NO_MERGE_FAULTS) == MergeSignals(cfg, s1, sync, membership, NO_MERGE_FAULTS);
    if k in s.content.tombstones {
      TombstonedSignals(cfg, s1, sync, membership);
      LeftFewer(cfg, s1, line, m, bytes, births);
    } else {
      SignalsGoThrough(cfg, s1, sync, membership, line, m, bytes, births);
    }
  }

  lemma LeftHealthy(cfg: Config, s: State, line: nat, m: nat, bytes: nat, births: nat)
    requires Left(cfg, s, line, m, bytes, births)
    ensures s.healthy
  {
  }

  lemma LeftFewer(cfg: Config, s: State, line: nat, m: nat, bytes: nat, births: nat)
    requires Left(cfg, s, line, m + 2, bytes, births)
    ensures Left(cfg, s, line, m, bytes, births)
  {
    FewerSlots(cfg, s, line, m + 1);
    FewerSlots(cfg, s, line, m);
  }

  lemma GetGoesThrough(cfg: Config, s: State, k: Key)
    requires Inv(cfg, s) && s.healthy && k.hash.Hex?
    ensures Get(cfg, s, k.realm, k.hash).Ok?
  {
    hide Inv, ReadBlob;
    assert k == Key(k.realm, k.hash);
    if k in s.content.entries {
      LiveIsReadable(cfg, s, k);
    }
  }

  // ---- all of them ----

  /** A catalog that reflects some of the pushes retains only keys of theirs. */
  lemma RetainedAreNamed(cfg: Config, c: Content, front: seq<SignedSyncEntry>, ps: seq<SignedSyncEntry>)
    requires Reflects(cfg, c, front) && forall p | p in front :: p in ps
    ensures Retained(c) <= KeysOf(ps)
  {
    forall k | k in Retained(c)
      ensures k in KeysOf(ps)
    {
      assert ReflectsAt(cfg, c, front, k);
    }
  }

  lemma RetainedWithin(cfg: Config, s: State, front: seq<SignedSyncEntry>, ps: seq<SignedSyncEntry>, k: Key)
    requires Inv(cfg, s) && s.healthy && Tidy(s.logs, s.blobs) && Reflects(cfg, s.content, front)
    requires (forall p | p in front :: p in ps) && k in KeysOf(ps)
    requires WithinCap(|KeysOf(ps)|, cfg.maxEntries) && |ps| < U64_MAX
    ensures Place(cfg, s, k)
  {
    hide Meaning, Reflects, Tidy, DiskInv, HeadsOk, RealmsOk, LogTotal, BlobTotal, BirthsBelow, KeysOf, RetainedCount;
    RetainedAreNamed(cfg, s.content, front, ps);
    TidyCounts(cfg, s);
    KeysCount(ps);
    InvDisjoint(cfg, s);
    RetainedSize(s.content);
    SubsetCount(Retained(s.content), KeysOf(ps));
    if k !in Retained(s.content) {
      SubsetCount(Retained(s.content) + {k}, KeysOf(ps));
    }
  }

  lemma {:induction false} PeersNamedHas(cfg: Config, ps: seq<SignedSyncEntry>, p: SignedSyncEntry, k: Key)
    requires p in ps && Flags(cfg, p, k)
    ensures Names(PeersOf(cfg, p, k)) <= PeersNamed(cfg, ps, k)
  {
    var (front, last) := (ps[..|ps| - 1], ps[|ps| - 1]);
    assert ps == front + [last];
    if p in front {
      PeersNamedHas(cfg, front, p, k);
    }
  }

  /** The row's marker names only peers the pushes name, each within the limits. */
  lemma MarkerIsNamed(cfg: Config, c: Content, front: seq<SignedSyncEntry>, ps: seq<SignedSyncEntry>, k: Key)
    requires ReflectsAt(cfg, c, front, k) && Marker(c, k).Some? && forall p | p in front :: p in ps
    ensures Names(Marker(c, k).value.attestingPeers) <= PeersNamed(cfg, ps, k)
    ensures forall name | name in Marker(c, k).value.attestingPeers :: FieldOk(name, MAX_PEER_BYTES)
  {
    forall name | name in Marker(c, k).value.attestingPeers
      ensures name in PeersNamed(cfg, ps, k) && FieldOk(name, MAX_PEER_BYTES)
    {
      var q :| q in front && Flags(cfg, q, k) && name in PeersOf(cfg, q, k);
      PeersNamedHas(cfg, ps, q, k);
      assert name in Names(PeersOf(cfg, q, k));
    }
  }

  lemma MarkersMerge(x: QuarantineNotice, earlier: Option<QuarantineNotice>, named: set<string>)
    requires NoticeShapeOk(x) && RoomForAll(x.attestingPeers, named)
    requires earlier.Some? ==>
               && Names(earlier.value.attestingPeers) <= named
               && forall name | name in earlier.value.attestingPeers :: FieldOk(name, MAX_PEER_BYTES)
    ensures MergeNotice(x, earlier).Some?
  {
    hide FieldOk, MergePeers;
    var (list, existing) := (x.attestingPeers, if earlier.Some? then earlier.value.attestingPeers else []);
    assert Names([]) == {};
    SubsetCount(Names(existing) - Names(list), named - Names(list));
    MergePeersIff(list, existing);
    var merged := MergePeers(list, existing).value;
    forall name
      ensures name in merged <==> name in list || name in existing
    {
      MergePeersUnion(list, existing, name);
    }
  }

  lemma PushIsMergeable(cfg: Config, c: Content, front: seq<SignedSyncEntry>, ps: seq<SignedSyncEntry>, p: SignedSyncEntry)
    requires Reflects(cfg, c, front) && p in ps && forall q | q in front :: q in ps
    requires forall q, k | q in ps && Flags(cfg, q, k) :: RoomForAll(PeersOf(cfg, q, k), PeersNamed(cfg, ps, k))
    ensures Mergeable(cfg, c, p)
  {
    hide ReflectsAt, MergeNotice, PeersNamed, Names, RoomForAll;
    var k := KeyOf(p.record.op);
    if Flags(cfg, p, k) {
      assert ReflectsAt(cfg, c, front, k);
      if Marker(c, k).Some? {
        MarkerIsNamed(cfg, c, front, ps, k);
      }
      MarkersMerge(p.sync.value.quarantine.value, Marker(c, k), PeersNamed(cfg, ps, k));
    }
  }

  function Commands(ps: seq<SignedSyncEntry>): seq<Command> {
    seq(|ps|, i requires 0 <= i < |ps| => DoMergePush(ps[i], NO_MERGE_FAULTS))
  }

  /** Merging pushes is a run without faults. */
  lemma {:induction false} MergeAllIsRun(cfg: Config, ps: seq<SignedSyncEntry>)
    ensures MergeAll(cfg, ps) == Run(cfg, Commands(ps))
  {
    hide MergePush;
    if ps != [] {
      MergeAllIsRun(cfg, ps[..|ps| - 1]);
      assert Commands(ps)[..|ps| - 1] == Commands(ps[..|ps| - 1]);
    }
  }

  lemma MergeAllTidy(cfg: Config, ps: seq<SignedSyncEntry>)
    ensures var s := MergeAll(cfg, ps); Tidy(s.logs, s.blobs)
  {
    hide MergeAll, Run, Tidy;
    MergeAllIsRun(cfg, ps);
    RunTidy(cfg, Commands(ps));
  }

  /** After the first `i` of the pushes: none was refused, and the room of the rest is left. */
  ghost predicate GoneThrough(cfg: Config, ps: seq<SignedSyncEntry>, line: nat, i: nat)
    requires i <= |ps|
  {
    && Smooth(cfg, ps[..i])
    && ArtifactBytes(ps[..i]) <= ArtifactBytes(ps)
    && Left(cfg, MergeAll(cfg, ps[..i]), line, 3 * (|ps| - i), ArtifactBytes(ps) - ArtifactBytes(ps[..i]), |ps| - i)
  }

  lemma {:induction false} ArtifactPrefix(ps: seq<SignedSyncEntry>, i: nat)
    requires i <= |ps|
    ensures ArtifactBytes(ps[..i]) <= ArtifactBytes(ps)
    ensures i < |ps| ==> ArtifactBytes(ps[..i + 1]) == ArtifactBytes(ps[..i]) + ArtifactSize(ps[i])
    decreases |ps|
  {
    if i < |ps| {
      var front := ps[..|ps| - 1];
      ArtifactPrefix(front, i);
      assert front[..i] == ps[..i];
      assert ps[..i + 1][..i] == ps[..i];
    } else {
      assert ps[..i] == ps;
    }
  }

  lemma NothingGone(cfg: Config, ps: seq<SignedSyncEntry>, line: nat)
    requires Ample(cfg, ps, line)
    ensures GoneThrough(cfg, ps, line, 0)
  {
    assert ps[..0] == [];
  }

  lemma KeyIsNamed(ps: seq<SignedSyncEntry>, p: SignedSyncEntry)
    requires p in ps
    ensures KeyOf(p.record.op) in KeysOf(ps)
  {
  }

  lemma RejectedUnrefused(cfg: Config, s: State, p: SignedSyncEntry)
    requires !Accepted(cfg, p)
    ensures Unrefused(cfg, s, p)
  {
    hide MergePush;
  }

  lemma LeftLess(cfg: Config, s: State, line: nat, m: nat, more: nat, bytes: nat, births: nat)
    requires Left(cfg, s, line, m + 3, more + bytes, births + 1)
    ensures Left(cfg, s, line, m, bytes, births)
  {
    FewerSlots(cfg, s, line, m + 2);
    FewerSlots(cfg, s, line, m + 1);
    FewerSlots(cfg, s, line, m);
  }

  lemma SmoothMore(cfg: Config, ps: seq<SignedSyncEntry>, i: nat)
    requires i < |ps| && Smooth(cfg, ps[..i]) && Unrefused(cfg, MergeAll(cfg, ps[..i]), ps[i])
    ensures Smooth(cfg, ps[..i + 1])
  {
    hide Unrefused, MergeAll;
    var qs := ps[..i + 1];
    forall j | 0 <= j < |qs|
      ensures Unrefused(cfg, MergeAll(cfg, qs[..j]), qs[j])
    {
      assert qs[..j] == ps[..j];
      if j < i {
        assert ps[..i][..j] == ps[..j] && Unrefused(cfg, MergeAll(cfg, ps[..i][..j]), ps[..i][j]);
      }
    }
  }

  lemma PushGoesThrough(cfg: Config, s: State, p: SignedSyncEntry, line: nat, m: nat, bytes: nat, births: nat)
    requires Inv(cfg, s) && Accepted(cfg, p) && ShortPush(cfg, p, line)
    requires Left(cfg, s, line, m + 3, ArtifactSize(p) + bytes, births + 1)
    requires Place(cfg, s, KeyOf(p.record.op)) && Mergeable(cfg, s.content, p)
    ensures Unrefused(cfg, s, p) && Left(cfg, MergePush(cfg, s, p, NO_MERGE_FAULTS).0, line, m, bytes, births)
  {
    hide Inv, MergePush, MergeNotice, Flags, Place, Slots, Short;
    if p.record.op.Put? {
      OfferGoesThrough(cfg, s, p, line, m, bytes, births);
    } else {
      FewerSlots(cfg, s, line, m + 2);
      FewerSlots(cfg, s, line, m + 1);
      EvictionGoesThrough(cfg, s, p, line, m, bytes, births);
    }
  }

  /** One of the pushes, merged after some of the others, is not refused and leaves the room of the rest. */
  lemma NextGoesThrough(
    cfg: Config, s: State, front: seq<SignedSyncEntry>, ps: seq<SignedSyncEntry>, p: SignedSyncEntry,
    line: nat, m: nat, bytes: nat, births: nat)
    requires Ample(cfg, ps, line) && p in ps && forall q | q in front :: q in ps
    requires Inv(cfg, s) && Tidy(s.logs, s.blobs) && Reflects(cfg, s.content, front)
    requires Left(cfg, s, line, m + 3, ArtifactSize(p) + bytes, births + 1)
    ensures Unrefused(cfg, s, p) && Left(cfg, MergePush(cfg, s, p, NO_MERGE_FAULTS).0, line, m, bytes, births)
  {
    hide MergePush, Inv, Left, Unrefused, Reflects, Tidy, ShortPush, Mergeable, Place, PeersNamed, KeysOf,
         Accepted, Flags, PeersOf;
    if Accepted(cfg, p) {
      KeyIsNamed(ps, p);
      LeftHealthy(cfg, s, line, m + 3, ArtifactSize(p) + bytes, births + 1);
      RetainedWithin(cfg, s, front, ps, KeyOf(p.record.op));
      PushIsMergeable(cfg, s.content, front, ps, p);
      PushGoesThrough(cfg, s, p, line, m, bytes, births);
    } else {
      RejectedPush(cfg, s, p);
      RejectedUnrefused(cfg, s, p);
      LeftLess(cfg, s, line, m, ArtifactSize(p), bytes, births);
    }
  }

  lemma OneMoreGone(cfg: Config, ps: seq<SignedSyncEntry>, line: nat, i: nat)
    requires Ample(cfg, ps, line) && i < |ps| && GoneThrough(cfg, ps, line, i)
    ensures GoneThrough(cfg, ps, line, i + 1)
  {
    hide Ample, MergePush, Inv, Left, Unrefused, Reflects, Tidy, Smooth, ArtifactBytes;
    var (front, p, s) := (ps[..i], ps[i], MergeAll(cfg, ps[..i]));
    ArtifactPrefix(ps, i);
    ArtifactPrefix(ps, i + 1);
    MergeAllReflects(cfg, front);
    MergeAllTidy(cfg, front);
    NextGoesThrough(cfg, s, front, ps, p, line, 3 * (|ps| - i - 1), ArtifactBytes(ps) - ArtifactBytes(ps[..i + 1]), |ps| - i - 1);
    SmoothMore(cfg, ps, i);
    assert ps[..i + 1][..i] == ps[..i];
  }

  lemma {:induction false} AllGone(cfg: Config, ps: seq<SignedSyncEntry>, line: nat, i: nat)
    requires Ample(cfg, ps, line) && i <= |ps|
    ensures GoneThrough(cfg, ps, line, i)
  {
    hide Ample, GoneThrough;
    if i == 0 {
      NothingGone(cfg, ps, line);
    } else {
      AllGone(cfg, ps, line, i - 1);
      OneMoreGone(cfg, ps, line, i - 1);
    }
  }

  /** Pushes for which the settings have room are all merged into an empty store without a refusal. */
  lemma AmpleIsSmooth(cfg: Config, ps: seq<SignedSyncEntry>, line: nat)
    requires Ample(cfg, ps, line)
    ensures Smooth(cfg, ps)
  {
    hide Ample, Left, Smooth;
    AllGone(cfg, ps, line, |ps|);
    assert ps[..|ps|] == ps;
  }

  /**
   * Push replication converges, from facts a caller can check: two empty stores whose settings have
   * room for the pushes agree after merging the same pushes in any orders and with any repetitions.
   */
  lemma AmpleReplicasConverge(
    cfgA: Config, cfgB: Config, ps: seq<SignedSyncEntry>, qs: seq<SignedSyncEntry>, lineA: nat, lineB: nat)
    requires SameRules(cfgA, cfgB) && forall p :: p in ps <==> p in qs
    requires Ample(cfgA, ps, lineA) && Ample(cfgB, qs, lineB)
    ensures Agree(MergeAll(cfgA, ps).content, MergeAll(cfgB, qs).content)
  {
    hide Ample, Smooth, Agree, SameRules, MergeAll;
    AmpleIsSmooth(cfgA, ps, lineA);
    AmpleIsSmooth(cfgB, qs, lineB);
    ReplicasConverge(cfgA, cfgB, ps, qs);
  }
}
