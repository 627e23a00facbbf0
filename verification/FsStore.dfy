/**
 * `FsBestiaryStore` in its own form: an object whose fields are the locked maps and counters and the
 * directory it owns, changed in place. Each method is proved equal to the state machine of `Store`,
 * `Compaction` and `Recovery`, and states what it does to the durable catalog of a store in order.
 */
module FsStore {
  import opened Basics
  import opened Records
  import opened Catalog
  import opened Chain
  import opened Store
  import opened Invariant
  import opened Operations
  import opened Compaction
  import CompactionProofs
  import opened Recovery
  import opened StoreLoops
  import opened Guarantees
  import opened Effects
  import opened Promises
  import opened Replies
  import opened Repair
  import opened Signals
  import CompactReplies
  import Curator

  class FsBestiaryStore {
    const cfg: Config
    // `Inner`
    var entries: map<Key, Live>
    var tombstones: set<Key>
    var realms: map<RealmHash, RealmId>
    var heads: map<RealmHash, Head>
    var nextFirstSeen: nat
    var journalBytes: nat
    var blobBytes: nat
    var blobCount: nat
    var healthy: bool
    // the directory
    var logs: Logs
    var blobs: map<nat, Bytes>
    var torn: set<RealmHash>

    ghost function Snapshot(): State
      reads this
    {
      State(Content(entries, tombstones), realms, heads, nextFirstSeen, journalBytes, blobBytes, blobCount, healthy,
            logs, blobs, torn)
    }

    /** What replaying the Realm files would rebuild. */
    ghost function Catalog(): Content
      reads this
    {
      Meaning(logs)
    }

    /** The store is in order: its directory is well formed, and while healthy its memory is what the directory means. */
    ghost predicate Valid()
      reads this
    {
      Inv(cfg, Snapshot())
    }

    /** Open a store on a directory; a non-empty one must be recovered before it is served. */
    constructor (cfg: Config, logs: Logs, blobs: map<nat, Bytes>, torn: set<RealmHash>)
      ensures this.cfg == cfg && this.logs == logs && this.blobs == blobs && this.torn == torn
      ensures Snapshot() == Reopen(Snapshot())
      ensures healthy <==> logs == map[] && blobs == map[]
      ensures entries == map[] && tombstones == {} && nextFirstSeen == 0
      ensures DiskInv(cfg, logs, blobs) && torn <= logs.Keys ==> Valid()
    {
      hide DiskInv, Inv, MemInv, Meaning;
      this.cfg := cfg;
      this.entries, this.tombstones, this.realms, this.heads := map[], {}, map[], map[];
      this.nextFirstSeen, this.journalBytes, this.blobBytes, this.blobCount := 0, 0, 0, 0;
      this.logs, this.blobs, this.torn := logs, blobs, torn;
      this.healthy := logs == map[] && blobs == map[];
      new;
      if DiskInv(cfg, logs, blobs) && torn <= logs.Keys {
        OpenedInOrder(cfg, Snapshot());
      }
    }

    // ---- the journal ----

    method ApplyOp(op: LogOp, firstSeen: nat)
      modifies `entries, `tombstones, `realms
      ensures Snapshot() == ApplyInMemory(old(Snapshot()), op, firstSeen)
    {
      realms := realms[RealmSha(op.realm) := op.realm];
      var key := KeyOf(op);
      match op {
        case Put(_, _, manifest) =>
          if key in tombstones {
            return;
          }
          if key in entries {
            entries := entries[key := entries[key].(manifest := manifest)];
          } else {
            entries := entries[key := Live(manifest, None, None, firstSeen)];
          }
        case Attest(_, _, score) =>
          if key in entries {
            entries := entries[key := entries[key].(reputation := Some(score))];
          }
        case Quarantine(_, _, notice) =>
          if key in entries {
            entries := entries[key := entries[key].(quarantine := Some(notice))];
          }
        case Unquarantine(_, _) =>
          if key in entries {
            entries := entries[key := entries[key].(quarantine := None)];
          }
        case Tombstone(_, _) =>
          entries := entries - {key};
          tombstones := tombstones + {key};
      }
    }

    /** Prove that the next record fits the sequence, the line limit and the journal cap, changing nothing. */
    method Preflight(op: LogOp, firstSeen: nat) returns (fits: bool)
      ensures fits == Fits(cfg, Snapshot(), op, firstSeen)
    {
      var rh := RealmSha(op.realm);
      var head := if rh in heads then heads[rh] else Head(0, Genesis);
      if head.nextSeq + 1 > U64_MAX {
        return false;
      }
      var lineBytes := LineBytes(cfg, BuildRecord(cfg, head.nextSeq, head.tip, op, firstSeen));
      if lineBytes > MAX_RECORD_BYTES {
        return false;
      }
      return GrowthOk(journalBytes, lineBytes, cfg.maxLogBytes);
    }

    method EnsureHead(rh: RealmHash)
      modifies `heads
      ensures heads == old(heads)[rh := HeadAt(old(heads), rh)]
    {
      if rh !in heads {
        heads := heads[rh := Head(0, Genesis)];
      }
    }

    method AppendRecord(op: LogOp, firstSeen: nat, fault: AppendFault) returns (out: AppendOutcome)
      modifies `heads, `healthy, `logs, `torn, `journalBytes
      ensures (Snapshot(), out) == Append(cfg, old(Snapshot()), op, firstSeen, fault)
    {
      hide LineBytes, Fits, BuildRecord;
      if !healthy {
        return BeforeWrite(Unhealthy);
      }
      var rh := RealmSha(op.realm);
      EnsureHead(rh);
      var fits := Preflight(op, firstSeen);
      FitsDependsOnHead(cfg, old(Snapshot()), Snapshot(), op, firstSeen);
      if !fits {
        return BeforeWrite(Limit);
      }
      var rec := BuildRecord(cfg, heads[rh].nextSeq, heads[rh].tip, op, firstSeen);
      out := WriteRecord(rh, rec, fault);
      UpdateTwice(old(heads), rh, HeadAt(old(heads), rh), HeadAt(heads, rh));
    }

    /** Write one record's line to its Realm file and advance the head, or stop at the fault. */
    method WriteRecord(rh: RealmHash, rec: LogRecord, fault: AppendFault) returns (out: AppendOutcome)
      requires healthy
      modifies `heads, `healthy, `logs, `torn, `journalBytes
      ensures match fault
              case OpenFails => out == BeforeWrite(Io) && Snapshot() == old(Snapshot())
              case Uncertain(landed) =>
                && out == Unsure(Io)
                && Snapshot() == old(Snapshot()).(
                     logs := old(logs)[rh := LogAt(old(logs), rh) + if landed then [rec] else []], healthy := false)
              case Torn =>
                && out == Unsure(Io)
                && Snapshot() == old(Snapshot()).(
                     logs := old(logs)[rh := LogAt(old(logs), rh)], torn := old(torn) + {rh}, healthy := false)
              case NoFault =>
                && out == Appended
                && Snapshot() == old(Snapshot()).(
                     logs := old(logs)[rh := LogAt(old(logs), rh) + [rec]],
                     heads := old(heads)[rh := Head(rec.seq_ + 1, RecordSha(rec))],
                     journalBytes := old(journalBytes) + LineBytes(cfg, rec))
    {
      var log := if rh in logs then logs[rh] else [];
      match fault {
        case OpenFails =>
          return BeforeWrite(Io);
        case Uncertain(landed) =>
          logs := logs[rh := log + if landed then [rec] else []];
          healthy := false;
          return Unsure(Io);
        case Torn =>
          logs, torn := logs[rh := log], torn + {rh};
          healthy := false;
          return Unsure(Io);
        case NoFault =>
          logs := logs[rh := log + [rec]];
      }
      heads := heads[rh := Head(rec.seq_ + 1, RecordSha(rec))];
      journalBytes := journalBytes + LineBytes(cfg, rec);
      return Appended;
    }

    method CommitOp(op: LogOp, firstSeen: nat, fault: AppendFault) returns (r: Result<bool>)
      modifies this
      ensures (Snapshot(), r) == Commit(cfg, old(Snapshot()), op, firstSeen, fault)
    {
      var out := AppendRecord(op, firstSeen, fault);
      if !out.Appended? {
        return Err(out.error);
      }
      ApplyOp(op, firstSeen);
      return Ok(true);
    }

    // ---- blobs ----

    method WriteBlobFile(h: nat, artifact: Bytes, fault: BlobFault) returns (r: Result<bool>)
      modifies `blobs, `blobBytes, `blobCount, `healthy
      ensures (Snapshot(), r) == WriteBlob(cfg, old(Snapshot()), h, artifact, fault)
    {
      hide ScanBlobs, BlobTotal;
      var existing := h in blobs;
      if existing && WithinCap(|blobs[h]|, cfg.maxArtifactBytes) && cfg.sha(blobs[h]) == h {
        return Ok(false);
      }
      var repairs := !existing && References(Content(entries, tombstones), h);
      var bytes, count := blobBytes, blobCount;
      if existing || repairs {
        var usage := ScanBlobUsage(cfg, blobs);
        if usage.Err? {
          return Err(usage.error);
        }
        bytes, count := usage.value.0, usage.value.1;
      }
      if !existing {
        count := count + 1;
      }
      if count > U64_MAX || !WithinCap(count, cfg.maxEntries) {
        return Err(Limit);
      }
      var oldLen := if existing then |blobs[h]| else 0;
      if bytes < oldLen {
        return Err(Corrupt);
      }
      if !GrowthOk(bytes - oldLen, |artifact|, cfg.maxBlobBytes) {
        return Err(Limit);
      }
      if fault != BlobLands {
        if fault == BlobFailsDirty {
          healthy := false;
        }
        return Err(Io);
      }
      blobs := blobs[h := artifact];
      blobBytes := bytes - oldLen + |artifact|;
      blobCount := count;
      return Ok(!existing && !repairs);
    }

    method RollbackBlob(h: nat, fails: bool, error: Error) returns (r: Result<nat>)
      modifies `blobs, `blobBytes, `blobCount, `healthy
      ensures (Snapshot(), r) == RollbackNewBlob(old(Snapshot()), h, fails, error)
    {
      if fails || h !in blobs {
        healthy := false;
        return Err(Io);
      }
      var len := |blobs[h]|;
      blobs := blobs - {h};
      if blobBytes < len {
        healthy := false;
        return Err(Corrupt);
      }
      blobBytes := blobBytes - len;
      if blobCount == 0 {
        healthy := false;
        return Err(Corrupt);
      }
      blobCount := blobCount - 1;
      return Err(error);
    }

    // ---- the catalog operations ----

    method Put(realm: RealmId, manifest: Manifest, artifact: Bytes, f: PutFaults) returns (r: Result<nat>)
      modifies this
      ensures (Snapshot(), r) == Store.Put(cfg, old(Snapshot()), realm, manifest, artifact, f)
      ensures old(Valid()) ==> Valid()
      ensures old(Valid()) && r.Ok? ==>
                Stored(old(Catalog()), Catalog(), Key(realm, Hex(r.value)), manifest, old(nextFirstSeen))
      ensures old(Valid()) && r.Err? && f == NO_PUT_FAULTS ==> Snapshot() == old(Snapshot())
      ensures old(Valid()) && old(healthy) ==>
                PutAnswers(cfg, old(Snapshot()), realm, manifest, artifact, f, Snapshot(), r)
    {
      hide Fits, WriteBlob, PutLogged, Inv, Meaning, Stored, PutAnswers;
      if Valid() {
        PutPromise(cfg, Snapshot(), realm, manifest, artifact, f);
        if healthy {
          PutReplies(cfg, Snapshot(), realm, manifest, artifact, f);
        }
      }
      if !WithinCap(|artifact|, cfg.maxArtifactBytes) {
        return Err(Limit);
      }
      if !cfg.validManifest(manifest) {
        return Err(Invalid);
      }
      var h := cfg.sha(artifact);
      var key := Key(realm, Hex(h));
      if !healthy {
        return Err(Unhealthy);
      }
      if key in tombstones {
        return Ok(h);
      }
      var isNew := key !in entries;
      if isNew && cfg.maxEntries != 0 && |entries| + |tombstones| >= cfg.maxEntries {
        return Err(Capacity);
      }
      if isNew && nextFirstSeen + 1 > U64_MAX {
        return Err(Limit);
      }
      var firstSeen := if isNew then nextFirstSeen else entries[key].firstSeen;
      var fits := Preflight(LogOp.Put(realm, Hex(h), manifest), firstSeen);
      if !fits {
        return Err(Limit);
      }
      var written := WriteBlobFile(h, artifact, f.blob);
      if written.Err? {
        return Err(written.error);
      }
      r := LogPut(key, manifest, firstSeen, written.value, f);
    }

    /** The tail of a put, once its blob is on disk. */
    method LogPut(key: Key, manifest: Manifest, firstSeen: nat, created: bool, f: PutFaults) returns (r: Result<nat>)
      requires key.hash.Hex? && firstSeen == PutBirth(Snapshot(), key)
      modifies this
      ensures (Snapshot(), r) == PutLogged(cfg, old(Snapshot()), key, manifest, created, f)
    {
      hide Fits, Append, RollbackNewBlob, Apply;
      var next := if key in entries then nextFirstSeen else nextFirstSeen + 1;
      var op := LogOp.Put(key.realm, key.hash, manifest);
      var out := AppendRecord(op, firstSeen, f.append);
      if out.BeforeWrite? && created {
        r := RollbackBlob(key.hash.value, f.rollbackFails, out.error);
        return;
      }
      if !out.Appended? {
        return Err(out.error);
      }
      nextFirstSeen := next;
      ApplyOp(op, firstSeen);
      return Ok(key.hash.value);
    }

    method Attest(realm: RealmId, hash: HashText, score: ReputationScore, fault: AppendFault) returns (r: Result<bool>)
      modifies this
      ensures (Snapshot(), r) == Store.Attest(cfg, old(Snapshot()), realm, hash, score, fault)
      ensures old(Valid()) ==>
                Valid() && Attested(cfg, old(Catalog()), Catalog(), Key(realm, hash), score, r, fault == NoFault)
      ensures old(Valid()) && old(healthy) ==>
                AttestAnswers(cfg, old(logs), Key(realm, hash), score, fault, r, healthy)
    {
      hide Inv, Meaning, Attested, Commit, AttestAnswers;
      if Valid() {
        AttestKeeps(cfg, Snapshot(), realm, hash, score, fault);
        AttestIsDurable(cfg, Snapshot(), realm, hash, score, fault);
        if healthy {
          AttestReplies(cfg, Snapshot(), realm, hash, score, fault);
        }
      }
      if hash.Malformed? || !AttestShapeOk(cfg, realm, score) {
        return Ok(false);
      }
      if !healthy {
        return Err(Unhealthy);
      }
      if Key(realm, hash) !in entries {
        return Ok(false);
      }
      r := CommitOp(LogOp.Attest(realm, hash, score), entries[Key(realm, hash)].firstSeen, fault);
    }

    method Quarantine(realm: RealmId, hash: HashText, notice: QuarantineNotice, fault: AppendFault)
      returns (r: Result<bool>)
      modifies this
      ensures (Snapshot(), r) == Store.Quarantine(cfg, old(Snapshot()), realm, hash, notice, fault)
      ensures old(Valid()) ==>
                Valid() && Quarantined(old(Catalog()), Catalog(), Key(realm, hash), notice, r, fault == NoFault)
      ensures old(Valid()) && old(healthy) ==>
                MarkAnswers(cfg, old(logs), Key(realm, hash), notice, fault, r, healthy)
    {
      hide Inv, Meaning, Quarantined, Commit, MarkAnswers;
      if Valid() {
        QuarantineKeeps(cfg, Snapshot(), realm, hash, notice, fault);
        QuarantineIsDurable(cfg, Snapshot(), realm, hash, notice, fault);
        if healthy {
          QuarantineReplies(cfg, Snapshot(), realm, hash, notice, fault);
        }
      }
      if hash.Malformed? {
        return Ok(false);
      }
      if !MarkShapeOk(cfg, realm, notice) {
        return Err(Limit);
      }
      if !healthy {
        return Err(Unhealthy);
      }
      if Key(realm, hash) !in entries {
        return Ok(false);
      }
      var live := entries[Key(realm, hash)];
      // Sticky union: accumulate the attesting peers, never drop an existing one.
      var peers := notice.attestingPeers;
      var existing := if live.quarantine.Some? then live.quarantine.value.attestingPeers else [];
      var i := 0;
      while i < |existing|
        invariant 0 <= i <= |existing|
        invariant MergePeers(notice.attestingPeers, existing) == MergePeers(peers, existing[i..])
      {
        if existing[i] !in peers {
          if |peers| >= MAX_ATTESTING_PEERS {
            return Err(Limit);
          }
          peers := peers + [existing[i]];
        }
        i := i + 1;
      }
      var merged := QuarantineNotice(notice.reason, peers);
      if !NoticeShapeOk(merged) {
        return Err(Limit);
      }
      r := CommitOp(LogOp.Quarantine(realm, hash, merged), live.firstSeen, fault);
    }

    method Unquarantine(realm: RealmId, hash: HashText, fault: AppendFault) returns (r: Result<bool>)
      modifies this
      ensures (Snapshot(), r) == Store.Unquarantine(cfg, old(Snapshot()), realm, hash, fault)
      ensures old(Valid()) ==> Valid() && Cleared(old(Catalog()), Catalog(), Key(realm, hash), r, fault == NoFault)
      ensures old(Valid()) && old(healthy) ==> ClearAnswers(cfg, old(logs), Key(realm, hash), fault, r, healthy)
    {
      hide Inv, Meaning, Cleared, Commit, ClearAnswers;
      if Valid() {
        UnquarantineKeeps(cfg, Snapshot(), realm, hash, fault);
        UnquarantineIsDurable(cfg, Snapshot(), realm, hash, fault);
        if healthy {
          UnquarantineReplies(cfg, Snapshot(), realm, hash, fault);
        }
      }
      if hash.Malformed? {
        return Ok(false);
      }
      if !healthy {
        return Err(Unhealthy);
      }
      if Key(realm, hash) !in entries || entries[Key(realm, hash)].quarantine.None? {
        return Ok(false);
      }
      r := CommitOp(LogOp.Unquarantine(realm, hash), entries[Key(realm, hash)].firstSeen, fault);
    }

    method Tombstone(realm: RealmId, hash: HashText, fault: AppendFault) returns (r: Result<bool>)
      modifies this
      ensures (Snapshot(), r) == Store.Tombstone(cfg, old(Snapshot()), realm, hash, fault)
      ensures old(Valid()) ==> Valid() && Evicted(old(Catalog()), Catalog(), Key(realm, hash), r, fault == NoFault)
      ensures old(Valid()) && old(healthy) ==> EvictAnswers(cfg, old(logs), Key(realm, hash), fault, r, healthy)
    {
      hide Inv, Meaning, Evicted, Commit, EvictAnswers;
      if Valid() {
        TombstoneKeeps(cfg, Snapshot(), realm, hash, fault);
        TombstoneIsDurable(cfg, Snapshot(), realm, hash, fault);
        if healthy {
          TombstoneReplies(cfg, Snapshot(), realm, hash, fault);
        }
      }
      if hash.Malformed? {
        return Err(Integrity);
      }
      if !healthy {
        return Err(Unhealthy);
      }
      var key := Key(realm, hash);
      if key in tombstones {
        return Ok(false);
      }
      if cfg.maxEntries != 0 && key !in entries && |entries| + |tombstones| >= cfg.maxEntries {
        return Err(Capacity);
      }
      r := CommitOp(LogOp.Tombstone(realm, hash), 0, fault);
    }

    method Get(realm: RealmId, hash: HashText) returns (r: Result<Option<(Live, Bytes)>>)
      ensures r == Store.Get(cfg, Snapshot(), realm, hash)
      ensures Honest(cfg, Snapshot(), realm, hash, r)
      ensures Valid() && healthy ==>
                && r.Ok? && (r.value.Some? <==> Key(realm, hash) in Catalog().entries)
                && (r.value.Some? ==>
                      r.value.value.0 == Catalog().entries[Key(realm, hash)] && Hex(cfg.sha(r.value.value.1)) == hash)
    {
      hide Inv, Meaning, Honest;
      ReadsAreHonest(cfg, Snapshot(), realm, hash);
      if Valid() && healthy {
        GetPromise(cfg, Snapshot(), realm, hash);
      }
      if hash.Malformed? {
        return Ok(None);
      }
      if !healthy {
        return Err(Unhealthy);
      }
      if Key(realm, hash) !in entries {
        return Ok(None);
      }
      if hash.value !in blobs {
        return Err(Corrupt);
      }
      if !WithinCap(|blobs[hash.value]|, cfg.maxArtifactBytes) {
        return Err(Limit);
      }
      if cfg.sha(blobs[hash.value]) != hash.value {
        return Err(Integrity);
      }
      return Ok(Some((entries[Key(realm, hash)], blobs[hash.value])));
    }

    method Prove(realm: RealmId, hash: HashText) returns (r: Result<Option<EntryProof>>)
      ensures r == Store.Prove(cfg, Snapshot(), realm, hash)
      ensures Valid() && healthy ==> r == Ok(ProofOf(cfg, Catalog(), Key(realm, hash)))
    {
      hide Inv, Meaning;
      if Valid() && healthy {
        ProvePromise(cfg, Snapshot(), realm, hash);
      }
      if hash.Malformed? {
        return Ok(None);
      }
      if !healthy {
        return Err(Unhealthy);
      }
      if Key(realm, hash) !in entries {
        return Ok(None);
      }
      var live := entries[Key(realm, hash)];
      return Ok(Some(EntryProof(realm, hash, cfg.contentAddress(live.manifest), live.firstSeen, cfg.pubkey)));
    }

    // ---- replication ----

    /** Take a verified score that beats the local verified one. */
    method MergeScore(realm: RealmId, hash: HashText, incoming: Option<ReputationScore>, fault: AppendFault)
      returns (r: Result<bool>)
      modifies this
      ensures (Snapshot(), r) == Store.MergeReputation(cfg, old(Snapshot()), realm, hash, incoming, fault)
    {
      hide Store.Attest, Store.Get, Inv, Meaning, Attested, Greater, AttestAnswers, Honest;
      if incoming.None? || !cfg.promotionVerifies(incoming.value, realm, hash) {
        return Ok(false);
      }
      var found := Get(realm, hash);
      if found.Err? {
        return Err(found.error);
      }
      var local := if found.value.Some? then found.value.value.0.reputation else None;
      if local.Some? && cfg.promotionVerifies(local.value, realm, hash)
         && !Greater(incoming.value.score, local.value.score) {
        return Ok(false);
      }
      r := Attest(realm, hash, incoming.value, fault);
    }

    method MergeSignals(sync: SyncEntry, membership: bool, f: MergeFaults) returns (r: Result<MergeOutcome>)
      modifies this
      ensures (Snapshot(), r) == Store.MergeSignals(cfg, old(Snapshot()), sync, membership, f)
    {
      hide Store.MergeReputation, Store.Quarantine, Inv, Meaning, Quarantined, MarkAnswers;
      var rep := MergeScore(sync.realm, sync.hash, sync.reputation, f.attest);
      if rep.Err? {
        return Err(rep.error);
      }
      var quar := false;
      if sync.quarantine.Some? {
        var taken := Quarantine(sync.realm, sync.hash, sync.quarantine.value, f.quarantine);
        if taken.Err? && taken.error != Limit {
          return Err(taken.error);
        }
        quar := taken.Ok? && taken.value;
      }
      return Ok(MergeOutcome(membership, rep.value, quar));
    }

    method MergePushedPut(sync: SyncEntry, f: MergeFaults) returns (r: Result<MergeOutcome>)
      modifies this
      ensures (Snapshot(), r) == Store.MergePushedPut(cfg, old(Snapshot()), sync, f)
    {
      hide Store.Put, Store.MergeSignals, Store.Get;
      var before := Get(sync.realm, sync.hash);
      if before.Err? {
        return Err(before.error);
      }
      var put := Put(sync.realm, sync.manifest, sync.artifact, f.put);
      if put.Err? {
        if put.error == Capacity {
          return Ok(UNCHANGED);
        }
        return Err(put.error);
      }
      var after := Get(sync.realm, sync.hash);
      if after.Err? {
        return Err(after.error);
      }
      r := MergeSignals(sync, before.value.None? && after.value.Some?, f);
    }

    method MergePush(push: SignedSyncEntry, f: MergeFaults) returns (r: Result<MergeOutcome>)
      modifies this
      ensures (Snapshot(), r) == Store.MergePush(cfg, old(Snapshot()), push, f)
      ensures old(Valid()) ==> Valid() && Pushed(old(Catalog()), Catalog(), push, r)
      ensures old(Valid()) && old(healthy) && f == NO_MERGE_FAULTS ==>
                PushAnswers(cfg, old(Snapshot()), push, Snapshot(), r)
    {
      hide Store.Tombstone, Store.MergePushedPut, Verifies, Inv, Meaning, Pushed, PushAnswers, EvictAnswers, Evicted;
      if Valid() {
        MergePushKeeps(cfg, Snapshot(), push, f);
        PushReports(cfg, Snapshot(), push, f);
        if healthy {
          PushReplies(cfg, Snapshot(), push);
        }
      }
      if !healthy {
        return Err(Unhealthy);
      }
      if !Verifies(push.record) {
        return Err(BadSignature);
      }
      var op := push.record.op;
      if op.hash.Malformed? {
        return Err(Integrity);
      }
      match op {
        case Tombstone(realm, hash) =>
          var changed := Tombstone(realm, hash, f.put.append);
          if changed.Err? {
            return Err(changed.error);
          }
          return Ok(MergeOutcome(changed.value, false, false));
        case Put(_, _, _) =>
          var bad := PushedPutError(cfg, push);
          if bad.Some? {
            return Err(bad.value);
          }
          r := MergePushedPut(push.sync.value, f);
        case _ =>
          return Err(Corrupt);
      }
    }

    // ---- compaction ----

    /** The second pass: rebuild and replace each Realm's chain. It never meets a limit the dry pass did not. */
    method ReplaceChains(c: Content, order: seq<RealmHash>, fault: CompactFault) returns (ok: bool)
      requires healthy && entries == c.entries && tombstones == c.tombstones
      requires Enumerates(order, realms.Keys)
      requires DryPass(cfg, c, realms, logs, journalBytes, order).Ok?
      modifies `logs, `heads, `journalBytes, `healthy
      ensures ok == !(fault.FailsAt? && fault.done < |order|)
      ensures ok ==> Snapshot() == Staged(cfg, old(Snapshot()), c, order)
      ensures !ok ==> Snapshot() == Interrupted(cfg, old(Snapshot()), c, order, fault)
    {
      hide NewLog, RewriteTotal, Staged, DryPass;
      StagedStart(cfg, Snapshot(), c);
      for i := 0 to |order|
        invariant Snapshot() == Staged(cfg, old(Snapshot()), c, order[..i])
        invariant realms == old(realms) && (fault.FailsAt? ==> i <= fault.done || |order| <= fault.done)
      {
        var rh := order[i];
        StagedNext(cfg, old(Snapshot()), c, order, i);
        var one := RewriteRealm(cfg, c, realms, LogAt(logs, rh), rh, journalBytes);
        assert one.Ok?;
        if fault.FailsAt? && fault.done == i {
          if fault.landed {
            logs := logs[rh := one.value.0];
          }
          healthy := false;
          return false;
        }
        logs, journalBytes := logs[rh := one.value.0], one.value.1;
        heads := heads[rh := HeadOf(one.value.0)];
      }
      assert order[..|order|] == order;
      return true;
    }

    method Unlink(h: nat)
      requires h in blobs && blobBytes == BlobTotal(blobs) && blobCount == |blobs|
      modifies `blobs, `blobBytes, `blobCount
      ensures blobs == old(blobs) - {h} && blobBytes == BlobTotal(blobs) && blobCount == |blobs|
    {
      BlobTotalRemove(blobs, h);
      blobBytes, blobCount := blobBytes - |blobs[h]|, blobCount - 1;
      blobs := blobs - {h};
    }

    /** Remove the blobs no retained entry references, keeping the accounting exact after each. */
    method CollectOrphans(fault: CompactFault) returns (removed: nat)
      requires blobBytes == BlobTotal(blobs) && blobCount == |blobs|
      modifies `blobs, `blobBytes, `blobCount
      ensures var gone := Unlinked(Content(entries, tombstones), old(blobs), fault);
              blobs == old(blobs) - gone && removed == |gone|
      ensures blobBytes == BlobTotal(blobs) && blobCount == |blobs|
    {
      hide *;
      var c := Content(entries, tombstones);
      ghost var victims := Unlinked(c, blobs, fault);
      var todo := blobs.Keys;
      removed := 0;
      UnlinkedAt(c, blobs, fault, 0);
      assert victims - todo == {} && blobs - {} == blobs;
      while todo != {}
        invariant todo <= old(blobs).Keys
        invariant blobs == old(blobs) - (victims - todo) && removed == |victims - todo|
        invariant blobBytes == BlobTotal(blobs) && blobCount == |blobs|
        decreases todo
      {
        var h :| h in todo;
        UnlinkedAt(c, old(blobs), fault, h);
        UnlinkNext(old(blobs), victims, todo, h);
        if !References(c, h) && (fault.FailsInGc? ==> h in fault.removed) {
          Unlink(h);
          removed := removed + 1;
        }
        todo := todo - {h};
      }
      assert victims - {} == victims;
    }

    method Sweep(fault: CompactFault) returns (r: Result<nat>)
      modifies `blobs, `blobBytes, `blobCount, `healthy
      ensures (Snapshot(), r) == Compaction.Sweep(cfg, old(Snapshot()), fault)
    {
      hide BlobTotal, Unlinked, ScanBlobs;
      var usage := ScanBlobUsage(cfg, blobs);
      if usage.Err? {
        healthy := false;
        return Err(usage.error);
      }
      ScanCounts(cfg, blobs);
      if usage.value != (blobBytes, blobCount) {
        healthy := false;
        return Err(Corrupt);
      }
      var removed := CollectOrphans(fault);
      if fault.FailsInGc? {
        healthy := false;
        return Err(Io);
      }
      return Ok(removed);
    }

    method Compact(d: Curator.Decisions, order: seq<RealmHash>, fault: CompactFault) returns (r: Result<CompactStats>)
      requires healthy ==> Enumerates(order, realms.Keys)
      modifies this
      ensures (Snapshot(), r) == Compaction.Compact(cfg, old(Snapshot()), d, order, fault)
      ensures old(Valid()) && Curator.FiniteDecisions(Content(old(entries), old(tombstones)), d) ==>
                Valid() && (r.Ok? ==> CompactionProofs.Compacted(old(Catalog()), Catalog(), blobs, d))
      ensures old(Valid()) && old(healthy) ==>
                CompactReplies.CompactAnswers(cfg, old(Snapshot()), d, order, fault, Snapshot(), r)
    {
      hide Curator.Curate, Curator.Collected, Curator.Isolated, Curator.FiniteDecisions, DryPass, Interrupted, Staged,
           Compaction.Sweep, Inv, Meaning, CompactionProofs.Compacted, CompactReplies.CompactAnswers;
      if Valid() && healthy {
        CompactReplies.CompactReplies(cfg, Snapshot(), d, order, fault);
      }
      if Valid() && Curator.FiniteDecisions(Content(entries, tombstones), d) {
        CompactPromise(cfg, Snapshot(), d, order, fault);
      }
      if !healthy {
        return Err(Unhealthy);
      }
      var c, scanned, gc, quarantined := CurateCatalog(Content(entries, tombstones), d);
      var plan := Rehearse(cfg, c, realms, logs, journalBytes, order);
      if plan.Err? {
        healthy := plan.error != Corrupt;
        return Err(plan.error);
      }
      entries, tombstones := c.entries, c.tombstones;
      StagingSetsContent(cfg, old(Snapshot()), c, order, fault);
      var ok := ReplaceChains(c, order, fault);
      if !ok {
        return Err(Io);
      }
      var removed := Sweep(fault);
      if removed.Err? {
        return Err(removed.error);
      }
      return Ok(CompactStats(scanned, gc, quarantined, removed.value));
    }

    // ---- recovery ----

    /** Replace everything held in memory by what a whole replay found. */
    method Install(a: Replayed, total: nat, usage: (nat, nat))
      modifies this
      ensures Snapshot() == State(
                a.content, a.realms, a.heads, if a.youngest + 1 > U64_MAX then U64_MAX else a.youngest + 1,
                total, usage.0, usage.1, true, old(logs), old(blobs), old(torn))
    {
      entries, tombstones := a.content.entries, a.content.tombstones;
      realms, heads := a.realms, a.heads;
      nextFirstSeen := if a.youngest + 1 > U64_MAX then U64_MAX else a.youngest + 1;
      journalBytes := total;
      blobBytes, blobCount := usage.0, usage.1;
      healthy := true;
    }

    /** Rebuild everything from the directory, whose files are taken in the given order, or refuse it whole. */
    method Recover(order: seq<RealmHash>) returns (r: Result<nat>)
      requires Enumerates(order, logs.Keys)
      modifies this
      ensures r.Ok? <==> Acceptable(cfg, old(logs), old(blobs)) && old(torn) !! old(logs).Keys
      ensures Snapshot() == Recovery.Recover(cfg, old(Snapshot()))
      ensures r.Ok? ==> r.value == RecordCount(logs)
      ensures r.Ok? ==> OwnWriting(cfg, logs)
      ensures logs == old(logs) && blobs == old(blobs) && torn == old(torn)
      ensures healthy <==> r.Ok?
      ensures r.Ok? ==> Content(entries, tombstones) == Catalog()
      ensures r.Err? ==> RefusalReason(cfg, old(logs), old(blobs), old(torn), order, r.error)
      ensures old(Valid()) ==>
                && Valid() && Catalog() == old(Catalog())
                && (r.Ok? <==> WithinCap(|logs|, cfg.maxEntries) && torn == {})
    {
      hide Inv, Acceptable, Recovered, ReplayedFrom, DirectoryFault, RecordCount, Meaning, Retained, LogsOk, LogTotal,
           ScanBlobs, OwnWriting;
      if Valid() {
        RecoverPromise(cfg, Snapshot());
      }
      AcceptableParts(cfg, logs, blobs);
      AcceptedIsOwnWriting(cfg, logs);
      ScanCounts(cfg, blobs);
      var usage := ScanBlobUsage(cfg, blobs);
      if usage.Err? {
        healthy := false;
        return Err(usage.error);
      }
      var total := CollectFiles(cfg, logs);
      if total.Err? {
        healthy := false;
        return Err(total.error);
      }
      var a := ReplayFiles(cfg, logs, torn, order);
      if a.Err? {
        healthy := false;
        return Err(a.error);
      }
      RecoveredParts(cfg, Snapshot(), a.value);
      Install(a.value, total.value, usage.value);
      return Ok(a.value.count);
    }
  }

  lemma OpenedInOrder(cfg: Config, s: State)
    requires DiskInv(cfg, s.logs, s.blobs) && s.torn <= s.logs.Keys && s == Reopen(s)
    ensures Inv(cfg, s)
  {
    hide DiskInv;
    var s0 := s.(healthy := false);
    ReopenKeeps(cfg, s0);
    assert Reopen(s0) == s;
  }

  /** What a refused recovery reports: a cap that the directory exceeds, or the fault of its first bad file. */
  ghost predicate RefusalReason(
    cfg: Config, logs: Logs, blobs: map<nat, Bytes>, torn: set<RealmHash>, order: seq<RealmHash>, e: Error)
  {
    || (e == Limit && ScanBlobs(cfg, blobs).Err?)
    || (ScanBlobs(cfg, blobs).Ok? && e == Limit && !GrowthOk(0, LogTotal(cfg, logs), cfg.maxLogBytes))
    || (ScanBlobs(cfg, blobs).Ok? && e == Capacity && !WithinCap(|logs|, cfg.maxEntries))
    || (&& ScanBlobs(cfg, blobs).Ok? && GrowthOk(0, LogTotal(cfg, logs), cfg.maxLogBytes)
        && WithinCap(|logs|, cfg.maxEntries) && DirectoryFault(cfg, logs, torn, order, e))
  }

  lemma UnlinkedAt(c: Content, blobs: map<nat, Bytes>, fault: CompactFault, h: nat)
    ensures h in Unlinked(c, blobs, fault) <==>
              h in blobs && !References(c, h) && (fault.FailsInGc? ==> h in fault.removed)
    ensures Unlinked(c, blobs, fault) <= blobs.Keys
  {
  }

  lemma UnlinkNext(blobs: map<nat, Bytes>, victims: set<nat>, todo: set<nat>, h: nat)
    requires h in todo && todo <= blobs.Keys
    ensures h in blobs - (victims - todo)
    ensures blobs - (victims - (todo - {h})) ==
            if h in victims then blobs - (victims - todo) - {h} else blobs - (victims - todo)
    ensures |victims - (todo - {h})| == |victims - todo| + if h in victims then 1 else 0
  {
    if h in victims {
      assert victims - (todo - {h}) == (victims - todo) + {h};
    } else {
      assert victims - (todo - {h}) == victims - todo;
    }
  }

  /** Every file is what this store would have written for the operations in it. */
  predicate OwnWriting(cfg: Config, logs: Logs) {
    forall rh | rh in logs :: logs[rh] == ChainFor(cfg, StampsOf(logs[rh])) && Writable(cfg, rh, logs[rh])
  }

  lemma AcceptedIsOwnWriting(cfg: Config, logs: Logs)
    ensures LogsOk(cfg, logs) <==> OwnWriting(cfg, logs)
  {
    hide ChainOk, Writable, ChainFor;
    forall rh | rh in logs
      ensures ChainOk(cfg, rh, logs[rh]) <==> logs[rh] == ChainFor(cfg, StampsOf(logs[rh])) && Writable(cfg, rh, logs[rh])
    {
      AcceptedIffWritten(cfg, rh, logs[rh]);
    }
  }

  lemma AcceptableParts(cfg: Config, logs: Logs, blobs: map<nat, Bytes>)
    ensures Acceptable(cfg, logs, blobs) <==>
              && ScanBlobs(cfg, blobs).Ok?
              && GrowthOk(0, LogTotal(cfg, logs), cfg.maxLogBytes) && WithinCap(|logs|, cfg.maxEntries)
              && LogsOk(cfg, logs) && WithinCap(|Retained(Meaning(logs))|, cfg.maxEntries)
  {
  }

  lemma RecoveredParts(cfg: Config, s: State, a: Replayed)
    requires ReplayedFrom(cfg, s.logs, a) && ScanBlobs(cfg, s.blobs).Ok?
    ensures a.count == RecordCount(s.logs) && a.content == Meaning(s.logs)
    ensures Recovered(cfg, s) == State(
              a.content, a.realms, a.heads, if a.youngest + 1 > U64_MAX then U64_MAX else a.youngest + 1,
              LogTotal(cfg, s.logs), ScanBlobs(cfg, s.blobs).value.0, ScanBlobs(cfg, s.blobs).value.1, true,
              s.logs, s.blobs, s.torn)
  {
  }

  lemma ScanCounts(cfg: Config, blobs: map<nat, Bytes>)
    ensures ScanBlobs(cfg, blobs).Ok? ==> ScanBlobs(cfg, blobs).value == (BlobTotal(blobs), |blobs|)
    ensures ScanBlobs(cfg, blobs).Err? ==> ScanBlobs(cfg, blobs).error == Limit
  {
  }

  lemma StagingSetsContent(cfg: Config, s: State, c: Content, order: seq<RealmHash>, fault: CompactFault)
    ensures Staged(cfg, s.(content := c), c, order) == Staged(cfg, s, c, order)
    ensures fault.FailsAt? && fault.done < |order| ==>
              Interrupted(cfg, s.(content := c), c, order, fault) == Interrupted(cfg, s, c, order, fault)
    ensures var s1 := Staged(cfg, s, c, order);
            s1.content == c && s1.blobs == s.blobs && s1.blobBytes == s.blobBytes && s1.blobCount == s.blobCount
            && s1.healthy == s.healthy
  {
  }

  lemma StagedStart(cfg: Config, s: State, c: Content)
    requires s.content == c
    ensures Staged(cfg, s, c, []) == s
  {
  }

  lemma UpdateTwice(heads: map<RealmHash, Head>, rh: RealmHash, a: Head, b: Head)
    ensures heads[rh := a][rh := b] == heads[rh := b]
  {
  }

  lemma FitsDependsOnHead(cfg: Config, a: State, b: State, op: LogOp, fs: nat)
    requires HeadAt(a.heads, RealmSha(op.realm)) == HeadAt(b.heads, RealmSha(op.realm))
    requires a.journalBytes == b.journalBytes
    ensures Fits(cfg, a, op, fs) == Fits(cfg, b, op, fs)
  {
  }
}
