/**
 * Blobs that something outside the store has damaged or removed: no read ever returns them, and a put of
 * the right bytes repairs them. Nothing here assumes that the store is in order.
 */
module Repair {
  import opened Basics
  import opened Records
  import opened Catalog
  import opened Chain
  import opened Store
  import opened Invariant

  /** A read of any state returns only a live row, with bytes that hash to its key; a bad blob is told apart. */
  ghost predicate Honest(cfg: Config, s: State, realm: RealmId, hash: HashText, r: Result<Option<(Live, Bytes)>>) {
    var key := Key(realm, hash);
    && (r.Ok? && r.value.Some? ==>
          && s.healthy && key in s.content.entries && r.value.value.0 == s.content.entries[key]
          && Hex(cfg.sha(r.value.value.1)) == hash && WithinCap(|r.value.value.1|, cfg.maxArtifactBytes))
    && (r == Ok(None) ==> hash.Malformed? || key !in s.content.entries)
    && (r == Err(Corrupt) ==> hash.Hex? && hash.value !in s.blobs)
    && (r == Err(Integrity) ==> hash.Hex? && hash.value in s.blobs && cfg.sha(s.blobs[hash.value]) != hash.value)
    && (r == Err(Limit) ==> hash.Hex? && hash.value in s.blobs && !WithinCap(|s.blobs[hash.value]|, cfg.maxArtifactBytes))
    && (r.Err? ==> r.error in {Unhealthy, Corrupt, Integrity, Limit} && (r.error == Unhealthy <==> !s.healthy))
  }

  lemma ReadsAreHonest(cfg: Config, s: State, realm: RealmId, hash: HashText)
    ensures Honest(cfg, s, realm, hash, Get(cfg, s, realm, hash))
  {
  }

  /** The blob is there but is not what its name says, or it is not there although a live row needs it. */
  predicate Damaged(cfg: Config, s: State, h: nat) {
    if h in s.blobs then ReadBlob(cfg, s, h).Err? else References(s.content, h)
  }

  lemma BlobTotalReplace(blobs: map<nat, Bytes>, h: nat, bytes: Bytes)
    requires h in blobs
    ensures BlobTotal(blobs[h := bytes]) == BlobTotal(blobs) - |blobs[h]| + |bytes|
    ensures |blobs[h := bytes]| == |blobs|
  {
    hide BlobTotal;
    BlobTotalRemove(blobs, h);
    BlobTotalAdd(blobs - {h}, h, bytes);
    assert (blobs - {h})[h := bytes] == blobs[h := bytes];
    assert blobs[h := bytes].Keys == blobs.Keys;
  }

  /** The directory as it would be with the right bytes in place. */
  ghost predicate RepairFits(cfg: Config, blobs: map<nat, Bytes>, h: nat, artifact: Bytes) {
    && ScanBlobs(cfg, blobs).Ok?
    && |blobs[h := artifact]| <= U64_MAX && WithinCap(|blobs[h := artifact]|, cfg.maxEntries)
    && GrowthOk(0, BlobTotal(blobs[h := artifact]), cfg.maxBlobBytes)
  }

  /**
   * Writing the right bytes over a damaged blob goes through exactly when the directory has room, recounts
   * what the directory holds, whatever the store believed before, and is not reported as a new blob, so that
   * no later failure takes it away again.
   */
  lemma RepairIsExact(cfg: Config, s: State, h: nat, artifact: Bytes)
    requires Damaged(cfg, s, h) && cfg.sha(artifact) == h && WithinCap(|artifact|, cfg.maxArtifactBytes)
    ensures var (s', w) := WriteBlob(cfg, s, h, artifact, BlobLands);
            && (w.Ok? <==> RepairFits(cfg, s.blobs, h, artifact))
            && (w.Ok? ==>
                  && w == Ok(false) && s' == s.(blobs := s.blobs[h := artifact],
                                                blobBytes := BlobTotal(s'.blobs), blobCount := |s'.blobs|)
                  && ReadBlob(cfg, s', h) == Ok(artifact))
            && (w.Err? ==> s' == s)
  {
    hide BlobTotal, References;
    if h in s.blobs {
      BlobTotalReplace(s.blobs, h, artifact);
      BlobTotalRemove(s.blobs, h);
    } else {
      BlobTotalAdd(s.blobs, h, artifact);
    }
  }

  /** After a put that succeeded, on any store, the bytes under its key are the right ones. */
  lemma PutLeavesReadable(cfg: Config, s: State, realm: RealmId, manifest: Manifest, artifact: Bytes, f: PutFaults)
    requires Key(realm, Hex(cfg.sha(artifact))) !in s.content.tombstones
    ensures var (s', r) := Store.Put(cfg, s, realm, manifest, artifact, f);
            r.Ok? ==> ReadBlob(cfg, s', cfg.sha(artifact)).Ok? && cfg.sha(ReadBlob(cfg, s', cfg.sha(artifact)).value) == r.value
  {
    hide Fits, RetainedCount, Apply, BlobTotal, References, WriteBlob;
    var h := cfg.sha(artifact);
    if WithinCap(|artifact|, cfg.maxArtifactBytes) {
      WrittenReads(cfg, s, artifact, f.blob);
    }
  }

  lemma WrittenReads(cfg: Config, s: State, artifact: Bytes, fault: BlobFault)
    requires WithinCap(|artifact|, cfg.maxArtifactBytes)
    ensures var (s1, w) := WriteBlob(cfg, s, cfg.sha(artifact), artifact, fault);
            w.Ok? ==> ReadBlob(cfg, s1, cfg.sha(artifact)).Ok?
  {
    hide BlobTotal, References;
  }

  /** A repaired blob stays even if the record of the put that brought it then cannot be written. */
  lemma RepairOutlivesFault(
    cfg: Config, s: State, realm: RealmId, manifest: Manifest, artifact: Bytes, f: PutFaults)
    requires Damaged(cfg, s, cfg.sha(artifact)) && RepairFits(cfg, s.blobs, cfg.sha(artifact), artifact)
    requires WithinCap(|artifact|, cfg.maxArtifactBytes) && cfg.validManifest(manifest) && s.healthy && f.blob == BlobLands
    requires var key := Key(realm, Hex(cfg.sha(artifact)));
             && key !in s.content.tombstones
             && (key !in s.content.entries ==>
                   WithinCap(RetainedCount(s.content) + 1, cfg.maxEntries) && s.nextFirstSeen < U64_MAX)
             && Fits(cfg, s, LogOp.Put(realm, key.hash, manifest), PutBirth(s, key))
    ensures Store.Put(cfg, s, realm, manifest, artifact, f).0.blobs == s.blobs[cfg.sha(artifact) := artifact]
  {
    hide Fits, RetainedCount, Apply, BlobTotal, References, WriteBlob, Damaged, RepairFits;
    RepairIsExact(cfg, s, cfg.sha(artifact), artifact);
  }
}
