/** What callers of `put` and `get` may rely on. */
module Guarantees {
  import opened Basics
  import opened Records
  import opened Catalog
  import opened Chain
  import opened Store
  import opened Invariant
  import opened Operations
  import opened Compaction
  import opened CompactionProofs
  import opened Recovery
  import opened Runs
  import Curator

  // ---- put and get ----

  /** Without faults, a put that is refused changes nothing at all: not the disk, not the catalog. */
  lemma RefusedPutChangesNothing(cfg: Config, s: State, realm: RealmId, manifest: Manifest, artifact: Bytes)
    requires Inv(cfg, s)
    requires Store.Put(cfg, s, realm, manifest, artifact, NO_PUT_FAULTS).1.Err?
    ensures Store.Put(cfg, s, realm, manifest, artifact, NO_PUT_FAULTS).0 == s
  {
    hide Meaning, DiskInv, MemInv, WriteBlob, Fits, RetainedCount;
    if s.healthy && WithinCap(|artifact|, cfg.maxArtifactBytes) {
      PutAppendsAfterBlob(cfg, s, realm, manifest, artifact);
      BlobErrorChangesNothing(cfg, s, artifact);
    }
  }

  lemma BlobErrorChangesNothing(cfg: Config, s: State, artifact: Bytes)
    requires Inv(cfg, s) && s.healthy
    ensures var (s', r) := WriteBlob(cfg, s, cfg.sha(artifact), artifact, BlobLands);
            r.Err? ==> s' == s
  {
    hide Meaning, BlobTotal, LogTotal, LogsOk, Histories, DistinctBirths, CapsOk, HeadsOk, RealmsOk;
    WriteBlobPlain(cfg, s, artifact, BlobLands);
  }

  /** The preflight is exact: writing the blob does not change whether the record fits. */
  lemma PutAppendsAfterBlob(cfg: Config, s: State, realm: RealmId, manifest: Manifest, artifact: Bytes)
    requires Inv(cfg, s) && s.healthy && WithinCap(|artifact|, cfg.maxArtifactBytes)
    ensures var key := Key(realm, Hex(cfg.sha(artifact)));
            var op, fs := LogOp.Put(realm, key.hash, manifest), PutBirth(s, key);
            var (s1, r) := WriteBlob(cfg, s, cfg.sha(artifact), artifact, BlobLands);
            r.Ok? && Fits(cfg, s, op, fs) ==>
              && s1.content == s.content && s1.logs == s.logs && s1.nextFirstSeen == s.nextFirstSeen
              && PutBirth(s1, key) == fs
              && Append(cfg, s1, op, fs, NoFault).1.Appended?
  {
    hide Inv, WriteBlob;
    WriteBlobKeeps(cfg, s, artifact, BlobLands);
  }

  /** The catalog after a successful put, where a key not live before is born as number `born`. */
  ghost predicate Stored(c: Content, c': Content, key: Key, manifest: Manifest, born: nat) {
    && c'.tombstones == c.tombstones
    && (key in c.tombstones ==> c' == c)
    && (key !in c.tombstones ==>
          && c'.entries.Keys == c.entries.Keys + {key}
          && (forall k | k in c.entries && k != key :: c'.entries[k] == c.entries[k])
          && c'.entries[key] == (if key in c.entries then c.entries[key].(manifest := manifest)
                                 else Live(manifest, None, None, born)))
  }

  /**
   * A successful put of a tombstoned key changes nothing; any other makes the key live under the new
   * manifest, keeps the birth order and signals of a row that was already there, gives a new row the
   * next birth order and no signals, and touches no other key.
   */
  lemma PutEffect(cfg: Config, s: State, realm: RealmId, manifest: Manifest, artifact: Bytes, f: PutFaults)
    requires Inv(cfg, s)
    requires Store.Put(cfg, s, realm, manifest, artifact, f).1.Ok?
    ensures var (s', r) := Store.Put(cfg, s, realm, manifest, artifact, f);
            var key := Key(realm, Hex(cfg.sha(artifact)));
            var c, c' := Meaning(s.logs), Meaning(s'.logs);
            && r.value == cfg.sha(artifact)
            && s.healthy && s'.healthy
            && Stored(c, c', key, manifest, s.nextFirstSeen)
            && (key in c.tombstones ==> s' == s)
            && (key !in c.tombstones ==>
                  s'.nextFirstSeen == (if key in c.entries then s.nextFirstSeen else s.nextFirstSeen + 1))
  {
    hide Meaning, DiskInv, WriteBlob, Fits, RetainedCount, HeadsOk, RealmsOk, LogTotal, BlobTotal, BirthsBelow,
         PutLogged, Apply, Evolves;
    PutKeeps(cfg, s, realm, manifest, artifact, f);
    assert s.healthy;
    WriteBlobKeeps(cfg, s, artifact, f.blob);
    var h := cfg.sha(artifact);
    var key := Key(realm, Hex(h));
    if key !in s.content.tombstones {
      var (s1, r) := WriteBlob(cfg, s, h, artifact, f.blob);
      PutLoggedOk(cfg, s1, key, manifest, r.value, f);
      ApplyPutEffect(s.content, LogOp.Put(realm, Hex(h), manifest), PutBirth(s, key));
    }
  }

  lemma PutLoggedOk(cfg: Config, s: State, key: Key, manifest: Manifest, created: bool, f: PutFaults)
    requires s.healthy && key.hash.Hex? && PutLogged(cfg, s, key, manifest, created, f).1.Ok?
    ensures var (s', r) := PutLogged(cfg, s, key, manifest, created, f);
            && r.value == key.hash.value
            && s'.content == Apply(s.content, LogOp.Put(key.realm, key.hash, manifest), PutBirth(s, key))
            && s'.nextFirstSeen == (if key in s.content.entries then s.nextFirstSeen else s.nextFirstSeen + 1)
            && s'.healthy
  {
    hide Apply, Fits;
  }

  lemma ApplyPutEffect(c: Content, op: LogOp, fs: nat)
    requires op.Put? && KeyOf(op) !in c.tombstones
    ensures var c', key := Apply(c, op, fs), KeyOf(op);
            && c'.tombstones == c.tombstones
            && c'.entries.Keys == c.entries.Keys + {key}
            && (forall k | k in c.entries && k != key :: c'.entries[k] == c.entries[k])
            && c'.entries[key] == (if key in c.entries then c.entries[key].(manifest := op.manifest)
                                   else Live(op.manifest, None, None, fs))
  {
  }

  /** In a healthy store every live row of every Realm can be read back, with bytes that hash to its key. */
  lemma LiveIsReadable(cfg: Config, s: State, k: Key)
    requires Inv(cfg, s) && s.healthy && k in s.content.entries
    ensures var r := Get(cfg, s, k.realm, k.hash);
            && r.Ok? && r.value.Some?
            && r.value.value.0 == s.content.entries[k]
            && Hex(cfg.sha(r.value.value.1)) == k.hash
  {
    hide Meaning, CapsOk, LogsOk, Histories, DistinctBirths, HeadsOk, RealmsOk;
    assert k == Key(k.realm, k.hash);
  }
}
