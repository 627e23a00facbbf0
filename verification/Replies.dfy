/**
 * What each operation answers, exactly: for a store in order, as a table over what its directory means,
 * the room that is left and what the disk does. A refusal has one reason, and only an append in doubt, a
 * dirty blob failure or a failed rollback stops the store from serving.
 */
module Replies {
  import opened Basics
  import opened Records
  import opened Catalog
  import opened Chain
  import opened Store
  import opened Invariant
  import opened Operations
  import opened Guarantees
  import opened Effects

  // ---- signals and evictions ----

  /** The answer of an operation that is due to append one record, if anything. */
  predicate Answers(due: bool, room: bool, fault: AppendFault, r: Result<bool>, healthy: bool) {
    if !due then r == Ok(false) && healthy
    else if !room then r == Err(Limit) && healthy
    else
      match fault
      case NoFault => r == Ok(true) && healthy
      case OpenFails => r == Err(Io) && healthy
      case _ => r == Err(Io) && !healthy
  }

  lemma CommitAnswers(cfg: Config, s: State, op: LogOp, fs: nat, fault: AppendFault)
    requires Inv(cfg, s) && s.healthy
    ensures var (s', r) := Commit(cfg, s, op, fs, fault);
            Answers(true, Room(cfg, s.logs, op, fs), fault, r, s'.healthy)
  {
    hide Meaning, DiskInv, Room, Apply, HeadsOk, RealmsOk, LogTotal, BlobTotal, BirthsBelow;
    FitsIsRoom(cfg, s, op, fs);
    hide Fits;
  }

  /** A score is recorded if it is well-shaped, its row is live and there is room. */
  ghost predicate AttestAnswers(
    cfg: Config, logs: Logs, key: Key, score: ReputationScore, fault: AppendFault, r: Result<bool>, healthy: bool)
  {
    var c := Meaning(logs);
    var due := key in c.entries && AttestShapeOk(cfg, key.realm, score);
    Answers(due, due && Room(cfg, logs, LogOp.Attest(key.realm, key.hash, score), c.entries[key].firstSeen),
            fault, r, healthy)
  }

  lemma AttestReplies(cfg: Config, s: State, realm: RealmId, hash: HashText, score: ReputationScore, fault: AppendFault)
    requires Inv(cfg, s) && s.healthy
    ensures var (s', r) := Store.Attest(cfg, s, realm, hash, score, fault);
            AttestAnswers(cfg, s.logs, Key(realm, hash), score, fault, r, s'.healthy)
  {
    hide Inv, Meaning, Commit, Room, AttestShapeOk;
    var key := Key(realm, hash);
    HealthyContent(cfg, s);
    LiveKeysAreHex(cfg, s, key);
    if key in s.content.entries {
      CommitAnswers(cfg, s, LogOp.Attest(realm, hash, score), s.content.entries[key].firstSeen, fault);
    }
  }

  /** A marker is lifted if there is one and there is room for the record of it. */
  ghost predicate ClearAnswers(
    cfg: Config, logs: Logs, key: Key, fault: AppendFault, r: Result<bool>, healthy: bool)
  {
    var c := Meaning(logs);
    var due := key in c.entries && c.entries[key].quarantine.Some?;
    Answers(due, due && Room(cfg, logs, LogOp.Unquarantine(key.realm, key.hash), c.entries[key].firstSeen),
            fault, r, healthy)
  }

  lemma UnquarantineReplies(cfg: Config, s: State, realm: RealmId, hash: HashText, fault: AppendFault)
    requires Inv(cfg, s) && s.healthy
    ensures var (s', r) := Store.Unquarantine(cfg, s, realm, hash, fault);
            ClearAnswers(cfg, s.logs, Key(realm, hash), fault, r, s'.healthy)
  {
    hide Inv, Meaning, Commit, Room;
    var key := Key(realm, hash);
    HealthyContent(cfg, s);
    LiveKeysAreHex(cfg, s, key);
    if key in s.content.entries {
      CommitAnswers(cfg, s, LogOp.Unquarantine(realm, hash), s.content.entries[key].firstSeen, fault);
    }
  }

  /** A marker is refused for its shape or its peers, and otherwise recorded if its row is live and there is room. */
  ghost predicate MarkAnswers(
    cfg: Config, logs: Logs, key: Key, notice: QuarantineNotice, fault: AppendFault, r: Result<bool>, healthy: bool)
  {
    var c := Meaning(logs);
    if key.hash.Hex? && !MarkShapeOk(cfg, key.realm, notice) then r == Err(Limit) && healthy
    else if key !in c.entries then r == Ok(false) && healthy
    else
      var merged := MergeNotice(notice, c.entries[key].quarantine);
      Answers(true,
              merged.Some?
              && Room(cfg, logs, LogOp.Quarantine(key.realm, key.hash, merged.value), c.entries[key].firstSeen),
              fault, r, healthy)
  }

  lemma QuarantineReplies(
    cfg: Config, s: State, realm: RealmId, hash: HashText, notice: QuarantineNotice, fault: AppendFault)
    requires Inv(cfg, s) && s.healthy
    ensures var (s', r) := Store.Quarantine(cfg, s, realm, hash, notice, fault);
            MarkAnswers(cfg, s.logs, Key(realm, hash), notice, fault, r, s'.healthy)
  {
    hide Inv, Meaning, Commit, Room, MergeNotice, MarkShapeOk;
    var key := Key(realm, hash);
    HealthyContent(cfg, s);
    LiveKeysAreHex(cfg, s, key);
    if key in s.content.entries {
      var merged := MergeNotice(notice, s.content.entries[key].quarantine);
      if merged.Some? {
        CommitAnswers(cfg, s, LogOp.Quarantine(realm, hash, merged.value), s.content.entries[key].firstSeen, fault);
      }
    }
  }

  /** There is no place for one more key. */
  ghost predicate Full(cfg: Config, c: Content) {
    cfg.maxEntries != 0 && |Retained(c)| >= cfg.maxEntries
  }

  /** A key is evicted unless it was, or it is new and the catalog is full, or there is no room. */
  ghost predicate EvictAnswers(
    cfg: Config, logs: Logs, key: Key, fault: AppendFault, r: Result<bool>, healthy: bool)
  {
    var c := Meaning(logs);
    if key.hash.Malformed? then r == Err(Integrity) && healthy
    else if key !in Retained(c) && Full(cfg, c) then r == Err(Capacity) && healthy
    else Answers(key !in c.tombstones, Room(cfg, logs, LogOp.Tombstone(key.realm, key.hash), 0), fault, r, healthy)
  }

  lemma TombstoneReplies(cfg: Config, s: State, realm: RealmId, hash: HashText, fault: AppendFault)
    requires Inv(cfg, s) && s.healthy
    ensures var (s', r) := Store.Tombstone(cfg, s, realm, hash, fault);
            EvictAnswers(cfg, s.logs, Key(realm, hash), fault, r, s'.healthy)
  {
    hide Inv, Meaning, Commit, Room;
    HealthyContent(cfg, s);
    InvDisjoint(cfg, s);
    RetainedSize(s.content);
    CommitAnswers(cfg, s, LogOp.Tombstone(realm, hash), 0, fault);
  }

  // ---- put ----

  /** There is room for a blob that is not there yet. */
  ghost predicate BlobRoom(cfg: Config, blobs: map<nat, Bytes>, artifact: Bytes) {
    var (count, total) := (|blobs| + 1, BlobTotal(blobs) + |artifact|);
    && count <= U64_MAX && (cfg.maxEntries == 0 || count <= cfg.maxEntries)
    && total <= U64_MAX && (cfg.maxBlobBytes == 0 || total <= cfg.maxBlobBytes)
  }

  /** Why a put is refused before anything is written, if it is. */
  ghost function PutRefusal(cfg: Config, s: State, realm: RealmId, manifest: Manifest, artifact: Bytes): Option<Error> {
    var (c, h) := (Meaning(s.logs), cfg.sha(artifact));
    var key := Key(realm, Hex(h));
    if !WithinCap(|artifact|, cfg.maxArtifactBytes) then Some(Limit)
    else if !cfg.validManifest(manifest) then Some(Invalid)
    else if key in c.tombstones then None
    else if key !in c.entries && Full(cfg, c) then Some(Capacity)
    else if key !in c.entries && s.nextFirstSeen == U64_MAX then Some(Limit)
    else if !Room(cfg, s.logs, LogOp.Put(realm, key.hash, manifest), PutBirth(s, key)) then Some(Limit)
    else if h !in s.blobs && !BlobRoom(cfg, s.blobs, artifact) then Some(Limit)
    else None
  }

  /** What the faults do to a put that is not refused: whether it succeeds, and whether the store still serves. */
  predicate PutOutcome(stored: bool, newBlob: bool, f: PutFaults, ok: bool, healthy: bool) {
    if stored then ok && healthy
    else if newBlob && !f.blob.BlobLands? then !ok && (healthy <==> f.blob.BlobFails?)
    else
      match f.append
      case NoFault => ok && healthy
      case OpenFails => !ok && (healthy <==> !(newBlob && f.rollbackFails))
      case _ => !ok && !healthy
  }

  /**
   * A put that is refused changes nothing. A put of a tombstoned key succeeds and changes nothing. Any
   * other stores the artifact, if it was not there, and the record, as far as the disk lets it.
   */
  ghost predicate PutAnswers(
    cfg: Config, s: State, realm: RealmId, manifest: Manifest, artifact: Bytes, f: PutFaults, s': State, r: Result<nat>)
  {
    var (c, h, refusal) := (Meaning(s.logs), cfg.sha(artifact), PutRefusal(cfg, s, realm, manifest, artifact));
    var key := Key(realm, Hex(h));
    if refusal.Some? then r == Err(refusal.value) && s' == s
    else
      && PutOutcome(key in c.tombstones, h !in s.blobs, f, r.Ok?, s'.healthy)
      && r == (if r.Ok? then Ok(h) else Err(Io))
      && (key in c.tombstones ==> s' == s)
      && (key !in c.tombstones && (r.Ok? || f.append.Uncertain? || f.append.Torn?) && f.blob.BlobLands? ==>
            s'.blobs == s.blobs[h := if h in s.blobs then s.blobs[h] else artifact])
      && (r.Err? && s'.healthy ==> s'.blobs == s.blobs && s'.logs == s.logs)
  }

  lemma BlobAnswers(cfg: Config, s: State, artifact: Bytes, fault: BlobFault)
    requires Inv(cfg, s) && s.healthy
    ensures var (h, (s1, w)) := (cfg.sha(artifact), WriteBlob(cfg, s, cfg.sha(artifact), artifact, fault));
            if h in s.blobs then s1 == s && w == Ok(false)
            else if !BlobRoom(cfg, s.blobs, artifact) then s1 == s && w == Err(Limit)
            else if !fault.BlobLands? then s1 == s.(healthy := fault.BlobFails?) && w == Err(Io)
            else w == Ok(true) && s1 == s.(blobs := s.blobs[h := artifact], blobBytes := s.blobBytes + |artifact|,
                                           blobCount := s.blobCount + 1)
  {
    hide Meaning, LogsOk, Histories, DistinctBirths, CapsOk, HeadsOk, RealmsOk, LogTotal, BlobTotal, WriteBlob;
    WriteBlobPlain(cfg, s, artifact, fault);
  }

  /** The tail of a put whose record fits: `created` says whether its blob is new. */
  lemma LoggedAnswers(cfg: Config, s: State, key: Key, manifest: Manifest, created: bool, f: PutFaults)
    requires s.healthy && key.hash.Hex? && key.hash.value in s.blobs
    requires Fits(cfg, s, LogOp.Put(key.realm, key.hash, manifest), PutBirth(s, key))
    requires created ==> s.blobBytes >= |s.blobs[key.hash.value]| && s.blobCount > 0
    ensures var (s', r) := PutLogged(cfg, s, key, manifest, created, f);
            && PutOutcome(false, created, f.(blob := BlobLands), r.Ok?, s'.healthy)
            && r == (if r.Ok? then Ok(key.hash.value) else Err(Io))
            && (r.Ok? || f.append.Uncertain? || f.append.Torn? ==> s'.blobs == s.blobs)
            && (r.Err? && s'.healthy ==>
                  s'.logs == s.logs && s'.blobs == if created then s.blobs - {key.hash.value} else s.blobs)
  {
    hide Fits, Apply;
  }

  /** The guards of a put, in terms of the directory. */
  lemma PutGuards(cfg: Config, s: State, realm: RealmId, manifest: Manifest, artifact: Bytes, f: PutFaults)
    requires Inv(cfg, s) && s.healthy
    ensures var (h, refusal) := (cfg.sha(artifact), PutRefusal(cfg, s, realm, manifest, artifact));
            var key := Key(realm, Hex(h));
            var (s1, w) := WriteBlob(cfg, s, h, artifact, f.blob);
            && (refusal.Some? ==> Store.Put(cfg, s, realm, manifest, artifact, f) == (s, Err(refusal.value)))
            && (refusal.None? && key in Meaning(s.logs).tombstones ==>
                  Store.Put(cfg, s, realm, manifest, artifact, f) == (s, Ok(h)))
            && (refusal.None? && key !in Meaning(s.logs).tombstones ==>
                  && Fits(cfg, s, LogOp.Put(realm, Hex(h), manifest), PutBirth(s, key))
                  && (h in s.blobs || BlobRoom(cfg, s.blobs, artifact))
                  && Store.Put(cfg, s, realm, manifest, artifact, f) ==
                     if w.Ok? then PutLogged(cfg, s1, key, manifest, w.value, f) else (s1, Err(w.error)))
  {
    hide Inv, Meaning, WriteBlob, PutLogged, Room, Fits, BlobRoom, Retained;
    var h := cfg.sha(artifact);
    var key := Key(realm, Hex(h));
    HealthyContent(cfg, s);
    InvDisjoint(cfg, s);
    RetainedSize(s.content);
    RetainedIn(s.content, key);
    PutFits(cfg, s, LogOp.Put(realm, Hex(h), manifest), PutBirth(s, key));
    BlobAnswers(cfg, s, artifact, f.blob);
  }

  lemma PutReplies(cfg: Config, s: State, realm: RealmId, manifest: Manifest, artifact: Bytes, f: PutFaults)
    requires Inv(cfg, s) && s.healthy
    ensures var (s', r) := Store.Put(cfg, s, realm, manifest, artifact, f);
            PutAnswers(cfg, s, realm, manifest, artifact, f, s', r)
  {
    hide Inv, Meaning, Store.Put, WriteBlob, PutLogged, Fits, BlobRoom, PutRefusal;
    var h := cfg.sha(artifact);
    var key := Key(realm, Hex(h));
    PutGuards(cfg, s, realm, manifest, artifact, f);
    BlobAnswers(cfg, s, artifact, f.blob);
    var (s1, w) := WriteBlob(cfg, s, h, artifact, f.blob);
    if w.Ok? && PutRefusal(cfg, s, realm, manifest, artifact).None? && key !in Meaning(s.logs).tombstones {
      FitsSame(cfg, s, s1, LogOp.Put(realm, Hex(h), manifest), PutBirth(s, key));
      LoggedAnswers(cfg, s1, key, manifest, w.value, f);
      if w.value {
        assert s1.blobs - {h} == s.blobs;
      } else {
        assert s.blobs[h := s.blobs[h]] == s.blobs;
      }
    }
  }

  lemma PutFits(cfg: Config, s: State, op: LogOp, fs: nat)
    requires Inv(cfg, s) && s.healthy
    ensures Fits(cfg, s, op, fs) <==> Room(cfg, s.logs, op, fs)
    ensures s.nextFirstSeen <= U64_MAX
  {
    hide Meaning, DiskInv, Room, Fits, HeadsOk, RealmsOk, LogTotal, BlobTotal, BirthsBelow;
    FitsIsRoom(cfg, s, op, fs);
  }

  lemma FitsSame(cfg: Config, a: State, b: State, op: LogOp, fs: nat)
    requires HeadAt(a.heads, RealmSha(op.realm)) == HeadAt(b.heads, RealmSha(op.realm)) && a.journalBytes == b.journalBytes
    ensures Fits(cfg, a, op, fs) <==> Fits(cfg, b, op, fs)
  {
  }
}
