/**
 * The durable store as a state machine over (catalog, disk). Every operation is a function from a
 * state, its arguments and what the disk does (the fault parameters) to the next state and the reply.
 */
module Store {
  import opened Basics
  import opened Records
  import opened Catalog
  import opened Chain

  datatype State = State(
    // in memory
    content: Content,
    realms: map<RealmHash, RealmId>,
    heads: map<RealmHash, Head>,
    nextFirstSeen: nat,
    journalBytes: nat,
    blobBytes: nat,
    blobCount: nat,
    healthy: bool,
    // on disk
    logs: Logs,
    blobs: map<nat, Bytes>,
    // the Realms whose file ends in a fragment of a line
    torn: set<RealmHash>)

  /**
   * An append can fail before any byte is written, or in doubt: the line landed whole, or not at all,
   * or only a fragment of it did.
   */
  datatype AppendFault = NoFault | OpenFails | Uncertain(landed: bool) | Torn

  /** A blob's atomic write lands, fails cleanly, or fails leaving a temp file behind. */
  datatype BlobFault = BlobLands | BlobFails | BlobFailsDirty

  datatype PutFaults = PutFaults(blob: BlobFault, append: AppendFault, rollbackFails: bool)

  datatype MergeFaults = MergeFaults(put: PutFaults, attest: AppendFault, quarantine: AppendFault)

  const NO_PUT_FAULTS := PutFaults(BlobLands, NoFault, false)
  const NO_MERGE_FAULTS := MergeFaults(NO_PUT_FAULTS, NoFault, NoFault)

  datatype AppendOutcome = Appended | BeforeWrite(error: Error) | Unsure(error: Error)

  // ---- sizes on disk ----

  function LogSizes(cfg: Config, logs: Logs): map<RealmHash, nat> {
    map rh | rh in logs :: LogBytes(cfg, logs[rh])
  }

  ghost function LogTotal(cfg: Config, logs: Logs): nat {
    Total(LogSizes(cfg, logs))
  }

  function BlobSizes(blobs: map<nat, Bytes>): map<nat, nat> {
    map h | h in blobs :: |blobs[h]|
  }

  ghost function BlobTotal(blobs: map<nat, Bytes>): nat {
    Total(BlobSizes(blobs))
  }

  predicate GrowthOk(current: nat, adding: nat, cap: nat) {
    current + adding <= U64_MAX && WithinCap(current + adding, cap)
  }

  function RetainedCount(c: Content): nat {
    |c.entries| + |c.tombstones|
  }

  function HeadAt(heads: map<RealmHash, Head>, rh: RealmHash): Head {
    if rh in heads then heads[rh] else Head(0, Genesis)
  }

  function LogAt(logs: Logs, rh: RealmHash): seq<LogRecord> {
    if rh in logs then logs[rh] else []
  }

  // ---- append ----

  function NextRecord(cfg: Config, s: State, op: LogOp, fs: nat): LogRecord {
    var head := HeadAt(s.heads, RealmSha(op.realm));
    BuildRecord(cfg, head.nextSeq, head.tip, op, fs)
  }

  /** The sequence number, the line and the aggregate journal all have room for the next record. */
  predicate Fits(cfg: Config, s: State, op: LogOp, fs: nat) {
    var rec := NextRecord(cfg, s, op, fs);
    && rec.seq_ + 1 <= U64_MAX
    && LineBytes(cfg, rec) <= MAX_RECORD_BYTES
    && GrowthOk(s.journalBytes, LineBytes(cfg, rec), cfg.maxLogBytes)
  }

  function Append(cfg: Config, s: State, op: LogOp, fs: nat, fault: AppendFault): (State, AppendOutcome) {
    if !s.healthy then (s, BeforeWrite(Unhealthy))
    else
      var rh := RealmSha(op.realm);
      var rec := NextRecord(cfg, s, op, fs);
      // A missing head is materialised before any check can fail.
      var s1 := s.(heads := s.heads[rh := HeadAt(s.heads, rh)]);
      if !Fits(cfg, s, op, fs) then (s1, BeforeWrite(Limit))
      else
        match fault
        case OpenFails => (s1, BeforeWrite(Io))
        case Uncertain(landed) =>
          var log := LogAt(s.logs, rh) + if landed then [rec] else [];
          (s1.(logs := s.logs[rh := log], healthy := false), Unsure(Io))
        case Torn =>
          (s1.(logs := s.logs[rh := LogAt(s.logs, rh)], torn := s.torn + {rh}, healthy := false), Unsure(Io))
        case NoFault =>
          (s.(logs := s.logs[rh := LogAt(s.logs, rh) + [rec]],
              heads := s.heads[rh := Head(rec.seq_ + 1, RecordSha(rec))],
              journalBytes := s.journalBytes + LineBytes(cfg, rec)),
           Appended)
  }

  function ApplyInMemory(s: State, op: LogOp, fs: nat): State {
    s.(content := Apply(s.content, op, fs), realms := s.realms[RealmSha(op.realm) := op.realm])
  }

  /** Append, then apply: the tail of every signal operation. */
  function Commit(cfg: Config, s: State, op: LogOp, fs: nat, fault: AppendFault): (State, Result<bool>) {
    match Append(cfg, s, op, fs, fault)
    case (s1, Appended) => (ApplyInMemory(s1, op, fs), Ok(true))
    case (s1, BeforeWrite(e)) => (s1, Err(e))
    case (s1, Unsure(e)) => (s1, Err(e))
  }

  // ---- blobs ----

  function ReadBlob(cfg: Config, s: State, h: nat): Result<Bytes> {
    if h !in s.blobs then Err(Corrupt)
    else if !WithinCap(|s.blobs[h]|, cfg.maxArtifactBytes) then Err(Limit)
    else if cfg.sha(s.blobs[h]) != h then Err(Integrity)
    else Ok(s.blobs[h])
  }

  /** What a scan of the blob directory reports, or a limit error. */
  ghost function ScanBlobs(cfg: Config, blobs: map<nat, Bytes>): Result<(nat, nat)> {
    if GrowthOk(0, BlobTotal(blobs), cfg.maxBlobBytes) && WithinCap(|blobs|, cfg.maxEntries)
    then Ok((BlobTotal(blobs), |blobs|))
    else Err(Limit)
  }

  predicate References(c: Content, h: nat) {
    exists k | k in c.entries :: k.hash == Hex(h)
  }

  /** Store an artifact under its digest; `true` when this call created a file nothing needed before. */
  ghost function WriteBlob(cfg: Config, s: State, h: nat, artifact: Bytes, fault: BlobFault)
    : (State, Result<bool>)
  {
    var existing := h in s.blobs;
    if existing && ReadBlob(cfg, s, h).Ok? then (s, Ok(false))
    else
      var repairs := !existing && References(s.content, h);
      var usage := if existing || repairs then ScanBlobs(cfg, s.blobs) else Ok((s.blobBytes, s.blobCount));
      if usage.Err? then (s, Err(usage.error))
      else
        var (bytes, count) := usage.value;
        var oldLen := if existing then |s.blobs[h]| else 0;
        var count' := if existing then count else count + 1;
        if count' > U64_MAX || !WithinCap(count', cfg.maxEntries) then (s, Err(Limit))
        else if bytes < oldLen then (s, Err(Corrupt))
        else if !GrowthOk(bytes - oldLen, |artifact|, cfg.maxBlobBytes) then (s, Err(Limit))
        else
          match fault
          case BlobFails => (s, Err(Io))
          case BlobFailsDirty => (s.(healthy := false), Err(Io))
          case BlobLands =>
            (s.(blobs := s.blobs[h := artifact], blobBytes := bytes - oldLen + |artifact|, blobCount := count'),
             Ok(!existing && !repairs))
  }

  /** Remove a blob this very operation created; a failure latches the store. */
  function RollbackNewBlob(s: State, h: nat, fails: bool, error: Error): (State, Result<nat>) {
    if fails || h !in s.blobs then (s.(healthy := false), Err(Io))
    else
      var s1 := s.(blobs := s.blobs - {h});
      if s.blobBytes < |s.blobs[h]| then (s1.(healthy := false), Err(Corrupt))
      else
        var s2 := s1.(blobBytes := s.blobBytes - |s.blobs[h]|);
        if s.blobCount == 0 then (s2.(healthy := false), Err(Corrupt))
        else (s2.(blobCount := s.blobCount - 1), Err(error))
  }

  // ---- operations ----

  /** The birth order a `put` of this key carries. */
  function PutBirth(s: State, key: Key): nat {
    if key in s.content.entries then s.content.entries[key].firstSeen else s.nextFirstSeen
  }

  /** The tail of `put`, once the blob is on disk: append, then apply or roll back. */
  function PutLogged(cfg: Config, s: State, key: Key, manifest: Manifest, created: bool, f: PutFaults)
    : (State, Result<nat>)
    requires key.hash.Hex?
  {
    var op, fs, h := LogOp.Put(key.realm, key.hash, manifest), PutBirth(s, key), key.hash.value;
    match Append(cfg, s, op, fs, f.append)
    case (s1, BeforeWrite(e)) => if created then RollbackNewBlob(s1, h, f.rollbackFails, e) else (s1, Err(e))
    case (s1, Unsure(e)) => (s1, Err(e))
    case (s1, Appended) =>
      var next := if key in s.content.entries then s.nextFirstSeen else s.nextFirstSeen + 1;
      (ApplyInMemory(s1.(nextFirstSeen := next), op, fs), Ok(h))
  }

  ghost function Put(cfg: Config, s: State, realm: RealmId, manifest: Manifest, artifact: Bytes, f: PutFaults)
    : (State, Result<nat>)
  {
    var h := cfg.sha(artifact);
    var key := Key(realm, Hex(h));
    if !WithinCap(|artifact|, cfg.maxArtifactBytes) then (s, Err(Limit))
    else if !cfg.validManifest(manifest) then (s, Err(Invalid))
    else if !s.healthy then (s, Err(Unhealthy))
    else if key in s.content.tombstones then (s, Ok(h))
    else
      var isNew := key !in s.content.entries;
      if isNew && cfg.maxEntries != 0 && RetainedCount(s.content) >= cfg.maxEntries then (s, Err(Capacity))
      else if isNew && s.nextFirstSeen + 1 > U64_MAX then (s, Err(Limit))
      else
        if !Fits(cfg, s, LogOp.Put(realm, Hex(h), manifest), PutBirth(s, key)) then (s, Err(Limit))
        else
          match WriteBlob(cfg, s, h, artifact, f.blob)
          case (s1, Err(e)) => (s1, Err(e))
          case (s1, Ok(created)) => PutLogged(cfg, s1, key, manifest, created, f)
  }

  function Attest(cfg: Config, s: State, realm: RealmId, hash: HashText, score: ReputationScore, fault: AppendFault)
    : (State, Result<bool>)
  {
    var key := Key(realm, hash);
    if hash.Malformed? || !AttestShapeOk(cfg, realm, score) then (s, Ok(false))
    else if !s.healthy then (s, Err(Unhealthy))
    else if key !in s.content.entries then (s, Ok(false))
    else Commit(cfg, s, LogOp.Attest(realm, hash, score), s.content.entries[key].firstSeen, fault)
  }

  /** Add the peers of an existing marker that the new one lacks; `None` past the peer limit. */
  function MergePeers(merged: seq<string>, existing: seq<string>): Option<seq<string>>
    decreases |existing|
  {
    if existing == [] then Some(merged)
    else if existing[0] in merged then MergePeers(merged, existing[1..])
    else if |merged| >= MAX_ATTESTING_PEERS then None
    else MergePeers(merged + [existing[0]], existing[1..])
  }

  function MergeNotice(notice: QuarantineNotice, existing: Option<QuarantineNotice>): Option<QuarantineNotice> {
    var peers := MergePeers(notice.attestingPeers, if existing.Some? then existing.value.attestingPeers else []);
    if peers.None? then None
    else
      var merged := QuarantineNotice(notice.reason, peers.value);
      if NoticeShapeOk(merged) then Some(merged) else None
  }

  function Quarantine(cfg: Config, s: State, realm: RealmId, hash: HashText, notice: QuarantineNotice, fault: AppendFault)
    : (State, Result<bool>)
  {
    var key := Key(realm, hash);
    if hash.Malformed? then (s, Ok(false))
    else if !MarkShapeOk(cfg, realm, notice) then (s, Err(Limit))
    else if !s.healthy then (s, Err(Unhealthy))
    else if key !in s.content.entries then (s, Ok(false))
    else
      var merged := MergeNotice(notice, s.content.entries[key].quarantine);
      if merged.None? then (s, Err(Limit))
      else Commit(cfg, s, LogOp.Quarantine(realm, hash, merged.value), s.content.entries[key].firstSeen, fault)
  }

  function Unquarantine(cfg: Config, s: State, realm: RealmId, hash: HashText, fault: AppendFault)
    : (State, Result<bool>)
  {
    var key := Key(realm, hash);
    if hash.Malformed? then (s, Ok(false))
    else if !s.healthy then (s, Err(Unhealthy))
    else if key !in s.content.entries || s.content.entries[key].quarantine.None? then (s, Ok(false))
    else Commit(cfg, s, LogOp.Unquarantine(realm, hash), s.content.entries[key].firstSeen, fault)
  }

  function Tombstone(cfg: Config, s: State, realm: RealmId, hash: HashText, fault: AppendFault)
    : (State, Result<bool>)
  {
    var key := Key(realm, hash);
    if hash.Malformed? then (s, Err(Integrity))
    else if !s.healthy then (s, Err(Unhealthy))
    else if key in s.content.tombstones then (s, Ok(false))
    else if cfg.maxEntries != 0 && key !in s.content.entries && RetainedCount(s.content) >= cfg.maxEntries
    then (s, Err(Capacity))
    else Commit(cfg, s, LogOp.Tombstone(realm, hash), 0, fault)
  }

  // ---- reads ----

  function Get(cfg: Config, s: State, realm: RealmId, hash: HashText): Result<Option<(Live, Bytes)>> {
    var key := Key(realm, hash);
    if hash.Malformed? then Ok(None)
    else if !s.healthy then Err(Unhealthy)
    else if key !in s.content.entries then Ok(None)
    else
      match ReadBlob(cfg, s, hash.value)
      case Ok(bytes) => Ok(Some((s.content.entries[key], bytes)))
      case Err(e) => Err(e)
  }

  datatype EntryProof = EntryProof(
    realm: RealmId, hash: HashText, manifestHash: string, firstSeen: nat, attester: string)

  /** The attestation; its deterministic signature is a function of these fields. */
  function Prove(cfg: Config, s: State, realm: RealmId, hash: HashText): Result<Option<EntryProof>> {
    var key := Key(realm, hash);
    if hash.Malformed? then Ok(None)
    else if !s.healthy then Err(Unhealthy)
    else if key !in s.content.entries then Ok(None)
    else
      var live := s.content.entries[key];
      Ok(Some(EntryProof(realm, hash, cfg.contentAddress(live.manifest), live.firstSeen, cfg.pubkey)))
  }

  // ---- push replication ----

  datatype SyncEntry = SyncEntry(
    hash: HashText, realm: RealmId, manifest: Manifest, artifact: Bytes,
    reputation: Option<ReputationScore>, quarantine: Option<QuarantineNotice>)

  datatype SignedSyncEntry = SignedSyncEntry(sync: Option<SyncEntry>, record: LogRecord)

  datatype MergeOutcome = MergeOutcome(membership: bool, reputation: bool, quarantine: bool)

  const UNCHANGED := MergeOutcome(false, false, false)

  /** Content and key integrity of a pushed `Put`. */
  function PushedPutError(cfg: Config, push: SignedSyncEntry): Option<Error>
    requires push.record.op.Put? && push.record.op.hash.Hex?
  {
    var op := push.record.op;
    if push.sync.None? then Some(Corrupt)
    else
      var sync := push.sync.value;
      if !WithinCap(|sync.artifact|, cfg.maxArtifactBytes) then Some(Limit)
      else if cfg.sha(sync.artifact) != op.hash.value || sync.hash != op.hash || sync.realm != op.realm
      then Some(Integrity)
      else if sync.manifest != op.manifest then Some(Integrity)
      else None
  }

  function RowScore(c: Content, k: Key): Option<ReputationScore> {
    if k in c.entries then c.entries[k].reputation else None
  }

  function Marker(c: Content, k: Key): Option<QuarantineNotice> {
    if k in c.entries then c.entries[k].quarantine else None
  }

  /** Against the score the row has, a merge goes on to attest the incoming one. */
  predicate Decides(cfg: Config, k: Key, local: Option<ReputationScore>, incoming: Option<ReputationScore>) {
    && incoming.Some? && cfg.promotionVerifies(incoming.value, k.realm, k.hash)
    && !(local.Some? && cfg.promotionVerifies(local.value, k.realm, k.hash)
         && !Greater(incoming.value.score, local.value.score))
  }

  /** Take a verified score that beats the local verified one. */
  function MergeReputation(
    cfg: Config, s: State, realm: RealmId, hash: HashText, incoming: Option<ReputationScore>, fault: AppendFault)
    : (State, Result<bool>)
  {
    if incoming.None? || !cfg.promotionVerifies(incoming.value, realm, hash) then (s, Ok(false))
    else
      match Get(cfg, s, realm, hash)
      case Err(e) => (s, Err(e))
      case Ok(found) =>
        var local := if found.Some? then found.value.0.reputation else None;
        if !Decides(cfg, Key(realm, hash), local, incoming) then (s, Ok(false))
        else Attest(cfg, s, realm, hash, incoming.value, fault)
  }

  /** Sticky union; a shape or peer-limit refusal drops the signal and keeps the rest. */
  function MergeQuarantine(
    cfg: Config, s: State, realm: RealmId, hash: HashText, incoming: Option<QuarantineNotice>, fault: AppendFault)
    : (State, Result<bool>)
  {
    if incoming.None? then (s, Ok(false))
    else
      match Quarantine(cfg, s, realm, hash, incoming.value, fault)
      case (s1, Err(Limit)) => (s1, Ok(false))
      case other => other
  }

  function MergeSignals(
    cfg: Config, s: State, sync: SyncEntry, membership: bool, f: MergeFaults): (State, Result<MergeOutcome>)
  {
    match MergeReputation(cfg, s, sync.realm, sync.hash, sync.reputation, f.attest)
    case (s1, Err(e)) => (s1, Err(e))
    case (s1, Ok(rep)) =>
      match MergeQuarantine(cfg, s1, sync.realm, sync.hash, sync.quarantine, f.quarantine)
      case (s2, Err(e)) => (s2, Err(e))
      case (s2, Ok(quar)) => (s2, Ok(MergeOutcome(membership, rep, quar)))
  }

  ghost function MergePushedPut(cfg: Config, s: State, sync: SyncEntry, f: MergeFaults)
    : (State, Result<MergeOutcome>)
  {
    match Get(cfg, s, sync.realm, sync.hash)
    case Err(e) => (s, Err(e))
    case Ok(before) =>
      match Put(cfg, s, sync.realm, sync.manifest, sync.artifact, f.put)
      case (s1, Err(Capacity)) => (s1, Ok(UNCHANGED))
      case (s1, Err(e)) => (s1, Err(e))
      case (s1, Ok(_)) =>
        match Get(cfg, s1, sync.realm, sync.hash)
        case Err(e) => (s1, Err(e))
        case Ok(after) => MergeSignals(cfg, s1, sync, before.None? && after.Some?, f)
  }

  ghost function MergePush(cfg: Config, s: State, push: SignedSyncEntry, f: MergeFaults)
    : (State, Result<MergeOutcome>)
  {
    var op := push.record.op;
    if !s.healthy then (s, Err(Unhealthy))
    else if !Verifies(push.record) then (s, Err(BadSignature))
    else if op.hash.Malformed? then (s, Err(Integrity))
    else
      match op
      case Tombstone(realm, hash) =>
        (match Tombstone(cfg, s, realm, hash, f.put.append)
         case (s1, Ok(changed)) => (s1, Ok(MergeOutcome(changed, false, false)))
         case (s1, Err(e)) => (s1, Err(e)))
      case Put(_, _, _) =>
        var bad := PushedPutError(cfg, push);
        if bad.Some? then (s, Err(bad.value)) else MergePushedPut(cfg, s, push.sync.value, f)
      case _ => (s, Err(Corrupt))
  }
}
