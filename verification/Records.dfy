/** The Bestiary's entities: keys, signals, catalog rows, log records, and the store's settings. */
module Records {
  import opened Basics

  datatype RealmId = RealmId(name: string)

  /**
   * `sha256(realm)`, the stem of a Realm's log file. The digest is symbolic: it is the constructor
   * applied to what was hashed, so distinct Realms have distinct stems.
   */
  datatype RealmHash = RealmSha(realm: RealmId)

  /** An artifact key as callers and peers write it: 64 lowercase hex digits, or anything else. */
  datatype HashText = Hex(value: nat) | Malformed(text: string)

  datatype Key = Key(realm: RealmId, hash: HashText)

  /** A manifest is its canonical text; `Config.validManifest` says whether it validates. */
  type Manifest = string

  datatype F32 = Finite(value: real) | Infinite(negative: bool) | NaN

  /** IEEE `>`. */
  predicate Greater(a: F32, b: F32) {
    match (a, b)
    case (NaN, _) => false
    case (_, NaN) => false
    case (Finite(x), Finite(y)) => x > y
    case (Infinite(n), Finite(_)) => !n
    case (Finite(_), Infinite(n)) => n
    case (Infinite(m), Infinite(n)) => !m && n
  }

  datatype ReputationScore = ReputationScore(
    score: F32, attestingRealm: Option<RealmId>, signedBy: Option<string>, signature: Option<string>)

  datatype QuarantineNotice = QuarantineNotice(reason: string, attestingPeers: seq<string>)

  datatype LogOp =
    | Put(realm: RealmId, hash: HashText, manifest: Manifest)
    | Attest(realm: RealmId, hash: HashText, score: ReputationScore)
    | Quarantine(realm: RealmId, hash: HashText, notice: QuarantineNotice)
    | Unquarantine(realm: RealmId, hash: HashText)
    | Tombstone(realm: RealmId, hash: HashText)

  function KeyOf(op: LogOp): Key {
    Key(op.realm, op.hash)
  }

  /** The `prev_hash` of a record: the format's genesis anchor, or the digest of the prior record. */
  datatype Link = Genesis | RecordSha(record: LogRecord)

  /** What a signature commits to: the record with its signature cleared. */
  datatype Payload = Payload(seq_: nat, prev: Link, op: LogOp, author: string, firstSeen: nat)

  /** A deterministic signature (section 5.1.6 of RFC 8032), or text that no key produced. */
  datatype Signature = Signed(signer: string, payload: Payload) | Forged(text: string)

  datatype LogRecord = LogRecord(
    seq_: nat, prev: Link, op: LogOp, author: string, firstSeen: nat, signature: Signature)

  function SigningPayload(rec: LogRecord): Payload {
    Payload(rec.seq_, rec.prev, rec.op, rec.author, rec.firstSeen)
  }

  predicate Verifies(rec: LogRecord) {
    rec.signature == Signed(rec.author, SigningPayload(rec))
  }

  datatype Live = Live(
    manifest: Manifest,
    reputation: Option<ReputationScore>,
    quarantine: Option<QuarantineNotice>,
    firstSeen: nat)

  /** A Realm chain's tip: the next sequence number and the digest of the last record. */
  datatype Head = Head(nextSeq: nat, tip: Link)

  /**
   * The store's identity and limits, with the functions defined outside the modelled files: the
   * artifact digest, the encoded size of a record without its `seq` and `prev_hash` text, manifest
   * and Realm validity, promotion signatures, and the manifest's content address.
   */
  datatype Config = Config(
    pubkey: string,
    maxEntries: nat,
    maxLogBytes: nat,
    maxBlobBytes: nat,
    maxArtifactBytes: nat,
    sha: Bytes -> nat,
    base: (LogOp, nat) -> nat,
    validManifest: Manifest -> bool,
    validRealm: RealmId -> bool,
    promotionVerifies: (ReputationScore, RealmId, HashText) -> bool,
    contentAddress: Manifest -> string)

  const MAX_RECORD_BYTES: nat := 4 * 1024 * 1024

  function LinkBytes(link: Link): nat {
    if link.Genesis? then |"BSTY:genesis:v1"| else 64
  }

  /** The length of a record's JSON line, newline included. */
  function LineBytes(cfg: Config, rec: LogRecord): nat {
    cfg.base(rec.op, rec.firstSeen) + DecimalWidth(rec.seq_) + LinkBytes(rec.prev)
  }

  function LogBytes(cfg: Config, log: seq<LogRecord>): nat {
    if log == [] then 0 else LogBytes(cfg, log[..|log| - 1]) + LineBytes(cfg, log[|log| - 1])
  }

  /** JSON has no non-finite numbers: such a score is written as `null` and cannot be read back. */
  predicate Parses(op: LogOp) {
    op.Attest? ==> op.score.score.Finite?
  }

  function BuildRecord(cfg: Config, seq_: nat, prev: Link, op: LogOp, firstSeen: nat): (rec: LogRecord)
    ensures Verifies(rec) && rec.author == cfg.pubkey
  {
    LogRecord(seq_, prev, op, cfg.pubkey, firstSeen,
              Signed(cfg.pubkey, Payload(seq_, prev, op, cfg.pubkey, firstSeen)))
  }

  // ---- shape checks on signals (wire.rs) ----

  const MAX_SIGNAL_FIELD_BYTES: nat := 512
  const MAX_REASON_BYTES: nat := 1024
  const MAX_ATTESTING_PEERS: nat := 64
  const MAX_PEER_BYTES: nat := 256

  predicate FieldOk(text: string, cap: nat) {
    Utf8Bytes(text) <= cap && '\0' !in text
  }

  predicate RealmFieldOk(cfg: Config, realm: RealmId) {
    cfg.validRealm(realm) && FieldOk(realm.name, MAX_SIGNAL_FIELD_BYTES)
  }

  predicate SignedFieldOk(text: string) {
    text != "" && FieldOk(text, MAX_SIGNAL_FIELD_BYTES)
  }

  predicate AttestShapeOk(cfg: Config, realm: RealmId, score: ReputationScore) {
    && RealmFieldOk(cfg, realm)
    && score.score.Finite?
    && (score.attestingRealm.Some? ==> RealmFieldOk(cfg, score.attestingRealm.value))
    && match (score.signedBy, score.signature)
       case (None, None) => true
       case (Some(key), Some(sig)) => SignedFieldOk(key) && SignedFieldOk(sig)
       case _ => false
  }

  predicate NoticeShapeOk(notice: QuarantineNotice) {
    && FieldOk(notice.reason, MAX_REASON_BYTES)
    && |notice.attestingPeers| <= MAX_ATTESTING_PEERS
    && forall p | p in notice.attestingPeers :: FieldOk(p, MAX_PEER_BYTES)
  }

  predicate MarkShapeOk(cfg: Config, realm: RealmId, notice: QuarantineNotice) {
    RealmFieldOk(cfg, realm) && NoticeShapeOk(notice)
  }
}
