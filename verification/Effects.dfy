/**
 * What a successful signal or eviction does to the durable catalog, that is, to what replaying the
 * logs would rebuild; and that on a disk that does not fail a refusal leaves every log as it was.
 */
module Effects {
  import opened Basics
  import opened Records
  import opened Catalog
  import opened Chain
  import opened Store
  import opened Invariant
  import opened Operations

  /** The catalog with the row of `key` replaced. */
  function WithRow(c: Content, key: Key, live: Live): Content {
    c.(entries := c.entries[key := live])
  }

  /** An attestation: an accepted score is the only change; otherwise there was no live row or no valid score. */
  ghost predicate Attested(
    cfg: Config, c: Content, c': Content, key: Key, score: ReputationScore, r: Result<bool>, faultFree: bool)
  {
    && (r == Ok(true) ==> key in c.entries && c' == WithRow(c, key, c.entries[key].(reputation := Some(score))))
    && (r == Ok(false) ==> c' == c && (key !in c.entries || !AttestShapeOk(cfg, key.realm, score)))
    && (r.Err? && faultFree ==> c' == c)
  }

  /** Lifting a quarantine: exactly the marker goes, if there was one. */
  ghost predicate Cleared(c: Content, c': Content, key: Key, r: Result<bool>, faultFree: bool) {
    && (r == Ok(true) ==>
          && key in c.entries && c.entries[key].quarantine.Some?
          && c' == WithRow(c, key, c.entries[key].(quarantine := None)))
    && (r == Ok(false) ==> c' == c && (key !in c.entries || c.entries[key].quarantine.None?))
    && (r.Err? && faultFree ==> c' == c)
  }

  /** An eviction: exactly the key moves to the tombstones, unless it was there. */
  ghost predicate Evicted(c: Content, c': Content, key: Key, r: Result<bool>, faultFree: bool) {
    && (r == Ok(true) ==> key !in c.tombstones && c' == Content(c.entries - {key}, c.tombstones + {key}))
    && (r == Ok(false) ==> c' == c && key in c.tombstones)
    && (r.Err? && faultFree ==> c' == c)
  }

  /** The marker left by `notice` over an earlier one: the new reason, and the peers of both. */
  ghost predicate MarkedBy(marker: QuarantineNotice, notice: QuarantineNotice, earlier: Option<QuarantineNotice>) {
    && marker.reason == notice.reason
    && forall name :: name in marker.attestingPeers <==>
         name in notice.attestingPeers || (earlier.Some? && name in earlier.value.attestingPeers)
  }

  /** A quarantine: only the marker of a live row changes. */
  ghost predicate Quarantined(c: Content, c': Content, key: Key, notice: QuarantineNotice, r: Result<bool>, faultFree: bool) {
    && (r == Ok(true) ==>
          && key in c.entries && key in c'.entries && c'.entries[key].quarantine.Some?
          && c' == WithRow(c, key, c.entries[key].(quarantine := c'.entries[key].quarantine))
          && MarkedBy(c'.entries[key].quarantine.value, notice, c.entries[key].quarantine))
    && (r == Ok(false) ==> c' == c && key !in c.entries)
    && (r.Err? && faultFree ==> c' == c)
  }

  lemma CommitReply(cfg: Config, s: State, op: LogOp, fs: nat, fault: AppendFault)
    requires s.healthy
    ensures var (s', r) := Commit(cfg, s, op, fs, fault);
            && (r.Ok? ==> r.value && s'.healthy && s'.content == Apply(s.content, op, fs))
            && (r.Err? && fault == NoFault ==> s' == s'.(logs := s.logs, content := s.content))
  {
    hide Apply, Fits;
  }

  lemma HealthyContent(cfg: Config, s: State)
    requires Inv(cfg, s) && s.healthy
    ensures s.content == Meaning(s.logs)
  {
  }

  /** A row is live only under a well-formed hash. */
  lemma LiveKeysAreHex(cfg: Config, s: State, k: Key)
    requires Inv(cfg, s)
    ensures k in Meaning(s.logs).entries || k in Meaning(s.logs).tombstones ==> k.hash.Hex?
  {
    hide Meaning, LogTotal, BlobTotal, MemInv, CapsOk, BlobsOk;
    if k in Retained(Meaning(s.logs)) {
      LiveIsHex(cfg, s.logs, k);
    }
  }

  lemma AttestIsDurable(cfg: Config, s: State, realm: RealmId, hash: HashText, score: ReputationScore, fault: AppendFault)
    requires Inv(cfg, s)
    ensures var (s', r) := Store.Attest(cfg, s, realm, hash, score, fault);
            && Attested(cfg, Meaning(s.logs), Meaning(s'.logs), Key(realm, hash), score, r, fault == NoFault)
            && (r == Ok(false) ==> s' == s)
  {
    hide Inv, Meaning, Commit;
    var key := Key(realm, hash);
    AttestKeeps(cfg, s, realm, hash, score, fault);
    LiveKeysAreHex(cfg, s, key);
    if s.healthy {
      HealthyContent(cfg, s);
      if key in s.content.entries {
        CommitReply(cfg, s, LogOp.Attest(realm, hash, score), s.content.entries[key].firstSeen, fault);
      }
      var s' := Store.Attest(cfg, s, realm, hash, score, fault).0;
      if s'.healthy {
        HealthyContent(cfg, s');
      }
    }
  }

  lemma UnquarantineIsDurable(cfg: Config, s: State, realm: RealmId, hash: HashText, fault: AppendFault)
    requires Inv(cfg, s)
    ensures var (s', r) := Store.Unquarantine(cfg, s, realm, hash, fault);
            && Cleared(Meaning(s.logs), Meaning(s'.logs), Key(realm, hash), r, fault == NoFault)
            && (r == Ok(false) ==> s' == s)
  {
    hide Inv, Meaning, Commit;
    var key := Key(realm, hash);
    UnquarantineKeeps(cfg, s, realm, hash, fault);
    LiveKeysAreHex(cfg, s, key);
    if s.healthy {
      HealthyContent(cfg, s);
      if key in s.content.entries {
        CommitReply(cfg, s, LogOp.Unquarantine(realm, hash), s.content.entries[key].firstSeen, fault);
      }
      var s' := Store.Unquarantine(cfg, s, realm, hash, fault).0;
      if s'.healthy {
        HealthyContent(cfg, s');
      }
    }
  }

  lemma TombstoneIsDurable(cfg: Config, s: State, realm: RealmId, hash: HashText, fault: AppendFault)
    requires Inv(cfg, s)
    ensures var (s', r) := Store.Tombstone(cfg, s, realm, hash, fault);
            && Evicted(Meaning(s.logs), Meaning(s'.logs), Key(realm, hash), r, fault == NoFault)
            && (r == Ok(false) ==> s' == s)
  {
    hide Inv, Meaning, Commit, RetainedCount;
    TombstoneKeeps(cfg, s, realm, hash, fault);
    if s.healthy {
      HealthyContent(cfg, s);
      CommitReply(cfg, s, LogOp.Tombstone(realm, hash), 0, fault);
      var s' := Store.Tombstone(cfg, s, realm, hash, fault).0;
      if s'.healthy {
        HealthyContent(cfg, s');
      }
    }
  }

  /** Merging peers keeps every name of both lists and invents none. */
  lemma {:induction false} MergePeersUnion(merged: seq<string>, existing: seq<string>, name: string)
    requires MergePeers(merged, existing).Some?
    ensures name in MergePeers(merged, existing).value <==> name in merged || name in existing
    decreases |existing|
  {
    if existing != [] {
      if existing[0] in merged {
        MergePeersUnion(merged, existing[1..], name);
      } else {
        MergePeersUnion(merged + [existing[0]], existing[1..], name);
      }
    }
  }

  /** A new notice replaces the reason and only ever adds peers. */
  lemma QuarantineIsDurable(
    cfg: Config, s: State, realm: RealmId, hash: HashText, notice: QuarantineNotice, fault: AppendFault)
    requires Inv(cfg, s)
    ensures var (s', r) := Store.Quarantine(cfg, s, realm, hash, notice, fault);
            && Quarantined(Meaning(s.logs), Meaning(s'.logs), Key(realm, hash), notice, r, fault == NoFault)
            && (r == Ok(false) ==> s' == s)
  {
    hide Inv, Meaning, Commit, MergeNotice, MarkedBy;
    var key := Key(realm, hash);
    QuarantineKeeps(cfg, s, realm, hash, notice, fault);
    LiveKeysAreHex(cfg, s, key);
    if s.healthy {
      HealthyContent(cfg, s);
      if key in s.content.entries {
        var merged := MergeNotice(notice, s.content.entries[key].quarantine);
        if merged.Some? {
          CommitReply(cfg, s, LogOp.Quarantine(realm, hash, merged.value), s.content.entries[key].firstSeen, fault);
          MergedMarks(notice, s.content.entries[key].quarantine);
        }
      }
      var s' := Store.Quarantine(cfg, s, realm, hash, notice, fault).0;
      if s'.healthy {
        HealthyContent(cfg, s');
      }
    }
  }

  lemma MergedMarks(notice: QuarantineNotice, earlier: Option<QuarantineNotice>)
    requires MergeNotice(notice, earlier).Some?
    ensures MarkedBy(MergeNotice(notice, earlier).value, notice, earlier)
  {
    forall name
      ensures name in MergeNotice(notice, earlier).value.attestingPeers <==>
                name in notice.attestingPeers || (earlier.Some? && name in earlier.value.attestingPeers)
    {
      MergePeersUnion(notice.attestingPeers, if earlier.Some? then earlier.value.attestingPeers else [], name);
    }
  }
}
