/** Push replication: stores that merge the same verified pushes agree, whatever the order or repetition. */
module Replication {
  import opened Basics
  import opened Records
  import opened Catalog
  import opened Chain
  import opened Store
  import opened Invariant
  import opened Operations
  import opened Runs
  import opened Guarantees
  import opened Effects

  // ---- what one push says ----

  /** The push is self-verifying and passes every check that does not depend on the store's state. */
  predicate Accepted(cfg: Config, p: SignedSyncEntry) {
    var op := p.record.op;
    && Verifies(p.record) && op.hash.Hex?
    && (op.Tombstone? || (op.Put? && PushedPutError(cfg, p).None? && cfg.validManifest(op.manifest)))
  }

  predicate Evicts(cfg: Config, p: SignedSyncEntry, k: Key) {
    Accepted(cfg, p) && p.record.op.Tombstone? && KeyOf(p.record.op) == k
  }

  predicate Offers(cfg: Config, p: SignedSyncEntry, k: Key) {
    Accepted(cfg, p) && p.record.op.Put? && KeyOf(p.record.op) == k
  }

  /** The push carries a verified, well-shaped score for the key. */
  predicate Scores(cfg: Config, p: SignedSyncEntry, k: Key) {
    && Offers(cfg, p, k)
    && p.sync.value.reputation.Some?
    && cfg.promotionVerifies(p.sync.value.reputation.value, k.realm, k.hash)
    && AttestShapeOk(cfg, k.realm, p.sync.value.reputation.value)
  }

  /** The push carries a well-shaped quarantine marker for the key. */
  predicate Flags(cfg: Config, p: SignedSyncEntry, k: Key) {
    && Offers(cfg, p, k)
    && p.sync.value.quarantine.Some?
    && MarkShapeOk(cfg, k.realm, p.sync.value.quarantine.value)
  }

  function ScoreOf(cfg: Config, p: SignedSyncEntry, k: Key): F32
    requires Scores(cfg, p, k)
  {
    p.sync.value.reputation.value.score
  }

  function PeersOf(cfg: Config, p: SignedSyncEntry, k: Key): seq<string>
    requires Flags(cfg, p, k)
  {
    p.sync.value.quarantine.value.attestingPeers
  }

  // ---- what a set of pushes says about a key ----

  ghost predicate MembershipReflects(cfg: Config, c: Content, ps: seq<SignedSyncEntry>, k: Key) {
    && (k in c.tombstones <==> exists p | p in ps :: Evicts(cfg, p, k))
    && (k in c.entries <==> (exists p | p in ps :: Offers(cfg, p, k)) && k !in c.tombstones)
  }

  /** The row's score is the greatest verified score pushed, and absent if none was. */
  ghost predicate ScoreReflects(cfg: Config, live: Live, ps: seq<SignedSyncEntry>, k: Key) {
    if live.reputation.None? then forall p | p in ps :: !Scores(cfg, p, k)
    else
      && cfg.promotionVerifies(live.reputation.value, k.realm, k.hash)
      && live.reputation.value.score.Finite?
      && (exists p | p in ps :: Scores(cfg, p, k) && ScoreOf(cfg, p, k) == live.reputation.value.score)
      && (forall p | p in ps && Scores(cfg, p, k) :: !Greater(ScoreOf(cfg, p, k), live.reputation.value.score))
  }

  /** The row is quarantined if any push flagged it, by the union of their peers. */
  ghost predicate PeersReflect(cfg: Config, live: Live, ps: seq<SignedSyncEntry>, k: Key) {
    && (live.quarantine.Some? <==> exists p | p in ps :: Flags(cfg, p, k))
    && (live.quarantine.Some? ==>
          forall name :: name in live.quarantine.value.attestingPeers <==>
            exists p | p in ps :: Flags(cfg, p, k) && name in PeersOf(cfg, p, k))
  }

  ghost predicate ReflectsAt(cfg: Config, c: Content, ps: seq<SignedSyncEntry>, k: Key) {
    && MembershipReflects(cfg, c, ps, k)
    && (k in c.entries ==> ScoreReflects(cfg, c.entries[k], ps, k) && PeersReflect(cfg, c.entries[k], ps, k))
  }

  // ---- effects of the merge, step by step ----

  function MergedScore(cfg: Config, k: Key, local: Option<ReputationScore>, incoming: Option<ReputationScore>)
    : Option<ReputationScore>
  {
    if Decides(cfg, k, local, incoming) && AttestShapeOk(cfg, k.realm, incoming.value)
    then incoming else local
  }

  lemma CommitEffect(cfg: Config, s: State, op: LogOp, fs: nat)
    requires s.healthy
    ensures var (s', r) := Commit(cfg, s, op, fs, NoFault);
            && s'.healthy
            && (r == Ok(true) || (r.Err? && s'.content == s.content))
            && (r.Ok? ==> s'.content == Apply(s.content, op, fs))
  {
  }

  lemma ReputationEffect(cfg: Config, s: State, k: Key, incoming: Option<ReputationScore>)
    requires Inv(cfg, s) && s.healthy && k.hash.Hex?
    ensures var (s', r) := MergeReputation(cfg, s, k.realm, k.hash, incoming, NoFault);
            && Inv(cfg, s') && s'.healthy
            && s'.content.tombstones == s.content.tombstones
            && (k !in s.content.entries ==> s'.content == s.content && r.Ok?)
            && (k in s.content.entries && r.Ok? ==>
                  s'.content.entries == s.content.entries[k := s.content.entries[k].(
                    reputation := MergedScore(cfg, k, s.content.entries[k].reputation, incoming))])
  {
    hide Inv, Commit, Meaning;
    assert k == Key(k.realm, k.hash);
    if k in s.content.entries {
      LiveIsReadable(cfg, s, k);
    }
    if incoming.Some? {
      AttestKeeps(cfg, s, k.realm, k.hash, incoming.value, NoFault);
      var op := LogOp.Attest(k.realm, k.hash, incoming.value);
      if k in s.content.entries {
        CommitEffect(cfg, s, op, s.content.entries[k].firstSeen);
      }
    }
  }

  lemma QuarantineEffect(cfg: Config, s: State, k: Key, incoming: Option<QuarantineNotice>)
    requires Inv(cfg, s) && s.healthy && k.hash.Hex?
    ensures var (s', r) := MergeQuarantine(cfg, s, k.realm, k.hash, incoming, NoFault);
            && Inv(cfg, s') && s'.healthy
            && (r != Ok(true) ==> s'.content == s.content)
            && (r == Ok(true) ==>
                  && k in s.content.entries
                  && incoming.Some? && MarkShapeOk(cfg, k.realm, incoming.value)
                  && MergeNotice(incoming.value, s.content.entries[k].quarantine).Some?
                  && s'.content == s.content.(entries := s.content.entries[k := s.content.entries[k].(
                       quarantine := MergeNotice(incoming.value, s.content.entries[k].quarantine))]))
  {
    hide Inv, Commit, Meaning, MergeNotice;
    assert k == Key(k.realm, k.hash);
    if incoming.Some? {
      QuarantineKeeps(cfg, s, k.realm, k.hash, incoming.value, NoFault);
      if k in s.content.entries {
        var n := MergeNotice(incoming.value, s.content.entries[k].quarantine);
        if n.Some? {
          CommitEffect(cfg, s, LogOp.Quarantine(k.realm, k.hash, n.value), s.content.entries[k].firstSeen);
        }
      }
    }
  }

  // ---- one push keeps the catalog a reflection of all pushes so far ----

  /** The store's state did not stand in the way: no cap was reached by this merge. */
  ghost predicate Unrefused(cfg: Config, s: State, p: SignedSyncEntry) {
    var (s', r) := MergePush(cfg, s, p, NO_MERGE_FAULTS);
    var k := KeyOf(p.record.op);
    Accepted(cfg, p) ==>
      && r.Ok?
      && k in Retained(s'.content)
      && (Flags(cfg, p, k) && k in s'.content.entries ==> r.value.quarantine)
  }

  lemma InExtended(ps: seq<SignedSyncEntry>, p: SignedSyncEntry, q: SignedSyncEntry)
    ensures q in ps + [p] <==> q in ps || q == p
  {
  }

  /** A push that says nothing about a key leaves what is reflected there alone. */
  lemma Unaffected(cfg: Config, c: Content, c': Content, ps: seq<SignedSyncEntry>, p: SignedSyncEntry, k: Key)
    requires ReflectsAt(cfg, c, ps, k)
    requires !Evicts(cfg, p, k) && !Offers(cfg, p, k)
    requires k in c'.tombstones <==> k in c.tombstones
    requires k in c'.entries <==> k in c.entries
    requires k in c.entries ==> c'.entries[k] == c.entries[k]
    ensures ReflectsAt(cfg, c', ps + [p], k)
  {
    hide Accepted, AttestShapeOk, MarkShapeOk;
    forall q ensures q in ps + [p] <==> q in ps || q == p {
      InExtended(ps, p, q);
    }
  }

  /** Once a key is tombstoned, only its tombstone is reflected. */
  lemma TombstonedReflects(cfg: Config, c: Content, c': Content, ps: seq<SignedSyncEntry>, p: SignedSyncEntry, k: Key)
    requires ReflectsAt(cfg, c, ps, k)
    requires k in c.tombstones || Evicts(cfg, p, k)
    requires k in c'.tombstones && k !in c'.entries
    ensures ReflectsAt(cfg, c', ps + [p], k)
  {
    hide Accepted, AttestShapeOk, MarkShapeOk;
    forall q ensures q in ps + [p] <==> q in ps || q == p {
      InExtended(ps, p, q);
    }
  }

  lemma ScoreMerged(cfg: Config, live: Option<Live>, live': Live, ps: seq<SignedSyncEntry>, p: SignedSyncEntry, k: Key)
    requires Offers(cfg, p, k)
    requires live.Some? ==> ScoreReflects(cfg, live.value, ps, k)
    requires live.None? ==> forall q | q in ps :: !Scores(cfg, q, k)
    requires live'.reputation
               == MergedScore(cfg, k, if live.Some? then live.value.reputation else None, p.sync.value.reputation)
    ensures ScoreReflects(cfg, live', ps + [p], k)
  {
    hide Accepted, AttestShapeOk, Offers;
    forall q ensures q in ps + [p] <==> q in ps || q == p {
      InExtended(ps, p, q);
    }
    if Scores(cfg, p, k) {
      ShapedScoreFinite(cfg, p, k);
    }
    if live'.reputation.Some? {
      if live.Some? && live'.reputation == live.value.reputation && live.value.reputation.Some? {
        var q :| q in ps && Scores(cfg, q, k) && ScoreOf(cfg, q, k) == live.value.reputation.value.score;
        assert q in ps + [p];
      } else {
        assert p in ps + [p];
      }
    }
  }

  lemma ShapedScoreFinite(cfg: Config, p: SignedSyncEntry, k: Key)
    requires Scores(cfg, p, k)
    ensures ScoreOf(cfg, p, k).Finite?
  {
  }

  lemma PeersMerged(cfg: Config, live: Option<Live>, live': Live, ps: seq<SignedSyncEntry>, p: SignedSyncEntry, k: Key)
    requires Flags(cfg, p, k)
    requires live.Some? ==> PeersReflect(cfg, live.value, ps, k)
    requires live.None? ==> forall q | q in ps :: !Flags(cfg, q, k)
    requires live'.quarantine.Some?
    requires live'.quarantine == MergeNotice(p.sync.value.quarantine.value, if live.Some? then live.value.quarantine else None)
    ensures PeersReflect(cfg, live', ps + [p], k)
  {
    hide Accepted, MarkShapeOk, Offers;
    var before := if live.Some? then live.value.quarantine else None;
    var existing := if before.Some? then before.value.attestingPeers else [];
    assert p in ps + [p];
    forall q ensures q in ps + [p] <==> q in ps || q == p {
      InExtended(ps, p, q);
    }
    forall name
      ensures name in live'.quarantine.value.attestingPeers <==>
                exists q | q in ps + [p] :: Flags(cfg, q, k) && name in PeersOf(cfg, q, k)
    {
      MergePeersUnion(PeersOf(cfg, p, k), existing, name);
      if name in existing {
        var q :| q in ps && Flags(cfg, q, k) && name in PeersOf(cfg, q, k);
        assert q in ps + [p];
      }
    }
  }

  lemma PeersKept(cfg: Config, live: Option<Live>, live': Live, ps: seq<SignedSyncEntry>, p: SignedSyncEntry, k: Key)
    requires !Flags(cfg, p, k)
    requires live.Some? ==> PeersReflect(cfg, live.value, ps, k)
    requires live.None? ==> forall q | q in ps :: !Flags(cfg, q, k)
    requires live'.quarantine == if live.Some? then live.value.quarantine else None
    ensures PeersReflect(cfg, live', ps + [p], k)
  {
    hide Accepted, MarkShapeOk, Offers, Flags;
    forall q ensures q in ps + [p] <==> q in ps || q == p {
      InExtended(ps, p, q);
    }
    if live'.quarantine.Some? {
      forall name
        ensures name in live'.quarantine.value.attestingPeers <==>
                  exists q | q in ps + [p] :: Flags(cfg, q, k) && name in PeersOf(cfg, q, k)
      {
        if q :| q in ps && Flags(cfg, q, k) && name in PeersOf(cfg, q, k) {
          assert q in ps + [p];
        }
      }
    }
  }

  lemma RejectedPush(cfg: Config, s: State, p: SignedSyncEntry)
    requires !Accepted(cfg, p)
    ensures MergePush(cfg, s, p, NO_MERGE_FAULTS).0 == s
  {
    hide Get, MergeSignals, WriteBlob, PutLogged, RetainedCount, Fits;
  }

  lemma EvictionEffect(cfg: Config, s: State, p: SignedSyncEntry)
    requires Inv(cfg, s) && s.healthy && Accepted(cfg, p) && p.record.op.Tombstone?
    requires MergePush(cfg, s, p, NO_MERGE_FAULTS).1.Ok?
    ensures var s', k := MergePush(cfg, s, p, NO_MERGE_FAULTS).0, KeyOf(p.record.op);
            s'.healthy && s'.content == Content(s.content.entries - {k}, s.content.tombstones + {k})
  {
    hide Meaning, Commit, RetainedCount, DiskInv;
    var op, k := p.record.op, KeyOf(p.record.op);
    MeaningDisjoint(s.logs);
    CommitEffect(cfg, s, op, 0);
    if k in s.content.tombstones {
      assert s.content.entries - {k} == s.content.entries;
      assert s.content.tombstones + {k} == s.content.tombstones;
    }
  }

  lemma SignalsEffect(cfg: Config, s: State, sync: SyncEntry, membership: bool)
    requires Inv(cfg, s) && s.healthy && sync.hash.Hex?
    ensures var (s', r) := MergeSignals(cfg, s, sync, membership, NO_MERGE_FAULTS);
            var k := Key(sync.realm, sync.hash);
            && s'.healthy
            && (k !in s.content.entries ==> s'.content == s.content)
            && (k in s.content.entries && r.Ok? ==>
                  && s'.content.tombstones == s.content.tombstones
                  && s'.content.entries.Keys == s.content.entries.Keys
                  && (forall q | q in s.content.entries && q != k :: s'.content.entries[q] == s.content.entries[q])
                  && s'.content.entries[k].reputation
                       == MergedScore(cfg, k, s.content.entries[k].reputation, sync.reputation)
                  && (!r.value.quarantine ==> s'.content.entries[k].quarantine == s.content.entries[k].quarantine)
                  && (r.value.quarantine ==>
                        && sync.quarantine.Some? && MarkShapeOk(cfg, k.realm, sync.quarantine.value)
                        && s'.content.entries[k].quarantine.Some?
                        && s'.content.entries[k].quarantine
                             == MergeNotice(sync.quarantine.value, s.content.entries[k].quarantine)))
  {
    var k := Key(sync.realm, sync.hash);
    hide Inv, Meaning, MergeReputation, MergeQuarantine, MergeNotice, MergedScore, MarkShapeOk;
    ReputationEffect(cfg, s, k, sync.reputation);
    var (s1, r1) := MergeReputation(cfg, s, k.realm, k.hash, sync.reputation, NoFault);
    QuarantineEffect(cfg, s1, k, sync.quarantine);
  }

  lemma OfferEffect(cfg: Config, s: State, p: SignedSyncEntry)
    requires Inv(cfg, s) && s.healthy && Accepted(cfg, p) && p.record.op.Put?
    requires MergePush(cfg, s, p, NO_MERGE_FAULTS).1.Ok?
    requires KeyOf(p.record.op) in Retained(MergePush(cfg, s, p, NO_MERGE_FAULTS).0.content)
    ensures var (s', r) := MergePush(cfg, s, p, NO_MERGE_FAULTS);
            var k, c, c' := KeyOf(p.record.op), s.content, s'.content;
            && s'.healthy
            && (k in c.tombstones ==> c' == c)
            && (k !in c.tombstones ==>
                  && c'.tombstones == c.tombstones
                  && c'.entries.Keys == c.entries.Keys + {k}
                  && (forall q | q in c.entries && q != k :: c'.entries[q] == c.entries[q])
                  && c'.entries[k].reputation
                       == MergedScore(cfg, k, if k in c.entries then c.entries[k].reputation else None, p.sync.value.reputation)
                  && (!r.value.quarantine ==>
                        c'.entries[k].quarantine == if k in c.entries then c.entries[k].quarantine else None)
                  && (r.value.quarantine ==>
                        && Flags(cfg, p, k) && c'.entries[k].quarantine.Some?
                        && c'.entries[k].quarantine
                             == MergeNotice(p.sync.value.quarantine.value, if k in c.entries then c.entries[k].quarantine else None)))
  {
    var k, sync := KeyOf(p.record.op), p.sync.value;
    hide Meaning, MergePush, Store.Put, Inv, MergeSignals, MergeNotice, MergedScore, MarkShapeOk, Retained;
    var s1, m := OfferSplits(cfg, s, p);
    PutContent(cfg, s, k, sync.manifest, sync.artifact);
    SignalsEffect(cfg, s1, sync, m);
  }

  /** An offer that was not dropped is a put followed by the two signals. */
  lemma OfferSplits(cfg: Config, s: State, p: SignedSyncEntry) returns (s1: State, m: bool)
    requires Inv(cfg, s) && s.healthy && Accepted(cfg, p) && p.record.op.Put?
    requires MergePush(cfg, s, p, NO_MERGE_FAULTS).1.Ok?
    requires KeyOf(p.record.op) in Retained(MergePush(cfg, s, p, NO_MERGE_FAULTS).0.content)
    ensures var sync := p.sync.value;
            && Store.Put(cfg, s, sync.realm, sync.manifest, sync.artifact, NO_PUT_FAULTS).1.Ok?
            && s1 == Store.Put(cfg, s, sync.realm, sync.manifest, sync.artifact, NO_PUT_FAULTS).0
            && MergePush(cfg, s, p, NO_MERGE_FAULTS) == MergeSignals(cfg, s1, sync, m, NO_MERGE_FAULTS)
            && KeyOf(p.record.op) == Key(sync.realm, Hex(cfg.sha(sync.artifact)))
            && sync.hash == Hex(cfg.sha(sync.artifact))
  {
    var sync := p.sync.value;
    hide Meaning, Store.Put, Inv, MergeSignals, Get;
    var (s', r) := Store.Put(cfg, s, sync.realm, sync.manifest, sync.artifact, NO_PUT_FAULTS);
    s1 := s';
    if r.Err? {
      RefusedPutChangesNothing(cfg, s, sync.realm, sync.manifest, sync.artifact);
      CapacityMeansNew(cfg, s, sync.realm, sync.manifest, sync.artifact);
    }
    m := Get(cfg, s, sync.realm, sync.hash).value.None? && Get(cfg, s1, sync.realm, sync.hash).value.Some?;
  }

  lemma CapacityMeansNew(cfg: Config, s: State, realm: RealmId, manifest: Manifest, artifact: Bytes)
    requires s.healthy
    ensures Store.Put(cfg, s, realm, manifest, artifact, NO_PUT_FAULTS).1 == Err(Capacity) ==>
              Key(realm, Hex(cfg.sha(artifact))) !in Retained(s.content)
  {
  }

  /** `PutEffect` in terms of memory. */
  lemma PutContent(cfg: Config, s: State, k: Key, manifest: Manifest, artifact: Bytes)
    requires Inv(cfg, s) && s.healthy && k.hash == Hex(cfg.sha(artifact))
    requires Store.Put(cfg, s, k.realm, manifest, artifact, NO_PUT_FAULTS).1.Ok?
    ensures var s' := Store.Put(cfg, s, k.realm, manifest, artifact, NO_PUT_FAULTS).0;
            var c, c' := s.content, s'.content;
            && Inv(cfg, s') && s'.healthy
            && c'.tombstones == c.tombstones
            && (k in c.tombstones ==> c' == c && k !in c.entries)
            && (k !in c.tombstones ==>
                  && c'.entries.Keys == c.entries.Keys + {k}
                  && (forall q | q in c.entries && q != k :: c'.entries[q] == c.entries[q])
                  && c'.entries[k] == (if k in c.entries then c.entries[k].(manifest := manifest)
                                       else Live(manifest, None, None, s.nextFirstSeen)))
  {
    hide Meaning, Store.Put, DiskInv, HeadsOk, RealmsOk, BirthsBelow, LogTotal, BlobTotal;
    MeaningDisjoint(s.logs);
    PutKeeps(cfg, s, k.realm, manifest, artifact, NO_PUT_FAULTS);
    PutEffect(cfg, s, k.realm, manifest, artifact, NO_PUT_FAULTS);
    assert k == Key(k.realm, Hex(cfg.sha(artifact)));
  }

  // ---- convergence ----

  ghost predicate Reflects(cfg: Config, c: Content, ps: seq<SignedSyncEntry>) {
    forall k :: ReflectsAt(cfg, c, ps, k)
  }

  lemma OfferReflects(cfg: Config, s: State, ps: seq<SignedSyncEntry>, p: SignedSyncEntry, k: Key)
    requires Inv(cfg, s) && s.healthy && Accepted(cfg, p) && p.record.op.Put? && Unrefused(cfg, s, p)
    requires ReflectsAt(cfg, s.content, ps, k)
    ensures ReflectsAt(cfg, MergePush(cfg, s, p, NO_MERGE_FAULTS).0.content, ps + [p], k)
  {
    var (s', r) := MergePush(cfg, s, p, NO_MERGE_FAULTS);
    hide MergePush, Inv, Meaning, MergeNotice, MergedScore;
    var k0 := KeyOf(p.record.op);
    OfferEffect(cfg, s, p);
    if k0 in s.content.tombstones {
      assert k == k0 ==> k !in s.content.entries by { InvDisjoint(cfg, s); }
      if k == k0 {
        TombstonedReflects(cfg, s.content, s'.content, ps, p, k);
      } else {
        Unaffected(cfg, s.content, s'.content, ps, p, k);
      }
    } else if k != k0 {
      Unaffected(cfg, s.content, s'.content, ps, p, k);
    } else {
      OfferReflectsHere(cfg, s.content, s'.content, ps, p, k, r.value.quarantine);
    }
  }

  lemma OfferReflectsHere(
    cfg: Config, c: Content, c': Content, ps: seq<SignedSyncEntry>, p: SignedSyncEntry, k: Key, flagged: bool)
    requires Offers(cfg, p, k) && k !in c.tombstones && ReflectsAt(cfg, c, ps, k)
    requires c'.tombstones == c.tombstones && k in c'.entries
    requires c'.entries[k].reputation
               == MergedScore(cfg, k, if k in c.entries then c.entries[k].reputation else None, p.sync.value.reputation)
    requires Flags(cfg, p, k) <==> flagged
    requires !flagged ==> c'.entries[k].quarantine == if k in c.entries then c.entries[k].quarantine else None
    requires flagged ==>
               && c'.entries[k].quarantine.Some?
               && c'.entries[k].quarantine
                    == MergeNotice(p.sync.value.quarantine.value, if k in c.entries then c.entries[k].quarantine else None)
    ensures ReflectsAt(cfg, c', ps + [p], k)
  {
    hide Accepted, MergedScore, MergeNotice, ScoreReflects, PeersReflect, MarkShapeOk, AttestShapeOk;
    var live := if k in c.entries then Some(c.entries[k]) else None;
    forall q ensures q in ps + [p] <==> q in ps || q == p {
      InExtended(ps, p, q);
    }
    if k !in c.entries {
      assert forall q | q in ps :: !Offers(cfg, q, k);
    }
    ScoreMerged(cfg, live, c'.entries[k], ps, p, k);
    if flagged {
      PeersMerged(cfg, live, c'.entries[k], ps, p, k);
    } else {
      PeersKept(cfg, live, c'.entries[k], ps, p, k);
    }
    assert p in ps + [p];
  }

  /** One merge that no cap refused turns a reflection of the pushes so far into one of all of them. */
  lemma MergeReflects(cfg: Config, s: State, ps: seq<SignedSyncEntry>, p: SignedSyncEntry)
    requires Inv(cfg, s) && s.healthy && Unrefused(cfg, s, p) && Reflects(cfg, s.content, ps)
    ensures var s' := MergePush(cfg, s, p, NO_MERGE_FAULTS).0;
            Inv(cfg, s') && s'.healthy && Reflects(cfg, s'.content, ps + [p])
  {
    var s' := MergePush(cfg, s, p, NO_MERGE_FAULTS).0;
    hide MergePush, Inv, Meaning, ReflectsAt;
    MergePushKeeps(cfg, s, p, NO_MERGE_FAULTS);
    if !Accepted(cfg, p) {
      RejectedPush(cfg, s, p);
    } else if p.record.op.Tombstone? {
      EvictionEffect(cfg, s, p);
    } else {
      OfferEffect(cfg, s, p);
    }
    forall k ensures ReflectsAt(cfg, s'.content, ps + [p], k) {
      assert ReflectsAt(cfg, s.content, ps, k);
      if !Accepted(cfg, p) || (p.record.op.Tombstone? && k != KeyOf(p.record.op)) {
        Unaffected(cfg, s.content, s'.content, ps, p, k);
      } else if p.record.op.Tombstone? {
        TombstonedReflects(cfg, s.content, s'.content, ps, p, k);
      } else {
        OfferReflects(cfg, s, ps, p, k);
      }
    }
  }

  ghost function MergeAll(cfg: Config, ps: seq<SignedSyncEntry>): State {
    if ps == [] then EMPTY
    else MergePush(cfg, MergeAll(cfg, ps[..|ps| - 1]), ps[|ps| - 1], NO_MERGE_FAULTS).0
  }

  /** Merging `ps` into an empty store, no cap is ever reached. */
  ghost predicate Smooth(cfg: Config, ps: seq<SignedSyncEntry>) {
    forall i | 0 <= i < |ps| :: Unrefused(cfg, MergeAll(cfg, ps[..i]), ps[i])
  }

  lemma {:induction false} MergeAllReflects(cfg: Config, ps: seq<SignedSyncEntry>)
    requires Smooth(cfg, ps)
    ensures var s := MergeAll(cfg, ps);
            Inv(cfg, s) && s.healthy && Reflects(cfg, s.content, ps)
  {
    hide MergePush, Inv, Meaning, Unrefused;
    if ps == [] {
      EmptyInv(cfg);
    } else {
      var front, p := ps[..|ps| - 1], ps[|ps| - 1];
      assert forall i | 0 <= i < |front| :: front[..i] == ps[..i];
      assert Smooth(cfg, front);
      MergeAllReflects(cfg, front);
      MergeReflects(cfg, MergeAll(cfg, front), front, p);
      assert front + [p] == ps;
    }
  }

  /** What two replicas must agree on: live keys, tombstones, best verified scores and quarantine peers. */
  ghost predicate Agree(a: Content, b: Content) {
    && a.tombstones == b.tombstones
    && a.entries.Keys == b.entries.Keys
    && forall k | k in a.entries :: AgreeOn(a.entries[k], b.entries[k])
  }

  ghost predicate AgreeOn(a: Live, b: Live) {
    && (a.reputation.Some? <==> b.reputation.Some?)
    && (a.reputation.Some? ==> a.reputation.value.score == b.reputation.value.score)
    && (a.quarantine.Some? <==> b.quarantine.Some?)
    && (a.quarantine.Some? ==>
          forall name :: name in a.quarantine.value.attestingPeers <==> name in b.quarantine.value.attestingPeers)
  }

  /** Two stores under the same rules; they may differ in key, caps and record encoding. */
  ghost predicate SameRules(a: Config, b: Config) {
    && a.maxArtifactBytes == b.maxArtifactBytes
    && a.sha == b.sha
    && a.validManifest == b.validManifest
    && a.validRealm == b.validRealm
    && a.promotionVerifies == b.promotionVerifies
  }

  lemma SameRulesSameFacts(a: Config, b: Config, p: SignedSyncEntry, k: Key)
    requires SameRules(a, b)
    ensures Evicts(a, p, k) <==> Evicts(b, p, k)
    ensures Offers(a, p, k) <==> Offers(b, p, k)
    ensures Scores(a, p, k) <==> Scores(b, p, k)
    ensures Flags(a, p, k) <==> Flags(b, p, k)
  {
  }

  lemma KeyAgrees(
    cfgA: Config, cfgB: Config, a: Content, b: Content, ps: seq<SignedSyncEntry>, qs: seq<SignedSyncEntry>, k: Key)
    requires SameRules(cfgA, cfgB)
    requires ReflectsAt(cfgA, a, ps, k) && ReflectsAt(cfgB, b, qs, k)
    requires forall p :: p in ps <==> p in qs
    ensures k in a.tombstones <==> k in b.tombstones
    ensures k in a.entries <==> k in b.entries
    ensures k in a.entries ==> AgreeOn(a.entries[k], b.entries[k])
  {
    forall p
      ensures Evicts(cfgA, p, k) <==> Evicts(cfgB, p, k)
      ensures Offers(cfgA, p, k) <==> Offers(cfgB, p, k)
      ensures Scores(cfgA, p, k) <==> Scores(cfgB, p, k)
      ensures Flags(cfgA, p, k) <==> Flags(cfgB, p, k)
    {
      SameRulesSameFacts(cfgA, cfgB, p, k);
    }
    hide Evicts, Offers, Scores, Flags;
    assert k in a.tombstones <==> k in b.tombstones;
    assert k in a.entries <==> k in b.entries;
    if k in a.entries {
      var x, y := a.entries[k], b.entries[k];
      assert ScoreReflects(cfgA, x, ps, k) && ScoreReflects(cfgB, y, qs, k);
      if x.reputation.Some? {
        var p :| p in ps && Scores(cfgA, p, k) && ScoreOf(cfgA, p, k) == x.reputation.value.score;
        assert p in qs && Scores(cfgB, p, k);
      }
      if y.reputation.Some? {
        var q :| q in qs && Scores(cfgB, q, k) && ScoreOf(cfgB, q, k) == y.reputation.value.score;
        assert q in ps && Scores(cfgA, q, k);
      }
    }
  }

  /**
   * Push replication converges: two empty stores that merge the same set of pushes, in any orders and
   * with any repetitions, and never reach a cap, agree on live keys, tombstones, the greatest verified
   * score of each live key and the set of peers quarantining it.
   */
  lemma ReplicasConverge(cfgA: Config, cfgB: Config, ps: seq<SignedSyncEntry>, qs: seq<SignedSyncEntry>)
    requires SameRules(cfgA, cfgB)
    requires Smooth(cfgA, ps) && Smooth(cfgB, qs)
    requires forall p :: p in ps <==> p in qs
    ensures Agree(MergeAll(cfgA, ps).content, MergeAll(cfgB, qs).content)
  {
    hide MergeAll, Smooth, Inv, ReflectsAt, AgreeOn, SameRules;
    MergeAllReflects(cfgA, ps);
    MergeAllReflects(cfgB, qs);
    var a, b := MergeAll(cfgA, ps).content, MergeAll(cfgB, qs).content;
    forall k
      ensures k in a.tombstones <==> k in b.tombstones
      ensures k in a.entries <==> k in b.entries
      ensures k in a.entries && k in b.entries ==> AgreeOn(a.entries[k], b.entries[k])
    {
      assert ReflectsAt(cfgA, a, ps, k) && ReflectsAt(cfgB, b, qs, k);
      KeyAgrees(cfgA, cfgB, a, b, ps, qs, k);
    }
  }
}
