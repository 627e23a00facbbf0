/**
 * Where replication stops converging, with the exact conditions and failing inputs: merges that overlap,
 * since the store's lock is released between reading a score and writing one; and peer lists of markers
 * without room for each other.
 */
module Overlap {
  import opened Basics
  import opened Records
  import opened Catalog
  import opened Chain
  import opened Store
  import opened Invariant
  import opened Operations
  import opened Guarantees
  import opened Effects
  import opened Replication
  import opened Merges
  import opened Peers
  import opened Ample
  import opened Runs
  import Findings

  // ---- overlapping merges ----

  /** The score step of a merge that read the row in `seen` and writes in `s`. */
  function LateScore(cfg: Config, seen: State, s: State, k: Key, incoming: Option<ReputationScore>): (State, Result<bool>) {
    if Decides(cfg, k, RowScore(seen.content, k), incoming) then Store.Attest(cfg, s, k.realm, k.hash, incoming.value, NoFault)
    else (s, Ok(false))
  }

  /** That is what the two calls do: the one that reads, made on `seen`, and the one that writes, made on `s`. */
  lemma LateScoreIsTwoCalls(cfg: Config, seen: State, s: State, sync: SyncEntry, f: MergeFaults, membership: bool)
    requires Inv(cfg, seen) && seen.healthy && sync.hash.Hex? && f.attest == NoFault
    ensures var m := Advanced(cfg, seen, Reading(sync, f, membership)).1;
            var late := LateScore(cfg, seen, s, Key(sync.realm, sync.hash), sync.reputation);
            && (m.Scoring? || m == Marking(sync, f, membership, false))
            && (m.Scoring? ==> late.0 == Advanced(cfg, s, m).0)
            && (!m.Scoring? ==> late == (s, Ok(false)))
  {
    hide Inv, ReadBlob, Store.Attest;
    if Key(sync.realm, sync.hash) in seen.content.entries {
      LiveIsReadable(cfg, seen, Key(sync.realm, sync.hash));
    }
  }

  /**
   * The exact condition: a late write is what an uninterrupted one would be if and only if the score it
   * read and the score that is there lead to the same decision (or nothing can be written at all).
   */
  lemma LateIsFreshIff(cfg: Config, seen: State, s: State, k: Key, incoming: Option<ReputationScore>)
    requires Inv(cfg, s) && s.healthy && k.hash.Hex?
    ensures LateScore(cfg, seen, s, k, incoming) == MergeReputation(cfg, s, k.realm, k.hash, incoming, NoFault) <==>
              || (Decides(cfg, k, RowScore(seen.content, k), incoming) <==> Decides(cfg, k, RowScore(s.content, k), incoming))
              || !AttestShapeOk(cfg, k.realm, incoming.value)
              || k !in s.content.entries
  {
    hide Inv, ReadBlob, Commit, AttestShapeOk;
    assert k == Key(k.realm, k.hash);
    if k in s.content.entries {
      LiveIsReadable(cfg, s, k);
      if incoming.Some? {
        CommitReply(cfg, s, LogOp.Attest(k.realm, k.hash, incoming.value), s.content.entries[k].firstSeen, NoFault);
      }
    }
  }

  /** With room for its record, a well-shaped score of a live row is written. */
  lemma AttestSets(cfg: Config, s: State, k: Key, score: ReputationScore, line: nat, m: nat)
    requires Inv(cfg, s) && s.healthy && k in s.content.entries && k.hash.Hex? && AttestShapeOk(cfg, k.realm, score)
    requires Slots(cfg, s, line, m + 1) && Short(cfg, LogOp.Attest(k.realm, k.hash, score), line)
    ensures var (s', r) := Store.Attest(cfg, s, k.realm, k.hash, score, NoFault);
            && r == Ok(true) && Inv(cfg, s') && s'.healthy && Slots(cfg, s', line, m)
            && k in s'.content.entries && RowScore(s'.content, k) == Some(score)
  {
    hide Inv, Meaning, Commit, AttestShapeOk, Slots, Short;
    assert k == Key(k.realm, k.hash);
    AttestKeeps(cfg, s, k.realm, k.hash, score, NoFault);
    BirthFits(cfg, s, k);
    SlotCommits(cfg, s, LogOp.Attest(k.realm, k.hash, score), s.content.entries[k].firstSeen, line, m);
  }

  /** A live row, two well-shaped scores that both beat its own, and room for both. */
  ghost predicate Racing(cfg: Config, s: State, k: Key, lo: ReputationScore, hi: ReputationScore, line: nat) {
    && s.healthy && k.hash.Hex? && k in s.content.entries
    && Decides(cfg, k, RowScore(s.content, k), Some(lo)) && AttestShapeOk(cfg, k.realm, lo)
    && Decides(cfg, k, RowScore(s.content, k), Some(hi)) && AttestShapeOk(cfg, k.realm, hi)
    && Greater(hi.score, lo.score)
    && Slots(cfg, s, line, 2)
    && Short(cfg, LogOp.Attest(k.realm, k.hash, lo), line) && Short(cfg, LogOp.Attest(k.realm, k.hash, hi), line)
  }

  /**
   * The failing family: two merges both read the row before either wrote. The greater score lands
   * first and the lesser one over it, although a merge that read the row then would have refused it.
   */
  lemma StaleScoreWins(cfg: Config, s: State, k: Key, lo: ReputationScore, hi: ReputationScore, line: nat)
    requires Inv(cfg, s) && Racing(cfg, s, k, lo, hi, line)
    ensures var s1 := LateScore(cfg, s, s, k, Some(hi)).0;
            && RowScore(LateScore(cfg, s, s1, k, Some(lo)).0.content, k) == Some(lo)
            && MergeReputation(cfg, s1, k.realm, k.hash, Some(lo), NoFault) == (s1, Ok(false))
            && RowScore(s1.content, k) == Some(hi)
  {
    hide Inv, Store.Attest, MergeReputation, Slots, Short, AttestShapeOk;
    var s1 := LateScore(cfg, s, s, k, Some(hi)).0;
    AttestSets(cfg, s, k, hi, line, 1);
    AttestSets(cfg, s1, k, lo, line, 0);
    ShapedIsFinite(cfg, k.realm, lo);
    LateIsFreshIff(cfg, s1, s1, k, Some(lo));
  }

  lemma ShapedIsFinite(cfg: Config, realm: RealmId, score: ReputationScore)
    requires AttestShapeOk(cfg, realm, score)
    ensures score.score.Finite?
  {
  }

  // ---- what one offer does to its row ----

  /** With room, an offer of a key that is not tombstoned is taken: score, marker and all else it touches. */
  lemma OfferedRow(
    cfg: Config, s: State, p: SignedSyncEntry, k: Key, line: nat, m: nat, bytes: nat, births: nat)
    requires Inv(cfg, s) && Offers(cfg, p, k) && ShortPush(cfg, p, line) && k !in s.content.tombstones
    requires Left(cfg, s, line, m + 3, ArtifactSize(p) + bytes, births + 1) && Place(cfg, s, k)
    ensures var (s', r) := MergePush(cfg, s, p, NO_MERGE_FAULTS);
            && Inv(cfg, s') && Left(cfg, s', line, m, bytes, births) && Place(cfg, s', k)
            && s'.content.tombstones == s.content.tombstones
            && s'.content.entries.Keys == s.content.entries.Keys + {k}
            && (forall j | j in s.content.entries && j != k :: s'.content.entries[j] == s.content.entries[j])
            && p.sync.Some?
            && RowScore(s'.content, k) == MergedScore(cfg, k, RowScore(s.content, k), p.sync.value.reputation)
            && (Flags(cfg, p, k) ==>
                  var n := MergeNotice(p.sync.value.quarantine.value, Marker(s.content, k));
                  Marker(s'.content, k) == if n.Some? then n else Marker(s.content, k))
  {
    hide Inv, MergePush, MergeNotice, Left, ShortPush, MergedScore, NoticeShapeOk, RetainedCount, Verifies;
    OfferGoesThrough(cfg, s, p, line, m, bytes, births);
    LeftHealthy(cfg, s, line, m + 3, ArtifactSize(p) + bytes, births + 1);
    OfferEffect(cfg, s, p);
    MergePushKeeps(cfg, s, p, NO_MERGE_FAULTS);
  }

  lemma FlagsShape(cfg: Config, p: SignedSyncEntry, k: Key)
    requires Flags(cfg, p, k)
    ensures p.sync.Some? && p.sync.value.quarantine.Some? && NoticeShapeOk(p.sync.value.quarantine.value)
  {
  }

  // ---- the same as a run of calls ----

  lemma OneMore(cfg: Config, es: seq<Event>, e: Event)
    ensures Overlapped(cfg, es + [e]) == Next(cfg, Overlapped(cfg, es), e)
  {
    hide Next;
    assert (es + [e])[..|es|] == es;
  }

  /** A call made on a row whose score the incoming one beats goes on to attest it. */
  lemma ReadsThenScores(cfg: Config, s: State, sync: SyncEntry, f: MergeFaults, membership: bool)
    requires Inv(cfg, s) && s.healthy && sync.hash.Hex?
    requires Decides(cfg, Key(sync.realm, sync.hash), RowScore(s.content, Key(sync.realm, sync.hash)), sync.reputation)
    ensures Advanced(cfg, s, Reading(sync, f, membership)) == (s, Scoring(sync, f, membership))
  {
    hide Inv, ReadBlob;
    if Key(sync.realm, sync.hash) in s.content.entries {
      LiveIsReadable(cfg, s, Key(sync.realm, sync.hash));
    }
  }

  /** Both merges read, then the one with the greater score writes, then the other. */
  function ReadReadWriteWrite(es: seq<Event>, i: nat, j: nat): seq<Event> {
    es + [Advance(i)] + [Advance(j)] + [Advance(i)] + [Advance(j)]
  }

  /** Merge `i` of the node is about to read the row's score, and will find its own greater. */
  predicate AtRead(n: Node, i: nat, k: Key, score: ReputationScore) {
    && i < |n.merges| && n.merges[i].Reading? && n.merges[i].faults.attest == NoFault
    && Key(n.merges[i].sync.realm, n.merges[i].sync.hash) == k && n.merges[i].sync.reputation == Some(score)
  }

  /** Wherever two merges of one row both get to reading its score, this order of calls leaves the lesser one. */
  lemma RaceLeavesLesser(
    cfg: Config, es: seq<Event>, i: nat, j: nat, k: Key, lo: ReputationScore, hi: ReputationScore, line: nat)
    requires Racing(cfg, Overlapped(cfg, es).store, k, lo, hi, line) && i != j
    requires AtRead(Overlapped(cfg, es), i, k, hi) && AtRead(Overlapped(cfg, es), j, k, lo)
    ensures RowScore(Overlapped(cfg, ReadReadWriteWrite(es, i, j)).store.content, k) == Some(lo)
  {
    hide Overlapped, Advanced, Inv, Racing, Store.Attest, MergeReputation;
    var n := Overlapped(cfg, es);
    OverlapsKeepInv(cfg, es);
    var (m1, m2) := (n.merges[i], n.merges[j]);
    RacingDecides(cfg, n.store, k, lo, hi, line);
    ReadsThenScores(cfg, n.store, m1.sync, m1.faults, m1.membership);
    ReadsThenScores(cfg, n.store, m2.sync, m2.faults, m2.membership);
    StaleScoreWins(cfg, n.store, k, lo, hi, line);
    ScoringAttests(cfg, n.store, Scoring(m1.sync, m1.faults, m1.membership));
    var s1 := Advanced(cfg, n.store, Scoring(m1.sync, m1.faults, m1.membership)).0;
    ScoringAttests(cfg, s1, Scoring(m2.sync, m2.faults, m2.membership));
    OneMore(cfg, es, Advance(i));
    OneMore(cfg, es + [Advance(i)], Advance(j));
    OneMore(cfg, es + [Advance(i)] + [Advance(j)], Advance(i));
    OneMore(cfg, es + [Advance(i)] + [Advance(j)] + [Advance(i)], Advance(j));
  }

  lemma RacingDecides(cfg: Config, s: State, k: Key, lo: ReputationScore, hi: ReputationScore, line: nat)
    requires Racing(cfg, s, k, lo, hi, line)
    ensures s.healthy && k.hash.Hex?
    ensures Decides(cfg, k, RowScore(s.content, k), Some(lo)) && Decides(cfg, k, RowScore(s.content, k), Some(hi))
  {
  }

  lemma ScoringAttests(cfg: Config, s: State, m: Merge)
    requires m.Scoring? && m.sync.reputation.Some?
    ensures Advanced(cfg, s, m).0 ==
            Store.Attest(cfg, s, m.sync.realm, m.sync.hash, m.sync.reputation.value, m.faults.attest).0
  {
    hide Store.Attest;
  }

  /** The first four calls of a merge: the checks, the look before, the put, the look after. */
  function FourCalls(es: seq<Event>, i: nat): seq<Event> {
    es + [Advance(i)] + [Advance(i)] + [Advance(i)] + [Advance(i)]
  }

  ghost predicate PutDone(cfg: Config, s: State, s': State, k: Key, line: nat, m: nat, bytes: nat, births: nat) {
    && Inv(cfg, s') && Left(cfg, s', line, m, bytes, births) && Place(cfg, s', k)
    && k in s'.content.entries && k !in s'.content.tombstones && RowScore(s'.content, k) == RowScore(s.content, k)
  }

  lemma PutOfOffer(
    cfg: Config, s: State, p: SignedSyncEntry, k: Key, line: nat, m: nat, bytes: nat, births: nat)
    requires Inv(cfg, s) && Offers(cfg, p, k) && ShortPush(cfg, p, line) && k !in s.content.tombstones
    requires Left(cfg, s, line, m + 1, ArtifactSize(p) + bytes, births + 1) && Place(cfg, s, k)
    ensures p.sync.Some?
    ensures var sync := p.sync.value;
            var (s', r) := Store.Put(cfg, s, sync.realm, sync.manifest, sync.artifact, NO_PUT_FAULTS);
            && Key(sync.realm, sync.hash) == k && sync.hash == Hex(cfg.sha(sync.artifact))
            && r.Ok? && PutDone(cfg, s, s', k, line, m, bytes, births)
  {
    hide Inv, Store.Put, Left, Short, MarkShapeOk, AttestShapeOk, RetainedCount;
    var sync := p.sync.value;
    assert LogOp.Put(sync.realm, sync.hash, sync.manifest) == p.record.op;
    LeftHealthy(cfg, s, line, m + 1, ArtifactSize(p) + bytes, births + 1);
    PutGoesThrough(cfg, s, sync.realm, sync.manifest, sync.artifact, line, m, bytes, births);
    PutContent(cfg, s, k, sync.manifest, sync.artifact);
  }

  /** Four calls of one merge, on a store with room for its put, bring it to reading the row's score. */
  lemma FourCallsRead(
    cfg: Config, es: seq<Event>, i: nat, p: SignedSyncEntry, k: Key, line: nat, m: nat, bytes: nat, births: nat)
    requires var n := Overlapped(cfg, es);
             && i < |n.merges| && n.merges[i] == Checking(p, NO_MERGE_FAULTS)
             && k !in n.store.content.tombstones && Place(cfg, n.store, k)
             && Left(cfg, n.store, line, m + 1, ArtifactSize(p) + bytes, births + 1)
    requires Offers(cfg, p, k) && ShortPush(cfg, p, line)
    ensures var (n, n') := (Overlapped(cfg, es), Overlapped(cfg, FourCalls(es, i)));
            && PutDone(cfg, n.store, n'.store, k, line, m, bytes, births)
            && |n'.merges| == |n.merges| && (forall j | 0 <= j < |n.merges| && j != i :: n'.merges[j] == n.merges[j])
            && n'.merges[i].Reading? && p.sync == Some(n'.merges[i].sync) && n'.merges[i].faults == NO_MERGE_FAULTS
  {
    hide Overlapped, Inv, Left, Place, ShortPush, PutDone, Store.Put, Get, Verifies;
    var n := Overlapped(cfg, es);
    var (s, sync) := (n.store, p.sync.value);
    OverlapsKeepInv(cfg, es);
    LeftHealthy(cfg, s, line, m + 1, ArtifactSize(p) + bytes, births + 1);
    PutOfOffer(cfg, s, p, k, line, m, bytes, births);
    var s' := Store.Put(cfg, s, sync.realm, sync.manifest, sync.artifact, NO_PUT_FAULTS).0;
    PutDoneReads(cfg, s, s', k, line, m, bytes, births);
    GetGoesThrough(cfg, s, k);
    GetGoesThrough(cfg, s', k);
    OneMore(cfg, es, Advance(i));
    OneMore(cfg, es + [Advance(i)], Advance(i));
    OneMore(cfg, es + [Advance(i)] + [Advance(i)], Advance(i));
    OneMore(cfg, es + [Advance(i)] + [Advance(i)] + [Advance(i)], Advance(i));
  }

  lemma PutDoneReads(cfg: Config, s: State, s': State, k: Key, line: nat, m: nat, bytes: nat, births: nat)
    requires PutDone(cfg, s, s', k, line, m, bytes, births)
    ensures Inv(cfg, s') && s'.healthy
  {
  }

  /** Two pushes arrive at an empty store, both get to reading the score, and then they race. */
  function Race(hi: SignedSyncEntry, lo: SignedSyncEntry): seq<Event> {
    var begun := [Begin(hi, NO_MERGE_FAULTS)] + [Begin(lo, NO_MERGE_FAULTS)];
    ReadReadWriteWrite(FourCalls(FourCalls(begun, 0), 1), 0, 1)
  }

  /** An empty store with room for two pushes of one key, each with a well-shaped score that verifies. */
  ghost predicate Rivals(cfg: Config, hi: SignedSyncEntry, lo: SignedSyncEntry, k: Key, line: nat) {
    && Scores(cfg, hi, k) && Scores(cfg, lo, k) && Greater(ScoreOf(cfg, hi, k), ScoreOf(cfg, lo, k))
    && ShortPush(cfg, hi, line) && ShortPush(cfg, lo, line)
    && Left(cfg, EMPTY, line, 6, ArtifactSize(hi) + ArtifactSize(lo), 2) && Place(cfg, EMPTY, k)
  }

  lemma TwoBegun(cfg: Config, hi: SignedSyncEntry, lo: SignedSyncEntry)
    ensures Overlapped(cfg, [Begin(hi, NO_MERGE_FAULTS)] + [Begin(lo, NO_MERGE_FAULTS)]) ==
            Node(EMPTY, [Checking(hi, NO_MERGE_FAULTS), Checking(lo, NO_MERGE_FAULTS)])
  {
    OneMore(cfg, [], Begin(hi, NO_MERGE_FAULTS));
    OneMore(cfg, [Begin(hi, NO_MERGE_FAULTS)], Begin(lo, NO_MERGE_FAULTS));
    assert [] + [Begin(hi, NO_MERGE_FAULTS)] == [Begin(hi, NO_MERGE_FAULTS)];
    assert [] + [Checking(hi, NO_MERGE_FAULTS)] + [Checking(lo, NO_MERGE_FAULTS)]
        == [Checking(hi, NO_MERGE_FAULTS), Checking(lo, NO_MERGE_FAULTS)];
  }

  /** Two scores on a fresh row: each beats none, and there is room to write both. */
  lemma RivalsRace(cfg: Config, s: State, hi: SignedSyncEntry, lo: SignedSyncEntry, k: Key, line: nat)
    requires Rivals(cfg, hi, lo, k, line)
    requires k in s.content.entries && RowScore(s.content, k).None? && Left(cfg, s, line, 4, 0, 0)
    ensures Racing(cfg, s, k, lo.sync.value.reputation.value, hi.sync.value.reputation.value, line)
  {
    hide Short, AttestShapeOk, Place, Verifies;
    FewerSlots(cfg, s, line, 3);
    FewerSlots(cfg, s, line, 2);
  }

  /**
   * Merged one after the other, in either order, two pushes of one key leave the greater score. Merged
   * at the same time they can leave the lesser one.
   */
  lemma LesserScoreWins(cfg: Config, hi: SignedSyncEntry, lo: SignedSyncEntry, k: Key, line: nat)
    requires Rivals(cfg, hi, lo, k, line)
    ensures RowScore(Overlapped(cfg, Race(hi, lo)).store.content, k) == lo.sync.value.reputation
    ensures RowScore(MergeBoth(cfg, EMPTY, hi, lo).content, k) == hi.sync.value.reputation
    ensures RowScore(MergeBoth(cfg, EMPTY, lo, hi).content, k) == hi.sync.value.reputation
  {
    hide Rivals, Race, Overlapped, MergeBoth, RowScore;
    RaceIsRun(cfg, hi, lo, k, line);
    OneAfterTheOther(cfg, hi, lo, k, line);
  }

  lemma RaceIsRun(cfg: Config, hi: SignedSyncEntry, lo: SignedSyncEntry, k: Key, line: nat)
    requires Rivals(cfg, hi, lo, k, line)
    ensures RowScore(Overlapped(cfg, Race(hi, lo)).store.content, k) == lo.sync.value.reputation
  {
    hide Overlapped, Inv, Left, Place, ShortPush, Racing, Verifies, FourCalls, ReadReadWriteWrite;
    var begun := [Begin(hi, NO_MERGE_FAULTS)] + [Begin(lo, NO_MERGE_FAULTS)];
    TwoBegun(cfg, hi, lo);
    FourCallsRead(cfg, begun, 0, hi, k, line, 5, ArtifactSize(lo), 1);
    FourCallsRead(cfg, FourCalls(begun, 0), 1, lo, k, line, 4, 0, 0);
    var es := FourCalls(FourCalls(begun, 0), 1);
    RivalsRace(cfg, Overlapped(cfg, es).store, hi, lo, k, line);
    RaceLeavesLesser(cfg, es, 0, 1, k, lo.sync.value.reputation.value, hi.sync.value.reputation.value, line);
  }

  lemma OneAfterTheOther(cfg: Config, hi: SignedSyncEntry, lo: SignedSyncEntry, k: Key, line: nat)
    requires Rivals(cfg, hi, lo, k, line)
    ensures RowScore(MergeBoth(cfg, EMPTY, hi, lo).content, k) == hi.sync.value.reputation
    ensures RowScore(MergeBoth(cfg, EMPTY, lo, hi).content, k) == hi.sync.value.reputation
  {
    hide Inv, MergePush, Left, Place, ShortPush, MergeNotice, Verifies, RealmFieldOk, SignedFieldOk;
    EmptyInv(cfg);
    OfferedRow(cfg, EMPTY, hi, k, line, 3, ArtifactSize(lo), 1);
    OfferedRow(cfg, MergePush(cfg, EMPTY, hi, NO_MERGE_FAULTS).0, lo, k, line, 0, 0, 0);
    OfferedRow(cfg, EMPTY, lo, k, line, 3, ArtifactSize(hi), 1);
    OfferedRow(cfg, MergePush(cfg, EMPTY, lo, NO_MERGE_FAULTS).0, hi, k, line, 0, 0, 0);
  }

  // ---- two markers of one row ----

  /** Scores taken in either order leave the same value. */
  lemma ScoresCommute(
    cfg: Config, k: Key, local: Option<ReputationScore>, x: Option<ReputationScore>, y: Option<ReputationScore>)
    ensures var a := MergedScore(cfg, k, MergedScore(cfg, k, local, x), y);
            var b := MergedScore(cfg, k, MergedScore(cfg, k, local, y), x);
            (a.Some? <==> b.Some?) && (a.Some? ==> a.value.score == b.value.score)
  {
    hide RealmFieldOk, SignedFieldOk;
  }

  lemma FirstMarker(x: QuarantineNotice)
    requires NoticeShapeOk(x)
    ensures MergeNotice(x, None) == Some(x)
  {
  }

  /** Room for two pushes of an unmarked row, each with a well-shaped marker. */
  ghost predicate TwoMarkers(cfg: Config, s: State, p: SignedSyncEntry, q: SignedSyncEntry, k: Key, line: nat) {
    && Flags(cfg, p, k) && Flags(cfg, q, k)
    && ShortPush(cfg, p, line) && ShortPush(cfg, q, line)
    && k !in s.content.tombstones && Marker(s.content, k).None?
    && Left(cfg, s, line, 6, ArtifactSize(p) + ArtifactSize(q), 2) && Place(cfg, s, k)
  }

  ghost function MergeBoth(cfg: Config, s: State, p: SignedSyncEntry, q: SignedSyncEntry): State {
    MergePush(cfg, MergePush(cfg, s, p, NO_MERGE_FAULTS).0, q, NO_MERGE_FAULTS).0
  }

  lemma BothMarked(cfg: Config, s: State, p: SignedSyncEntry, q: SignedSyncEntry, k: Key, line: nat)
    requires Inv(cfg, s) && TwoMarkers(cfg, s, p, q, k, line)
    ensures var c' := MergeBoth(cfg, s, p, q).content;
            && c'.tombstones == s.content.tombstones
            && c'.entries.Keys == s.content.entries.Keys + {k}
            && (forall j | j in s.content.entries && j != k :: c'.entries[j] == s.content.entries[j])
            && RowScore(c', k) == MergedScore(cfg, k, MergedScore(cfg, k, RowScore(s.content, k), p.sync.value.reputation),
                                              q.sync.value.reputation)
            && Marker(c', k) == Some(Second(p.sync.value.quarantine.value, q.sync.value.quarantine.value))
  {
    hide Inv, MergePush, Left, Place, ShortPush, MergedScore, MergeNotice, Verifies, NoticeShapeOk, PushedPutError;
    var s1 := MergePush(cfg, s, p, NO_MERGE_FAULTS).0;
    FlagsShape(cfg, p, k);
    FlagsShape(cfg, q, k);
    FirstMarker(p.sync.value.quarantine.value);
    OfferedRow(cfg, s, p, k, line, 3, ArtifactSize(q), 1);
    OfferedRow(cfg, s1, q, k, line, 0, 0, 0);
  }

  /**
   * Two pushes that mark one unmarked row, merged in the two orders into stores with room, leave stores
   * that agree if and only if one list names all the peers of the other or each has room for those of
   * the other it lacks.
   */
  lemma MarkersAgreeIff(cfg: Config, s: State, p: SignedSyncEntry, q: SignedSyncEntry, k: Key, line: nat)
    requires Inv(cfg, s) && TwoMarkers(cfg, s, p, q, k, line)
    ensures Agree(MergeBoth(cfg, s, p, q).content, MergeBoth(cfg, s, q, p).content) <==>
              OrderFree(PeersOf(cfg, p, k), PeersOf(cfg, q, k))
  {
    hide Inv, Left, Place, ShortPush, MergedScore, Second, MergeBoth, OrderFree, MergedLength, Verifies;
    var (x, y) := (p.sync.value.quarantine.value, q.sync.value.quarantine.value);
    BothMarked(cfg, s, p, q, k, line);
    BothMarked(cfg, s, q, p, k, line);
    ScoresCommute(cfg, k, RowScore(s.content, k), p.sync.value.reputation, q.sync.value.reputation);
    OrdersAgreeIff(x, y);
    SameNames(Second(x, y).attestingPeers, Second(y, x).attestingPeers);
  }

  lemma SameNames(a: seq<string>, b: seq<string>)
    ensures Names(a) == Names(b) <==> forall name :: name in a <==> name in b
  {
    assert forall name :: name in a <==> name in Names(a);
    assert forall name :: name in b <==> name in Names(b);
  }

  // ---- at a concrete store ----

  /** An offer of the small store's first entry with a marker by these peers. */
  function MarkedPush(peers: seq<string>): SignedSyncEntry {
    Findings.SCORED_PUSH.(sync := Some(Findings.SCORED.(
      reputation := None, quarantine := Some(QuarantineNotice("r", peers)))))
  }

  /** Peer lists of at most 64 short names. */
  predicate Presentable(peers: seq<string>) {
    |peers| <= MAX_ATTESTING_PEERS && forall name | name in peers :: FieldOk(name, MAX_PEER_BYTES)
  }

  lemma MarkedPushFlags(peers: seq<string>)
    requires Presentable(peers)
    ensures Flags(Findings.TRUSTING, MarkedPush(peers), Findings.KEY_A)
    ensures ShortPush(Findings.TRUSTING, MarkedPush(peers), 94)
    ensures ArtifactSize(MarkedPush(peers)) == 0
  {
    var p := MarkedPush(peers);
    assert PushedPutError(Findings.TRUSTING, p).None?;
    assert FieldOk("r", MAX_REASON_BYTES) && FieldOk("a", MAX_SIGNAL_FIELD_BYTES);
  }

  lemma EmptyHasRoom(x: seq<string>, y: seq<string>)
    requires Presentable(x) && Presentable(y)
    ensures Inv(Findings.TRUSTING, EMPTY)
    ensures TwoMarkers(Findings.TRUSTING, EMPTY, MarkedPush(x), MarkedPush(y), Findings.KEY_A, 94)
  {
    hide Flags, ShortPush, MarkedPush, Inv;
    EmptyInv(Findings.TRUSTING);
    MarkedPushFlags(x);
    MarkedPushFlags(y);
    SixTimes();
  }

  lemma FullListDiverges(x: seq<string>, b: string)
    requires Presentable(x) && Presentable([b]) && |x| == MAX_ATTESTING_PEERS && b !in x
    ensures var (p, q) := (MarkedPush(x), MarkedPush([b]));
            !Agree(MergeBoth(Findings.TRUSTING, EMPTY, p, q).content, MergeBoth(Findings.TRUSTING, EMPTY, q, p).content)
  {
    hide Inv, TwoMarkers, Agree, MergeBoth, OrderFree;
    EmptyHasRoom(x, [b]);
    MarkersAgreeIff(Findings.TRUSTING, EMPTY, MarkedPush(x), MarkedPush([b]), Findings.KEY_A, 94);
    FullListExcludes(x, b);
  }

  /** One failing input: 65 different peers, 64 of them in one push. */
  lemma SixtyFivePeersDiverge()
    ensures var (x, y) := (Different(MAX_ATTESTING_PEERS), ["b"]);
            var (p, q) := (MarkedPush(x), MarkedPush(y));
            && |Names(x) + Names(y)| == MAX_ATTESTING_PEERS + 1
            && !Agree(MergeBoth(Findings.TRUSTING, EMPTY, p, q).content, MergeBoth(Findings.TRUSTING, EMPTY, q, p).content)
  {
    hide Agree, MergeBoth, MarkedPush, Different, Names;
    var x := Different(MAX_ATTESTING_PEERS);
    forall name | name in x
      ensures name != "b" && FieldOk(name, MAX_PEER_BYTES)
    {
      DifferentName(MAX_ATTESTING_PEERS, name);
    }
    assert FieldOk("b", MAX_PEER_BYTES);
    DifferentCount(MAX_ATTESTING_PEERS);
    OneMoreName(x, "b");
    FullListDiverges(x, "b");
  }

  /** The other: two peers, one of them named 64 times. */
  lemma TwoPeersDiverge()
    ensures var (x, y) := (Repeated("a", MAX_ATTESTING_PEERS), ["b"]);
            var (p, q) := (MarkedPush(x), MarkedPush(y));
            && Names(x) + Names(y) == {"a", "b"}
            && !Agree(MergeBoth(Findings.TRUSTING, EMPTY, p, q).content, MergeBoth(Findings.TRUSTING, EMPTY, q, p).content)
  {
    hide Agree, MergeBoth, MarkedPush, Repeated;
    assert FieldOk("a", MAX_PEER_BYTES) && FieldOk("b", MAX_PEER_BYTES);
    assert ["b"][0] == "b" && Repeated("a", MAX_ATTESTING_PEERS)[0] in Repeated("a", MAX_ATTESTING_PEERS);
    FullListDiverges(Repeated("a", MAX_ATTESTING_PEERS), "b");
  }

  const TWO := ReputationScore(Finite(2.0), None, None, None)
  const HIGHER_PUSH := Findings.SCORED_PUSH.(sync := Some(Findings.SCORED.(reputation := Some(TWO))))

  /** The failing input: scores of two and one race in the small store, and one is left. */
  lemma RacingScoresDiverge()
    ensures var race := Overlapped(Findings.TRUSTING, Race(HIGHER_PUSH, Findings.SCORED_PUSH)).store.content;
            && RowScore(race, Findings.KEY_A) == Some(Findings.ONE)
            && !Agree(race, MergeBoth(Findings.TRUSTING, EMPTY, HIGHER_PUSH, Findings.SCORED_PUSH).content)
            && !Agree(race, MergeBoth(Findings.TRUSTING, EMPTY, Findings.SCORED_PUSH, HIGHER_PUSH).content)
  {
    RivalsExist();
    hide Rivals, Race, Overlapped, MergeBoth;
    LesserScoreWins(Findings.TRUSTING, HIGHER_PUSH, Findings.SCORED_PUSH, Findings.KEY_A, 94);
  }

  lemma RivalsExist()
    ensures Rivals(Findings.TRUSTING, HIGHER_PUSH, Findings.SCORED_PUSH, Findings.KEY_A, 94)
  {
    var (cfg, hi, lo) := (Findings.TRUSTING, HIGHER_PUSH, Findings.SCORED_PUSH);
    assert PushedPutError(cfg, hi).None? && PushedPutError(cfg, lo).None?;
    assert FieldOk("a", MAX_SIGNAL_FIELD_BYTES);
    SixTimes();
  }

  lemma SixTimes()
    ensures Times(6, 94) == 564
  {
    assert Times(6, 94) == Times(5, 94) + 94 == Times(4, 94) + 188 == Times(3, 94) + 282 == Times(2, 94) + 376
        == Times(1, 94) + 470 == 564;
  }
}
