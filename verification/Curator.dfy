/** The injected curator: one decision per live entry, and the deterministic reference policy. */
module Curator {
  import opened Basics
  import opened Records
  import opened Catalog

  datatype Decision =
    | Keep
    | Promote(score: F32)
    | Demote(score: F32)
    | Quarantine(reason: string)
    | Gc

  /** A curation pass asks once per live key; a key without an answer is kept. */
  type Decisions = map<Key, Decision>

  function DecisionFor(d: Decisions, k: Key): Decision {
    if k in d then d[k] else Keep
  }

  function Curated(live: Live, d: Decision): Live {
    match d
    case Promote(score) => live.(reputation := Some(ReputationScore(score, None, None, None)))
    case Demote(score) => live.(reputation := Some(ReputationScore(score, None, None, None)))
    case Quarantine(reason) =>
      live.(quarantine := Some(QuarantineNotice(
        reason, if live.quarantine.Some? then live.quarantine.value.attestingPeers else [])))
    case _ => live
  }

  /** What a decision other than `Gc` does to a row, field by field. */
  predicate Ruled(before: Live, after: Live, d: Decision) {
    && after.manifest == before.manifest
    && after.firstSeen == before.firstSeen
    && (if d.Promote? || d.Demote?
        then after.reputation == Some(ReputationScore(d.score, None, None, None))
        else after.reputation == before.reputation)
    && (if d.Quarantine?
        then && after.quarantine.Some?
             && after.quarantine.value.reason == d.reason
             && after.quarantine.value.attestingPeers
                  == (if before.quarantine.Some? then before.quarantine.value.attestingPeers else [])
        else after.quarantine == before.quarantine)
  }

  function Collected(c: Content, d: Decisions): set<Key> {
    set k | k in c.entries && DecisionFor(d, k) == Gc
  }

  function Isolated(c: Content, d: Decisions): set<Key> {
    set k | k in c.entries && DecisionFor(d, k).Quarantine?
  }

  /** The catalog after a pass: collected keys move to the tombstones, the rest are re-signalled. */
  function Curate(c: Content, d: Decisions): Content {
    Content(map k | k in c.entries && DecisionFor(d, k) != Gc :: Curated(c.entries[k], DecisionFor(d, k)),
            c.tombstones + Collected(c, d))
  }

  predicate FiniteDecision(d: Decision) {
    (d.Promote? || d.Demote?) ==> d.score.Finite?
  }

  /** Every score the curator hands out for a live entry is a finite number. */
  predicate FiniteDecisions(c: Content, d: Decisions) {
    forall k | k in c.entries :: FiniteDecision(DecisionFor(d, k))
  }

  lemma CurateNothing(c: Content)
    ensures Curate(c, map[]) == c
  {
    assert Curate(c, map[]).entries == c.entries;
    assert Collected(c, map[]) == {};
  }

  // ---- DeterministicCurator ----

  datatype DeterministicCurator = DeterministicCurator(gcAfterAgeGap: nat, minKeepScore: F32)

  /** `b` is the catalog's highest live birth order. */
  ghost predicate IsYoungest(c: Content, b: nat) {
    && (exists k | k in c.entries :: c.entries[k].firstSeen == b)
    && (forall k | k in c.entries :: c.entries[k].firstSeen <= b)
  }

  function ScoreOf(live: Live): F32 {
    if live.reputation.Some? then live.reputation.value.score else Finite(0.0)
  }

  /** Collect an entry that is both old and weakly scored; an unscored entry counts as zero. */
  function Decide(p: DeterministicCurator, live: Live, head: nat): Decision {
    var age := if head < live.firstSeen then 0 else head - live.firstSeen;
    if p.gcAfterAgeGap == 0 then Keep
    else if age > p.gcAfterAgeGap && Greater(p.minKeepScore, ScoreOf(live)) then Gc
    else Keep
  }

  /** Below the floor; without a score, if zero is. */
  predicate Weak(p: DeterministicCurator, score: Option<ReputationScore>) {
    if score.None? then Greater(p.minKeepScore, Finite(0.0)) else Greater(p.minKeepScore, score.value.score)
  }

  function DecideAll(p: DeterministicCurator, c: Content, head: nat): Decisions {
    map k | k in c.entries :: Decide(p, c.entries[k], head)
  }

  /**
   * A deterministic pass evicts exactly the entries that are both more than the gap older than the
   * youngest and scored below the floor, leaves every other row as it was, always keeps the youngest,
   * and run again on its own result changes nothing.
   */
  lemma DeterministicPassIdempotent(p: DeterministicCurator, c: Content, head: nat)
    requires IsYoungest(c, head)
    ensures var c' := Curate(c, DecideAll(p, c, head));
            && IsYoungest(c', head)
            && Curate(c', DecideAll(p, c', head)) == c'
            && (forall k | k in c'.entries :: k in c.entries && c'.entries[k] == c.entries[k])
            && (forall k | k in c.entries ::
                  k in c'.entries <==> p.gcAfterAgeGap == 0 || head - c.entries[k].firstSeen <= p.gcAfterAgeGap
                                       || !Weak(p, c.entries[k].reputation))
            && c'.tombstones == c.tombstones + (c.entries.Keys - c'.entries.Keys)
  {
    var c' := Curate(c, DecideAll(p, c, head));
    var k0 :| k0 in c.entries && c.entries[k0].firstSeen == head;
    assert DecisionFor(DecideAll(p, c, head), k0) == Keep;
    assert k0 in c'.entries;
    forall k | k in c'.entries
      ensures k in c.entries && c'.entries[k] == c.entries[k] && DecisionFor(DecideAll(p, c', head), k) == Keep
    {
      assert DecisionFor(DecideAll(p, c, head), k) == Keep;
    }
    assert Collected(c', DecideAll(p, c', head)) == {};
    assert Curate(c', DecideAll(p, c', head)).entries == c'.entries;
  }
}
