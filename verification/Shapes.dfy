/** Which signals the wire accepts, spelled out with its limits, and that each limit is reached and kept. */
module Shapes {
  import opened Basics
  import opened Records
  import opened Peers

  /** Without a NUL, and at most this long in UTF-8. */
  predicate Brief(text: string, bytes: nat) {
    '\0' !in text && Utf8Bytes(text) <= bytes
  }

  /** A score is accepted if it is a number, its Realms are named, and it is signed in full or not at all. */
  lemma ScoreAcceptedIff(cfg: Config, realm: RealmId, x: ReputationScore)
    ensures AttestShapeOk(cfg, realm, x) <==>
              && x.score.Finite?
              && (forall r | r == realm || x.attestingRealm == Some(r) :: cfg.validRealm(r) && Brief(r.name, 512))
              && (x.signedBy.Some? <==> x.signature.Some?)
              && (forall text | x.signedBy == Some(text) || x.signature == Some(text) :: text != "" && Brief(text, 512))
  {
    assert RealmFieldOk(cfg, realm) <==> cfg.validRealm(realm) && Brief(realm.name, 512);
  }

  /** A marker is accepted if its Realm is named, its reason is brief, and it names at most 64 brief peers. */
  lemma MarkerAcceptedIff(cfg: Config, realm: RealmId, x: QuarantineNotice)
    ensures MarkShapeOk(cfg, realm, x) <==>
              && cfg.validRealm(realm) && Brief(realm.name, 512)
              && Brief(x.reason, 1024)
              && |x.attestingPeers| <= 64 && forall name | name in x.attestingPeers :: Brief(name, 256)
  {
  }

  /** A character repeated. */
  function Filled(c: char, n: nat): (s: string)
    ensures |s| == n && (c != '\0' ==> '\0' !in s)
  {
    if n == 0 then "" else Filled(c, n - 1) + [c]
  }

  lemma {:induction false} FilledBytes(n: nat)
    ensures Utf8Bytes(Filled('a', n)) == n
    ensures Utf8Bytes(Filled('\U{00E9}', n)) == 2 * n
    ensures Utf8Bytes(Filled('\U{20AC}', n)) == 3 * n
    ensures Utf8Bytes(Filled('\U{1F600}', n)) == 4 * n
  {
    if n > 0 {
      FilledBytes(n - 1);
      assert Filled('a', n)[..n - 1] == Filled('a', n - 1);
      assert Filled('\U{00E9}', n)[..n - 1] == Filled('\U{00E9}', n - 1);
      assert Filled('\U{20AC}', n)[..n - 1] == Filled('\U{20AC}', n - 1);
      assert Filled('\U{1F600}', n)[..n - 1] == Filled('\U{1F600}', n - 1);
    }
  }

  /** Limits are on bytes: one to four for each character. */
  lemma BriefIff(n: nat, bytes: nat)
    ensures Brief(Filled('a', n), bytes) <==> n <= bytes
    ensures Brief(Filled('\U{00E9}', n), bytes) <==> 2 * n <= bytes
    ensures Brief(Filled('\U{20AC}', n), bytes) <==> 3 * n <= bytes
    ensures Brief(Filled('\U{1F600}', n), bytes) <==> 4 * n <= bytes
  {
    hide Filled, Utf8Bytes;
    FilledBytes(n);
  }

  /** Which reasons of one character are accepted, by its length in bytes; and peers up to 64, of 256 bytes each. */
  lemma MarkerLimits(cfg: Config, realm: RealmId, n: nat)
    requires cfg.validRealm(realm) && Brief(realm.name, 512)
    ensures MarkShapeOk(cfg, realm, QuarantineNotice(Filled('a', n), [])) <==> n <= 1024
    ensures MarkShapeOk(cfg, realm, QuarantineNotice(Filled('\U{00E9}', n), [])) <==> n <= 512
    ensures MarkShapeOk(cfg, realm, QuarantineNotice(Filled('\U{20AC}', n), [])) <==> n <= 341
    ensures MarkShapeOk(cfg, realm, QuarantineNotice(Filled('\U{1F600}', n), [])) <==> n <= 256
    ensures MarkShapeOk(cfg, realm, QuarantineNotice("", Repeated("a", n))) <==> n <= 64
    ensures MarkShapeOk(cfg, realm, QuarantineNotice("", [Filled('a', n)])) <==> n <= 256
  {
    hide Filled, Repeated, MarkShapeOk, Brief;
    BriefIff(n, 1024);
    BriefIff(n, 256);
    MarkerAcceptedIff(cfg, realm, QuarantineNotice(Filled('a', n), []));
    MarkerAcceptedIff(cfg, realm, QuarantineNotice(Filled('\U{00E9}', n), []));
    MarkerAcceptedIff(cfg, realm, QuarantineNotice(Filled('\U{20AC}', n), []));
    MarkerAcceptedIff(cfg, realm, QuarantineNotice(Filled('\U{1F600}', n), []));
    MarkerAcceptedIff(cfg, realm, QuarantineNotice("", Repeated("a", n)));
    MarkerAcceptedIff(cfg, realm, QuarantineNotice("", [Filled('a', n)]));
    assert Brief("", 1024) && Brief("a", 256) by { BriefTexts(); }
    assert [Filled('a', n)][0] == Filled('a', n);
  }

  lemma BriefTexts()
    ensures Brief("", 1024) && Brief("a", 256)
  {
  }
}
