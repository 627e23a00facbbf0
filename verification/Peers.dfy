/** Merging the peer lists of quarantine markers: exactly when it succeeds, and when two orders agree. */
module Peers {
  import opened Basics
  import opened Records
  import opened Catalog
  import opened Chain
  import opened Store
  import opened Effects

  function Names(names: seq<string>): set<string> {
    set n | n in names
  }

  lemma NamesTail(names: seq<string>)
    requires names != []
    ensures Names(names) == {names[0]} + Names(names[1..])
  {
    assert names == [names[0]] + names[1..];
  }

  lemma NamesMore(names: seq<string>, name: string)
    ensures Names(names + [name]) == Names(names) + {name} && (name in Names(names) <==> name in names)
  {
  }

  /** How long a list gets when it takes up the names of another that it lacks. */
  function MergedLength(merged: seq<string>, existing: seq<string>): nat {
    |merged| + |Names(existing) - Names(merged)|
  }

  lemma NamesStep(merged: seq<string>, existing: seq<string>)
    requires existing != []
    ensures existing[0] in merged ==> Names(existing) - Names(merged) == Names(existing[1..]) - Names(merged)
    ensures existing[0] !in merged ==>
              && Names(existing) - Names(merged) ==
                 {existing[0]} + (Names(existing[1..]) - Names(merged + [existing[0]]))
              && existing[0] !in Names(existing[1..]) - Names(merged + [existing[0]])
  {
    hide Names;
    NamesTail(existing);
    NamesMore(merged, existing[0]);
  }

  lemma LengthStep(merged: seq<string>, existing: seq<string>)
    requires existing != []
    ensures existing[0] in merged ==> MergedLength(merged, existing) == MergedLength(merged, existing[1..])
    ensures existing[0] !in merged ==>
              && MergedLength(merged, existing) == MergedLength(merged + [existing[0]], existing[1..])
              && MergedLength(merged, existing) > |merged|
  {
    hide Names;
    NamesStep(merged, existing);
  }

  /**
   * A peer list takes up another exactly when it lacks none of its names or has room for those it
   * lacks. A list may name a peer twice, and each repeat takes up room.
   */
  lemma {:induction false} MergePeersIff(merged: seq<string>, existing: seq<string>)
    ensures MergePeers(merged, existing).Some? <==>
              Names(existing) <= Names(merged) || MergedLength(merged, existing) <= MAX_ATTESTING_PEERS
    ensures MergePeers(merged, existing).Some? ==>
              |MergePeers(merged, existing).value| == MergedLength(merged, existing)
    decreases |existing|
  {
    if existing == [] {
      assert Names(existing) - Names(merged) == {};
    } else {
      LengthStep(merged, existing);
      NamesTail(existing);
      NamesMore(merged, existing[0]);
      hide Names, MergedLength;
      if existing[0] in merged {
        MergePeersIff(merged, existing[1..]);
      } else if |merged| < MAX_ATTESTING_PEERS {
        MergePeersIff(merged + [existing[0]], existing[1..]);
        MergeableFurther(merged, existing);
      }
    }
  }

  /** If every name the longer list still lacks were there, the list would be as long as it gets. */
  lemma MergeableFurther(merged: seq<string>, existing: seq<string>)
    requires existing != [] && existing[0] !in merged && |merged| < MAX_ATTESTING_PEERS
    ensures Names(existing[1..]) <= Names(merged + [existing[0]]) ==>
              MergedLength(merged, existing) <= MAX_ATTESTING_PEERS
  {
    LengthStep(merged, existing);
    if Names(existing[1..]) <= Names(merged + [existing[0]]) {
      assert Names(existing[1..]) - Names(merged + [existing[0]]) == {};
    }
  }

  /** Well-shaped markers merge exactly when their peer lists do, and then name the peers of both. */
  lemma MergeNoticeIff(x: QuarantineNotice, y: QuarantineNotice)
    requires NoticeShapeOk(x) && NoticeShapeOk(y)
    ensures MergeNotice(x, Some(y)).Some? <==>
              || Names(y.attestingPeers) <= Names(x.attestingPeers)
              || MergedLength(x.attestingPeers, y.attestingPeers) <= MAX_ATTESTING_PEERS
    ensures MergeNotice(x, Some(y)).Some? ==>
              var n := MergeNotice(x, Some(y)).value;
              && n.reason == x.reason && NoticeShapeOk(n)
              && Names(n.attestingPeers) == Names(x.attestingPeers) + Names(y.attestingPeers)
  {
    hide FieldOk, MergePeers;
    MergePeersIff(x.attestingPeers, y.attestingPeers);
    var merged := MergePeers(x.attestingPeers, y.attestingPeers);
    if Names(y.attestingPeers) <= Names(x.attestingPeers) {
      assert Names(y.attestingPeers) - Names(x.attestingPeers) == {};
    }
    if merged.Some? {
      forall name
        ensures name in merged.value <==> name in x.attestingPeers || name in y.attestingPeers
      {
        MergePeersUnion(x.attestingPeers, y.attestingPeers, name);
      }
      assert Names(merged.value) == Names(x.attestingPeers) + Names(y.attestingPeers);
    }
  }

  // ---- two markers in two orders ----

  /** What a row marked by `first` is marked by after `second` was offered: both, or still `first`. */
  function Second(first: QuarantineNotice, second: QuarantineNotice): QuarantineNotice {
    var n := MergeNotice(second, Some(first));
    if n.Some? then n.value else first
  }

  /** One list names all the peers of the other, or each has room for those of the other it lacks. */
  predicate OrderFree(x: seq<string>, y: seq<string>) {
    || Names(x) <= Names(y)
    || Names(y) <= Names(x)
    || (MergedLength(x, y) <= MAX_ATTESTING_PEERS && MergedLength(y, x) <= MAX_ATTESTING_PEERS)
  }

  /** Two well-shaped markers leave the same peers in both orders if and only if their lists are order-free. */
  lemma OrdersAgreeIff(x: QuarantineNotice, y: QuarantineNotice)
    requires NoticeShapeOk(x) && NoticeShapeOk(y)
    ensures Names(Second(x, y).attestingPeers) == Names(Second(y, x).attestingPeers) <==>
              OrderFree(x.attestingPeers, y.attestingPeers)
  {
    hide MergeNotice, NoticeShapeOk, MergedLength;
    MergeNoticeIff(x, y);
    MergeNoticeIff(y, x);
    var (a, b) := (Names(x.attestingPeers), Names(y.attestingPeers));
    assert a <= b ==> a + b == b && b + a == b;
    assert b <= a ==> a + b == a && b + a == a;
    assert a + b == b + a;
    assert a + b == a ==> b <= a;
    assert a + b == b ==> a <= b;
  }

  // ---- lists that fail ----

  /** The same name over and over. */
  function Repeated(name: string, n: nat): (names: seq<string>)
    ensures |names| == n && forall p | p in names :: p == name
  {
    if n == 0 then [] else Repeated(name, n - 1) + [name]
  }

  /** Names of one letter, two letters and so on: all different. */
  function Different(n: nat): (names: seq<string>)
    ensures |names| == n
    ensures forall i | 0 <= i < n :: names[i] == Letters(i + 1)
  {
    if n == 0 then [] else Different(n - 1) + [Letters(n)]
  }

  function Letters(n: nat): (s: string)
    ensures |s| == n && Utf8Bytes(s) == n && forall c | c in s :: c == 'a'
  {
    if n == 0 then ""
    else
      var front := Letters(n - 1);
      assert (front + ['a'])[..n - 1] == front;
      front + ['a']
  }

  lemma DifferentName(n: nat, name: string)
    requires name in Different(n)
    ensures name != "" && name[0] == 'a' && |name| <= n && Utf8Bytes(name) == |name| && '\0' !in name
  {
    hide Different, Utf8Bytes;
    var i :| 0 <= i < n && Different(n)[i] == name;
    assert name[0] in name;
  }

  lemma {:induction false} DifferentCount(n: nat)
    ensures |Names(Different(n))| == n
  {
    hide Letters, Names;
    if n == 0 {
      assert Names([]) == {} by { NoNames(); }
    } else {
      DifferentCount(n - 1);
      NamesMore(Different(n - 1), Letters(n));
    }
  }

  lemma NoNames()
    ensures Names([]) == {}
  {
  }

  lemma OneMoreName(x: seq<string>, b: string)
    requires b !in x
    ensures |Names(x) + Names([b])| == |Names(x)| + 1
  {
    assert [b][0] == b && Names([b]) == {b};
  }

  /** A full list has no room for a peer it lacks, however few peers it names. */
  lemma FullListExcludes(x: seq<string>, b: string)
    requires |x| == MAX_ATTESTING_PEERS && b !in x
    ensures !OrderFree(x, [b])
  {
    assert [b][0] == b;
    assert b in Names([b]) - Names(x);
    assert x[0] in Names(x) && x[0] != b;
    assert Names([b]) == {b};
  }
}
