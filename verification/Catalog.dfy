/** What a log means: applying one op, replaying a chain, and the meaning of a directory of chains. */
module Catalog {
  import opened Basics
  import opened Records

  /** Live rows and permanently evicted keys. */
  datatype Content = Content(entries: map<Key, Live>, tombstones: set<Key>)

  const NOTHING := Content(map[], {})

  type Logs = map<RealmHash, seq<LogRecord>>

  function Retained(c: Content): set<Key> {
    c.entries.Keys + c.tombstones
  }

  function Apply(c: Content, op: LogOp, firstSeen: nat): Content {
    var key := KeyOf(op);
    match op
    case Put(_, _, manifest) =>
      if key in c.tombstones then c
      else if key in c.entries then
        c.(entries := c.entries[key := c.entries[key].(manifest := manifest)])
      else
        c.(entries := c.entries[key := Live(manifest, None, None, firstSeen)])
    case Attest(_, _, score) =>
      if key in c.entries then
        c.(entries := c.entries[key := c.entries[key].(reputation := Some(score))])
      else c
    case Quarantine(_, _, notice) =>
      if key in c.entries then
        c.(entries := c.entries[key := c.entries[key].(quarantine := Some(notice))])
      else c
    case Unquarantine(_, _) =>
      if key in c.entries then
        c.(entries := c.entries[key := c.entries[key].(quarantine := None)])
      else c
    case Tombstone(_, _) =>
      Content(c.entries - {key}, c.tombstones + {key})
  }

  function ReplayFrom(c: Content, log: seq<LogRecord>): Content {
    if log == [] then c
    else
      var last := log[|log| - 1];
      Apply(ReplayFrom(c, log[..|log| - 1]), last.op, last.firstSeen)
  }

  function Replay(log: seq<LogRecord>): Content {
    ReplayFrom(NOTHING, log)
  }

  /** What a Realm's own log says; a missing file says nothing. */
  function View(logs: Logs, realm: RealmId): Content {
    if RealmSha(realm) in logs then Replay(logs[RealmSha(realm)]) else NOTHING
  }

  ghost function AllKeys(logs: Logs): set<Key>
    decreases |logs|
  {
    if logs == map[] then {} else
      var rh :| rh in logs;
      Retained(Replay(logs[rh])) + AllKeys(logs - {rh})
  }

  /** The union over all Realm files of what each says about its own Realm. */
  ghost function Meaning(logs: Logs): Content {
    Content(
      map k | k in AllKeys(logs) && k in View(logs, k.realm).entries :: View(logs, k.realm).entries[k],
      set k | k in AllKeys(logs) && k in View(logs, k.realm).tombstones)
  }

  /** Every record of the log is about the log's own Realm. */
  predicate OwnRealm(rh: RealmHash, log: seq<LogRecord>) {
    forall i | 0 <= i < |log| :: log[i].op.realm == rh.realm
  }

  // ---- pointwise facts ----

  lemma {:induction false} AllKeysHas(logs: Logs, rh: RealmHash, k: Key)
    requires rh in logs && k in Retained(Replay(logs[rh]))
    ensures k in AllKeys(logs)
    decreases |logs|
  {
    var p :| p in logs && AllKeys(logs) == Retained(Replay(logs[p])) + AllKeys(logs - {p});
    if p != rh {
      AllKeysHas(logs - {p}, rh, k);
    }
  }

  lemma MeaningAt(logs: Logs, k: Key)
    ensures k in Meaning(logs).entries <==> k in View(logs, k.realm).entries
    ensures k in Meaning(logs).entries ==> Meaning(logs).entries[k] == View(logs, k.realm).entries[k]
    ensures k in Meaning(logs).tombstones <==> k in View(logs, k.realm).tombstones
  {
    if k in Retained(View(logs, k.realm)) {
      AllKeysHas(logs, RealmSha(k.realm), k);
    }
  }

  /** Two contents that agree at every key are equal. */
  lemma ContentExt(a: Content, b: Content)
    requires forall k :: k in a.entries <==> k in b.entries
    requires forall k | k in a.entries && k in b.entries :: a.entries[k] == b.entries[k]
    requires forall k :: k in a.tombstones <==> k in b.tombstones
    ensures a == b
  {
    assert a.entries == b.entries;
    assert a.tombstones == b.tombstones;
  }

  lemma ReplayAppend(c: Content, log: seq<LogRecord>, rec: LogRecord)
    ensures ReplayFrom(c, log + [rec]) == Apply(ReplayFrom(c, log), rec.op, rec.firstSeen)
  {
    assert (log + [rec])[..|log|] == log;
  }

  /** `Apply` touches nothing but the op's own key. */
  lemma ApplyElsewhere(c: Content, op: LogOp, fs: nat, k: Key)
    requires k != KeyOf(op)
    ensures k in Apply(c, op, fs).entries <==> k in c.entries
    ensures k in c.entries ==> Apply(c, op, fs).entries[k] == c.entries[k]
    ensures k in Apply(c, op, fs).tombstones <==> k in c.tombstones
  {
  }

  /** ... and what it does there depends on nothing else. */
  lemma ApplyHere(a: Content, b: Content, op: LogOp, fs: nat)
    requires KeyOf(op) in a.entries <==> KeyOf(op) in b.entries
    requires KeyOf(op) in a.entries ==> a.entries[KeyOf(op)] == b.entries[KeyOf(op)]
    requires KeyOf(op) in a.tombstones <==> KeyOf(op) in b.tombstones
    ensures KeyOf(op) in Apply(a, op, fs).entries <==> KeyOf(op) in Apply(b, op, fs).entries
    ensures KeyOf(op) in Apply(a, op, fs).entries ==>
              Apply(a, op, fs).entries[KeyOf(op)] == Apply(b, op, fs).entries[KeyOf(op)]
    ensures KeyOf(op) in Apply(a, op, fs).tombstones <==> KeyOf(op) in Apply(b, op, fs).tombstones
  {
  }

  /** Appending one record to one Realm's file applies that op to the meaning of the directory. */
  lemma MeaningAppend(logs: Logs, rec: LogRecord)
    ensures var rh := RealmSha(rec.op.realm);
            var log := if rh in logs then logs[rh] else [];
            Meaning(logs[rh := log + [rec]]) == Apply(Meaning(logs), rec.op, rec.firstSeen)
  {
    var rh := RealmSha(rec.op.realm);
    var log := if rh in logs then logs[rh] else [];
    var logs' := logs[rh := log + [rec]];
    var a := Apply(Meaning(logs), rec.op, rec.firstSeen);
    ReplayAppend(NOTHING, log, rec);
    var key := KeyOf(rec.op);
    MeaningAt(logs, key);
    ApplyHere(Meaning(logs), View(logs, key.realm), rec.op, rec.firstSeen);
    forall k
      ensures k in Meaning(logs').entries <==> k in a.entries
      ensures k in a.entries && k in Meaning(logs').entries ==> Meaning(logs').entries[k] == a.entries[k]
      ensures k in Meaning(logs').tombstones <==> k in a.tombstones
    {
      MeaningAt(logs', k);
      MeaningAt(logs, k);
      if k != key {
        ApplyElsewhere(Meaning(logs), rec.op, rec.firstSeen, k);
        ApplyElsewhere(View(logs, k.realm), rec.op, rec.firstSeen, k);
      }
    }
    ContentExt(Meaning(logs'), a);
  }

  // ---- live and tombstoned keys ----

  ghost predicate Disjoint(c: Content) {
    c.entries.Keys !! c.tombstones
  }

  lemma {:induction false} ReplayDisjoint(c: Content, log: seq<LogRecord>)
    requires Disjoint(c)
    ensures Disjoint(ReplayFrom(c, log))
  {
    if log != [] {
      ReplayDisjoint(c, log[..|log| - 1]);
    }
  }

  /** No key is both live and tombstoned, whatever the logs hold. */
  lemma MeaningDisjoint(logs: Logs)
    ensures Disjoint(Meaning(logs))
  {
    forall k | k in Meaning(logs).entries ensures k !in Meaning(logs).tombstones {
      MeaningAt(logs, k);
      ReplayDisjoint(NOTHING, logs[RealmSha(k.realm)]);
    }
  }

  /**
   * How a catalog may change: tombstones stay, no key is forgotten, and an entry that is still
   * live keeps its birth order.
   */
  ghost predicate Evolves(a: Content, b: Content) {
    && a.tombstones <= b.tombstones
    && Retained(a) <= Retained(b)
    && forall k | k in a.entries && k in b.entries :: a.entries[k].firstSeen == b.entries[k].firstSeen
  }

  lemma EvolvesTrans(a: Content, b: Content, c: Content)
    requires Evolves(a, b) && Evolves(b, c) && Disjoint(c)
    ensures Evolves(a, c)
  {
    forall k | k in a.entries && k in c.entries
      ensures a.entries[k].firstSeen == c.entries[k].firstSeen
    {
      assert k in Retained(a);
      assert k in Retained(b);
    }
  }

  lemma ApplyEvolves(c: Content, op: LogOp, fs: nat)
    requires Disjoint(c)
    ensures Evolves(c, Apply(c, op, fs)) && Disjoint(Apply(c, op, fs))
  {
  }

  // ---- one Realm file after another ----

  lemma {:induction false} ReplayStaysInRealm(c: Content, rh: RealmHash, log: seq<LogRecord>, k: Key)
    requires OwnRealm(rh, log)
    requires k.realm != rh.realm
    ensures k in ReplayFrom(c, log).entries <==> k in c.entries
    ensures k in c.entries ==> ReplayFrom(c, log).entries[k] == c.entries[k]
    ensures k in ReplayFrom(c, log).tombstones <==> k in c.tombstones
  {
    if log != [] {
      var front, last := log[..|log| - 1], log[|log| - 1];
      ReplayStaysInRealm(c, rh, front, k);
      ApplyElsewhere(ReplayFrom(c, front), last.op, last.firstSeen, k);
    }
  }

  /** Replaying onto a catalog that knows nothing of the Realm is replaying from nothing. */
  lemma {:induction false} ReplayFreshRealm(c: Content, rh: RealmHash, log: seq<LogRecord>, k: Key)
    requires OwnRealm(rh, log)
    requires forall q | q in Retained(c) :: q.realm != rh.realm
    requires k.realm == rh.realm
    ensures k in ReplayFrom(c, log).entries <==> k in Replay(log).entries
    ensures k in Replay(log).entries && k in ReplayFrom(c, log).entries ==>
              ReplayFrom(c, log).entries[k] == Replay(log).entries[k]
    ensures k in ReplayFrom(c, log).tombstones <==> k in Replay(log).tombstones
  {
    if log == [] {
      assert k !in Retained(c);
    } else {
      var front, last := log[..|log| - 1], log[|log| - 1];
      var a, b := ReplayFrom(c, front), Replay(front);
      ReplayFreshRealm(c, rh, front, k);
      if k == KeyOf(last.op) {
        ApplyHere(a, b, last.op, last.firstSeen);
      } else {
        ApplyElsewhere(a, last.op, last.firstSeen, k);
        ApplyElsewhere(b, last.op, last.firstSeen, k);
      }
    }
  }

  /** Replaying one more Realm file onto the meaning of the others gives the meaning of them all. */
  lemma MeaningAddRealm(logs: Logs, rh: RealmHash, log: seq<LogRecord>)
    requires rh !in logs
    requires OwnRealm(rh, log)
    ensures ReplayFrom(Meaning(logs), log) == Meaning(logs[rh := log])
  {
    var logs' := logs[rh := log];
    var c, c' := ReplayFrom(Meaning(logs), log), Meaning(logs');
    forall q | q in Retained(Meaning(logs)) ensures q.realm != rh.realm {
      MeaningAt(logs, q);
    }
    forall k
      ensures k in c.entries <==> k in c'.entries
      ensures k in c.entries && k in c'.entries ==> c.entries[k] == c'.entries[k]
      ensures k in c.tombstones <==> k in c'.tombstones
    {
      MeaningAt(logs, k);
      MeaningAt(logs', k);
      if k.realm == rh.realm {
        ReplayFreshRealm(Meaning(logs), rh, log, k);
      } else {
        ReplayStaysInRealm(Meaning(logs), rh, log, k);
      }
    }
    ContentExt(c, c');
  }
}
