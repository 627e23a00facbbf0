/**
 * `merge_push` as it really runs: a sequence of calls that each take the store's lock and release it, so
 * that merges overlap with one another and with every other operation. Every such overlap turns out to be
 * a run of the plain operations.
 */
module Merges {
  import opened Basics
  import opened Records
  import opened Catalog
  import opened Chain
  import opened Store
  import opened Invariant
  import opened Runs

  /** A merge in progress: the next call it makes, with what it has learnt so far. */
  datatype Merge =
    | Checking(push: SignedSyncEntry, faults: MergeFaults)
    | Evicting(realm: RealmId, hash: HashText, fault: AppendFault)
    | Looking(sync: SyncEntry, faults: MergeFaults)
    | Putting(sync: SyncEntry, faults: MergeFaults, before: bool)
    | Seeing(sync: SyncEntry, faults: MergeFaults, before: bool)
    | Reading(sync: SyncEntry, faults: MergeFaults, membership: bool)
    | Scoring(sync: SyncEntry, faults: MergeFaults, membership: bool)
    | Marking(sync: SyncEntry, faults: MergeFaults, membership: bool, reputation: bool)
    | Ended(reply: Result<MergeOutcome>)

  ghost function Checked(cfg: Config, s: State, push: SignedSyncEntry, f: MergeFaults): Merge {
    var op := push.record.op;
    if !s.healthy then Ended(Err(Unhealthy))
    else if !Verifies(push.record) then Ended(Err(BadSignature))
    else if op.hash.Malformed? then Ended(Err(Integrity))
    else
      match op
      case Tombstone(realm, hash) => Evicting(realm, hash, f.put.append)
      case Put(_, _, _) =>
        var bad := PushedPutError(cfg, push);
        if bad.Some? then Ended(Err(bad.value)) else Looking(push.sync.value, f)
      case _ => Ended(Err(Corrupt))
  }

  /** One call of the merge, made on the store as it is then. */
  ghost function Advanced(cfg: Config, s: State, m: Merge): (State, Merge) {
    match m
    case Checking(push, f) => (s, Checked(cfg, s, push, f))
    case Evicting(realm, hash, fault) =>
      (match Store.Tombstone(cfg, s, realm, hash, fault)
       case (s1, Ok(changed)) => (s1, Ended(Ok(MergeOutcome(changed, false, false))))
       case (s1, Err(e)) => (s1, Ended(Err(e))))
    case Looking(sync, f) =>
      (match Get(cfg, s, sync.realm, sync.hash)
       case Err(e) => (s, Ended(Err(e)))
       case Ok(found) => (s, Putting(sync, f, found.Some?)))
    case Putting(sync, f, before) =>
      (match Store.Put(cfg, s, sync.realm, sync.manifest, sync.artifact, f.put)
       case (s1, Err(Capacity)) => (s1, Ended(Ok(UNCHANGED)))
       case (s1, Err(e)) => (s1, Ended(Err(e)))
       case (s1, Ok(_)) => (s1, Seeing(sync, f, before)))
    case Seeing(sync, f, before) =>
      (match Get(cfg, s, sync.realm, sync.hash)
       case Err(e) => (s, Ended(Err(e)))
       case Ok(found) => (s, Reading(sync, f, !before && found.Some?)))
    case Reading(sync, f, membership) =>
      if sync.reputation.None? || !cfg.promotionVerifies(sync.reputation.value, sync.realm, sync.hash) then
        (s, Marking(sync, f, membership, false))
      else
        (match Get(cfg, s, sync.realm, sync.hash)
         case Err(e) => (s, Ended(Err(e)))
         case Ok(found) =>
           var local := if found.Some? then found.value.0.reputation else None;
           (s, if Decides(cfg, Key(sync.realm, sync.hash), local, sync.reputation) then Scoring(sync, f, membership)
               else Marking(sync, f, membership, false)))
    case Scoring(sync, f, membership) =>
      if sync.reputation.None? then (s, Marking(sync, f, membership, false))
      else
        (match Store.Attest(cfg, s, sync.realm, sync.hash, sync.reputation.value, f.attest)
         case (s1, Err(e)) => (s1, Ended(Err(e)))
         case (s1, Ok(rep)) => (s1, Marking(sync, f, membership, rep)))
    case Marking(sync, f, membership, rep) =>
      (match MergeQuarantine(cfg, s, sync.realm, sync.hash, sync.quarantine, f.quarantine)
       case (s1, Err(e)) => (s1, Ended(Err(e)))
       case (s1, Ok(quar)) => (s1, Ended(Ok(MergeOutcome(membership, rep, quar)))))
    case Ended(_) => (s, m)
  }

  // ---- uninterrupted ----

  function CallsLeft(m: Merge): nat {
    match m
    case Checking(_, _) => 7
    case Looking(_, _) => 6
    case Putting(_, _, _) => 5
    case Seeing(_, _, _) => 4
    case Reading(_, _, _) => 3
    case Scoring(_, _, _) => 2
    case Marking(_, _, _, _) => 1
    case Evicting(_, _, _) => 1
    case Ended(_) => 0
  }

  lemma FewerCallsLeft(cfg: Config, s: State, m: Merge)
    requires !m.Ended?
    ensures CallsLeft(Advanced(cfg, s, m).1) < CallsLeft(m)
  {
    hide Store.Put, Store.Attest, Store.Tombstone, MergeQuarantine, Get, PushedPutError, Verifies;
  }

  /** The merge made to its end with nothing in between. */
  ghost function Alone(cfg: Config, s: State, m: Merge): (State, Result<MergeOutcome>)
    decreases CallsLeft(m)
  {
    if m.Ended? then (s, m.reply)
    else
      FewerCallsLeft(cfg, s, m);
      var (s', m') := Advanced(cfg, s, m);
      Alone(cfg, s', m')
  }

  lemma AloneNext(cfg: Config, s: State, m: Merge)
    requires !m.Ended?
    ensures var (s', m') := Advanced(cfg, s, m);
            Alone(cfg, s, m) == if m'.Ended? then (s', m'.reply) else Alone(cfg, s', m')
  {
    hide Advanced;
  }

  lemma AloneSignals(cfg: Config, s: State, sync: SyncEntry, f: MergeFaults, membership: bool)
    ensures Alone(cfg, s, Reading(sync, f, membership)) == MergeSignals(cfg, s, sync, membership, f)
  {
    hide Alone, Store.Attest, MergeQuarantine, Get;
    var m0 := Reading(sync, f, membership);
    var (s1, m1) := Advanced(cfg, s, m0);
    AloneNext(cfg, s, m0);
    if m1.Scoring? {
      var (s2, m2) := Advanced(cfg, s1, m1);
      AloneNext(cfg, s1, m1);
      if m2.Marking? {
        AloneNext(cfg, s2, m2);
      }
    } else if m1.Marking? {
      AloneNext(cfg, s1, m1);
    }
  }

  lemma AloneOffer(cfg: Config, s: State, sync: SyncEntry, f: MergeFaults)
    ensures Alone(cfg, s, Looking(sync, f)) == MergePushedPut(cfg, s, sync, f)
  {
    hide Alone, Store.Put, MergeSignals, Get;
    var m0 := Looking(sync, f);
    var m1 := Advanced(cfg, s, m0).1;
    AloneNext(cfg, s, m0);
    if m1.Putting? {
      var (s2, m2) := Advanced(cfg, s, m1);
      AloneNext(cfg, s, m1);
      if m2.Seeing? {
        var m3 := Advanced(cfg, s2, m2).1;
        AloneNext(cfg, s2, m2);
        if m3.Reading? {
          AloneSignals(cfg, s2, sync, f, m3.membership);
        }
      }
    }
  }

  /** A merge that nothing interrupts is the merge of the state machine. */
  lemma AloneIsMergePush(cfg: Config, s: State, push: SignedSyncEntry, f: MergeFaults)
    ensures Alone(cfg, s, Checking(push, f)) == MergePush(cfg, s, push, f)
  {
    hide Alone, MergePushedPut, Store.Tombstone, PushedPutError, Verifies;
    var m := Checked(cfg, s, push, f);
    AloneNext(cfg, s, Checking(push, f));
    if m.Looking? {
      AloneOffer(cfg, s, m.sync, f);
    } else if m.Evicting? {
      AloneNext(cfg, s, m);
    }
  }

  // ---- overlapping ----

  /** The store and the merges begun on it, in the order they began. */
  datatype Node = Node(store: State, merges: seq<Merge>)

  /** A push arrives, one of the merges makes its next call, or something else happens to the store. */
  datatype Event =
    | Begin(push: SignedSyncEntry, faults: MergeFaults)
    | Advance(index: nat)
    | Meanwhile(cmd: Command)

  ghost function Next(cfg: Config, n: Node, e: Event): Node {
    match e
    case Begin(push, f) => n.(merges := n.merges + [Checking(push, f)])
    case Advance(i) =>
      if i >= |n.merges| then n
      else
        var (s, m) := Advanced(cfg, n.store, n.merges[i]);
        Node(s, n.merges[i := m])
    case Meanwhile(cmd) => n.(store := Step(cfg, n.store, cmd))
  }

  ghost function Overlapped(cfg: Config, es: seq<Event>): Node {
    if es == [] then Node(EMPTY, [])
    else Next(cfg, Overlapped(cfg, es[..|es| - 1]), es[|es| - 1])
  }

  /** The store operation a merge's next call is, if it changes the store at all. */
  function CallOf(m: Merge): seq<Command> {
    match m
    case Evicting(realm, hash, fault) => [DoTombstone(realm, hash, fault)]
    case Putting(sync, f, _) => [DoPut(sync.realm, sync.manifest, sync.artifact, f.put)]
    case Scoring(sync, f, _) =>
      if sync.reputation.None? then [] else [DoAttest(sync.realm, sync.hash, sync.reputation.value, f.attest)]
    case Marking(sync, f, _, _) =>
      if sync.quarantine.None? then [] else [DoQuarantine(sync.realm, sync.hash, sync.quarantine.value, f.quarantine)]
    case _ => []
  }

  lemma CallIsStep(cfg: Config, s: State, m: Merge)
    ensures Advanced(cfg, s, m).0 == if CallOf(m) == [] then s else Step(cfg, s, CallOf(m)[0])
  {
    hide Store.Put, Store.Attest, Store.Tombstone, Store.Quarantine, Get, PushedPutError, Verifies;
  }

  ghost function CallsOf(n: Node, e: Event): seq<Command> {
    match e
    case Begin(_, _) => []
    case Advance(i) => if i < |n.merges| then CallOf(n.merges[i]) else []
    case Meanwhile(cmd) => [cmd]
  }

  /** The operations the store sees, in the order its lock let them in. */
  ghost function Serial(cfg: Config, es: seq<Event>): seq<Command> {
    if es == [] then []
    else
      var front := es[..|es| - 1];
      Serial(cfg, front) + CallsOf(Overlapped(cfg, front), es[|es| - 1])
  }

  /**
   * However any number of merges overlap with each other, with other operations, with faults and with
   * restarts, the store goes through a run of puts, attestations, quarantines, evictions and those other
   * operations. What is proved of every run therefore holds of every overlap.
   */
  lemma {:induction false} OverlapsAreRuns(cfg: Config, es: seq<Event>)
    ensures Overlapped(cfg, es).store == Run(cfg, Serial(cfg, es))
  {
    hide Step, Advanced, CallOf;
    if es != [] {
      var (front, e) := (es[..|es| - 1], es[|es| - 1]);
      var (n, cmds) := (Overlapped(cfg, front), Serial(cfg, front));
      OverlapsAreRuns(cfg, front);
      if e.Advance? && e.index < |n.merges| {
        CallIsStep(cfg, n.store, n.merges[e.index]);
        AtMostOne(n.merges[e.index]);
      }
      var calls := CallsOf(n, e);
      if calls == [] {
        assert cmds + calls == cmds;
      } else {
        assert (cmds + calls)[..|cmds|] == cmds;
      }
    }
  }

  lemma AtMostOne(m: Merge)
    ensures |CallOf(m)| <= 1
  {
  }

  /** The store invariant holds however merges overlap. */
  lemma OverlapsKeepInv(cfg: Config, es: seq<Event>)
    ensures Inv(cfg, Overlapped(cfg, es).store)
  {
    hide Inv, Run;
    OverlapsAreRuns(cfg, es);
    RunInv(cfg, Serial(cfg, es));
  }
}
