/**
 * Where everything in the router comes from, in every interleaving: who an envelope is delivered to and why,
 * that what is journaled or delivered was posted as it is and passed the gate, and whose list the gate reads.
 */
module Provenance {
  import opened Basics
  import opened Addresses
  import opened Router
  import opened RouterRuns

  // ---- who an address means ----

  /** The role whose holder is to get what is sent to the address. */
  predicate Needs(to: Address, role: string) {
    match to
    case Role(name) => role == name
    case Intent(_, _) => role == "distributor"
    case Node(_, _) => role == "transport"
    case NodeRole(_, _) => role == "transport"
    case Realm(_, _) => role == "realm-gateway"
    case Omega(_, _) => role == "omega-gateway"
    case _ => false
  }

  /** The one creature an address other than a topic means, under these bindings. */
  ghost predicate Recipient(roles: map<string, Binding>, to: Address, id: U64) {
    || to == Creature(id)
    || (to == Kernel && id == KERNEL_ID)
    || exists role :: Needs(to, role) && role in roles && roles[role].creature == id
  }

  /** The address means the holder of this role, and it has none. */
  predicate Unprovided(roles: map<string, Binding>, to: Address, role: string) {
    Needs(to, role) && role !in roles
  }

  lemma NeedsSocket(to: Address, role: string)
    requires !to.Creature? && !to.Kernel? && !to.Topic?
    ensures Needs(to, role) <==> Socket(to) == Some(role)
  {
  }

  /** Resolution finds exactly the addressee: the recipient, the subscribers, or that a role has no holder. */
  lemma ResolvesToAddressee(s: State, env: Envelope)
    ensures var (to, call) := (env.header.to, ResolveCall(s, env));
            && (to.Topic? ==> call == Some(Fanning(SubscribersOf(s, to.topic), env)))
            && (!to.Topic? ==>
                  && (forall id: U64 :: call == Some(Sending(id, env)) <==> Recipient(s.roles, to, id))
                  && (call.None? <==> exists role :: Unprovided(s.roles, to, role))
                  && (call.Some? ==> call.value.Sending? && call.value.env == env))
  {
    var to := env.header.to;
    if !to.Creature? && !to.Kernel? && !to.Topic? {
      var socket := Socket(to).value;
      forall role
        ensures Needs(to, role) <==> role == socket
      {
        NeedsSocket(to, role);
      }
      assert socket !in s.roles ==> Unprovided(s.roles, to, socket);
      assert Needs(to, socket);
    }
  }

  /** The creature is among those the address means at this moment. */
  ghost predicate Addressed(s: State, to: Address, id: U64) {
    if to.Topic? then id in SubscribersOf(s, to.topic) else Recipient(s.roles, to, id)
  }

  // ---- what has happened ----

  datatype Fact =
    | Posted(env: Envelope)
    | Granted(env: Envelope)
    | Resolved(env: Envelope, id: U64)
    | Listed(id: U64, calls: seq<string>)

  /** In this state the next step is what brings the fact about. */
  ghost predicate BringsAbout(cfg: Config, s: State, step: Step, fact: Fact) {
    match fact
    case Posted(env) =>
      && step.StartRoute? && step.thread !in s.calls && HeaderOk(cfg, env.header)
      && env == Envelope(step.header, Wrap(s.clock + 1), step.payload)
    case Granted(env) =>
      && step.Proceed? && step.thread in s.calls && s.calls[step.thread] == Stamped(env)
      && MaySend(s.table, env.header)
    case Resolved(env, id) =>
      && step.Proceed? && step.thread in s.calls && s.calls[step.thread] == Journaled(env)
      && Addressed(s, env.header.to, id)
    case Listed(id, calls) =>
      || (step.StartRegister? && step.thread !in s.calls && s.nextId == id && step.caps == calls)
      || (step.RegisterKernel? && id == KERNEL_ID && calls == [])
  }

  /** Some step of the run brought the fact about. */
  ghost predicate Known(cfg: Config, steps: seq<Step>, fact: Fact) {
    exists i :: 0 <= i < |steps| && BringsAbout(cfg, Run(cfg, steps[..i]), steps[i], fact)
  }

  lemma KnownLater(cfg: Config, steps: seq<Step>, step: Step, fact: Fact)
    ensures Known(cfg, steps, fact) ==> Known(cfg, steps + [step], fact)
    ensures BringsAbout(cfg, Run(cfg, steps), step, fact) ==> Known(cfg, steps + [step], fact)
  {
    hide Run, BringsAbout;
    var more := steps + [step];
    if Known(cfg, steps, fact) {
      var i :| 0 <= i < |steps| && BringsAbout(cfg, Run(cfg, steps[..i]), steps[i], fact);
      assert more[..i] == steps[..i] && more[i] == steps[i];
    }
    if BringsAbout(cfg, Run(cfg, steps), step, fact) {
      assert more[..|steps|] == steps && more[|steps|] == step;
    }
  }

  // ---- what a call, an entry, a delivery and a row rest on ----

  ghost predicate CallRests(cfg: Config, steps: seq<Step>, call: Call) {
    match call
    case Registering(id, caps) => Known(cfg, steps, Listed(id, caps))
    case Stamped(env) => Known(cfg, steps, Posted(env))
    case Permitted(env) => Known(cfg, steps, Posted(env)) && Known(cfg, steps, Granted(env))
    case Journaled(env) => Known(cfg, steps, Posted(env)) && Known(cfg, steps, Granted(env))
    case Sending(id, env) => DeliveryRests(cfg, steps, id, env)
    case Fanning(ids, env) => forall id | id in ids :: DeliveryRests(cfg, steps, id, env)
    case _ => true
  }

  ghost predicate DeliveryRests(cfg: Config, steps: seq<Step>, id: U64, env: Envelope) {
    Known(cfg, steps, Posted(env)) && Known(cfg, steps, Granted(env)) && Known(cfg, steps, Resolved(env, id))
  }

  ghost predicate EntryRests(cfg: Config, steps: seq<Step>, entry: Entry) {
    exists payload ::
      var env := Envelope(entry.header, entry.stamp, payload);
      Known(cfg, steps, Posted(env)) && Known(cfg, steps, Granted(env))
  }

  /** Everything in the state rests on what happened. */
  ghost predicate Rests(cfg: Config, steps: seq<Step>, s: State) {
    && (forall t | t in s.calls :: CallRests(cfg, steps, s.calls[t]))
    && (forall i | 0 <= i < |s.accepted| :: EntryRests(cfg, steps, s.accepted[i]))
    && (forall i | 0 <= i < |s.deliveries| :: DeliveryRests(cfg, steps, s.deliveries[i].0, s.deliveries[i].1))
    && (forall id | id in s.table :: Known(cfg, steps, Listed(id, s.table[id].calls)))
  }

  lemma CallRestsLater(cfg: Config, steps: seq<Step>, step: Step, call: Call)
    requires CallRests(cfg, steps, call)
    ensures CallRests(cfg, steps + [step], call)
  {
    hide Known;
    match call {
      case Registering(id, caps) => KnownLater(cfg, steps, step, Listed(id, caps));
      case Stamped(env) => KnownLater(cfg, steps, step, Posted(env));
      case Permitted(env) =>
        KnownLater(cfg, steps, step, Posted(env));
        KnownLater(cfg, steps, step, Granted(env));
      case Journaled(env) =>
        KnownLater(cfg, steps, step, Posted(env));
        KnownLater(cfg, steps, step, Granted(env));
      case Sending(id, env) => DeliveryRestsLater(cfg, steps, step, id, env);
      case Fanning(ids, env) =>
        forall id | id in ids
          ensures DeliveryRests(cfg, steps + [step], id, env)
        {
          DeliveryRestsLater(cfg, steps, step, id, env);
        }
      case _ =>
    }
  }

  lemma DeliveryRestsLater(cfg: Config, steps: seq<Step>, step: Step, id: U64, env: Envelope)
    requires DeliveryRests(cfg, steps, id, env)
    ensures DeliveryRests(cfg, steps + [step], id, env)
  {
    hide Known;
    KnownLater(cfg, steps, step, Posted(env));
    KnownLater(cfg, steps, step, Granted(env));
    KnownLater(cfg, steps, step, Resolved(env, id));
  }

  lemma EntryRestsLater(cfg: Config, steps: seq<Step>, step: Step, entry: Entry)
    requires EntryRests(cfg, steps, entry)
    ensures EntryRests(cfg, steps + [step], entry)
  {
    hide Known;
    var payload :| var env := Envelope(entry.header, entry.stamp, payload);
                   Known(cfg, steps, Posted(env)) && Known(cfg, steps, Granted(env));
    var env := Envelope(entry.header, entry.stamp, payload);
    KnownLater(cfg, steps, step, Posted(env));
    KnownLater(cfg, steps, step, Granted(env));
  }

  /** What rested on a run rests on every longer one. */
  lemma RestsLater(cfg: Config, steps: seq<Step>, step: Step, s: State)
    requires Rests(cfg, steps, s)
    ensures Rests(cfg, steps + [step], s)
  {
    hide CallRests, EntryRests, DeliveryRests, Known;
    forall t | t in s.calls
      ensures CallRests(cfg, steps + [step], s.calls[t])
    {
      CallRestsLater(cfg, steps, step, s.calls[t]);
    }
    forall i | 0 <= i < |s.accepted|
      ensures EntryRests(cfg, steps + [step], s.accepted[i])
    {
      EntryRestsLater(cfg, steps, step, s.accepted[i]);
    }
    forall i | 0 <= i < |s.deliveries|
      ensures DeliveryRests(cfg, steps + [step], s.deliveries[i].0, s.deliveries[i].1)
    {
      DeliveryRestsLater(cfg, steps, step, s.deliveries[i].0, s.deliveries[i].1);
    }
    forall id | id in s.table
      ensures Known(cfg, steps + [step], Listed(id, s.table[id].calls))
    {
      KnownLater(cfg, steps, step, Listed(id, s.table[id].calls));
    }
  }

  // ---- one step ----

  lemma EnterRests(cfg: Config, steps: seq<Step>, s: State, t: nat, call: Call)
    requires Rests(cfg, steps, s) && CallRests(cfg, steps, call)
    ensures Rests(cfg, steps, Enter(s, t, call))
  {
    hide CallRests, EntryRests, DeliveryRests, Known;
  }

  lemma DoneRests(cfg: Config, steps: seq<Step>, s: State, t: nat)
    requires Rests(cfg, steps, s)
    ensures Rests(cfg, steps, Done(s, t))
  {
    hide CallRests, EntryRests, DeliveryRests, Known;
  }

  lemma SendRests(cfg: Config, steps: seq<Step>, s: State, id: U64, env: Envelope)
    requires Rests(cfg, steps, s) && DeliveryRests(cfg, steps, id, env)
    ensures Rests(cfg, steps, Send(cfg, s, id, env))
  {
    hide CallRests, EntryRests, DeliveryRests, Known;
  }

  lemma InsertRests(cfg: Config, steps: seq<Step>, s: State, id: U64, calls: seq<string>)
    requires Rests(cfg, steps, s) && Known(cfg, steps, Listed(id, calls))
    ensures Rests(cfg, steps, Insert(s, id, calls))
  {
    hide CallRests, EntryRests, DeliveryRests, Known;
  }

  /** A change of roles, topics, inboxes or counters, or of the table by removal, brings nothing new. */
  lemma SameRests(cfg: Config, steps: seq<Step>, s: State, s': State)
    requires Rests(cfg, steps, s)
    requires s'.calls == s.calls && s'.accepted == s.accepted && s'.deliveries == s.deliveries
    requires forall id | id in s'.table :: id in s.table && s'.table[id] == s.table[id]
    ensures Rests(cfg, steps, s')
  {
    hide CallRests, EntryRests, DeliveryRests, Known;
  }

  lemma JournalRests(cfg: Config, steps: seq<Step>, s: State, t: nat, env: Envelope)
    requires Rests(cfg, steps, s) && CallRests(cfg, steps, Permitted(env))
    ensures Rests(cfg, steps, Advance(cfg, s, t, Permitted(env)))
  {
    hide DeliveryRests, Known, Journal;
    assert env == Envelope(EntryOf(env).header, EntryOf(env).stamp, env.payload);
    assert EntryRests(cfg, steps, EntryOf(env));
    assert CallRests(cfg, steps, Journaled(env));
    hide CallRests, EntryRests;
  }

  /** One section of a call: what it enters rests on the step itself or on what the call rested on. */
  lemma AdvanceRests(cfg: Config, steps: seq<Step>, t: nat)
    requires var s := Run(cfg, steps); t in s.calls && Rests(cfg, steps + [Proceed(t)], s)
    ensures var s := Run(cfg, steps); Rests(cfg, steps + [Proceed(t)], Advance(cfg, s, t, s.calls[t]))
  {
    hide Known, Send, Insert, WithoutRoles, WithoutSubscriber, Run, Rests, MaySend, ResolveCall, BringsAbout;
    var (s, more) := (Run(cfg, steps), steps + [Proceed(t)]);
    var call := s.calls[t];
    assert CallRests(cfg, more, call) by { RestsAt(cfg, more, s, t); }
    match call {
      case Registering(id, caps) =>
        InsertRests(cfg, more, s, id, caps);
        DoneRests(cfg, more, Insert(s, id, caps), t);
      case LeavingRoles(id) =>
        var s1 := s.(roles := WithoutRoles(s.roles, id));
        SameRests(cfg, more, s, s1);
        EnterRests(cfg, more, s1, t, LeavingTopics(id));
      case LeavingTopics(id) =>
        var s1 := s.(topics := WithoutSubscriber(s.topics, id));
        SameRests(cfg, more, s, s1);
        DoneRests(cfg, more, s1, t);
      case Stamped(env) => GateRests(cfg, steps, t, env);
      case Permitted(env) => JournalRests(cfg, more, s, t, env);
      case Journaled(env) => ResolveRests(cfg, steps, t, env);
      case Sending(id, env) =>
        SendRests(cfg, more, s, id, env);
        DoneRests(cfg, more, Send(cfg, s, id, env), t);
      case Fanning(ids, env) =>
        if ids == [] {
          DoneRests(cfg, more, s, t);
        } else {
          assert ids[0] in ids && forall id | id in ids[1..] :: id in ids;
          SendRests(cfg, more, s, ids[0], env);
          EnterRests(cfg, more, Send(cfg, s, ids[0], env), t, Fanning(ids[1..], env));
        }
    }
  }

  lemma RestsAt(cfg: Config, steps: seq<Step>, s: State, t: nat)
    requires Rests(cfg, steps, s) && t in s.calls
    ensures CallRests(cfg, steps, s.calls[t])
  {
  }

  lemma GateRests(cfg: Config, steps: seq<Step>, t: nat, env: Envelope)
    requires var s := Run(cfg, steps);
             t in s.calls && s.calls[t] == Stamped(env) && Rests(cfg, steps + [Proceed(t)], s)
    requires CallRests(cfg, steps + [Proceed(t)], Stamped(env))
    ensures var s := Run(cfg, steps); Rests(cfg, steps + [Proceed(t)], Advance(cfg, s, t, Stamped(env)))
  {
    hide Known, Run, Rests, MaySend;
    var (s, more) := (Run(cfg, steps), steps + [Proceed(t)]);
    if MaySend(s.table, env.header) {
      KnownLater(cfg, steps, Proceed(t), Granted(env));
      EnterRests(cfg, more, s, t, Permitted(env));
    } else {
      DoneRests(cfg, more, s, t);
    }
  }

  lemma ResolveRests(cfg: Config, steps: seq<Step>, t: nat, env: Envelope)
    requires var s := Run(cfg, steps);
             t in s.calls && s.calls[t] == Journaled(env) && Rests(cfg, steps + [Proceed(t)], s)
    requires CallRests(cfg, steps + [Proceed(t)], Journaled(env))
    ensures var s := Run(cfg, steps); Rests(cfg, steps + [Proceed(t)], Advance(cfg, s, t, Journaled(env)))
  {
    hide Known, Run, Rests, ResolveCall, Recipient, SubscribersOf;
    var (s, more) := (Run(cfg, steps), steps + [Proceed(t)]);
    var next := ResolveCall(s, env);
    ResolvesToAddressee(s, env);
    if next.None? {
      DoneRests(cfg, more, s, t);
    } else {
      forall id: U64 | Addressed(s, env.header.to, id)
        ensures DeliveryRests(cfg, more, id, env)
      {
        KnownLater(cfg, steps, Proceed(t), Resolved(env, id));
      }
      EnterRests(cfg, more, s, t, next.value);
    }
  }

  lemma NextRests(cfg: Config, steps: seq<Step>, step: Step)
    requires Rests(cfg, steps, Run(cfg, steps))
    ensures Rests(cfg, steps + [step], Next(cfg, Run(cfg, steps), step))
  {
    hide Known, Run, Rests, Advance, Insert, Subscribed, HeaderOk, CallRests, Taken, Closed, Wrap;
    var (s, more) := (Run(cfg, steps), steps + [step]);
    RestsLater(cfg, steps, step, s);
    match step {
      case Proceed(t) =>
        if t in s.calls {
          AdvanceRests(cfg, steps, t);
        }
      case StartRegister(t, caps) =>
        if t !in s.calls {
          AllocateRests(cfg, steps, t, caps);
        }
      case StartDeregister(t, id) =>
        if t !in s.calls {
          SameRests(cfg, more, s, Remove(s, id));
          LeavingRests(cfg, more, id);
          EnterRests(cfg, more, Remove(s, id), t, LeavingRoles(id));
        }
      case StartRoute(t, header, payload) =>
        if t !in s.calls && HeaderOk(cfg, header) {
          PostRests(cfg, steps, t, header, payload);
        }
      case RegisterKernel =>
        KnownLater(cfg, steps, step, Listed(KERNEL_ID, []));
        InsertRests(cfg, more, s, KERNEL_ID, []);
      case Receive(c) =>
        TakenFrame(s, c);
        SameRests(cfg, more, s, Taken(s, c));
      case HangUp(c) =>
        ClosedFrame(s, c);
        SameRests(cfg, more, s, Closed(s, c));
      case _ => SameRests(cfg, more, s, Next(cfg, s, step));
    }
  }

  lemma TakenFrame(s: State, c: nat)
    ensures Taken(s, c) == s.(channels := Taken(s, c).channels)
  {
  }

  lemma ClosedFrame(s: State, c: nat)
    ensures Closed(s, c) == s.(channels := Closed(s, c).channels)
  {
  }

  lemma LeavingRests(cfg: Config, steps: seq<Step>, id: U64)
    ensures CallRests(cfg, steps, LeavingRoles(id))
  {
  }

  lemma AllocateRests(cfg: Config, steps: seq<Step>, t: nat, caps: seq<string>)
    requires var s := Run(cfg, steps); t !in s.calls && Rests(cfg, steps + [StartRegister(t, caps)], s)
    ensures Rests(cfg, steps + [StartRegister(t, caps)], Allocate(Run(cfg, steps), t, caps))
  {
    hide Known, Run, Rests, Wrap;
    var (s, more) := (Run(cfg, steps), steps + [StartRegister(t, caps)]);
    var s1 := s.(nextId := Wrap(s.nextId + 1), ids := s.ids + [s.nextId]);
    KnownLater(cfg, steps, StartRegister(t, caps), Listed(s.nextId, caps));
    SameRests(cfg, more, s, s1);
    EnterRests(cfg, more, s1, t, Registering(s.nextId, caps));
  }

  lemma PostRests(cfg: Config, steps: seq<Step>, t: nat, header: Header, payload: Bytes)
    requires var s := Run(cfg, steps); t !in s.calls && Rests(cfg, steps + [StartRoute(t, header, payload)], s)
    requires HeaderOk(cfg, header)
    ensures Rests(cfg, steps + [StartRoute(t, header, payload)], Stamp(Run(cfg, steps), t, header, payload))
  {
    hide Known, Run, Rests, Wrap, HeaderOk;
    var (s, more) := (Run(cfg, steps), steps + [StartRoute(t, header, payload)]);
    var stamp := Wrap(s.clock + 1);
    var s1 := s.(clock := stamp, stamps := s.stamps + [stamp]);
    var env := Envelope(header, stamp, payload);
    KnownLater(cfg, steps, StartRoute(t, header, payload), Posted(env));
    SameRests(cfg, more, s, s1);
    EnterRests(cfg, more, s1, t, Stamped(env));
  }

  // ---- every interleaving ----

  lemma BootRests(cfg: Config)
    ensures Rests(cfg, [], BOOT)
  {
  }

  lemma {:induction false} RunRests(cfg: Config, steps: seq<Step>)
    ensures Rests(cfg, steps, Run(cfg, steps))
  {
    hide Rests, Next;
    if steps == [] {
      BootRests(cfg);
    } else {
      var (front, step) := (steps[..|steps| - 1], steps[|steps| - 1]);
      assert front + [step] == steps;
      RunRests(cfg, front);
      NextRests(cfg, front, step);
    }
  }

  /**
   * Whatever was delivered, to whom: the envelope was posted with that header and payload and got its stamp
   * then; at the gate its sender was allowed to send it; and when its address was resolved, that creature was
   * the recipient, or a subscriber of the topic.
   */
  lemma DeliveriesReachTheirAddressee(cfg: Config, steps: seq<Step>, i: nat)
    requires i < |Run(cfg, steps).deliveries|
    ensures var (id, env) := Run(cfg, steps).deliveries[i];
            Known(cfg, steps, Posted(env)) && Known(cfg, steps, Granted(env)) && Known(cfg, steps, Resolved(env, id))
  {
    hide Run, Known;
    RunRests(cfg, steps);
    assert DeliveryRests(cfg, steps, Run(cfg, steps).deliveries[i].0, Run(cfg, steps).deliveries[i].1);
  }

  /** Whatever was journaled was posted and passed the gate. */
  lemma JournalHoldsOnlyGranted(cfg: Config, steps: seq<Step>, i: nat)
    requires i < |Run(cfg, steps).accepted|
    ensures EntryRests(cfg, steps, Run(cfg, steps).accepted[i])
  {
    hide Run, Known;
    RunRests(cfg, steps);
  }

  /** The list the gate reads for a creature is the one handed over when that id was given out. */
  lemma ListsAreTheRegistered(cfg: Config, steps: seq<Step>, id: U64)
    requires id in Run(cfg, steps).table
    ensures Known(cfg, steps, Listed(id, Run(cfg, steps).table[id].calls))
  {
    hide Run, Known;
    RunRests(cfg, steps);
  }

  // ---- the gate ----

  /** A registered creature with a list, without the wildcard, in which no entry names the destination. */
  ghost predicate Stopped(table: map<U64, Row>, h: Header) {
    && h.from.Creature? && h.from.id in table && table[h.from.id].calls != []
    && "*" !in table[h.from.id].calls
    && forall g: Address | Key(g) in table[h.from.id].calls :: !Names(g, h.to)
  }

  /** Exactly those are stopped at the gate. */
  lemma GateStopsIff(table: map<U64, Row>, h: Header)
    ensures !MaySend(table, h) <==> Stopped(table, h)
  {
    if h.from.Creature? && h.from.id in table {
      GateGrantsIff(table[h.from.id].calls, h.to);
    }
  }

  /** Nothing with this stamp is in the history or on its way there. */
  ghost predicate Dead(s: State, stamp: nat) {
    && 1 <= stamp <= |s.stamps|
    && (forall i | 0 <= i < |s.accepted| :: s.accepted[i].stamp != stamp)
    && (forall t | t in s.calls && BeforeJournal(s.calls[t]) :: s.calls[t].env.stamp != stamp)
  }

  lemma DeadAdvance(cfg: Config, s: State, t: nat, stamp: nat)
    requires Dead(s, stamp) && t in s.calls
    ensures Dead(Advance(cfg, s, t, s.calls[t]), stamp)
  {
    var call := s.calls[t];
    hide Send, WithoutRoles, WithoutSubscriber, MaySend, Journal;
    AdvanceFrame(cfg, s, t, call);
    if call.Sending? {
      SendFrame(cfg, s, call.id, call.env);
    } else if call.Fanning? && call.ids != [] {
      SendFrame(cfg, s, call.ids[0], call.env);
    }
  }

  lemma DeadNext(cfg: Config, s: State, step: Step, stamp: nat)
    requires Dead(s, stamp) && Counted(s) && |Next(cfg, s, step).stamps| <= U64_MAX
    ensures Dead(Next(cfg, s, step), stamp)
  {
    hide Advance, Subscribed, HeaderOk;
    if step.Proceed? && step.thread in s.calls {
      hide Dead;
      DeadAdvance(cfg, s, step.thread, stamp);
    }
  }

  lemma {:induction false} DeadAfter(cfg: Config, before: seq<Step>, later: seq<Step>, stamp: nat)
    requires Dead(Run(cfg, before), stamp) && |Run(cfg, before + later).stamps| <= U64_MAX
    ensures Dead(Run(cfg, before + later), stamp)
    decreases |later|
  {
    hide Next, Dead;
    if later == [] {
      assert before + later == before;
    } else {
      var (front, step) := (later[..|later| - 1], later[|later| - 1]);
      assert (before + later)[..|before + later| - 1] == before + front;
      var s := Run(cfg, before + front);
      StampsGrow(cfg, s, step);
      DeadAfter(cfg, before, front, stamp);
      RunSound(cfg, before + front);
      DeadNext(cfg, s, step, stamp);
    }
  }

  /**
   * In every interleaving of fewer than 2^64 routings, an envelope the gate refuses never gets into the
   * history or into an inbox, then or later.
   */
  lemma RefusedIsNeverSeen(cfg: Config, before: seq<Step>, t: nat, later: seq<Step>)
    requires var s := Run(cfg, before);
             t in s.calls && s.calls[t].Stamped? && !MaySend(s.table, s.calls[t].env.header)
    requires |Run(cfg, before + [Proceed(t)] + later).stamps| <= U64_MAX
    ensures var (env, s') := (Run(cfg, before).calls[t].env, Run(cfg, before + [Proceed(t)] + later));
            && (forall i | 0 <= i < |s'.accepted| :: s'.accepted[i].stamp != env.stamp)
            && (forall i | 0 <= i < |s'.deliveries| :: s'.deliveries[i].1.stamp != env.stamp)
  {
    hide Run, MaySend;
    var (s, env) := (Run(cfg, before), Run(cfg, before).calls[t].env);
    var all := before + [Proceed(t)] + later;
    RunSplit(cfg, before, [Proceed(t)]);
    AfterOne(cfg, s, Proceed(t));
    StampsOnly(cfg, before, [Proceed(t)] + later);
    assert before + ([Proceed(t)] + later) == all;
    EntriesHaveTheirOwnStamps(cfg, before);
    var s1 := Next(cfg, s, Proceed(t));
    assert s1 == Done(s, t);
    assert Dead(s1, env.stamp);
    DeadAfter(cfg, before + [Proceed(t)], later, env.stamp);
    DeliveriesAreJournaled(cfg, all);
  }

  lemma {:induction false} StampsOnly(cfg: Config, before: seq<Step>, later: seq<Step>)
    ensures |Run(cfg, before).stamps| <= |Run(cfg, before + later).stamps|
    decreases |later|
  {
    hide Next;
    if later == [] {
      assert before + later == before;
    } else {
      var front := later[..|later| - 1];
      assert (before + later)[..|before + later| - 1] == before + front;
      StampsOnly(cfg, before, front);
      StampsGrow(cfg, Run(cfg, before + front), later[|later| - 1]);
    }
  }
}
