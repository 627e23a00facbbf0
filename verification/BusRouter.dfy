/**
 * The router in its own form: an object whose tables, counters, journal ring and inboxes are changed
 * in place. Each method is one call with no other in progress, and is proved to be the matching run
 * of steps of the machine in `Router`.
 */
module BusRouter {
  import opened Basics
  import opened Addresses
  import opened Router
  import opened RouterRuns
  import opened Provenance

  class Bus {
    const cfg: Config
    var table: map<U64, Row>
    var roles: map<string, Binding>
    var topics: map<string, seq<U64>>
    var journal: seq<Entry>
    var clock: U64
    var nextId: U64
    var channels: seq<Channel>
    // what has happened so far
    ghost var ids: seq<U64>
    ghost var stamps: seq<U64>
    ghost var accepted: seq<Entry>
    ghost var deliveries: seq<(U64, Envelope)>
    ghost var unloaded: set<U64>

    ghost function Snapshot(): State
      reads this
    {
      State(table, roles, topics, journal, clock, nextId, channels, map[], ids, stamps, accepted, deliveries, unloaded)
    }

    /** What the tables, the counters, the journal and the inboxes promise together. */
    ghost predicate Valid()
      reads this
    {
      Sound(cfg, Snapshot())
    }

    constructor (inboxCapacity: nat, journalCap: nat, maxTopics: nat, headerFits: Header -> bool)
      ensures cfg == Config(Max(inboxCapacity, 1), journalCap, maxTopics, headerFits) && Snapshot() == BOOT && Valid()
    {
      cfg := Config(Max(inboxCapacity, 1), journalCap, maxTopics, headerFits);
      table, roles, topics, journal, clock, nextId, channels := map[], map[], map[], [], 0, KERNEL_ID + 1, [];
      ids, stamps, accepted, deliveries, unloaded := [], [], [], [], {};
    }

    // ---- registration ----

    method InsertRow(id: U64, caps: seq<string>)
      modifies `table, `channels
      ensures Snapshot() == Insert(old(Snapshot()), id, caps)
    {
      table := table[id := Row(|channels|, caps)];
      channels := channels + [Channel([], true, [], [])];
    }

    method Register(caps: seq<string>) returns (id: U64)
      requires Valid()
      modifies this
      ensures Valid() && id == old(nextId)
      ensures Snapshot() == After(cfg, old(Snapshot()), [StartRegister(0, caps), Proceed(0)])
      ensures table == old(table)[id := Row(|old(channels)|, caps)]
      ensures channels == old(channels) + [Channel([], true, [], [])]
      ensures roles == old(roles) && topics == old(topics) && journal == old(journal)
    {
      hide Next, After, Wrap, Sound;
      SoundAfter(cfg, Snapshot(), [StartRegister(0, caps), Proceed(0)]);
      id := nextId;
      nextId := Wrap(nextId + 1);
      ids := ids + [id];
      InsertRow(id, caps);
      RegisterIs(cfg, old(Snapshot()), caps);
    }

    /** Drop every binding to `id`. */
    method RetainRoles(id: U64)
      modifies `roles
      ensures roles == WithoutRoles(old(roles), id)
    {
      var todo := roles.Keys;
      while todo != {}
        invariant todo <= old(roles).Keys
        invariant roles == map r | r in old(roles) && (r in todo || old(roles)[r].creature != id) :: old(roles)[r]
        decreases todo
      {
        var r :| r in todo;
        if roles[r].creature == id {
          roles := roles - {r};
        }
        todo := todo - {r};
      }
    }

    /** Drop `id` from every subscriber list. */
    method RetainSubscribers(id: U64)
      modifies `topics
      ensures topics == WithoutSubscriber(old(topics), id)
    {
      var todo := topics.Keys;
      while todo != {}
        invariant todo <= old(topics).Keys && topics.Keys == old(topics).Keys
        invariant forall t | t in topics :: topics[t] == if t in todo then old(topics)[t] else Without(old(topics)[t], id)
        decreases todo
      {
        var t :| t in todo;
        var kept := Retain(topics[t], id);
        topics := topics[t := kept];
        todo := todo - {t};
      }
    }

    method Deregister(id: U64)
      requires Valid()
      modifies this
      ensures Valid()
      ensures Snapshot() == After(cfg, old(Snapshot()), [StartDeregister(0, id), Proceed(0)] + [Proceed(0)])
      ensures table == old(table) - {id} && channels == old(channels) && journal == old(journal)
      ensures RolesLost(old(roles), roles, id) && TopicsLost(old(topics), topics, id)
    {
      hide Next, After, Sound, WithoutRoles, WithoutSubscriber, RolesLost, TopicsLost, TopicsOk;
      SoundAfter(cfg, Snapshot(), [StartDeregister(0, id), Proceed(0)] + [Proceed(0)]);
      SoundTopics(cfg, Snapshot());
      unloaded := if id in table then unloaded + {id} else unloaded;
      table := table - {id};
      RetainRoles(id);
      RetainSubscribers(id);
      DeregisterIs(cfg, old(Snapshot()), id);
      LeavingLoses(cfg, old(roles), old(topics), id);
    }

    method BindRole(role: string, id: U64, remote: bool)
      requires Valid()
      modifies `roles
      ensures Valid() && Snapshot() == Next(cfg, old(Snapshot()), Step.BindRole(role, id, remote))
      ensures roles == old(roles)[role := Binding(id, remote)]
    {
      hide Sound;
      SoundNext(cfg, Snapshot(), Step.BindRole(role, id, remote));
      roles := roles[role := Binding(id, remote)];
    }

    method UnbindRole(role: string)
      requires Valid()
      modifies `roles
      ensures Valid() && Snapshot() == Next(cfg, old(Snapshot()), Step.UnbindRole(role))
      ensures roles == old(roles) - {role}
    {
      hide Sound;
      SoundNext(cfg, Snapshot(), Step.UnbindRole(role));
      roles := roles - {role};
    }

    /** What another node may resolve a role to; `RemoteExposureIsExplicit` says what that can be. */
    method RemoteRoleBinding(role: string) returns (r: Option<U64>)
      ensures r == RemoteBinding(roles, role)
    {
      if role in roles && roles[role].remote {
        return Some(roles[role].creature);
      }
      return None;
    }

    method RegisterKernel()
      requires Valid()
      modifies `table, `channels
      ensures Valid() && Snapshot() == Next(cfg, old(Snapshot()), Step.RegisterKernel)
      ensures table == old(table)[KERNEL_ID := Row(|old(channels)|, [])]
      ensures channels == old(channels) + [Channel([], true, [], [])]
    {
      hide Sound;
      SoundNext(cfg, Snapshot(), Step.RegisterKernel);
      InsertRow(KERNEL_ID, []);
    }

    method Subscribe(topic: string, id: U64)
      requires Valid()
      modifies `topics
      ensures Valid() && Snapshot() == Next(cfg, old(Snapshot()), Step.Subscribe(topic, id))
      ensures forall t | t in old(topics) :: t in topics && old(topics)[t] <= topics[t]
      ensures topic in topics && id in topics[topic] <==> TopicFits(cfg, old(topics), topic)
      ensures forall t | t in topics && t != topic :: t in old(topics) && topics[t] == old(topics)[t]
      ensures topic in topics ==>
                var before := if topic in old(topics) then old(topics)[topic] else [];
                topics[topic] == if id in before then before else before + [id]
    {
      hide Sound;
      SoundNext(cfg, Snapshot(), Step.Subscribe(topic, id));
      if topic !in topics && cfg.maxTopics != 0 && |topics| >= cfg.maxTopics {
        return;
      }
      var subs := if topic in topics then topics[topic] else [];
      if id !in subs {
        subs := subs + [id];
      }
      topics := topics[topic := subs];
    }

    // ---- routing ----

    /** Append to the history and drop the oldest entries past the cap. */
    method PushJournal(entry: Entry)
      modifies `journal
      ensures journal == Journal(cfg.journalCap, old(journal), entry)
    {
      journal := journal + [entry];
      ghost var all := journal;
      while |journal| > cfg.journalCap
        invariant |journal| <= |all| && journal == all[|all| - |journal|..]
        invariant |all| > cfg.journalCap ==> |journal| >= cfg.journalCap
        invariant |all| <= cfg.journalCap ==> journal == all
      {
        journal := journal[1..];
      }
    }

    method DeliverTo(id: U64, env: Envelope) returns (r: Option<RouteError>)
      modifies `channels, `deliveries
      ensures Snapshot() == Send(cfg, old(Snapshot()), id, env) && r == SendError(cfg, old(Snapshot()), id)
    {
      if id !in table || table[id].chan >= |channels| || !channels[table[id].chan].open {
        return Some(NoSuchModule(id));
      }
      var c := table[id].chan;
      if |channels[c].queue| >= cfg.inboxCapacity {
        return Some(Backpressure(id));
      }
      channels := channels[c := channels[c].(queue := channels[c].queue + [env], sent := channels[c].sent + [env])];
      deliveries := deliveries + [(id, env)];
      return None;
    }

    /** Offer the envelope to each subscriber, whatever becomes of the others. */
    method FanOut(subscribers: seq<U64>, env: Envelope)
      modifies `channels, `deliveries
      ensures Snapshot() == SendAll(cfg, old(Snapshot()), subscribers, env)
    {
      hide Send;
      for i := 0 to |subscribers|
        invariant Snapshot() == SendAll(cfg, old(Snapshot()), subscribers[..i], env)
      {
        assert subscribers[..i + 1][..i] == subscribers[..i];
        var _ := DeliverTo(subscribers[i], env);
      }
      assert subscribers[..|subscribers|] == subscribers;
    }

    method Route(header: Header, payload: Bytes) returns (r: Option<RouteError>)
      requires Valid()
      modifies this
      ensures Valid() && r == RouteReply(cfg, old(Snapshot()), header)
      ensures Snapshot() == After(cfg, old(Snapshot()), RouteSteps(old(Snapshot()), header, payload))
      ensures RouteAnswers(cfg, old(Snapshot()), header, r)
      ensures RouteEffect(cfg, old(Snapshot()), Snapshot(), header, payload, r)
    {
      hide Next, After, Send, SendAll, Journal, MaySend, Wrap, RouteSteps, SendError, Dispatched, DispatchReply, Sound,
           RouteAnswers, RouteEffect;
      SoundAfter(cfg, Snapshot(), RouteSteps(Snapshot(), header, payload));
      RepliesToRoute(cfg, Snapshot(), header);
      EffectOfRoute(cfg, Snapshot(), header, payload);
      RouteIs(cfg, Snapshot(), header, payload);
      var toDepth := NestingDepth(header.to);
      var fromDepth := NestingDepth(header.from);
      if Max(toDepth, fromDepth) > MAX_NESTING {
        return Some(TooDeep(Max(toDepth, fromDepth)));
      }
      if !cfg.headerFits(header) {
        return Some(HeaderTooLarge);
      }
      clock := Wrap(clock + 1);
      stamps := stamps + [clock];
      var env := Envelope(header, clock, payload);
      if !MaySend(table, header) {
        FromCreature(table, header);
        return Some(Denied(header.from.id));
      }
      PushJournal(EntryOf(env));
      accepted := accepted + [EntryOf(env)];
      SendErrorSame(cfg, old(Snapshot()), Snapshot());
      r := Dispatch(env);
    }

    /** Deliver by address mode. */
    method Dispatch(env: Envelope) returns (r: Option<RouteError>)
      modifies `channels, `deliveries
      ensures Snapshot() == Dispatched(cfg, old(Snapshot()), env)
      ensures r == DispatchReply(cfg, old(Snapshot()), env.header.to)
    {
      hide Send, SendAll, SendError;
      match env.header.to {
        case Creature(id) =>
          r := DeliverTo(id, env);
        case Kernel =>
          r := DeliverTo(KERNEL_ID, env);
        case Topic(topic) =>
          FanOut(if topic in topics then topics[topic] else [], env);
          r := None;
        case to =>
          var socket := Socket(to).value;
          if socket in roles {
            r := DeliverTo(roles[socket].creature, env);
          } else {
            r := Some(NoProvider(socket));
          }
      }
    }
  }

  // ---- one routing call as a run of steps ----

  function Proceeds(n: nat): seq<Step> {
    if n == 0 then [] else Proceeds(n - 1) + [Proceed(0)]
  }

  /** How many steps the delivery takes: one, or one for each subscriber and one to end. */
  function DeliverySteps(s: State, to: Address): nat {
    match to
    case Topic(topic) => |SubscribersOf(s, topic)| + 1
    case _ => 1
  }

  function RouteSteps(s: State, header: Header, payload: Bytes): seq<Step> {
    [StartRoute(0, header, payload), Proceed(0)] + ([Proceed(0), Proceed(0)] + Proceeds(DeliverySteps(s, header.to)))
  }

  function Dispatched(cfg: Config, s: State, env: Envelope): State {
    match ResolveCall(s, env)
    case Some(Sending(id, _)) => Send(cfg, s, id, env)
    case Some(Fanning(ids, _)) => SendAll(cfg, s, ids, env)
    case _ => s
  }

  /** The state after one routing call with no other in progress. */
  function RoutedAlone(cfg: Config, s: State, header: Header, payload: Bytes): State {
    var stamp := Wrap(s.clock + 1);
    var env := Envelope(header, stamp, payload);
    var s1 := s.(clock := stamp, stamps := s.stamps + [stamp]);
    if !HeaderOk(cfg, header) then s
    else if !MaySend(s.table, header) then s1
    else
      Dispatched(cfg, s1.(journal := Journal(cfg.journalCap, s.journal, EntryOf(env)),
                          accepted := s.accepted + [EntryOf(env)]), env)
  }

  // ---- what a routing call answers and does ----

  /** What the inbox of `id` says to one more envelope. */
  predicate InboxAnswers(cfg: Config, s: State, id: U64, r: Option<RouteError>) {
    if id !in s.table || s.table[id].chan >= |s.channels| || !s.channels[s.table[id].chan].open
    then r == Some(NoSuchModule(id))
    else if |s.channels[s.table[id].chan].queue| >= cfg.inboxCapacity then r == Some(Backpressure(id))
    else r == None
  }

  /** The reply names the first thing that stands in the way, if anything does. */
  ghost predicate RouteAnswers(cfg: Config, s: State, header: Header, r: Option<RouteError>) {
    if Depth(header.to) > MAX_NESTING || Depth(header.from) > MAX_NESTING
    then r == Some(TooDeep(Max(Depth(header.to), Depth(header.from))))
    else if !cfg.headerFits(header) then r == Some(HeaderTooLarge)
    else if Stopped(s.table, header) then r == Some(Denied(header.from.id))
    else if header.to.Topic? then r == None
    else
      || (exists role :: Unprovided(s.roles, header.to, role) && r == Some(NoProvider(role)))
      || (exists id: U64 :: Recipient(s.roles, header.to, id) && InboxAnswers(cfg, s, id, r))
  }

  lemma SendErrorAnswers(cfg: Config, s: State, id: U64)
    ensures InboxAnswers(cfg, s, id, SendError(cfg, s, id))
    ensures SendError(cfg, s, id).None? <==> Takes(cfg, s, id)
  {
  }

  lemma RepliesToDispatch(cfg: Config, s: State, to: Address)
    requires !to.Topic?
    ensures var r := DispatchReply(cfg, s, to);
            || (exists role :: Unprovided(s.roles, to, role) && r == Some(NoProvider(role)))
            || (exists id: U64 :: Recipient(s.roles, to, id) && InboxAnswers(cfg, s, id, r))
  {
    hide SendError, InboxAnswers;
    if to.Creature? {
      SendErrorAnswers(cfg, s, to.id);
      assert Recipient(s.roles, to, to.id);
    } else if to.Kernel? {
      SendErrorAnswers(cfg, s, KERNEL_ID);
      assert Recipient(s.roles, to, KERNEL_ID);
    } else {
      var socket := Socket(to).value;
      NeedsSocket(to, socket);
      if socket in s.roles {
        SendErrorAnswers(cfg, s, s.roles[socket].creature);
        assert Recipient(s.roles, to, s.roles[socket].creature);
      } else {
        assert Unprovided(s.roles, to, socket);
      }
    }
  }

  lemma RepliesToRoute(cfg: Config, s: State, header: Header)
    ensures RouteAnswers(cfg, s, header, RouteReply(cfg, s, header))
  {
    hide DispatchReply, InboxAnswers, Recipient, MaySend, Stopped;
    GateStopsIff(s.table, header);
    if !header.to.Topic? {
      RepliesToDispatch(cfg, s, header.to);
    } else {
      assert DispatchReply(cfg, s, header.to) == None by { TopicReply(cfg, s, header.to); }
    }
  }

  /** An envelope is too deep exactly when its sender or its destination is wrapped more than eight times. */
  lemma TooDeepIff(
    cfg: Config, s: State, header: Header, from: Address, to: Address, fromWraps: seq<(string, bool)>,
    toWraps: seq<(string, bool)>)
    requires !from.Realm? && !from.Omega? && !to.Realm? && !to.Omega?
    requires header.from == Wrapped(from, fromWraps) && header.to == Wrapped(to, toWraps)
    ensures RouteReply(cfg, s, header) == Some(TooDeep(Max(|toWraps|, |fromWraps|))) <==>
              |fromWraps| > 8 || |toWraps| > 8
  {
    hide DispatchReply, MaySend, Wrapped;
    DepthCountsWrappers(from, fromWraps);
    DepthCountsWrappers(to, toWraps);
    ErrorKinds(cfg, s, header.to);
  }

  lemma TopicReply(cfg: Config, s: State, to: Address)
    requires to.Topic?
    ensures DispatchReply(cfg, s, to) == None
  {
  }

  /** The copies of a fan-out: one for each subscriber whose inbox can take it, in order. */
  function Copies(cfg: Config, s: State, ids: seq<U64>, env: Envelope): seq<(U64, Envelope)> {
    if ids == [] then []
    else
      var last := ids[|ids| - 1];
      Copies(cfg, s, ids[..|ids| - 1], env) + if Takes(cfg, s, last) then [(last, env)] else []
  }

  /** The inbox belongs to one of the creatures that got a copy. */
  ghost predicate Reached(s: State, got: seq<(U64, Envelope)>, env: Envelope, c: nat) {
    exists id: U64 :: (id, env) in got && id in s.table && s.table[id].chan == c
  }

  /** Exactly the inboxes of these creatures got the envelope, at the end; all others are as they were. */
  ghost predicate InboxesGot(s: State, s': State, got: seq<(U64, Envelope)>, env: Envelope) {
    && |s'.channels| == |s.channels|
    && forall c | 0 <= c < |s.channels| ::
         s'.channels[c] ==
           if Reached(s, got, env, c)
           then s.channels[c].(queue := s.channels[c].queue + [env], sent := s.channels[c].sent + [env])
           else s.channels[c]
  }

  /** The deliveries of one call are `got`, and they are in the inboxes. */
  ghost predicate Got(s: State, s': State, got: seq<(U64, Envelope)>, env: Envelope) {
    s'.deliveries == s.deliveries + got && InboxesGot(s, s', got, env)
  }

  /** What one routing call does, given what it answers. */
  ghost predicate RouteEffect(cfg: Config, s: State, s': State, header: Header, payload: Bytes, r: Option<RouteError>) {
    var env := Envelope(header, Wrap(s.clock + 1), payload);
    if r.Some? && (r.value.TooDeep? || r.value.HeaderTooLarge?) then s' == s
    else
      && s'.clock == env.stamp
      && s' == s.(clock := s'.clock, stamps := s'.stamps, journal := s'.journal, accepted := s'.accepted,
                  channels := s'.channels, deliveries := s'.deliveries)
      && (if r.Some? && r.value.Denied? then s'.journal == s.journal && Got(s, s', [], env)
          else
            && s'.journal == LastOf(cfg.journalCap, s.journal + [Entry(header, env.stamp)])
            && (header.to.Topic? ==> Got(s, s', Copies(cfg, s, SubscribersOf(s, header.to.topic), env), env))
            && (!header.to.Topic? && r.Some? ==> Got(s, s', [], env))
            && (!header.to.Topic? && r.None? ==>
                  exists id: U64 :: Recipient(s.roles, header.to, id) && Got(s, s', [(id, env)], env)))
  }

  lemma SendGot(cfg: Config, s: State, id: U64, env: Envelope)
    requires RowsOk(s)
    ensures Got(s, Send(cfg, s, id, env), if Takes(cfg, s, id) then [(id, env)] else [], env)
  {
    if Takes(cfg, s, id) {
      assert (id, env) in [(id, env)];
    }
  }

  lemma NothingGot(s: State, s': State, env: Envelope)
    requires s'.channels == s.channels && s'.deliveries == s.deliveries
    ensures Got(s, s', [], env)
  {
  }

  lemma GotSame(a: State, b: State, s': State, got: seq<(U64, Envelope)>, env: Envelope)
    requires a.channels == b.channels && a.deliveries == b.deliveries && a.table == b.table
    ensures Got(a, s', got, env) <==> Got(b, s', got, env)
  {
  }

  lemma {:induction false} CopiesOnlyTo(cfg: Config, s: State, ids: seq<U64>, env: Envelope)
    ensures forall x: U64 :: (x, env) in Copies(cfg, s, ids, env) <==> x in ids && Takes(cfg, s, x)
  {
    hide Takes;
    if ids != [] {
      CopiesOnlyTo(cfg, s, ids[..|ids| - 1], env);
      assert ids == ids[..|ids| - 1] + [ids[|ids| - 1]];
    }
  }

  /** A copy to somebody else takes no room in this creature's inbox. */
  lemma TakesSame(cfg: Config, s: State, s': State, got: seq<(U64, Envelope)>, env: Envelope, id: U64)
    requires RowsOk(s) && s'.table == s.table && InboxesGot(s, s', got, env) && (id, env) !in got
    ensures Takes(cfg, s', id) <==> Takes(cfg, s, id)
  {
    if id in s.table {
      var c := s.table[id].chan;
      assert s'.channels[c] == s.channels[c];
    }
  }

  lemma GotOneMore(cfg: Config, s: State, s1: State, got: seq<(U64, Envelope)>, env: Envelope, id: U64)
    requires RowsOk(s) && s1.table == s.table && Got(s, s1, got, env) && (id, env) !in got
    ensures Got(s, Send(cfg, s1, id, env), got + if Takes(cfg, s, id) then [(id, env)] else [], env)
  {
    TakesSame(cfg, s, s1, got, env, id);
    var s' := Send(cfg, s1, id, env);
    var more := got + if Takes(cfg, s, id) then [(id, env)] else [];
    if Takes(cfg, s, id) {
      var mine := s.table[id].chan;
      assert (id, env) in more;
      forall c | 0 <= c < |s.channels|
        ensures Reached(s, more, env, c) <==> c == mine || Reached(s, got, env, c)
      {
      }
      assert s1.channels[mine] == s.channels[mine];
    } else {
      assert more == got;
    }
  }

  lemma {:induction false} SendAllGot(cfg: Config, s: State, ids: seq<U64>, env: Envelope)
    requires RowsOk(s) && NoRepeats(ids)
    ensures Got(s, SendAll(cfg, s, ids, env), Copies(cfg, s, ids, env), env)
  {
    hide Takes, Send, RowsOk, Got;
    if ids == [] {
      NothingGot(s, s, env);
    } else {
      var (front, last) := (ids[..|ids| - 1], ids[|ids| - 1]);
      SendAllGot(cfg, s, front, env);
      SendAllFrame(cfg, s, front, env);
      CopiesOnlyTo(cfg, s, front, env);
      assert last !in front;
      GotOneMore(cfg, s, SendAll(cfg, s, front, env), Copies(cfg, s, front, env), env, last);
    }
  }

  lemma SoundTopics(cfg: Config, s: State)
    requires Sound(cfg, s)
    ensures RowsOk(s) && TopicsOk(cfg, s.topics)
  {
  }

  lemma EffectOfDispatch(cfg: Config, s: State, env: Envelope)
    requires RowsOk(s) && TopicsOk(cfg, s.topics)
    ensures var (s', to) := (Dispatched(cfg, s, env), env.header.to);
            && s' == s.(channels := s'.channels, deliveries := s'.deliveries)
            && (to.Topic? ==> Got(s, s', Copies(cfg, s, SubscribersOf(s, to.topic), env), env))
            && (!to.Topic? && DispatchReply(cfg, s, to).Some? ==> Got(s, s', [], env))
            && (!to.Topic? && DispatchReply(cfg, s, to).None? ==>
                  exists id: U64 :: Recipient(s.roles, to, id) && Got(s, s', [(id, env)], env))
  {
    hide Send, SendAll, SendError, Got, RowsOk, Takes, Copies;
    var to := env.header.to;
    ResolvesToAddressee(s, env);
    if to.Topic? {
      SendAllGot(cfg, s, SubscribersOf(s, to.topic), env);
      SendAllFrame(cfg, s, SubscribersOf(s, to.topic), env);
    } else {
      NothingGot(s, s, env);
      var call := ResolveCall(s, env);
      if call.Some? {
        var id := call.value.id;
        assert Recipient(s.roles, to, id);
        SendGot(cfg, s, id, env);
        SendFrame(cfg, s, id, env);
        SendErrorAnswers(cfg, s, id);
      }
    }
  }

  /** The effect of a dispatch in terms of the state before the clock and the journal were touched. */
  lemma EffectOfLateDispatch(cfg: Config, s: State, s2: State, env: Envelope)
    requires RowsOk(s) && TopicsOk(cfg, s.topics)
    requires s2 == s.(clock := s2.clock, stamps := s2.stamps, journal := s2.journal, accepted := s2.accepted)
    ensures var (s', to) := (Dispatched(cfg, s2, env), env.header.to);
            && s' == s2.(channels := s'.channels, deliveries := s'.deliveries)
            && DispatchReply(cfg, s2, to) == DispatchReply(cfg, s, to)
            && (to.Topic? ==> Got(s, s', Copies(cfg, s, SubscribersOf(s, to.topic), env), env))
            && (!to.Topic? && DispatchReply(cfg, s, to).Some? ==> Got(s, s', [], env))
            && (!to.Topic? && DispatchReply(cfg, s, to).None? ==>
                  exists id: U64 :: Recipient(s.roles, to, id) && Got(s, s', [(id, env)], env))
  {
    hide Dispatched, DispatchReply, Got, Copies, Recipient;
    var s' := Dispatched(cfg, s2, env);
    EffectOfDispatch(cfg, s2, env);
    SendErrorSame(cfg, s, s2);
    CopiesSame(cfg, s, s2, env);
    forall got
      ensures Got(s2, s', got, env) <==> Got(s, s', got, env)
    {
      GotSame(s2, s, s', got, env);
    }
  }

  lemma EffectOfRoute(cfg: Config, s: State, header: Header, payload: Bytes)
    requires Sound(cfg, s)
    ensures RouteEffect(cfg, s, RoutedAlone(cfg, s, header, payload), header, payload, RouteReply(cfg, s, header))
  {
    hide Dispatched, DispatchReply, Got, MaySend, Wrap, Copies, Recipient, Sound, RowsOk, TopicsOk;
    SoundTopics(cfg, s);
    var env := Envelope(header, Wrap(s.clock + 1), payload);
    var s1 := s.(clock := env.stamp, stamps := s.stamps + [env.stamp]);
    var s2 := s1.(journal := Journal(cfg.journalCap, s.journal, EntryOf(env)), accepted := s.accepted + [EntryOf(env)]);
    NothingGot(s, s1, env);
    EffectOfLateDispatch(cfg, s, s2, env);
    ErrorKinds(cfg, s, header.to);
  }

  lemma ErrorKinds(cfg: Config, s: State, to: Address)
    ensures var r := DispatchReply(cfg, s, to); r.Some? ==> !r.value.TooDeep? && !r.value.HeaderTooLarge? && !r.value.Denied?
  {
  }

  lemma {:induction false} CopiesOf(cfg: Config, a: State, b: State, ids: seq<U64>, env: Envelope)
    requires a.channels == b.channels && a.table == b.table
    ensures Copies(cfg, a, ids, env) == Copies(cfg, b, ids, env)
  {
    if ids != [] {
      CopiesOf(cfg, a, b, ids[..|ids| - 1], env);
    }
  }

  lemma CopiesSame(cfg: Config, a: State, b: State, env: Envelope)
    requires a.channels == b.channels && a.table == b.table && a.topics == b.topics
    ensures env.header.to.Topic? ==>
              var topic := env.header.to.topic;
              Copies(cfg, a, SubscribersOf(a, topic), env) == Copies(cfg, b, SubscribersOf(b, topic), env)
  {
    if env.header.to.Topic? {
      CopiesOf(cfg, a, b, SubscribersOf(a, env.header.to.topic), env);
    }
  }

  lemma FromCreature(table: map<U64, Row>, header: Header)
    requires !MaySend(table, header)
    ensures header.from.Creature?
  {
  }

  lemma SendErrorSame(cfg: Config, a: State, b: State)
    requires a.table == b.table && a.channels == b.channels && a.roles == b.roles
    ensures forall id :: SendError(cfg, a, id) == SendError(cfg, b, id)
    ensures forall to :: DispatchReply(cfg, a, to) == DispatchReply(cfg, b, to)
  {
  }

  lemma {:induction false} SendAllFrame(cfg: Config, s: State, ids: seq<U64>, env: Envelope)
    ensures var s' := SendAll(cfg, s, ids, env);
            s' == s.(channels := s'.channels, deliveries := s'.deliveries)
  {
    hide Send;
    if ids != [] {
      SendAllFrame(cfg, s, ids[..|ids| - 1], env);
      SendFrame(cfg, SendAll(cfg, s, ids[..|ids| - 1], env), ids[|ids| - 1], env);
    }
  }

  lemma SendAnyCalls(cfg: Config, s: State, calls: map<nat, Call>, id: U64, env: Envelope)
    ensures Send(cfg, s.(calls := calls), id, env) == Send(cfg, s, id, env).(calls := calls)
  {
  }

  /** Thread 0 in the middle of its call, and no other thread in one. */
  function In(s: State, call: Call): State {
    s.(calls := map[0 := call])
  }

  lemma EnterAlone(s: State, a: Call, b: Call)
    ensures Enter(In(s, a), 0, b) == In(s, b)
  {
    assert map[0 := a][0 := b] == map[0 := b];
  }

  lemma DoneAlone(s: State, a: Call)
    requires s.calls == map[]
    ensures Done(In(s, a), 0) == s
  {
    assert map[0 := a] - {0} == map[];
  }

  lemma ResolveAlone(cfg: Config, s: State, env: Envelope)
    requires s.calls == map[]
    ensures Next(cfg, In(s, Journaled(env)), Proceed(0)) ==
            if ResolveCall(s, env).Some? then In(s, ResolveCall(s, env).value) else s
  {
    var next := ResolveCall(s, env);
    DoneAlone(s, Journaled(env));
    if next.Some? {
      EnterAlone(s, Journaled(env), next.value);
    }
  }

  /** A fan-out alone: after `k` turns the first `k` subscribers have been served. */
  lemma {:induction false} FanAlone(cfg: Config, s: State, ids: seq<U64>, env: Envelope, k: nat)
    requires k <= |ids|
    ensures After(cfg, In(s, Fanning(ids, env)), Proceeds(k)) == In(SendAll(cfg, s, ids[..k], env), Fanning(ids[k..], env))
  {
    hide Next, Send;
    if k > 0 {
      hide After, SendAll, Proceeds;
      FanAlone(cfg, s, ids, env, k - 1);
      ProceedsStep(cfg, In(s, Fanning(ids, env)), k - 1);
      FanOne(cfg, SendAll(cfg, s, ids[..k - 1], env), ids[k - 1..], env);
      SendAllStep(cfg, s, ids, env, k - 1);
    } else {
      assert ids[..0] == [] && ids[0..] == ids;
    }
  }

  lemma ProceedsStep(cfg: Config, s: State, k: nat)
    ensures After(cfg, s, Proceeds(k + 1)) == Next(cfg, After(cfg, s, Proceeds(k)), Proceed(0))
  {
    hide Next;
    ProceedsCount(k);
    assert Proceeds(k + 1)[..k] == Proceeds(k);
  }

  lemma SendAllStep(cfg: Config, s: State, ids: seq<U64>, env: Envelope, k: nat)
    requires k < |ids|
    ensures SendAll(cfg, s, ids[..k + 1], env) == Send(cfg, SendAll(cfg, s, ids[..k], env), ids[k], env)
    ensures ids[k..][0] == ids[k] && ids[k..][1..] == ids[k + 1..]
  {
    hide Send;
    assert ids[..k + 1][..k] == ids[..k];
  }

  lemma {:induction false} ProceedsCount(n: nat)
    ensures |Proceeds(n)| == n
  {
    if n > 0 {
      ProceedsCount(n - 1);
    }
  }

  lemma FanOne(cfg: Config, s: State, ids: seq<U64>, env: Envelope)
    requires ids != []
    ensures Next(cfg, In(s, Fanning(ids, env)), Proceed(0)) == In(Send(cfg, s, ids[0], env), Fanning(ids[1..], env))
  {
    hide Send;
    ProceedIs(cfg, s, Fanning(ids, env));
    SendAnyCalls(cfg, s, map[0 := Fanning(ids, env)], ids[0], env);
    EnterAlone(Send(cfg, s, ids[0], env), Fanning(ids, env), Fanning(ids[1..], env));
  }

  lemma FanEnds(cfg: Config, s: State, env: Envelope)
    requires s.calls == map[]
    ensures Next(cfg, In(s, Fanning([], env)), Proceed(0)) == s
  {
    ProceedIs(cfg, s, Fanning([], env));
    DoneAlone(s, Fanning([], env));
  }

  lemma SendAlone(cfg: Config, s: State, id: U64, env: Envelope)
    requires s.calls == map[]
    ensures Next(cfg, In(s, Sending(id, env)), Proceed(0)) == Send(cfg, s, id, env)
  {
    hide Send;
    ProceedIs(cfg, s, Sending(id, env));
    SendAnyCalls(cfg, s, map[0 := Sending(id, env)], id, env);
    SendFrame(cfg, s, id, env);
    DoneAlone(Send(cfg, s, id, env), Sending(id, env));
  }

  lemma ProceedsOne(cfg: Config, s: State)
    ensures After(cfg, s, Proceeds(1)) == Next(cfg, s, Proceed(0))
  {
    hide Next;
    assert Proceeds(1) == Proceeds(0) + [Proceed(0)] == [Proceed(0)];
    AfterOne(cfg, s, Proceed(0));
  }

  /** From the resolved call to the inboxes. */
  lemma DeliverAlone(cfg: Config, s: State, env: Envelope)
    requires s.calls == map[] && ResolveCall(s, env).Some?
    ensures After(cfg, In(s, ResolveCall(s, env).value), Proceeds(DeliverySteps(s, env.header.to))) == Dispatched(cfg, s, env)
  {
    hide Next, After, Send, SendAll, Proceeds;
    match ResolveCall(s, env) {
      case Some(Sending(id, _)) =>
        ProceedsOne(cfg, In(s, Sending(id, env)));
        SendAlone(cfg, s, id, env);
      case Some(Fanning(ids, _)) => FanOutAlone(cfg, s, ids, env);
    }
  }

  lemma FanOutAlone(cfg: Config, s: State, ids: seq<U64>, env: Envelope)
    requires s.calls == map[]
    ensures After(cfg, In(s, Fanning(ids, env)), Proceeds(|ids| + 1)) == SendAll(cfg, s, ids, env)
  {
    hide Next, Send, SendAll;
    var n := |ids|;
    FanAlone(cfg, s, ids, env, n);
    assert ids[..n] == ids && ids[n..] == [];
    ProceedsStep(cfg, In(s, Fanning(ids, env)), n);
    SendAllFrame(cfg, s, ids, env);
    FanEnds(cfg, SendAll(cfg, s, ids, env), env);
  }

  lemma ProceedIs(cfg: Config, s: State, call: Call)
    ensures Next(cfg, In(s, call), Proceed(0)) == Advance(cfg, In(s, call), 0, call)
  {
    hide Advance;
  }

  /** The stamp and the capability check. */
  lemma StampAlone(cfg: Config, s: State, header: Header, payload: Bytes)
    requires s.calls == map[] && HeaderOk(cfg, header)
    ensures var stamp := Wrap(s.clock + 1);
            var env := Envelope(header, stamp, payload);
            var s1 := s.(clock := stamp, stamps := s.stamps + [stamp]);
            After(cfg, s, [StartRoute(0, header, payload), Proceed(0)]) ==
            if MaySend(s.table, header) then In(s1, Permitted(env)) else s1
  {
    hide After, Wrap, MaySend, HeaderOk, Next;
    AfterTwo(cfg, s, StartRoute(0, header, payload), Proceed(0));
    StartAlone(cfg, s, header, payload);
    var stamp := Wrap(s.clock + 1);
    var env := Envelope(header, stamp, payload);
    var s1 := s.(clock := stamp, stamps := s.stamps + [stamp]);
    ProceedIs(cfg, s1, Stamped(env));
    DoneAlone(s1, Stamped(env));
    EnterAlone(s1, Stamped(env), Permitted(env));
  }

  lemma StartAlone(cfg: Config, s: State, header: Header, payload: Bytes)
    requires s.calls == map[] && HeaderOk(cfg, header)
    ensures var stamp := Wrap(s.clock + 1);
            Next(cfg, s, StartRoute(0, header, payload)) ==
            In(s.(clock := stamp, stamps := s.stamps + [stamp]), Stamped(Envelope(header, stamp, payload)))
  {
    hide HeaderOk, Wrap;
    var env := Envelope(header, Wrap(s.clock + 1), payload);
    assert s.calls[0 := Stamped(env)] == map[0 := Stamped(env)];
  }

  lemma RouteIs(cfg: Config, s: State, header: Header, payload: Bytes)
    requires s.calls == map[]
    ensures After(cfg, s, RouteSteps(s, header, payload)) == RoutedAlone(cfg, s, header, payload)
  {
    hide Next, After, Wrap, Journal, Dispatched, MaySend, HeaderOk, Proceeds;
    var rest := Proceeds(DeliverySteps(s, header.to));
    AfterSplit(cfg, s, [StartRoute(0, header, payload), Proceed(0)], [Proceed(0), Proceed(0)] + rest);
    var stamp := Wrap(s.clock + 1);
    var s1 := s.(clock := stamp, stamps := s.stamps + [stamp]);
    if HeaderOk(cfg, header) {
      StampAlone(cfg, s, header, payload);
      if MaySend(s.table, header) {
        JournalAlone(cfg, s1, Envelope(header, stamp, payload));
        SameSteps(s, s1, header.to);
      } else {
        IdleAfter(cfg, s1, DeliverySteps(s, header.to));
      }
    } else {
      RefusedAlone(cfg, s, header, payload);
      IdleAfter(cfg, s, DeliverySteps(s, header.to));
    }
  }

  lemma SameSteps(a: State, b: State, to: Address)
    requires a.topics == b.topics
    ensures DeliverySteps(a, to) == DeliverySteps(b, to)
  {
  }

  lemma RefusedAlone(cfg: Config, s: State, header: Header, payload: Bytes)
    requires s.calls == map[] && !HeaderOk(cfg, header)
    ensures After(cfg, s, [StartRoute(0, header, payload), Proceed(0)]) == s
  {
    hide HeaderOk;
    AfterTwo(cfg, s, StartRoute(0, header, payload), Proceed(0));
    hide After;
  }

  lemma {:induction false} IdleProceeds(cfg: Config, s: State, n: nat)
    requires s.calls == map[]
    ensures After(cfg, s, Proceeds(n)) == s
  {
    hide Next;
    if n > 0 {
      hide After;
      IdleProceeds(cfg, s, n - 1);
      ProceedsStep(cfg, s, n - 1);
      IdleStep(cfg, s);
    }
  }

  lemma IdleStep(cfg: Config, s: State)
    requires s.calls == map[]
    ensures Next(cfg, s, Proceed(0)) == s
  {
  }

  lemma IdleAfter(cfg: Config, s: State, n: nat)
    requires s.calls == map[]
    ensures After(cfg, s, [Proceed(0), Proceed(0)] + Proceeds(n)) == s
  {
    hide Next, After, Proceeds;
    AfterTwo(cfg, s, Proceed(0), Proceed(0));
    IdleStep(cfg, s);
    AfterSplit(cfg, s, [Proceed(0), Proceed(0)], Proceeds(n));
    IdleProceeds(cfg, s, n);
  }

  lemma JournalAlone(cfg: Config, s: State, env: Envelope)
    requires s.calls == map[]
    ensures var s2 := s.(journal := Journal(cfg.journalCap, s.journal, EntryOf(env)),
                         accepted := s.accepted + [EntryOf(env)]);
            After(cfg, In(s, Permitted(env)), [Proceed(0), Proceed(0)] + Proceeds(DeliverySteps(s, env.header.to))) ==
            Dispatched(cfg, s2, env)
  {
    hide Next, After, Journal, Proceeds, Send, SendAll;
    var s2 := s.(journal := Journal(cfg.journalCap, s.journal, EntryOf(env)), accepted := s.accepted + [EntryOf(env)]);
    var n := DeliverySteps(s, env.header.to);
    AfterSplit(cfg, In(s, Permitted(env)), [Proceed(0), Proceed(0)], Proceeds(n));
    AfterTwo(cfg, In(s, Permitted(env)), Proceed(0), Proceed(0));
    JournalStep(cfg, s, env);
    ResolveAlone(cfg, s2, env);
    SameSteps(s, s2, env.header.to);
    if ResolveCall(s2, env).Some? {
      DeliverAlone(cfg, s2, env);
    } else {
      IdleProceeds(cfg, s2, n);
    }
  }

  lemma JournalStep(cfg: Config, s: State, env: Envelope)
    ensures Next(cfg, In(s, Permitted(env)), Proceed(0)) ==
            In(s.(journal := Journal(cfg.journalCap, s.journal, EntryOf(env)), accepted := s.accepted + [EntryOf(env)]),
               Journaled(env))
  {
    hide Journal;
    ProceedIs(cfg, s, Permitted(env));
    EnterAlone(s, Permitted(env), Journaled(env));
  }

  method Retain(ids: seq<U64>, id: U64) returns (kept: seq<U64>)
    ensures kept == Without(ids, id)
  {
    kept := [];
    for i := 0 to |ids|
      invariant kept == Without(ids[..i], id)
    {
      assert ids[..i + 1][..i] == ids[..i];
      if ids[i] != id {
        kept := kept + [ids[i]];
      }
    }
    assert ids[..|ids|] == ids;
  }
}
