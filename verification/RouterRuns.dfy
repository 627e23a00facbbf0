/** What every interleaving of router calls guarantees. */
module RouterRuns {
  import opened Basics
  import opened Addresses
  import opened Router

  // ---- what a section leaves alone ----

  lemma SendFrame(cfg: Config, s: State, id: U64, env: Envelope)
    ensures var s' := Send(cfg, s, id, env);
            s' == s.(channels := s'.channels, deliveries := s'.deliveries)
  {
  }

  /** Each kind of section changes only these parts of the state. */
  lemma AdvanceFrame(cfg: Config, s: State, t: nat, call: Call)
    ensures var s' := Advance(cfg, s, t, call);
            s' == match call
                  case Registering(_, _) => s.(table := s'.table, channels := s'.channels, calls := s'.calls)
                  case LeavingRoles(_) => s.(roles := s'.roles, calls := s'.calls)
                  case LeavingTopics(_) => s.(topics := s'.topics, calls := s'.calls)
                  case Permitted(_) => s.(journal := s'.journal, accepted := s'.accepted, calls := s'.calls)
                  case Stamped(_) => s.(calls := s'.calls)
                  case Journaled(_) => s.(calls := s'.calls)
                  case _ => s.(channels := s'.channels, deliveries := s'.deliveries, calls := s'.calls)
  {
    hide Send, WithoutRoles, WithoutSubscriber, MaySend, Journal, ResolveCall;
    match call {
      case Sending(id, env) => SendFrame(cfg, s, id, env);
      case Fanning(ids, env) =>
        if ids != [] {
          SendFrame(cfg, s, ids[0], env);
        }
      case _ =>
    }
  }

  // ---- the counters ----

  /** The ids and stamps handed out so far are the numbers from one up, modulo the width of the counters. */
  ghost predicate Counted(s: State) {
    && (forall n | 0 <= n < |s.ids| :: s.ids[n] == Wrap(n + 1))
    && s.nextId == Wrap(|s.ids| + 1)
    && (forall n | 0 <= n < |s.stamps| :: s.stamps[n] == Wrap(n + 1))
    && s.clock == Wrap(|s.stamps|)
  }

  lemma WrapNext(n: nat)
    ensures Wrap(Wrap(n) + 1) == Wrap(n + 1)
  {
  }

  lemma CountedAllocate(s: State, t: nat, caps: seq<string>)
    requires Counted(s)
    ensures Counted(Allocate(s, t, caps))
  {
    WrapNext(|s.ids| + 1);
    hide Wrap;
  }

  lemma CountedStamp(s: State, t: nat, header: Header, payload: Bytes)
    requires Counted(s)
    ensures Counted(Stamp(s, t, header, payload))
  {
    WrapNext(|s.stamps|);
    hide Wrap;
  }

  lemma CountedSame(s: State, s': State)
    requires Counted(s) && s' == s'.(ids := s.ids, nextId := s.nextId, stamps := s.stamps, clock := s.clock)
    ensures Counted(s')
  {
  }

  lemma CountedNext(cfg: Config, s: State, step: Step)
    requires Counted(s)
    ensures Counted(Next(cfg, s, step))
  {
    hide Counted, Advance, HeaderOk, Subscribed, Stamp, Allocate;
    match step {
      case StartRegister(t, caps) => CountedAllocate(s, t, caps);
      case StartRoute(t, header, payload) => CountedStamp(s, t, header, payload);
      case Proceed(t) =>
        if t in s.calls {
          AdvanceFrame(cfg, s, t, s.calls[t]);
          CountedSame(s, Advance(cfg, s, t, s.calls[t]));
        }
      case _ => CountedSame(s, Next(cfg, s, step));
    }
  }

  // ---- the journal ----

  function LastOf(cap: nat, all: seq<Entry>): seq<Entry> {
    if |all| <= cap then all else all[|all| - cap..]
  }

  lemma JournalNext(cfg: Config, s: State, step: Step)
    requires s.journal == LastOf(cfg.journalCap, s.accepted)
    ensures var s' := Next(cfg, s, step); s'.journal == LastOf(cfg.journalCap, s'.accepted)
  {
    if step.Proceed? && step.thread in s.calls {
      AdvanceFrame(cfg, s, step.thread, s.calls[step.thread]);
      if !s.calls[step.thread].Permitted? {
        hide Advance;
      }
    }
  }

  // ---- the topic table ----

  ghost predicate NoRepeats(ids: seq<U64>) {
    forall i, j | 0 <= i < j < |ids| :: ids[i] != ids[j]
  }

  ghost predicate TopicsOk(cfg: Config, topics: map<string, seq<U64>>) {
    WithinCap(|topics|, cfg.maxTopics) && forall t | t in topics :: NoRepeats(topics[t])
  }

  lemma {:induction false} WithoutIs(ids: seq<U64>, id: U64)
    requires NoRepeats(ids)
    ensures NoRepeats(Without(ids, id)) && forall x :: x in Without(ids, id) <==> x in ids && x != id
  {
    if ids != [] {
      var (front, last) := (ids[..|ids| - 1], ids[|ids| - 1]);
      WithoutIs(front, id);
      assert ids == front + [last];
      assert last !in front;
    }
  }

  lemma SubscribedOk(cfg: Config, topics: map<string, seq<U64>>, topic: string, id: U64)
    requires TopicsOk(cfg, topics)
    ensures TopicsOk(cfg, Subscribed(cfg, topics, topic, id))
  {
    if topic in topics {
      assert topics[topic := topics[topic] + [id]].Keys == topics.Keys;
    }
  }

  lemma UnsubscribedOk(cfg: Config, topics: map<string, seq<U64>>, id: U64)
    requires TopicsOk(cfg, topics)
    ensures TopicsOk(cfg, WithoutSubscriber(topics, id))
  {
    forall t | t in topics
      ensures NoRepeats(Without(topics[t], id))
    {
      WithoutIs(topics[t], id);
    }
    assert WithoutSubscriber(topics, id).Keys == topics.Keys;
  }

  lemma TopicsNext(cfg: Config, s: State, step: Step)
    requires TopicsOk(cfg, s.topics)
    ensures TopicsOk(cfg, Next(cfg, s, step).topics)
  {
    hide TopicsOk, Subscribed, WithoutSubscriber;
    if step.Subscribe? {
      SubscribedOk(cfg, s.topics, step.topic, step.id);
    } else if step.Proceed? && step.thread in s.calls {
      AdvanceFrame(cfg, s, step.thread, s.calls[step.thread]);
      if s.calls[step.thread].LeavingTopics? {
        UnsubscribedOk(cfg, s.topics, s.calls[step.thread].id);
      } else {
        hide Advance;
      }
    }
  }

  // ---- inboxes ----

  /** Nothing is lost, repeated or reordered in an inbox, and it never outgrows its capacity. */
  ghost predicate ChannelOk(cfg: Config, ch: Channel) {
    ch.sent == ch.got + ch.queue && |ch.queue| <= cfg.inboxCapacity
  }

  ghost predicate ChannelsOk(cfg: Config, channels: seq<Channel>) {
    forall c | 0 <= c < |channels| :: ChannelOk(cfg, channels[c])
  }

  lemma SendChannels(cfg: Config, s: State, id: U64, env: Envelope)
    requires ChannelsOk(cfg, s.channels)
    ensures ChannelsOk(cfg, Send(cfg, s, id, env).channels)
  {
    if Takes(cfg, s, id) {
      var ch := s.channels[s.table[id].chan];
      assert ChannelOk(cfg, ch);
      assert ch.got + ch.queue + [env] == ch.got + (ch.queue + [env]);
    }
  }

  lemma TakenChannels(cfg: Config, s: State, c: nat)
    requires ChannelsOk(cfg, s.channels)
    ensures ChannelsOk(cfg, Taken(s, c).channels)
  {
    if c < |s.channels| && s.channels[c].queue != [] {
      var ch := s.channels[c];
      assert ChannelOk(cfg, ch);
      assert ch.got + ch.queue == ch.got + [ch.queue[0]] + ch.queue[1..];
    }
  }

  lemma ClosedChannels(cfg: Config, s: State, c: nat)
    requires ChannelsOk(cfg, s.channels)
    ensures ChannelsOk(cfg, Closed(s, c).channels)
  {
    if c < |s.channels| {
      assert ChannelOk(cfg, s.channels[c]);
    }
  }

  lemma InsertChannels(cfg: Config, s: State, id: U64, caps: seq<string>)
    requires ChannelsOk(cfg, s.channels)
    ensures ChannelsOk(cfg, Insert(s, id, caps).channels)
  {
  }

  lemma AdvanceChannels(cfg: Config, s: State, t: nat, call: Call)
    requires ChannelsOk(cfg, s.channels)
    ensures ChannelsOk(cfg, Advance(cfg, s, t, call).channels)
  {
    hide Send, ChannelsOk, Insert;
    match call {
      case Registering(id, caps) => InsertChannels(cfg, s, id, caps);
      case Sending(id, env) => SendChannels(cfg, s, id, env);
      case Fanning(ids, env) =>
        if ids != [] {
          SendChannels(cfg, s, ids[0], env);
        }
      case _ => AdvanceFrame(cfg, s, t, call);
    }
  }

  lemma ChannelsNext(cfg: Config, s: State, step: Step)
    requires ChannelsOk(cfg, s.channels)
    ensures ChannelsOk(cfg, Next(cfg, s, step).channels)
  {
    hide ChannelsOk, Advance, Insert, Taken, Closed;
    match step {
      case Proceed(t) =>
        if t in s.calls {
          AdvanceChannels(cfg, s, t, s.calls[t]);
        }
      case Receive(c) => TakenChannels(cfg, s, c);
      case HangUp(c) => ClosedChannels(cfg, s, c);
      case RegisterKernel => InsertChannels(cfg, s, KERNEL_ID, []);
      case _ =>
    }
  }

  lemma {:induction false} AfterSplit(cfg: Config, s: State, a: seq<Step>, b: seq<Step>)
    ensures After(cfg, s, a + b) == After(cfg, After(cfg, s, a), b)
  {
    if b == [] {
      assert a + b == a;
    } else {
      hide Next;
      var front := b[..|b| - 1];
      AfterSplit(cfg, s, a, front);
      assert (a + b)[..|a + b| - 1] == a + front;
    }
  }

  // ---- an unloaded registration ----

  /** An inbox no row of the table leads to. */
  ghost predicate Retired(s: State, c: nat) {
    c < |s.channels| && forall id | id in s.table :: s.table[id].chan != c
  }

  /** It stays so, and takes nothing. */
  ghost predicate StaysRetired(s: State, s': State, c: nat)
    requires c < |s.channels|
  {
    Retired(s', c) && s'.channels[c].sent == s.channels[c].sent
  }

  lemma SendRetired(cfg: Config, s: State, id: U64, env: Envelope, c: nat)
    requires Retired(s, c)
    ensures StaysRetired(s, Send(cfg, s, id, env), c)
  {
  }

  lemma InsertRetired(s: State, id: U64, caps: seq<string>, c: nat)
    requires Retired(s, c)
    ensures StaysRetired(s, Insert(s, id, caps), c)
  {
  }

  lemma AdvanceRetired(cfg: Config, s: State, t: nat, call: Call, c: nat)
    requires Retired(s, c)
    ensures StaysRetired(s, Advance(cfg, s, t, call), c)
  {
    hide Send, Insert;
    match call {
      case Registering(id, caps) => InsertRetired(s, id, caps, c);
      case Sending(id, env) => SendRetired(cfg, s, id, env, c);
      case Fanning(ids, env) =>
        if ids != [] {
          SendRetired(cfg, s, ids[0], env, c);
        }
      case _ => AdvanceFrame(cfg, s, t, call);
    }
  }

  lemma RetiredNext(cfg: Config, s: State, step: Step, c: nat)
    requires Retired(s, c)
    ensures StaysRetired(s, Next(cfg, s, step), c)
  {
    hide Advance, Insert, Subscribed, HeaderOk;
    match step {
      case Proceed(t) =>
        if t in s.calls {
          AdvanceRetired(cfg, s, t, s.calls[t], c);
        }
      case RegisterKernel => InsertRetired(s, KERNEL_ID, [], c);
      case _ =>
    }
  }

  lemma {:induction false} RetiredAfter(cfg: Config, s: State, steps: seq<Step>, c: nat)
    requires Retired(s, c)
    ensures StaysRetired(s, After(cfg, s, steps), c)
  {
    if steps != [] {
      hide Next, Retired;
      RetiredAfter(cfg, s, steps[..|steps| - 1], c);
      RetiredNext(cfg, After(cfg, s, steps[..|steps| - 1]), steps[|steps| - 1], c);
    }
  }

  /**
   * Unload safety, for inboxes: in every interleaving, once a registration has left the table, by
   * unloading or by being replaced, its inbox never takes another envelope, whatever stale role,
   * subscription or half-finished delivery still points at its owner.
   */
  lemma RetiredInboxNeverGrows(cfg: Config, before: seq<Step>, later: seq<Step>, c: nat)
    requires Retired(Run(cfg, before), c)
    ensures var (s, s') := (Run(cfg, before), Run(cfg, before + later));
            Retired(s', c) && s'.channels[c].sent == s.channels[c].sent
  {
    hide Next, Retired;
    AfterSplit(cfg, BOOT, before, later);
    RetiredAfter(cfg, Run(cfg, before), later, c);
  }

  /** The inbox is as `ch`, and its receiver has hung up. */
  ghost predicate HungUp(s: State, c: nat, ch: Channel) {
    c < |s.channels| && s.channels[c] == ch && !ch.open
  }

  lemma HungUpNext(cfg: Config, s: State, step: Step, c: nat, ch: Channel)
    requires HungUp(s, c, ch)
    ensures HungUp(Next(cfg, s, step), c, ch)
  {
    hide MaySend, HeaderOk, ResolveCall, Journal, Subscribed, WithoutRoles, WithoutSubscriber;
  }

  lemma {:induction false} HungUpAfter(cfg: Config, s: State, steps: seq<Step>, c: nat, ch: Channel)
    requires HungUp(s, c, ch)
    ensures HungUp(After(cfg, s, steps), c, ch)
  {
    if steps != [] {
      hide Next, HungUp;
      HungUpAfter(cfg, s, steps[..|steps| - 1], c, ch);
      HungUpNext(cfg, After(cfg, s, steps[..|steps| - 1]), steps[|steps| - 1], c, ch);
    }
  }

  /** Once its receiver has hung up, in every interleaving, an inbox neither takes nor gives anything. */
  lemma HungUpInboxIsDead(cfg: Config, before: seq<Step>, c: nat, later: seq<Step>)
    requires c < |Run(cfg, before).channels|
    ensures var (s, s') := (Run(cfg, before), Run(cfg, before + [HangUp(c)] + later));
            && c < |s'.channels| && !s'.channels[c].open
            && s'.channels[c].sent == s.channels[c].sent && s'.channels[c].got == s.channels[c].got
  {
    var s1 := Next(cfg, Run(cfg, before), HangUp(c));
    AfterSplit(cfg, BOOT, before, [HangUp(c)]);
    AfterSplit(cfg, BOOT, before + [HangUp(c)], later);
    assert [HangUp(c)][..0] == [];
    assert After(cfg, Run(cfg, before), [HangUp(c)]) == s1;
    HungUpAfter(cfg, s1, later, c, s1.channels[c]);
  }

  // ---- unloaded ids ----

  /** While the id counter has not wrapped, the ids handed out are the numbers from one to their count. */
  ghost predicate LoadsOk(s: State) {
    && (forall id | id in s.table :: id <= |s.ids|)
    && (forall t | t in s.calls && s.calls[t].Registering? ::
          1 <= s.calls[t].id <= |s.ids| && s.calls[t].id !in s.table && s.calls[t].id !in s.unloaded)
    && (forall t, u | t in s.calls && u in s.calls && t != u && s.calls[t].Registering? && s.calls[u].Registering? ::
          s.calls[t].id != s.calls[u].id)
    && (forall id | id in s.unloaded && id != KERNEL_ID :: id !in s.table && id <= |s.ids|)
  }

  lemma LoadsAllocate(s: State, t: nat, caps: seq<string>)
    requires s.nextId == Wrap(|s.ids| + 1) && LoadsOk(s) && t !in s.calls && |s.ids| + 1 <= U64_MAX
    ensures LoadsOk(Allocate(s, t, caps))
  {
    var s' := Allocate(s, t, caps);
    assert s.nextId == |s'.ids|;
    forall u | u in s'.calls
      ensures u == t || (u in s.calls && s'.calls[u] == s.calls[u])
    {
    }
  }

  lemma LoadsInsert(s: State, t: nat)
    requires LoadsOk(s) && t in s.calls && s.calls[t].Registering?
    ensures LoadsOk(Done(Insert(s, s.calls[t].id, s.calls[t].calls), t))
  {
    var s' := Done(Insert(s, s.calls[t].id, s.calls[t].calls), t);
    forall u | u in s'.calls
      ensures u != t && u in s.calls && s'.calls[u] == s.calls[u]
    {
    }
  }

  lemma LoadsRemove(s: State, t: nat, id: U64)
    requires LoadsOk(s) && t !in s.calls
    ensures LoadsOk(Enter(Remove(s, id), t, LeavingRoles(id)))
  {
  }

  lemma LoadsKernel(s: State)
    requires LoadsOk(s)
    ensures LoadsOk(Insert(s, KERNEL_ID, [])) && Insert(s, KERNEL_ID, []).unloaded == s.unloaded
  {
  }

  /** A change that begins no registration and leaves the table alone. */
  lemma LoadsSame(s: State, s': State, t: nat)
    requires LoadsOk(s)
    requires s' == s'.(ids := s.ids, table := s.table, unloaded := s.unloaded)
    requires s'.calls == s.calls || s'.calls == s.calls - {t}
             || (t in s'.calls && !s'.calls[t].Registering? && s'.calls == s.calls[t := s'.calls[t]])
    ensures LoadsOk(s')
  {
  }

  lemma AdvanceCalls(cfg: Config, s: State, t: nat, call: Call)
    requires !call.Registering?
    ensures var s' := Advance(cfg, s, t, call);
            s'.calls == s.calls - {t} || (t in s'.calls && !s'.calls[t].Registering? && s'.calls == s.calls[t := s'.calls[t]])
  {
    hide Send, WithoutRoles, WithoutSubscriber, MaySend, Journal;
    match call {
      case Sending(id, env) => SendFrame(cfg, s, id, env);
      case Fanning(ids, env) =>
        if ids != [] {
          SendFrame(cfg, s, ids[0], env);
        }
      case _ =>
    }
  }

  lemma AdvanceLoads(cfg: Config, s: State, t: nat)
    requires LoadsOk(s) && t in s.calls
    ensures LoadsOk(Advance(cfg, s, t, s.calls[t])) && s.unloaded == Advance(cfg, s, t, s.calls[t]).unloaded
  {
    hide LoadsOk;
    AdvanceFrame(cfg, s, t, s.calls[t]);
    if s.calls[t].Registering? {
      LoadsInsert(s, t);
    } else {
      hide Advance;
      AdvanceCalls(cfg, s, t, s.calls[t]);
      LoadsSame(s, Advance(cfg, s, t, s.calls[t]), t);
    }
  }

  lemma LoadsNext(cfg: Config, s: State, step: Step)
    requires Counted(s) && LoadsOk(s) && |Next(cfg, s, step).ids| <= U64_MAX
    ensures LoadsOk(Next(cfg, s, step)) && s.unloaded <= Next(cfg, s, step).unloaded
  {
    hide LoadsOk, Advance, Insert, Wrap, Subscribed, HeaderOk;
    match step {
      case StartRegister(t, caps) =>
        if t !in s.calls {
          LoadsAllocate(s, t, caps);
        }
      case StartDeregister(t, id) =>
        if t !in s.calls {
          LoadsRemove(s, t, id);
        }
      case StartRoute(t, _, _) => LoadsSame(s, Next(cfg, s, step), t);
      case Proceed(t) =>
        if t in s.calls {
          AdvanceLoads(cfg, s, t);
        }
      case RegisterKernel => LoadsKernel(s);
      case _ => LoadsSame(s, Next(cfg, s, step), 0);
    }
  }

  // ---- deliveries ----

  /** Whatever was delivered between two states was `env`, to ids of the table. */
  ghost predicate DeliveredOnly(s: State, s': State, env: Envelope) {
    s.deliveries <= s'.deliveries
    && forall i | |s.deliveries| <= i < |s'.deliveries| ::
         s'.deliveries[i].0 in s.table && s'.deliveries[i].1 == env
  }

  /** A section makes deliveries only by sending, and then of the call's own envelope. */
  lemma AdvanceDeliveries(cfg: Config, s: State, t: nat, call: Call)
    ensures var s' := Advance(cfg, s, t, call);
            if call.Sending? || call.Fanning? then DeliveredOnly(s, s', call.env) else s'.deliveries == s.deliveries
  {
    match call {
      case Sending(id, env) =>
      case Fanning(ids, env) =>
      case _ =>
        hide Advance;
        AdvanceFrame(cfg, s, t, call);
    }
  }

  lemma DeliveriesNext(cfg: Config, s: State, step: Step)
    ensures var s' := Next(cfg, s, step);
            && s.deliveries <= s'.deliveries
            && forall i | |s.deliveries| <= i < |s'.deliveries| :: s'.deliveries[i].0 in s.table
  {
    hide Advance;
    if step.Proceed? && step.thread in s.calls {
      AdvanceDeliveries(cfg, s, step.thread, s.calls[step.thread]);
    }
  }

  lemma IdsNext(cfg: Config, s: State, step: Step)
    ensures |s.ids| <= |Next(cfg, s, step).ids|
  {
    hide Advance;
    if step.Proceed? && step.thread in s.calls {
      AdvanceFrame(cfg, s, step.thread, s.calls[step.thread]);
    }
  }

  lemma {:induction false} IdsGrow(cfg: Config, s: State, steps: seq<Step>)
    ensures |s.ids| <= |After(cfg, s, steps).ids|
  {
    if steps != [] {
      hide Next;
      IdsGrow(cfg, s, steps[..|steps| - 1]);
      IdsNext(cfg, After(cfg, s, steps[..|steps| - 1]), steps[|steps| - 1]);
    }
  }

  lemma {:induction false} LoadsAfter(cfg: Config, s: State, steps: seq<Step>, id: U64)
    requires Counted(s) && LoadsOk(s) && |After(cfg, s, steps).ids| <= U64_MAX
    requires id in s.unloaded && id != KERNEL_ID
    ensures var s' := After(cfg, s, steps);
            && Counted(s') && LoadsOk(s') && id in s'.unloaded
            && s.deliveries <= s'.deliveries
            && forall i | |s.deliveries| <= i < |s'.deliveries| :: s'.deliveries[i].0 != id
  {
    if steps != [] {
      hide Next, Counted;
      var (front, step) := (steps[..|steps| - 1], steps[|steps| - 1]);
      var s1 := After(cfg, s, front);
      IdsNext(cfg, s1, step);
      LoadsAfter(cfg, s, front, id);
      CountedNext(cfg, s1, step);
      LoadsNext(cfg, s1, step);
      DeliveriesNext(cfg, s1, step);
    }
  }

  lemma {:induction false} RunLoads(cfg: Config, steps: seq<Step>)
    requires |Run(cfg, steps).ids| <= U64_MAX
    ensures Counted(Run(cfg, steps)) && LoadsOk(Run(cfg, steps))
  {
    if steps != [] {
      hide Next, Counted, LoadsOk;
      var (front, step) := (steps[..|steps| - 1], steps[|steps| - 1]);
      var s := Run(cfg, front);
      IdsNext(cfg, s, step);
      RunLoads(cfg, front);
      CountedNext(cfg, s, step);
      LoadsNext(cfg, s, step);
    }
  }

  /**
   * Unload safety, for ids: in every interleaving, once a creature's id has left the table it never
   * comes back and nothing is ever enqueued to it again, as long as fewer than 2^64 ids have been
   * handed out.
   */
  lemma UnloadIsFinal(cfg: Config, before: seq<Step>, later: seq<Step>, id: U64)
    requires id in Run(cfg, before).unloaded && id != KERNEL_ID
    requires |Run(cfg, before + later).ids| <= U64_MAX
    ensures var (s, s') := (Run(cfg, before), Run(cfg, before + later));
            && id !in s'.table
            && s.deliveries <= s'.deliveries
            && forall i | |s.deliveries| <= i < |s'.deliveries| :: s'.deliveries[i].0 != id
  {
    hide Next, Counted;
    AfterSplit(cfg, BOOT, before, later);
    IdsGrow(cfg, Run(cfg, before), later);
    RunLoads(cfg, before);
    LoadsAfter(cfg, Run(cfg, before), later, id);
  }

  // ---- after the counter wraps ----

  function Registrations(n: nat): seq<Step> {
    if n == 0 then [] else Registrations(n - 1) + [StartRegister(0, []), Proceed(0)]
  }

  /** A state between calls. */
  ghost predicate Quiet(s: State) {
    s.calls == map[] && s.nextId == Wrap(|s.ids| + 1)
  }

  lemma AfterTwo(cfg: Config, s: State, a: Step, b: Step)
    ensures After(cfg, s, [a, b]) == Next(cfg, Next(cfg, s, a), b)
  {
    hide Next;
    assert [a, b][..1] == [a] && [a][..0] == [];
    assert After(cfg, s, [a]) == Next(cfg, s, a);
  }

  // A whole call, with no other in progress.

  lemma RegisterIs(cfg: Config, s: State, caps: seq<string>)
    requires s.calls == map[]
    ensures After(cfg, s, [StartRegister(0, caps), Proceed(0)]) ==
            Insert(s.(nextId := Wrap(s.nextId + 1), ids := s.ids + [s.nextId]), s.nextId, caps)
  {
    hide Wrap, After, Next;
    AfterTwo(cfg, s, StartRegister(0, caps), Proceed(0));
    AllocateIs(cfg, s, caps);
    InsertIs(cfg, Allocate(s, 0, caps), s.nextId, caps);
    assert s.calls[0 := Registering(s.nextId, caps)] - {0} == map[];
  }

  lemma AllocateIs(cfg: Config, s: State, caps: seq<string>)
    requires s.calls == map[]
    ensures Next(cfg, s, StartRegister(0, caps)) == Allocate(s, 0, caps)
  {
    hide Allocate;
  }

  lemma InsertIs(cfg: Config, s: State, id: U64, caps: seq<string>)
    requires 0 in s.calls && s.calls[0] == Registering(id, caps)
    ensures Next(cfg, s, Proceed(0)) == Insert(s, id, caps).(calls := s.calls - {0})
  {
  }

  lemma DeregisterIs(cfg: Config, s: State, id: U64)
    requires s.calls == map[]
    ensures After(cfg, s, [StartDeregister(0, id), Proceed(0)] + [Proceed(0)]) ==
            Remove(s, id).(roles := WithoutRoles(s.roles, id), topics := WithoutSubscriber(s.topics, id))
  {
    AfterSplit(cfg, s, [StartDeregister(0, id), Proceed(0)], [Proceed(0)]);
    AfterTwo(cfg, s, StartDeregister(0, id), Proceed(0));
    hide WithoutRoles, WithoutSubscriber;
    var s1 := Next(cfg, Next(cfg, s, StartDeregister(0, id)), Proceed(0));
    assert s1.calls[0] == LeavingTopics(id) && s1.calls - {0} == map[];
    assert [Proceed(0)][..0] == [];
  }

  lemma OneRegistration(cfg: Config, s: State)
    requires Quiet(s)
    ensures var s' := After(cfg, s, [StartRegister(0, []), Proceed(0)]);
            Quiet(s') && |s'.ids| == |s.ids| + 1 && Wrap(|s'.ids|) in s'.table
  {
    hide Wrap, After, Next;
    RegisterIs(cfg, s, []);
    WrapNext(|s.ids| + 1);
  }

  lemma {:induction false} AfterRegistrations(cfg: Config, s: State, n: nat)
    requires Quiet(s)
    ensures var s' := After(cfg, s, Registrations(n));
            Quiet(s') && |s'.ids| == |s.ids| + n && (n > 0 ==> Wrap(|s'.ids|) in s'.table)
  {
    hide Next, Quiet, Wrap;
    if n > 0 {
      hide After;
      AfterRegistrations(cfg, s, n - 1);
      AfterSplit(cfg, s, Registrations(n - 1), [StartRegister(0, []), Proceed(0)]);
      OneRegistration(cfg, After(cfg, s, Registrations(n - 1)));
    }
  }

  /** Load and unload the first creature. */
  const COME_AND_GO := [StartRegister(0, []), Proceed(0)] + ([StartDeregister(0, 1), Proceed(0)] + [Proceed(0)])

  lemma UnloadOne(cfg: Config, s: State)
    requires Quiet(s) && 1 in s.table
    ensures var s' := After(cfg, s, [StartDeregister(0, 1), Proceed(0)] + [Proceed(0)]);
            Quiet(s') && |s'.ids| == |s.ids| && 1 in s'.unloaded
  {
    hide Wrap, After, Next, WithoutRoles, WithoutSubscriber;
    DeregisterIs(cfg, s, 1);
  }

  lemma ComeAndGo(cfg: Config)
    ensures var s := Run(cfg, COME_AND_GO); Quiet(s) && |s.ids| == 1 && 1 in s.unloaded
  {
    assert Quiet(BOOT) && Wrap(1) == 1;
    hide Next, After, Quiet, Wrap;
    OneRegistration(cfg, BOOT);
    AfterSplit(cfg, BOOT, [StartRegister(0, []), Proceed(0)], [StartDeregister(0, 1), Proceed(0)] + [Proceed(0)]);
    UnloadOne(cfg, After(cfg, BOOT, [StartRegister(0, []), Proceed(0)]));
  }

  /**
   * The bound in `UnloadIsFinal` is needed: `n` registrations after creature 1 was unloaded, where
   * `n` is the number of different counter values, id 1 is in the table again.
   */
  lemma WrappedIdReturns(cfg: Config, n: nat)
    requires n == TWO_64
    ensures 1 in Run(cfg, COME_AND_GO).unloaded
    ensures 1 in Run(cfg, COME_AND_GO + Registrations(n)).table
  {
    assert Wrap(1 + n) == 1;
    hide Next, After, Registrations, Quiet, Wrap;
    ComeAndGo(cfg);
    AfterSplit(cfg, BOOT, COME_AND_GO, Registrations(n));
    AfterRegistrations(cfg, Run(cfg, COME_AND_GO), n);
  }

  // ---- nothing is delivered that was not journaled ----

  predicate PastJournal(call: Call) {
    call.Journaled? || call.Sending? || call.Fanning?
  }

  /** Past the journal section, a call's envelope is in the history; so is everything delivered. */
  ghost predicate Recorded(s: State) {
    && (forall t | t in s.calls && PastJournal(s.calls[t]) :: EntryOf(s.calls[t].env) in s.accepted)
    && (forall i | 0 <= i < |s.deliveries| :: EntryOf(s.deliveries[i].1) in s.accepted)
  }

  lemma EnterRecorded(s: State, t: nat, call: Call)
    requires Recorded(s) && (PastJournal(call) ==> EntryOf(call.env) in s.accepted)
    ensures Recorded(Enter(s, t, call)) && Recorded(Done(s, t))
  {
  }

  lemma AdvanceRecorded(cfg: Config, s: State, t: nat)
    requires Recorded(s) && t in s.calls
    ensures Recorded(Advance(cfg, s, t, s.calls[t]))
  {
    var call := s.calls[t];
    var s' := Advance(cfg, s, t, call);
    hide Send, WithoutRoles, WithoutSubscriber, MaySend, Journal;
    AdvanceFrame(cfg, s, t, call);
    match call {
      case Stamped(env) => EnterRecorded(s, t, Permitted(env));
      case Permitted(env) =>
        assert forall e | e in s.accepted :: e in s'.accepted;
      case Journaled(env) =>
        var next := ResolveCall(s, env);
        EnterRecorded(s, t, if next.Some? then next.value else call);
      case Sending(id, env) =>
        AdvanceDeliveries(cfg, s, t, call);
        SendFrame(cfg, s, id, env);
      case Fanning(ids, env) =>
        AdvanceDeliveries(cfg, s, t, call);
        if ids != [] {
          SendFrame(cfg, s, ids[0], env);
        }
      case _ =>
    }
  }

  lemma RecordedNext(cfg: Config, s: State, step: Step)
    requires Recorded(s)
    ensures Recorded(Next(cfg, s, step))
  {
    hide Advance, Subscribed, HeaderOk;
    if step.Proceed? && step.thread in s.calls {
      hide Recorded;
      AdvanceRecorded(cfg, s, step.thread);
    }
  }

  // ---- what every run keeps ----

  /** Different ids have different inboxes. */
  ghost predicate RowsOk(s: State) {
    && (forall id | id in s.table :: s.table[id].chan < |s.channels|)
    && (forall a, b | a in s.table && b in s.table && a != b :: s.table[a].chan != s.table[b].chan)
  }

  lemma AdvanceRows(cfg: Config, s: State, t: nat, call: Call)
    requires RowsOk(s)
    ensures RowsOk(Advance(cfg, s, t, call))
  {
    AdvanceFrame(cfg, s, t, call);
    if call.Registering? {
    } else {
      hide ResolveCall, Journal, MaySend;
    }
  }

  lemma RowsNext(cfg: Config, s: State, step: Step)
    requires RowsOk(s)
    ensures RowsOk(Next(cfg, s, step))
  {
    hide Advance, Subscribed, HeaderOk;
    if step.Proceed? && step.thread in s.calls {
      hide RowsOk;
      AdvanceRows(cfg, s, step.thread, s.calls[step.thread]);
    }
  }

  ghost predicate Sound(cfg: Config, s: State) {
    && Counted(s)
    && s.journal == LastOf(cfg.journalCap, s.accepted)
    && TopicsOk(cfg, s.topics)
    && ChannelsOk(cfg, s.channels)
    && RowsOk(s)
    && Recorded(s)
  }

  lemma SoundNext(cfg: Config, s: State, step: Step)
    requires Sound(cfg, s)
    ensures Sound(cfg, Next(cfg, s, step))
  {
    hide Next, Counted, TopicsOk, ChannelsOk, LastOf, RowsOk, Recorded;
    CountedNext(cfg, s, step);
    JournalNext(cfg, s, step);
    TopicsNext(cfg, s, step);
    ChannelsNext(cfg, s, step);
    RowsNext(cfg, s, step);
    RecordedNext(cfg, s, step);
  }

  lemma {:induction false} SoundAfter(cfg: Config, s: State, steps: seq<Step>)
    requires Sound(cfg, s)
    ensures Sound(cfg, After(cfg, s, steps))
  {
    hide Next, Sound;
    if steps != [] {
      SoundAfter(cfg, s, steps[..|steps| - 1]);
      SoundNext(cfg, After(cfg, s, steps[..|steps| - 1]), steps[|steps| - 1]);
    }
  }

  /**
   * Every interleaving keeps the counters, the journal, the topic table and the inboxes in order,
   * gives different ids different inboxes, and delivers only what was journaled.
   */
  lemma RunSound(cfg: Config, steps: seq<Step>)
    ensures Sound(cfg, Run(cfg, steps))
  {
    assert Sound(cfg, BOOT);
    hide After, Sound;
    SoundAfter(cfg, BOOT, steps);
  }

  /** The choke point: in every interleaving, whatever reached an inbox was stamped and journaled first. */
  lemma DeliveriesAreJournaled(cfg: Config, steps: seq<Step>)
    ensures var s := Run(cfg, steps);
            forall i | 0 <= i < |s.deliveries| :: Entry(s.deliveries[i].1.header, s.deliveries[i].1.stamp) in s.accepted
  {
    hide Run, Counted, ChannelsOk, TopicsOk, RowsOk;
    RunSound(cfg, steps);
  }

  /** Ids are all different, and none is the kernel's, exactly while the counter has not wrapped. */
  lemma IdsAreFreshIff(cfg: Config, steps: seq<Step>)
    ensures var ids := Run(cfg, steps).ids;
            NoRepeats(ids) && KERNEL_ID !in ids <==> |ids| <= U64_MAX
  {
    RunSound(cfg, steps);
    var ids := Run(cfg, steps).ids;
    hide Run;
    if |ids| > U64_MAX {
      assert ids[U64_MAX] == Wrap(TWO_64) == KERNEL_ID;
    }
  }

  lemma StampsAreFreshIff(cfg: Config, steps: seq<Step>)
    ensures var stamps := Run(cfg, steps).stamps;
            NoRepeats(stamps) <==> |stamps| <= TWO_64
  {
    RunSound(cfg, steps);
    var stamps := Run(cfg, steps).stamps;
    hide Run;
    if |stamps| > TWO_64 {
      assert stamps[0] == Wrap(1) && stamps[TWO_64] == Wrap(TWO_64 + 1);
      assert stamps[0] == stamps[TWO_64];
    }
  }

  // ---- one stamp, one entry ----

  predicate BeforeJournal(call: Call) {
    call.Stamped? || call.Permitted?
  }

  /** While the clock has not wrapped, no two entries or envelopes on their way to the journal share a stamp. */
  ghost predicate StampsOk(s: State) {
    && (forall i | 0 <= i < |s.accepted| :: 1 <= s.accepted[i].stamp <= |s.stamps|)
    && (forall i, j | 0 <= i < j < |s.accepted| :: s.accepted[i].stamp != s.accepted[j].stamp)
    && (forall t | t in s.calls && BeforeJournal(s.calls[t]) :: 1 <= s.calls[t].env.stamp <= |s.stamps|)
    && (forall t, i | t in s.calls && BeforeJournal(s.calls[t]) && 0 <= i < |s.accepted| ::
          s.calls[t].env.stamp != s.accepted[i].stamp)
    && (forall t, u | t in s.calls && u in s.calls && t != u && BeforeJournal(s.calls[t]) && BeforeJournal(s.calls[u]) ::
          s.calls[t].env.stamp != s.calls[u].env.stamp)
  }

  lemma StampOk(s: State, t: nat, header: Header, payload: Bytes)
    requires StampsOk(s) && s.clock == Wrap(|s.stamps|) && |s.stamps| + 1 <= U64_MAX && t !in s.calls
    ensures StampsOk(Stamp(s, t, header, payload))
  {
    var s' := Stamp(s, t, header, payload);
    assert s'.calls[t].env.stamp == |s'.stamps|;
    forall u | u in s'.calls
      ensures u == t || (u in s.calls && s'.calls[u] == s.calls[u])
    {
    }
  }

  lemma PermitOk(s: State, t: nat)
    requires StampsOk(s) && t in s.calls && s.calls[t].Stamped?
    ensures StampsOk(Enter(s, t, Permitted(s.calls[t].env)))
  {
    var s' := Enter(s, t, Permitted(s.calls[t].env));
    forall u | u in s'.calls && BeforeJournal(s'.calls[u])
      ensures u in s.calls && BeforeJournal(s.calls[u]) && s'.calls[u].env == s.calls[u].env
    {
    }
  }

  lemma AppendOk(cfg: Config, s: State, t: nat)
    requires StampsOk(s) && t in s.calls && s.calls[t].Permitted?
    ensures StampsOk(Advance(cfg, s, t, s.calls[t]))
  {
    var s' := Advance(cfg, s, t, s.calls[t]);
    hide Journal;
    assert s'.accepted == s.accepted + [EntryOf(s.calls[t].env)];
    forall u | u in s'.calls && BeforeJournal(s'.calls[u])
      ensures u != t && u in s.calls && s'.calls[u] == s.calls[u]
    {
    }
  }

  /** A change that puts no envelope on its way to the journal. */
  lemma StampsSame(s: State, s': State, t: nat)
    requires StampsOk(s)
    requires s' == s'.(stamps := s.stamps, accepted := s.accepted)
    requires s'.calls == s.calls || s'.calls == s.calls - {t}
             || (t in s'.calls && !BeforeJournal(s'.calls[t]) && s'.calls == s.calls[t := s'.calls[t]])
    ensures StampsOk(s')
  {
  }

  lemma AdvanceStamps(cfg: Config, s: State, t: nat)
    requires StampsOk(s) && t in s.calls
    ensures StampsOk(Advance(cfg, s, t, s.calls[t])) && Advance(cfg, s, t, s.calls[t]).stamps == s.stamps
  {
    var call := s.calls[t];
    hide StampsOk, Send, WithoutRoles, WithoutSubscriber, MaySend, Journal;
    AdvanceFrame(cfg, s, t, call);
    match call {
      case Permitted(env) => AppendOk(cfg, s, t);
      case Stamped(env) =>
        PermitOk(s, t);
        StampsSame(s, Done(s, t), t);
      case Sending(id, env) =>
        SendFrame(cfg, s, id, env);
        StampsSame(s, Advance(cfg, s, t, call), t);
      case Fanning(ids, env) =>
        if ids != [] {
          SendFrame(cfg, s, ids[0], env);
        }
        StampsSame(s, Advance(cfg, s, t, call), t);
      case _ => StampsSame(s, Advance(cfg, s, t, call), t);
    }
  }

  lemma StampsNext(cfg: Config, s: State, step: Step)
    requires Counted(s) && StampsOk(s) && |Next(cfg, s, step).stamps| <= U64_MAX
    ensures StampsOk(Next(cfg, s, step)) && |s.stamps| <= |Next(cfg, s, step).stamps|
  {
    hide StampsOk, Advance, Wrap, Subscribed, HeaderOk;
    match step {
      case StartRoute(t, header, payload) =>
        if t !in s.calls && HeaderOk(cfg, header) {
          StampOk(s, t, header, payload);
        }
      case Proceed(t) =>
        if t in s.calls {
          AdvanceStamps(cfg, s, t);
        }
      case StartRegister(t, _) => StampsSame(s, Next(cfg, s, step), t);
      case StartDeregister(t, _) => StampsSame(s, Next(cfg, s, step), t);
      case _ => StampsSame(s, Next(cfg, s, step), 0);
    }
  }

  lemma StampsGrow(cfg: Config, s: State, step: Step)
    ensures |s.stamps| <= |Next(cfg, s, step).stamps|
  {
    hide Advance;
    if step.Proceed? && step.thread in s.calls {
      AdvanceFrame(cfg, s, step.thread, s.calls[step.thread]);
    }
  }

  /** In every interleaving of fewer than 2^64 routings, each journaled entry has a stamp of its own. */
  lemma {:induction false} EntriesHaveTheirOwnStamps(cfg: Config, steps: seq<Step>)
    requires |Run(cfg, steps).stamps| <= U64_MAX
    ensures Counted(Run(cfg, steps)) && StampsOk(Run(cfg, steps))
  {
    if steps != [] {
      hide Next, Counted, StampsOk;
      var (front, step) := (steps[..|steps| - 1], steps[|steps| - 1]);
      var s := Run(cfg, front);
      StampsGrow(cfg, s, step);
      EntriesHaveTheirOwnStamps(cfg, front);
      CountedNext(cfg, s, step);
      StampsNext(cfg, s, step);
    }
  }

  // ---- fan-out ----

  /** How many sections of its call thread `t` has gone through. */
  function Turns(steps: seq<Step>, t: nat): nat {
    if steps == [] then 0
    else Turns(steps[..|steps| - 1], t) + if steps[|steps| - 1] == Proceed(t) then 1 else 0
  }

  /** Nobody but its own thread moves a call along. */
  lemma OthersKeepCall(cfg: Config, s: State, step: Step, t: nat)
    requires t in s.calls && step != Proceed(t)
    ensures var s' := Next(cfg, s, step); t in s'.calls && s'.calls[t] == s.calls[t]
  {
    hide HeaderOk, Subscribed;
    if step.Proceed? && step.thread in s.calls {
      AdvanceOthers(cfg, s, step.thread, t);
    }
  }

  lemma AdvanceOthers(cfg: Config, s: State, u: nat, t: nat)
    requires t in s.calls && u in s.calls && u != t
    ensures var s' := Advance(cfg, s, u, s.calls[u]); t in s'.calls && s'.calls[t] == s.calls[t]
  {
    hide Send, WithoutRoles, WithoutSubscriber, MaySend, Journal, ResolveCall;
    match s.calls[u] {
      case Sending(id, env) => SendFrame(cfg, s, id, env);
      case Fanning(ids, env) =>
        if ids != [] {
          SendFrame(cfg, s, ids[0], env);
        }
      case _ =>
    }
  }

  /** One turn of a fan-out offers one copy to the next id of the list, or ends the call. */
  lemma FanTurn(cfg: Config, s: State, t: nat, ids: seq<U64>, env: Envelope)
    requires t in s.calls && s.calls[t] == Fanning(ids, env)
    ensures var s' := Next(cfg, s, Proceed(t));
            if ids == [] then t !in s'.calls && s'.deliveries == s.deliveries
            else && t in s'.calls && s'.calls[t] == Fanning(ids[1..], env)
                 && s'.deliveries == s.deliveries + if Takes(cfg, s, ids[0]) then [(ids[0], env)] else []
  {
    hide Takes;
  }

  lemma {:induction false} FanProgress(cfg: Config, s: State, steps: seq<Step>, t: nat, ids: seq<U64>, env: Envelope)
    requires t in s.calls && s.calls[t] == Fanning(ids, env) && Turns(steps, t) <= |ids|
    ensures var s' := After(cfg, s, steps); t in s'.calls && s'.calls[t] == Fanning(ids[Turns(steps, t)..], env)
  {
    if steps != [] {
      hide Next;
      var (front, step) := (steps[..|steps| - 1], steps[|steps| - 1]);
      FanProgress(cfg, s, front, t, ids, env);
      var s1 := After(cfg, s, front);
      if step == Proceed(t) {
        FanTurn(cfg, s1, t, ids[Turns(front, t)..], env);
        assert ids[Turns(front, t)..][1..] == ids[Turns(front, t) + 1..];
      } else {
        OthersKeepCall(cfg, s1, step, t);
      }
    }
  }

  function SubscribersOf(s: State, topic: string): seq<U64> {
    if topic in s.topics then s.topics[topic] else []
  }

  /**
   * Fan-out in every interleaving: the list read when the topic was resolved has no repeats, and
   * whatever happens in between, the thread's `k`-th turn after that offers one copy to the `k`-th
   * subscriber, who gets it exactly when its inbox can take it at that very step; the turn after the
   * last ends the call. So each subscriber is offered exactly one copy and nobody else any.
   */
  lemma FanOutIsFair(cfg: Config, before: seq<Step>, t: nat, topic: string, later: seq<Step>, i: nat)
    requires var s := Run(cfg, before);
             t in s.calls && s.calls[t].Journaled? && s.calls[t].env.header.to == Topic(topic)
    requires i < |later| && later[i] == Proceed(t)
    requires Turns(later[..i], t) <= |SubscribersOf(Run(cfg, before), topic)|
    ensures var (s, start) := (Run(cfg, before), before + [Proceed(t)]);
            var ids := SubscribersOf(s, topic);
            && NoRepeats(ids)
            && Turn(cfg, Run(cfg, start + later[..i]), Run(cfg, start + later[..i + 1]), t, ids, Turns(later[..i], t),
                    s.calls[t].env)
  {
    hide Next, Run, NoRepeats, Turn, SubscribersOf;
    var (s, start) := (Run(cfg, before), before + [Proceed(t)]);
    SubscribersDistinct(cfg, before, topic);
    RunSplit(cfg, before, [Proceed(t)]);
    AfterOne(cfg, s, Proceed(t));
    TopicResolves(cfg, s, t, topic);
    RunSplit(cfg, start, later[..i]);
    RunSplit(cfg, start, later[..i + 1]);
    FanTurnAt(cfg, Run(cfg, start), t, SubscribersOf(s, topic), s.calls[t].env, later, i);
  }

  /** Thread `t` goes from `a` to `b` by its turn number `k` over the list `ids`. */
  ghost predicate Turn(cfg: Config, a: State, b: State, t: nat, ids: seq<U64>, k: nat, env: Envelope)
    requires k <= |ids|
  {
    && t in a.calls && a.calls[t] == Fanning(ids[k..], env)
    && if k == |ids| then t !in b.calls && b.deliveries == a.deliveries
       else && t in b.calls && b.calls[t] == Fanning(ids[k + 1..], env)
            && b.deliveries == a.deliveries + if Takes(cfg, a, ids[k]) then [(ids[k], env)] else []
  }

  lemma FanTurnAt(cfg: Config, s: State, t: nat, ids: seq<U64>, env: Envelope, later: seq<Step>, i: nat)
    requires t in s.calls && s.calls[t] == Fanning(ids, env)
    requires i < |later| && later[i] == Proceed(t) && Turns(later[..i], t) <= |ids|
    ensures Turn(cfg, After(cfg, s, later[..i]), After(cfg, s, later[..i + 1]), t, ids, Turns(later[..i], t), env)
  {
    hide Next, Takes;
    var k := Turns(later[..i], t);
    FanProgress(cfg, s, later[..i], t, ids, env);
    assert later[..i + 1][..i] == later[..i];
    FanTurn(cfg, After(cfg, s, later[..i]), t, ids[k..], env);
    assert k < |ids| ==> ids[k..][1..] == ids[k + 1..];
  }

  lemma TopicResolves(cfg: Config, s: State, t: nat, topic: string)
    requires t in s.calls && s.calls[t].Journaled? && s.calls[t].env.header.to == Topic(topic)
    ensures var s' := Next(cfg, s, Proceed(t));
            t in s'.calls && s'.calls[t] == Fanning(SubscribersOf(s, topic), s.calls[t].env)
  {
  }

  lemma SubscribersDistinct(cfg: Config, before: seq<Step>, topic: string)
    ensures NoRepeats(SubscribersOf(Run(cfg, before), topic))
  {
    hide Next, Run, Counted, ChannelsOk;
    RunSound(cfg, before);
  }

  lemma RunSplit(cfg: Config, a: seq<Step>, b: seq<Step>)
    ensures Run(cfg, a + b) == After(cfg, Run(cfg, a), b)
  {
    hide After;
    AfterSplit(cfg, BOOT, a, b);
  }

  lemma AfterOne(cfg: Config, s: State, step: Step)
    ensures After(cfg, s, [step]) == Next(cfg, s, step)
  {
    hide Next;
    assert [step][..0] == [];
  }

  // ---- remote exposure ----

  /** The step binds or unbinds `role`. */
  predicate Rebinds(step: Step, role: string) {
    (step.BindRole? || step.UnbindRole?) && step.role == role
  }

  /** The step is the section of a deregistration that drops the bindings of `id`. */
  predicate Unbinds(s: State, step: Step, id: U64) {
    step.Proceed? && step.thread in s.calls && s.calls[step.thread] == LeavingRoles(id)
  }

  function BindingOf(roles: map<string, Binding>, role: string): Option<Binding> {
    if role in roles then Some(roles[role]) else None
  }

  /** What a step does to one role: only a bind or unbind of it, or its creature's leaving, changes the binding. */
  lemma RoleNext(cfg: Config, s: State, step: Step, role: string)
    ensures var (b, b') := (BindingOf(s.roles, role), BindingOf(Next(cfg, s, step).roles, role));
            && (Rebinds(step, role) ==>
                  forall x: Binding :: b' == Some(x) <==> step == BindRole(role, x.creature, x.remote))
            && (!Rebinds(step, role) ==>
                  forall x: Binding :: b' == Some(x) <==> b == Some(x) && !Unbinds(s, step, x.creature))
  {
    if step.Proceed? && step.thread in s.calls {
      AdvanceFrame(cfg, s, step.thread, s.calls[step.thread]);
      if !s.calls[step.thread].LeavingRoles? {
        hide Advance;
      }
    }
  }

  /** Step `i` bound the role so, and since then nothing bound or unbound it or had the creature leave. */
  ghost predicate BoundSince(cfg: Config, steps: seq<Step>, i: nat, role: string, b: Binding)
    requires i < |steps|
  {
    && steps[i] == BindRole(role, b.creature, b.remote)
    && forall j | i < j < |steps| :: !Rebinds(steps[j], role) && !Unbinds(Run(cfg, steps[..j]), steps[j], b.creature)
  }

  lemma BoundBefore(cfg: Config, steps: seq<Step>, i: nat, role: string, b: Binding)
    requires i < |steps| - 1
    ensures var (front, step) := (steps[..|steps| - 1], steps[|steps| - 1]);
            BoundSince(cfg, steps, i, role, b) <==>
              BoundSince(cfg, front, i, role, b) && !Rebinds(step, role) && !Unbinds(Run(cfg, front), step, b.creature)
  {
    hide Run, Rebinds, Unbinds;
    var front := steps[..|steps| - 1];
    assert forall j | 0 <= j < |front| :: front[j] == steps[j] && front[..j] == steps[..j];
  }

  /**
   * The last bind wins: in every interleaving a role is bound to a creature, for remote use or not, if and
   * only if a bind that says so is the last word on the role and the creature has not left since.
   */
  lemma {:induction false} LastBindWins(cfg: Config, steps: seq<Step>, role: string, b: Binding)
    ensures BindingOf(Run(cfg, steps).roles, role) == Some(b) <==>
              exists i :: 0 <= i < |steps| && BoundSince(cfg, steps, i, role, b)
  {
    if steps != [] {
      hide Next, Rebinds, Unbinds, BoundSince, BindingOf;
      var (front, step) := (steps[..|steps| - 1], steps[|steps| - 1]);
      RoleNext(cfg, Run(cfg, front), step, role);
      LastBindWins(cfg, front, role, b);
      forall i | 0 <= i < |front|
        ensures BoundSince(cfg, steps, i, role, b) <==>
                  BoundSince(cfg, front, i, role, b) && !Rebinds(step, role) && !Unbinds(Run(cfg, front), step, b.creature)
      {
        BoundBefore(cfg, steps, i, role, b);
      }
      LastBound(cfg, steps, role, b);
    }
  }

  lemma LastBound(cfg: Config, steps: seq<Step>, role: string, b: Binding)
    requires steps != []
    ensures var step := steps[|steps| - 1];
            && (BoundSince(cfg, steps, |steps| - 1, role, b) <==> step == BindRole(role, b.creature, b.remote))
            && (step == BindRole(role, b.creature, b.remote) ==> Rebinds(step, role))
  {
  }

  /**
   * A role can be resolved from another node if and only if the host bound it so: in every interleaving
   * a remote binding stands exactly while some explicit remote bind of that role and creature is the last
   * word on the role and the creature has not left.
   */
  lemma RemoteExposureIsExplicit(cfg: Config, steps: seq<Step>, role: string, id: U64)
    ensures RemoteBinding(Run(cfg, steps).roles, role) == Some(id) <==>
              exists i :: 0 <= i < |steps| && BoundSince(cfg, steps, i, role, Binding(id, true))
  {
    hide Run, BoundSince;
    LastBindWins(cfg, steps, role, Binding(id, true));
  }

  // ---- leaving ----

  /** The list lost exactly this creature, if it had it; everyone else keeps their place. */
  ghost predicate LostOnly(before: seq<U64>, after: seq<U64>, id: U64) {
    if id in before then exists i :: 0 <= i < |before| && before[i] == id && after == before[..i] + before[i + 1..]
    else after == before
  }

  lemma {:induction false} WithoutAbsent(ids: seq<U64>, id: U64)
    requires id !in ids
    ensures Without(ids, id) == ids
  {
    if ids != [] {
      WithoutAbsent(ids[..|ids| - 1], id);
      assert ids == ids[..|ids| - 1] + [ids[|ids| - 1]];
    }
  }

  lemma {:induction false} WithoutAt(ids: seq<U64>, id: U64, i: nat)
    requires NoRepeats(ids) && i < |ids| && ids[i] == id
    ensures Without(ids, id) == ids[..i] + ids[i + 1..]
    decreases |ids|
  {
    var (n, front) := (|ids| - 1, ids[..|ids| - 1]);
    if i == n {
      assert id !in front;
      WithoutAbsent(front, id);
      assert ids[i + 1..] == [] && ids[..i] + [] == front;
    } else {
      WithoutAt(front, id, i);
      assert front[..i] == ids[..i] && front[i + 1..] + [ids[n]] == ids[i + 1..];
    }
  }

  lemma WithoutLoses(ids: seq<U64>, id: U64)
    requires NoRepeats(ids)
    ensures LostOnly(ids, Without(ids, id), id)
  {
    hide Without;
    if id in ids {
      var i :| 0 <= i < |ids| && ids[i] == id;
      WithoutAt(ids, id, i);
    } else {
      WithoutAbsent(ids, id);
    }
  }

  /** Exactly the bindings of this creature are gone. */
  ghost predicate RolesLost(before: map<string, Binding>, after: map<string, Binding>, id: U64) {
    forall r: string, b: Binding :: BindingOf(after, r) == Some(b) <==> BindingOf(before, r) == Some(b) && b.creature != id
  }

  /** The creature is in no list any more, and everyone else keeps their place in each. */
  ghost predicate TopicsLost(before: map<string, seq<U64>>, after: map<string, seq<U64>>, id: U64) {
    after.Keys == before.Keys && forall t | t in after :: id !in after[t] && LostOnly(before[t], after[t], id)
  }

  lemma LeavingLoses(cfg: Config, roles: map<string, Binding>, topics: map<string, seq<U64>>, id: U64)
    requires TopicsOk(cfg, topics)
    ensures RolesLost(roles, WithoutRoles(roles, id), id) && TopicsLost(topics, WithoutSubscriber(topics, id), id)
  {
    hide Without, LostOnly, NoRepeats;
    forall t | t in topics
      ensures id !in Without(topics[t], id) && LostOnly(topics[t], Without(topics[t], id), id)
    {
      WithoutIs(topics[t], id);
      WithoutLoses(topics[t], id);
    }
  }

  // ---- subscriptions ----

  /** The topic is known, or there is room for one more. */
  predicate TopicFits(cfg: Config, topics: map<string, seq<U64>>, topic: string) {
    topic in topics || WithinCap(|topics| + 1, cfg.maxTopics)
  }

  /** The step is the section of a deregistration that drops the subscriptions of `id`. */
  predicate Unsubscribes(s: State, step: Step, id: U64) {
    step.Proceed? && step.thread in s.calls && s.calls[step.thread] == LeavingTopics(id)
  }

  lemma SubscriberNext(cfg: Config, s: State, step: Step, topic: string, id: U64)
    requires TopicsOk(cfg, s.topics)
    ensures id in SubscribersOf(Next(cfg, s, step), topic) <==>
              || (step == Subscribe(topic, id) && TopicFits(cfg, s.topics, topic))
              || (id in SubscribersOf(s, topic) && !Unsubscribes(s, step, id))
  {
    if step.Proceed? && step.thread in s.calls {
      var call := s.calls[step.thread];
      AdvanceFrame(cfg, s, step.thread, call);
      if call.LeavingTopics? {
        hide Without;
        if topic in s.topics {
          WithoutIs(s.topics[topic], call.id);
        }
      } else {
        hide Advance;
      }
    }
  }

  /** Step `i` subscribed the creature, when there was room, and it has not left since. */
  ghost predicate SubscribedSince(cfg: Config, steps: seq<Step>, i: nat, topic: string, id: U64)
    requires i < |steps|
  {
    && steps[i] == Subscribe(topic, id) && TopicFits(cfg, Run(cfg, steps[..i]).topics, topic)
    && forall j | i < j < |steps| :: !Unsubscribes(Run(cfg, steps[..j]), steps[j], id)
  }

  lemma SubscribedBefore(cfg: Config, steps: seq<Step>, i: nat, topic: string, id: U64)
    requires i < |steps| - 1
    ensures var (front, step) := (steps[..|steps| - 1], steps[|steps| - 1]);
            SubscribedSince(cfg, steps, i, topic, id) <==>
              SubscribedSince(cfg, front, i, topic, id) && !Unsubscribes(Run(cfg, front), step, id)
  {
    hide Run, Unsubscribes, TopicFits;
    var front := steps[..|steps| - 1];
    assert forall j | 0 <= j < |front| :: front[j] == steps[j] && front[..j] == steps[..j];
  }

  lemma LastSubscribed(cfg: Config, steps: seq<Step>, topic: string, id: U64)
    requires steps != []
    ensures var (front, step) := (steps[..|steps| - 1], steps[|steps| - 1]);
            SubscribedSince(cfg, steps, |steps| - 1, topic, id) <==>
              step == Subscribe(topic, id) && TopicFits(cfg, Run(cfg, front).topics, topic)
  {
    hide Run;
  }

  /** In every interleaving the subscribers of a topic are exactly those who subscribed and have not left since. */
  lemma {:induction false} SubscribersAreThoseWhoStayed(cfg: Config, steps: seq<Step>, topic: string, id: U64)
    ensures id in SubscribersOf(Run(cfg, steps), topic) <==>
              exists i :: 0 <= i < |steps| && SubscribedSince(cfg, steps, i, topic, id)
  {
    if steps != [] {
      hide Next, Unsubscribes, SubscribedSince, TopicFits, TopicsOk, Counted, ChannelsOk, RowsOk, Recorded, SubscribersOf;
      var (front, step) := (steps[..|steps| - 1], steps[|steps| - 1]);
      RunSound(cfg, front);
      SubscriberNext(cfg, Run(cfg, front), step, topic, id);
      SubscribersAreThoseWhoStayed(cfg, front, topic, id);
      forall i | 0 <= i < |front|
        ensures SubscribedSince(cfg, steps, i, topic, id) <==>
                  SubscribedSince(cfg, front, i, topic, id) && !Unsubscribes(Run(cfg, front), step, id)
      {
        SubscribedBefore(cfg, steps, i, topic, id);
      }
      LastSubscribed(cfg, steps, topic, id);
    }
  }
}
