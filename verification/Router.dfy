/**
 * The bus router as a machine of atomic steps. Several threads may be inside `register`,
 * `deregister` and `route` at once; each lock section and each atomic counter update is one step, so
 * a run of steps is any interleaving of any number of calls. Readers share their lock, so each copy of
 * a fan-out is a step of its own.
 */
module Router {
  import opened Basics
  import opened Addresses

  const KERNEL_ID: U64 := 0
  const TWO_64: nat := 0x1_0000_0000_0000_0000

  function Wrap(n: nat): (r: U64)
    ensures n < TWO_64 ==> r == n
  {
    n % TWO_64
  }

  datatype Header = Header(from: Address, to: Address, seqNo: U64, corr: Option<U64>)

  datatype Envelope = Envelope(header: Header, stamp: U64, payload: Bytes)

  /** What the history keeps of an envelope. */
  datatype Entry = Entry(header: Header, stamp: U64)

  function EntryOf(env: Envelope): Entry {
    Entry(env.header, env.stamp)
  }

  datatype Row = Row(chan: nat, calls: seq<string>)

  datatype Binding = Binding(creature: U64, remote: bool)

  /** A bounded inbox. `sent` and `got` remember everything ever enqueued and ever received. */
  datatype Channel = Channel(queue: seq<Envelope>, open: bool, sent: seq<Envelope>, got: seq<Envelope>)

  datatype Config = Config(inboxCapacity: nat, journalCap: nat, maxTopics: nat, headerFits: Header -> bool)

  /** Where a thread is inside a call. */
  datatype Call =
    | Registering(id: U64, calls: seq<string>)
    | LeavingRoles(id: U64)
    | LeavingTopics(id: U64)
    | Stamped(env: Envelope)
    | Permitted(env: Envelope)
    | Journaled(env: Envelope)
    | Sending(id: U64, env: Envelope)
    | Fanning(ids: seq<U64>, env: Envelope)

  datatype State = State(
    table: map<U64, Row>,
    roles: map<string, Binding>,
    topics: map<string, seq<U64>>,
    journal: seq<Entry>,
    clock: U64,
    nextId: U64,
    channels: seq<Channel>,
    calls: map<nat, Call>,
    // history, which no step reads
    ids: seq<U64>,
    stamps: seq<U64>,
    accepted: seq<Entry>,
    deliveries: seq<(U64, Envelope)>,
    unloaded: set<U64>)

  const BOOT := State(map[], map[], map[], [], 0, KERNEL_ID + 1, [], map[], [], [], [], [], {})

  /** Begin a call, take a call one section further, or make a change that is a single section. */
  datatype Step =
    | StartRegister(thread: nat, caps: seq<string>)
    | StartDeregister(thread: nat, id: U64)
    | StartRoute(thread: nat, header: Header, payload: Bytes)
    | Proceed(thread: nat)
    | RegisterKernel
    | BindRole(role: string, id: U64, remote: bool)
    | UnbindRole(role: string)
    | Subscribe(topic: string, id: U64)
    | Receive(chan: nat)
    | HangUp(chan: nat)

  // ---- registration ----

  function Insert(s: State, id: U64, caps: seq<string>): State {
    s.(table := s.table[id := Row(|s.channels|, caps)], channels := s.channels + [Channel([], true, [], [])])
  }

  function Allocate(s: State, t: nat, caps: seq<string>): State {
    Enter(s.(nextId := Wrap(s.nextId + 1), ids := s.ids + [s.nextId]), t, Registering(s.nextId, caps))
  }

  function Remove(s: State, id: U64): State {
    s.(table := s.table - {id}, unloaded := if id in s.table then s.unloaded + {id} else s.unloaded)
  }

  function WithoutRoles(roles: map<string, Binding>, id: U64): map<string, Binding> {
    map r | r in roles && roles[r].creature != id :: roles[r]
  }

  function Without(ids: seq<U64>, id: U64): seq<U64> {
    if ids == [] then []
    else if ids[|ids| - 1] == id then Without(ids[..|ids| - 1], id)
    else Without(ids[..|ids| - 1], id) + [ids[|ids| - 1]]
  }

  function WithoutSubscriber(topics: map<string, seq<U64>>, id: U64): map<string, seq<U64>> {
    map t | t in topics :: Without(topics[t], id)
  }

  function Subscribed(cfg: Config, topics: map<string, seq<U64>>, topic: string, id: U64): map<string, seq<U64>> {
    if topic !in topics && cfg.maxTopics != 0 && |topics| >= cfg.maxTopics then topics
    else
      var subs := if topic in topics then topics[topic] else [];
      topics[topic := if id in subs then subs else subs + [id]]
  }

  // ---- routing ----

  predicate HeaderOk(cfg: Config, h: Header) {
    Depth(h.to) <= MAX_NESTING && Depth(h.from) <= MAX_NESTING && cfg.headerFits(h)
  }

  /** The bus-level gate: a registered sender with a list may address only what the list grants. */
  predicate MaySend(table: map<U64, Row>, h: Header) {
    h.from.Creature? && h.from.id in table && table[h.from.id].calls != [] ==>
      CapsAllow(table[h.from.id].calls, h.to)
  }

  /** The role whose holder resolves an address, when it is not delivered directly. */
  function Socket(to: Address): Option<string> {
    match to
    case Role(role) => Some(role)
    case Intent(_, _) => Some("distributor")
    case Node(_, _) => Some("transport")
    case NodeRole(_, _) => Some("transport")
    case Realm(_, _) => Some("realm-gateway")
    case Omega(_, _) => Some("omega-gateway")
    case _ => None
  }

  function Journal(cap: nat, journal: seq<Entry>, entry: Entry): seq<Entry> {
    var all := journal + [entry];
    if |all| <= cap then all else all[|all| - cap..]
  }

  /** The inbox of `id` takes the envelope only if it is registered, connected and not full. */
  predicate Takes(cfg: Config, s: State, id: U64) {
    id in s.table && s.table[id].chan < |s.channels| && s.channels[s.table[id].chan].open
    && |s.channels[s.table[id].chan].queue| < cfg.inboxCapacity
  }

  function Send(cfg: Config, s: State, id: U64, env: Envelope): State {
    if !Takes(cfg, s, id) then s
    else
      var c := s.table[id].chan;
      var ch := s.channels[c];
      s.(channels := s.channels[c := ch.(queue := ch.queue + [env], sent := ch.sent + [env])],
         deliveries := s.deliveries + [(id, env)])
  }

  function SendAll(cfg: Config, s: State, ids: seq<U64>, env: Envelope): State {
    if ids == [] then s else Send(cfg, SendAll(cfg, s, ids[..|ids| - 1], env), ids[|ids| - 1], env)
  }

  function Done(s: State, t: nat): State {
    s.(calls := s.calls - {t})
  }

  function ResolveCall(s: State, env: Envelope): Option<Call> {
    match env.header.to
    case Creature(id) => Some(Sending(id, env))
    case Kernel => Some(Sending(KERNEL_ID, env))
    case Topic(topic) => Some(Fanning(if topic in s.topics then s.topics[topic] else [], env))
    case to =>
      var socket := Socket(to).value;
      if socket in s.roles then Some(Sending(s.roles[socket].creature, env)) else None
  }

  // ---- steps ----

  /** The creature another node may resolve a role to: only one bound for remote use. */
  function RemoteBinding(roles: map<string, Binding>, role: string): Option<U64> {
    if role in roles && roles[role].remote then Some(roles[role].creature) else None
  }

  function Enter(s: State, t: nat, call: Call): State {
    s.(calls := s.calls[t := call])
  }

  /** The next section of the call thread `t` is in. */
  function Advance(cfg: Config, s: State, t: nat, call: Call): State {
    match call
    case Registering(id, caps) => Done(Insert(s, id, caps), t)
    case LeavingRoles(id) => Enter(s.(roles := WithoutRoles(s.roles, id)), t, LeavingTopics(id))
    case LeavingTopics(id) => Done(s.(topics := WithoutSubscriber(s.topics, id)), t)
    case Stamped(env) => if MaySend(s.table, env.header) then Enter(s, t, Permitted(env)) else Done(s, t)
    case Permitted(env) =>
      Enter(s.(journal := Journal(cfg.journalCap, s.journal, EntryOf(env)), accepted := s.accepted + [EntryOf(env)]),
            t, Journaled(env))
    case Journaled(env) =>
      var next := ResolveCall(s, env);
      if next.Some? then Enter(s, t, next.value) else Done(s, t)
    case Sending(id, env) => Done(Send(cfg, s, id, env), t)
    case Fanning(ids, env) =>
      if ids == [] then Done(s, t) else Enter(Send(cfg, s, ids[0], env), t, Fanning(ids[1..], env))
  }

  function Stamp(s: State, t: nat, header: Header, payload: Bytes): State {
    var stamp := Wrap(s.clock + 1);
    Enter(s.(clock := stamp, stamps := s.stamps + [stamp]), t, Stamped(Envelope(header, stamp, payload)))
  }

  function Taken(s: State, c: nat): State {
    if c >= |s.channels| || !s.channels[c].open || s.channels[c].queue == [] then s
    else
      var ch := s.channels[c];
      s.(channels := s.channels[c := ch.(queue := ch.queue[1..], got := ch.got + [ch.queue[0]])])
  }

  function Closed(s: State, c: nat): State {
    if c >= |s.channels| then s else s.(channels := s.channels[c := s.channels[c].(open := false)])
  }

  /** A thread is in at most one call; a step it is not ready for changes nothing. */
  function Next(cfg: Config, s: State, step: Step): State {
    match step
    case StartRegister(t, caps) => if t in s.calls then s else Allocate(s, t, caps)
    case StartDeregister(t, id) => if t in s.calls then s else Enter(Remove(s, id), t, LeavingRoles(id))
    case StartRoute(t, header, payload) =>
      if t in s.calls || !HeaderOk(cfg, header) then s else Stamp(s, t, header, payload)
    case Proceed(t) => if t in s.calls then Advance(cfg, s, t, s.calls[t]) else s
    case RegisterKernel => Insert(s, KERNEL_ID, [])
    case BindRole(role, id, remote) => s.(roles := s.roles[role := Binding(id, remote)])
    case UnbindRole(role) => s.(roles := s.roles - {role})
    case Subscribe(topic, id) => s.(topics := Subscribed(cfg, s.topics, topic, id))
    case Receive(c) => Taken(s, c)
    case HangUp(c) => Closed(s, c)
  }

  function After(cfg: Config, s: State, steps: seq<Step>): State {
    if steps == [] then s else Next(cfg, After(cfg, s, steps[..|steps| - 1]), steps[|steps| - 1])
  }

  function Run(cfg: Config, steps: seq<Step>): State {
    After(cfg, BOOT, steps)
  }

  // ---- one call from start to end ----

  datatype RouteError =
    | NoSuchModule(id: U64)
    | NoProvider(role: string)
    | Backpressure(id: U64)
    | Denied(from: U64)
    | HeaderTooLarge
    | TooDeep(depth: nat)

  /** Why an inbox does not take an envelope. */
  function SendError(cfg: Config, s: State, id: U64): Option<RouteError> {
    if Takes(cfg, s, id) then None
    else if id in s.table && s.table[id].chan < |s.channels| && s.channels[s.table[id].chan].open
    then Some(Backpressure(id))
    else Some(NoSuchModule(id))
  }

  function DispatchReply(cfg: Config, s: State, to: Address): Option<RouteError> {
    match to
    case Creature(id) => SendError(cfg, s, id)
    case Kernel => SendError(cfg, s, KERNEL_ID)
    case Topic(_) => None
    case _ =>
      var socket := Socket(to).value;
      if socket in s.roles then SendError(cfg, s, s.roles[socket].creature) else Some(NoProvider(socket))
  }

  /** What `route` answers, when no other call is in progress. */
  function RouteReply(cfg: Config, s: State, header: Header): Option<RouteError> {
    var depth := Max(Depth(header.to), Depth(header.from));
    if depth > MAX_NESTING then Some(TooDeep(depth))
    else if !cfg.headerFits(header) then Some(HeaderTooLarge)
    else if !MaySend(s.table, header) then Some(Denied(header.from.id))
    else DispatchReply(cfg, s, header.to)
  }
}
