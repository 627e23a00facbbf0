/**
 * Bus addresses as text: the keys a capability list is matched against, and the vocabulary a critter
 * reads addresses in and writes them back in.
 */
module Addresses {
  import opened Basics

  type U64 = n: nat | n <= U64_MAX

  datatype Address =
    | Creature(id: U64)
    | Node(node: string, id: U64)
    | NodeRole(node: string, role: string)
    | Kernel
    | Topic(topic: string)
    | Role(role: string)
    | Intent(outcome: string, requirements: seq<string>)
    | Realm(realm: string, target: Address)
    | Omega(realm: string, target: Address)

  const MAX_NESTING: nat := 8

  // ---- federation depth ----

  function Depth(a: Address): nat {
    if a.Realm? || a.Omega? then 1 + Depth(a.target) else 0
  }

  /** An address wrapped once for each of these Realms: in a Realm of that name, or in its Omega. */
  function Wrapped(a: Address, wraps: seq<(string, bool)>): Address {
    if wraps == [] then a
    else
      var inner := Wrapped(a, wraps[1..]);
      if wraps[0].1 then Omega(wraps[0].0, inner) else Realm(wraps[0].0, inner)
  }

  /** The depth of an address is the number of its wrappers, of either kind. */
  lemma {:induction false} DepthCountsWrappers(a: Address, wraps: seq<(string, bool)>)
    requires !a.Realm? && !a.Omega?
    ensures Depth(Wrapped(a, wraps)) == |wraps|
  {
    if wraps != [] {
      DepthCountsWrappers(a, wraps[1..]);
    }
  }

  method NestingDepth(a: Address) returns (depth: nat)
    ensures depth == Depth(a)
  {
    depth := 0;
    var cur := a;
    while cur.Realm? || cur.Omega?
      invariant depth + Depth(cur) == Depth(a)
      decreases cur
    {
      depth, cur := depth + 1, cur.target;
    }
  }

  // ---- decimal and UTF-8 lengths ----

  function Digit(d: nat): char
    requires d < 10
  {
    ('0' as int + d) as char
  }

  predicate AllDigits(s: string) {
    forall i | 0 <= i < |s| :: '0' <= s[i] <= '9'
  }

  function Decimal(n: nat): (s: string)
    ensures s != [] && AllDigits(s)
  {
    if n < 10 then [Digit(n)] else Decimal(n / 10) + [Digit(n % 10)]
  }

  /** The value of a run of digits, most significant first. */
  function Value(s: string): nat
    requires AllDigits(s)
  {
    if s == [] then 0 else 10 * Value(s[..|s| - 1]) + (s[|s| - 1] as int - '0' as int)
  }

  lemma {:induction false} DecimalValue(n: nat)
    ensures Value(Decimal(n)) == n
  {
    if n >= 10 {
      DecimalValue(n / 10);
      assert Decimal(n)[..|Decimal(n)| - 1] == Decimal(n / 10);
    }
  }

  /** A number is as wide as its digits are many. */
  lemma {:induction false} DecimalIsThatWide(n: nat)
    ensures |Decimal(n)| == DecimalWidth(n)
  {
    if n >= 10 {
      DecimalIsThatWide(n / 10);
    }
  }

  /** A text takes strictly more bytes than any proper prefix of it. */
  lemma {:induction false} PrefixIsShorter(s: string, n: nat)
    requires n < |s|
    ensures Utf8Bytes(s[..n]) < Utf8Bytes(s)
  {
    var front := s[..|s| - 1];
    if n < |front| {
      PrefixIsShorter(front, n);
      assert front[..n] == s[..n];
    }
  }

  // ---- capability keys ----

  function NodeRoleKey(node: string, role: string): string {
    "node-role:" + (Decimal(Utf8Bytes(node)) + ":" + (node + (":" + (Decimal(Utf8Bytes(role)) + ":" + role))))
  }

  /** The key a destination is matched by. Inner targets, node handles and intent requirements do not count. */
  function Key(a: Address): string {
    match a
    case Creature(id) => "creature:" + Decimal(id)
    case Node(node, _) => "node:" + node
    case NodeRole(node, role) => NodeRoleKey(node, role)
    case Kernel => "kernel"
    case Topic(topic) => "topic:" + topic
    case Role(role) => "role:" + role
    case Intent(outcome, _) => "intent:" + outcome
    case Realm(realm, _) => "realm:" + realm
    case Omega(realm, _) => "omega:" + realm
  }

  /** `caps_allow`: whether a capability list lets its holder address `to`. */
  predicate CapsAllow(calls: seq<string>, to: Address) {
    || "*" in calls
    || (to.NodeRole? && "node:" + to.node in calls)
    || Key(to) in calls
  }

  // ---- the key is injective ----

  /** Where `split_once(':')` cuts, or the length when there is no colon. */
  function FirstColon(s: string): (n: nat)
    ensures n <= |s|
  {
    if s == [] || s[0] == ':' then 0 else 1 + FirstColon(s[1..])
  }

  lemma {:induction false} FirstColonAt(a: string, x: string)
    requires ':' !in a
    ensures FirstColon(a + ":" + x) == |a|
  {
    if a == [] {
      assert a + ":" + x == ":" + x;
    } else {
      FirstColonAt(a[1..], x);
      assert (a + ":" + x)[1..] == a[1..] + ":" + x;
    }
  }

  lemma SplitAtColon(a: string, x: string, b: string, y: string)
    requires ':' !in a && ':' !in b && a + ":" + x == b + ":" + y
    ensures a == b && x == y
  {
    var s := a + ":" + x;
    FirstColonAt(a, x);
    FirstColonAt(b, y);
    assert a == s[..|a|] && b == s[..|a|];
    assert x == s[|a| + 1..] && y == s[|a| + 1..];
  }

  /** Texts of equal byte length at the front of one string are equal. */
  lemma SplitByBytes(a: string, x: string, b: string, y: string)
    requires a + x == b + y && Utf8Bytes(a) == Utf8Bytes(b)
    ensures a == b && x == y
  {
    var s := a + x;
    assert a == s[..|a|] && b == s[..|b|];
    if |a| < |b| {
      assert a == b[..|a|];
      PrefixIsShorter(b, |a|);
    } else if |b| < |a| {
      assert b == a[..|b|];
      PrefixIsShorter(a, |b|);
    }
    assert x == s[|a|..] && y == s[|b|..];
  }

  lemma LengthPrefixed(a: string, x: string, b: string, y: string)
    requires Decimal(Utf8Bytes(a)) + ":" + (a + x) == Decimal(Utf8Bytes(b)) + ":" + (b + y)
    ensures a == b && x == y
  {
    assert ':' !in Decimal(Utf8Bytes(a)) && ':' !in Decimal(Utf8Bytes(b));
    SplitAtColon(Decimal(Utf8Bytes(a)), a + x, Decimal(Utf8Bytes(b)), b + y);
    DecimalValue(Utf8Bytes(a));
    DecimalValue(Utf8Bytes(b));
    SplitByBytes(a, x, b, y);
  }

  lemma DropPrefix(p: string, x: string, y: string)
    requires p + x == p + y
    ensures x == y
  {
    assert x == (p + x)[|p|..] && y == (p + y)[|p|..];
  }

  /** Whatever their names contain, distinct node-role pairs have distinct keys. */
  lemma NodeRoleKeyInjective(n1: string, r1: string, n2: string, r2: string)
    requires NodeRoleKey(n1, r1) == NodeRoleKey(n2, r2)
    ensures n1 == n2 && r1 == r2
  {
    var rest1, rest2 := Decimal(Utf8Bytes(r1)) + ":" + r1, Decimal(Utf8Bytes(r2)) + ":" + r2;
    DropPrefix("node-role:", Decimal(Utf8Bytes(n1)) + ":" + (n1 + (":" + rest1)),
               Decimal(Utf8Bytes(n2)) + ":" + (n2 + (":" + rest2)));
    LengthPrefixed(n1, ":" + rest1, n2, ":" + rest2);
    DropPrefix(":", rest1, rest2);
    assert r1 + [] == r1 && r2 + [] == r2;
    LengthPrefixed(r1, [], r2, []);
  }

  // ---- what a list grants ----

  /** `g` names `to`: the same kind and name, or a node that holds the addressed role. */
  predicate Names(g: Address, to: Address) {
    match g
    case Creature(id) => to == g
    case Node(node, _) => (to.Node? || to.NodeRole?) && to.node == node
    case NodeRole(_, _) => to == g
    case Kernel => to == g
    case Topic(_) => to == g
    case Role(_) => to == g
    case Intent(outcome, _) => to.Intent? && to.outcome == outcome
    case Realm(realm, _) => to.Realm? && to.realm == realm
    case Omega(realm, _) => to.Omega? && to.realm == realm
  }

  /** A key shows its kind in its first six characters. */
  function Kind(a: Address): string {
    match a
    case Creature(_) => "creatu"
    case Node(_, _) => "node:"
    case NodeRole(_, _) => "node-r"
    case Kernel => "kernel"
    case Topic(_) => "topic:"
    case Role(_) => "role:"
    case Intent(_, _) => "intent"
    case Realm(_, _) => "realm:"
    case Omega(_, _) => "omega:"
  }

  lemma KeyShowsKind(a: Address)
    ensures Kind(a) <= Key(a)
  {
  }

  lemma KindsDiffer(a: Address, b: Address, s: string)
    requires Kind(a) <= s && Kind(b) <= s
    ensures Kind(a) == Kind(b)
  {
    var n := if |Kind(a)| < |Kind(b)| then |Kind(a)| else |Kind(b)|;
    assert Kind(a)[0] == s[0] && Kind(b)[0] == s[0];
    assert n >= 5 && Kind(a)[4] == s[4] && Kind(b)[4] == s[4];
  }

  /** Two addresses share a key exactly when each names the other. */
  lemma KeysCollideIff(a: Address, b: Address)
    ensures Key(a) == Key(b) <==> Names(a, b) && Names(b, a)
  {
    if Key(a) == Key(b) {
      KeyShowsKind(a);
      KeyShowsKind(b);
      KindsDiffer(a, b, Key(a));
      match a {
        case Creature(id) =>
          DropPrefix("creature:", Decimal(id), Decimal(b.id));
          DecimalValue(id);
          DecimalValue(b.id);
        case Node(node, _) => DropPrefix("node:", node, b.node);
        case NodeRole(node, role) => NodeRoleKeyInjective(node, role, b.node, b.role);
        case Kernel =>
        case Topic(topic) => DropPrefix("topic:", topic, b.topic);
        case Role(role) => DropPrefix("role:", role, b.role);
        case Intent(outcome, _) => DropPrefix("intent:", outcome, b.outcome);
        case Realm(realm, _) => DropPrefix("realm:", realm, b.realm);
        case Omega(realm, _) => DropPrefix("omega:", realm, b.realm);
      }
    }
  }

  /**
   * A list made of the keys of `granted` lets its holder address exactly what they name, however the
   * names are spelled: no key is the wildcard, and no two kinds of key are ever confused.
   */
  lemma ListGrantsExactlyWhatItNames(granted: seq<Address>, to: Address)
    ensures var calls := seq(|granted|, i requires 0 <= i < |granted| => Key(granted[i]));
            CapsAllow(calls, to) <==> exists i :: 0 <= i < |granted| && Names(granted[i], to)
  {
    var calls := seq(|granted|, i requires 0 <= i < |granted| => Key(granted[i]));
    forall i | 0 <= i < |granted|
      ensures calls[i] != "*"
      ensures Names(granted[i], to) <==> calls[i] == Key(to) || (to.NodeRole? && calls[i] == "node:" + to.node)
    {
      KeyShowsKind(granted[i]);
      GrantCovers(granted[i], to);
    }
  }

  lemma GrantCovers(g: Address, to: Address)
    ensures Names(g, to) <==> Key(g) == Key(to) || (to.NodeRole? && Key(g) == "node:" + to.node)
  {
    KeysCollideIff(g, to);
    if to.NodeRole? {
      KeysCollideIff(g, Node(to.node, 0));
    }
  }

  /** Any list at all grants everything if it has the wildcard, and otherwise what its keys name. */
  lemma GateGrantsIff(calls: seq<string>, to: Address)
    ensures CapsAllow(calls, to) <==> "*" in calls || exists g: Address :: Key(g) in calls && Names(g, to)
  {
    if exists g: Address :: Key(g) in calls && Names(g, to) {
      var g: Address :| Key(g) in calls && Names(g, to);
      GrantCovers(g, to);
    }
    GrantCovers(to, to);
    assert Names(to, to);
    if to.NodeRole? && "node:" + to.node in calls {
      assert Key(Node(to.node, 0)) in calls && Names(Node(to.node, 0), to);
    }
  }

  // ---- the critter's vocabulary ----

  /** Unicode White_Space, which `trim` removes. */
  predicate IsSpace(c: char) {
    var n := c as int;
    || 0x09 <= n <= 0x0D || n == 0x20 || n == 0x85 || n == 0xA0 || n == 0x1680 || 0x2000 <= n <= 0x200A
    || n == 0x2028 || n == 0x2029 || n == 0x202F || n == 0x205F || n == 0x3000
  }

  function TrimEnd(s: string): string {
    if s != [] && IsSpace(s[|s| - 1]) then TrimEnd(s[..|s| - 1]) else s
  }

  function TrimStart(s: string): string {
    if s != [] && IsSpace(s[0]) then TrimStart(s[1..]) else s
  }

  function Trim(s: string): string {
    TrimEnd(TrimStart(s))
  }

  /** `u64` from text: an optional plus sign and at least one digit, within range. */
  function ParseU64(s: string): Option<U64> {
    var digits := if s != [] && s[0] == '+' then s[1..] else s;
    if digits != [] && AllDigits(digits) && Value(digits) <= U64_MAX then Some(Value(digits)) else None
  }

  function ReadKind(kind: string, rest: string): Option<Address> {
    if kind == "creature" then
      match ParseU64(rest)
      case Some(id) => Some(Creature(id))
      case None => None
    else if rest == "" then None
    else if kind == "role" then Some(Role(rest))
    else if kind == "topic" then Some(Topic(rest))
    else if kind == "intent" then Some(Intent(rest, []))
    else None
  }

  function ParseTrimmed(s: string): Option<Address> {
    var n := FirstColon(s);
    if s == "kernel" then Some(Kernel)
    else if n == |s| then None
    else ReadKind(s[..n], s[n + 1..])
  }

  function ParseAddress(s: string): Option<Address> {
    ParseTrimmed(Trim(s))
  }

  /** `debug` stands for how the remaining fields of a federation address are rendered for debugging. */
  function Print(debug: Address -> string, a: Address): string {
    match a
    case Creature(id) => "creature:" + Decimal(id)
    case Node(_, id) => "creature:" + Decimal(id)
    case Kernel => "kernel"
    case Topic(topic) => "topic:" + topic
    case Role(role) => "role:" + role
    case Intent(outcome, _) => "intent:" + outcome
    case NodeRole(_, _) => "NodeRole(" + debug(a)
    case Realm(_, _) => "Realm { realm: " + debug(a)
    case Omega(_, _) => "Omega { realm: " + debug(a)
  }

  /** Nonempty and untouched by `trim` at its end. */
  predicate Clean(name: string) {
    name != "" && !IsSpace(name[|name| - 1])
  }

  predicate Local(a: Address) {
    a.Creature? || a.Kernel? || a.Topic? || a.Role? || a.Intent?
  }

  /** Local addresses are printed as the gate's own key for them; the others are not. */
  lemma PrintIsGateKeyIff(debug: Address -> string, a: Address)
    ensures Print(debug, a) == Key(a) <==> Local(a)
  {
    if !Local(a) {
      assert Print(debug, a)[0] != Key(a)[0];
    }
  }

  lemma TrimKeeps(s: string)
    requires s != "" && !IsSpace(s[0]) && !IsSpace(s[|s| - 1])
    ensures Trim(s) == s
  {
  }

  /** Trimming a prefixed name trims the name's end, and leaves the prefix at least. */
  lemma {:induction false} TrimEndPrefixed(p: string, name: string)
    requires p != "" && !IsSpace(p[|p| - 1])
    ensures TrimEnd(p + name) == p + TrimEnd(name)
  {
    if name == "" {
      assert p + name == p;
    } else if IsSpace(name[|name| - 1]) {
      assert (p + name)[..|p + name| - 1] == p + name[..|name| - 1];
      TrimEndPrefixed(p, name[..|name| - 1]);
    }
  }

  lemma {:induction false} TrimEndClean(name: string)
    ensures TrimEnd(name) == "" || Clean(TrimEnd(name))
    ensures TrimEnd(name) == name <==> name == "" || Clean(name)
  {
    if name != "" && IsSpace(name[|name| - 1]) {
      TrimEndClean(name[..|name| - 1]);
    }
  }

  /** A word, a colon and a name, cut at that colon. */
  lemma ParseNamed(kind: string, rest: string)
    requires ':' !in kind
    ensures ParseTrimmed(kind + ":" + rest) == ReadKind(kind, rest)
  {
    hide ReadKind;
    var s := kind + ":" + rest;
    FirstColonAt(kind, rest);
    assert s[..|kind|] == kind && s[|kind| + 1..] == rest;
    assert ':' in s && ':' !in "kernel";
  }

  lemma TrimPrinted(p: string, name: string)
    requires p != "" && !IsSpace(p[0]) && !IsSpace(p[|p| - 1])
    ensures Trim(p + name) == p + TrimEnd(name)
  {
    assert (p + name)[0] == p[0];
    TrimEndPrefixed(p, name);
  }

  /** What reading a printed name gives: its kind read with the name's trailing space removed. */
  lemma ReadsAs(kind: string, name: string)
    requires kind != "" && ':' !in kind && !IsSpace(kind[0])
    ensures ParseAddress(kind + ":" + name) == ReadKind(kind, TrimEnd(name))
  {
    hide ReadKind, ParseTrimmed, Trim, TrimEnd, FirstColon;
    var p := kind + ":";
    assert kind + ":" + name == p + name;
    assert p[0] == kind[0] && p[|p| - 1] == ':';
    TrimPrinted(p, name);
    assert p + TrimEnd(name) == kind + ":" + TrimEnd(name);
    ParseNamed(kind, TrimEnd(name));
  }

  lemma KernelReads()
    ensures ParseAddress("kernel") == Some(Kernel)
  {
    TrimKeeps("kernel");
  }

  lemma CreatureReads(id: U64)
    ensures ParseAddress("creature:" + Decimal(id)) == Some(Creature(id))
  {
    hide ParseAddress;
    var digits := Decimal(id);
    assert "creature:" + digits == "creature" + ":" + digits;
    ReadsAs("creature", digits);
    TrimEndClean(digits);
    DecimalValue(id);
    assert digits[0] != '+';
  }

  /** A federation address is printed in a form that does not read back as any address. */
  lemma DebugFormUnread(p: string, x: string)
    requires p != "" && p[0] in "NRO" && !IsSpace(p[|p| - 1])
    ensures ParseAddress(p + x) == None
  {
    hide Trim, TrimEnd, FirstColon;
    TrimPrinted(p, x);
    var s := p + TrimEnd(x);
    var n := FirstColon(s);
    assert s[0] == p[0];
    FirstColonPositive(s);
    if n < |s| {
      assert s[..n][0] == p[0];
    }
  }

  lemma FirstColonPositive(s: string)
    requires s != "" && s[0] != ':'
    ensures FirstColon(s) >= 1
  {
  }

  /** The addresses a critter can read and pass straight back. */
  predicate Speakable(a: Address) {
    match a
    case Creature(_) => true
    case Kernel => true
    case Topic(topic) => Clean(topic)
    case Role(role) => Clean(role)
    case Intent(outcome, requirements) => Clean(outcome) && requirements == []
    case _ => false
  }

  /**
   * Reading a printed address gives the address back exactly for the kernel, creatures, and topics,
   * roles and intents with a nonempty name that does not end in white space (and no requirements).
   */
  lemma ReadBackIff(debug: Address -> string, a: Address)
    ensures ParseAddress(Print(debug, a)) == Some(a) <==> Speakable(a)
  {
    hide ParseAddress, TrimEnd;
    match a {
      case Creature(id) => CreatureReads(id);
      case Node(_, id) => CreatureReads(id);
      case Kernel => KernelReads();
      case Topic(topic) =>
        assert "topic:" + topic == "topic" + ":" + topic;
        ReadsAs("topic", topic);
        TrimEndClean(topic);
      case Role(role) =>
        assert "role:" + role == "role" + ":" + role;
        ReadsAs("role", role);
        TrimEndClean(role);
      case Intent(outcome, _) =>
        assert "intent:" + outcome == "intent" + ":" + outcome;
        ReadsAs("intent", outcome);
        TrimEndClean(outcome);
      case NodeRole(_, _) => DebugFormUnread("NodeRole(", debug(a));
      case Realm(_, _) =>
        assert "Realm { realm: " + debug(a) == "Realm { realm:" + (" " + debug(a));
        DebugFormUnread("Realm { realm:", " " + debug(a));
      case Omega(_, _) =>
        assert "Omega { realm: " + debug(a) == "Omega { realm:" + (" " + debug(a));
        DebugFormUnread("Omega { realm:", " " + debug(a));
    }
  }

  /** A peer's address is the one that comes back as a different one: the local creature of that number. */
  lemma NodeReadsAsLocalCreature(debug: Address -> string, node: string, id: U64)
    ensures ParseAddress(Print(debug, Node(node, id))) == Some(Creature(id))
  {
    CreatureReads(id);
  }

  /** White space only. */
  predicate Blank(s: string) {
    forall i | 0 <= i < |s| :: IsSpace(s[i])
  }

  lemma {:induction false} TrimEndCuts(s: string)
    ensures var t := TrimEnd(s); t <= s && Blank(s[|t|..]) && (t != "" ==> !IsSpace(t[|t| - 1]))
  {
    if s != [] && IsSpace(s[|s| - 1]) {
      var t := TrimEnd(s[..|s| - 1]);
      TrimEndCuts(s[..|s| - 1]);
      assert s[|t|..] == s[..|s| - 1][|t|..] + [s[|s| - 1]];
    }
  }

  lemma {:induction false} TrimStartCuts(s: string) returns (before: string)
    ensures Blank(before) && s == before + TrimStart(s) && (TrimStart(s) != "" ==> !IsSpace(TrimStart(s)[0]))
  {
    before := "";
    if s != [] && IsSpace(s[0]) {
      before := TrimStartCuts(s[1..]);
      before := [s[0]] + before;
    }
  }

  /** Trimming takes away white space on both sides, all of it, and nothing else. */
  lemma TrimCuts(s: string) returns (before: string, after: string)
    ensures Blank(before) && Blank(after) && s == before + Trim(s) + after
    ensures Trim(s) != "" ==> !IsSpace(Trim(s)[0]) && !IsSpace(Trim(s)[|Trim(s)| - 1])
  {
    before := TrimStartCuts(s);
    TrimEndCuts(TrimStart(s));
    after := TrimStart(s)[|Trim(s)|..];
  }

  /** The 25 characters of White_Space, and no other. */
  lemma SpacesAre(c: char)
    ensures IsSpace(c) <==>
              c in "\U{9}\U{A}\U{B}\U{C}\U{D}\U{20}\U{85}\U{A0}\U{1680}\U{2000}\U{2001}\U{2002}\U{2003}"
                   + "\U{2004}\U{2005}\U{2006}\U{2007}\U{2008}\U{2009}\U{200A}\U{2028}\U{2029}\U{202F}"
                   + "\U{205F}\U{3000}"
  {
  }

  lemma TrimIsTrimmed(s: string)
    ensures Trim(s) == "" || !IsSpace(Trim(s)[|Trim(s)| - 1])
  {
    TrimEndClean(TrimStart(s));
  }

  /**
   * Everything that reads as an address is speakable, so reading is stable after one round; and but
   * for the spelling of a creature's number, printing restores the trimmed text.
   */
  lemma ReadsAreSpeakable(debug: Address -> string, text: string)
    requires ParseAddress(text).Some?
    ensures var a := ParseAddress(text).value;
            Speakable(a) && ParseAddress(Print(debug, a)) == Some(a)
            && (a.Creature? || Print(debug, a) == Trim(text))
  {
    var (s, a) := (Trim(text), ParseAddress(text).value);
    hide Trim, TrimEnd, FirstColon, ParseU64;
    TrimIsTrimmed(text);
    ColonSplits(s);
    if !a.Kernel? && !a.Creature? {
      NamedText(s, a);
    }
    ReadBackIff(debug, a);
  }

  lemma KindText(kind: string, rest: string, a: Address)
    requires ReadKind(kind, rest) == Some(a) && !a.Creature?
    ensures rest != "" && Key(a) == kind + ":" + rest
    ensures !IsSpace(rest[|rest| - 1]) ==> Speakable(a)
  {
    hide ParseU64, IsSpace;
    assert "role" + ":" == "role:" && "topic" + ":" == "topic:" && "intent" + ":" == "intent:";
  }

  /** A trimmed text that reads as a name is that name's printed form, and the name is clean. */
  lemma NamedText(s: string, a: Address)
    requires s == "" || !IsSpace(s[|s| - 1])
    requires ParseTrimmed(s) == Some(a) && !a.Kernel? && !a.Creature?
    ensures Speakable(a) && Key(a) == s
  {
    hide FirstColon, ReadKind, Key, Speakable, IsSpace;
    ColonSplits(s);
    var n := FirstColon(s);
    KindText(s[..n], s[n + 1..], a);
  }

  lemma {:induction false} ColonSplits(s: string)
    ensures var n := FirstColon(s);
            n < |s| ==> s == s[..n] + ":" + s[n + 1..]
  {
    if s != [] && s[0] != ':' {
      ColonSplits(s[1..]);
    }
  }

  // ---- the spellings of a creature ----

  function Zeros(n: nat): (s: string)
    ensures |s| == n && AllDigits(s)
  {
    if n == 0 then "" else Zeros(n - 1) + "0"
  }

  lemma {:induction false} ValueZero(s: string)
    requires AllDigits(s) && Value(s) == 0
    ensures s == Zeros(|s|)
  {
    if s != "" {
      ValueZero(s[..|s| - 1]);
      assert s == s[..|s| - 1] + [s[|s| - 1]];
    }
  }

  lemma {:induction false} ValuePadded(n: nat, s: string)
    requires AllDigits(s)
    ensures AllDigits(Zeros(n) + s) && Value(Zeros(n) + s) == Value(s)
    decreases n + |s|
  {
    if s != "" {
      var front := s[..|s| - 1];
      ValuePadded(n, front);
      assert (Zeros(n) + s)[..n + |s| - 1] == Zeros(n) + front;
    } else if n > 0 {
      ValuePadded(n - 1, "");
      assert Zeros(n - 1) + "" == Zeros(n - 1) && Zeros(n) + "" == Zeros(n);
      assert Zeros(n)[..n - 1] == Zeros(n - 1);
    }
  }

  /** A run of digits has the value `id` only if it is the decimal form of `id` after some zeros. */
  lemma {:induction false} DigitsSpell(digits: string, id: nat) returns (n: nat)
    requires digits != "" && AllDigits(digits) && Value(digits) == id
    ensures digits == Zeros(n) + Decimal(id)
  {
    var (front, last) := (digits[..|digits| - 1], digits[|digits| - 1]);
    assert digits == front + [last];
    assert last == Digit(id % 10) && Value(front) == id / 10;
    if id < 10 {
      ValueZero(front);
      n := |front|;
    } else {
      n := DigitsSpell(front, id / 10);
    }
  }

  function Spelling(plus: bool, zeros: nat, id: U64): string {
    "creature" + ":" + ((if plus then "+" else "") + (Zeros(zeros) + Decimal(id)))
  }

  lemma NumberParses(plus: bool, digits: string, id: U64)
    requires digits != "" && AllDigits(digits) && Value(digits) == id
    ensures ParseU64((if plus then "+" else "") + digits) == Some(id)
  {
    hide Value;
    var rest := (if plus then "+" else "") + digits;
    if plus {
      assert rest[1..] == digits;
    } else {
      assert rest == digits && digits[0] != '+';
    }
  }

  lemma SpellingParses(plus: bool, zeros: nat, id: U64)
    ensures ParseTrimmed(Spelling(plus, zeros, id)) == Some(Creature(id))
  {
    hide ParseU64, Value, Decimal, Zeros, AllDigits;
    var digits := Zeros(zeros) + Decimal(id);
    ValuePadded(zeros, Decimal(id));
    DecimalValue(id);
    NumberParses(plus, digits, id);
    ParseNamed("creature", (if plus then "+" else "") + digits);
  }

  lemma ParsedNumber(rest: string, id: U64) returns (plus: bool, zeros: nat)
    requires ParseU64(rest) == Some(id)
    ensures rest == (if plus then "+" else "") + (Zeros(zeros) + Decimal(id))
  {
    plus := rest != "" && rest[0] == '+';
    var digits := if plus then rest[1..] else rest;
    assert rest == (if plus then "+" else "") + digits;
    zeros := DigitsSpell(digits, id);
  }

  /**
   * A text reads as creature `id` if and only if, but for white space around it, it is `creature:`, an
   * optional plus sign, any number of zeros and the decimal form of `id`.
   */
  lemma CreatureSpellings(text: string, id: U64)
    ensures ParseAddress(text) == Some(Creature(id)) <==> exists plus, zeros :: Trim(text) == Spelling(plus, zeros, id)
  {
    hide Trim, Spelling, ParseTrimmed;
    var s := Trim(text);
    if ParseTrimmed(s) == Some(Creature(id)) {
      var plus, zeros := SpelledAs(s, id);
    }
    forall plus, zeros | s == Spelling(plus, zeros, id)
      ensures ParseTrimmed(s) == Some(Creature(id))
    {
      SpellingParses(plus, zeros, id);
    }
  }

  lemma SpelledAs(s: string, id: U64) returns (plus: bool, zeros: nat)
    requires ParseTrimmed(s) == Some(Creature(id))
    ensures s == Spelling(plus, zeros, id)
  {
    hide ParseU64, FirstColon;
    ColonSplits(s);
    var n := FirstColon(s);
    plus, zeros := ParsedNumber(s[n + 1..], id);
  }
}
