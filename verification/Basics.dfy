/** Result types, decimal widths and sums over finite maps, shared by every module. */
module Basics {

  datatype Option<+T> = None | Some(value: T)

  /** The structured failures of the durable store (`StoreError`), without their messages. */
  datatype Error =
    | Io | Integrity | BadSignature | ChainBroken | Corrupt
    | Capacity | Limit | Unhealthy | Invalid | ForeignAuthor

  datatype Result<+T> = Ok(value: T) | Err(error: Error)

  newtype Byte = b: int | 0 <= b < 256

  type Bytes = seq<Byte>

  const U64_MAX: nat := 0xFFFF_FFFF_FFFF_FFFF

  /** A limit of zero is the operator's opt-out. */
  predicate WithinCap(amount: nat, cap: nat) {
    cap == 0 || amount <= cap
  }

  // ---- text ----

  /** The length of a character in UTF-8. */
  function CharBytes(c: char): nat {
    if c as int < 0x80 then 1 else if c as int < 0x800 then 2 else if c as int < 0x10000 then 3 else 4
  }

  function Utf8Bytes(s: string): nat {
    if s == [] then 0 else Utf8Bytes(s[..|s| - 1]) + CharBytes(s[|s| - 1])
  }

  // ---- decimal widths ----

  function DecimalWidth(n: nat): (w: nat)
    ensures 1 <= w
  {
    if n < 10 then 1 else 1 + DecimalWidth(n / 10)
  }

  function Pow10(k: nat): (p: nat)
    ensures 1 <= p
  {
    if k == 0 then 1 else 10 * Pow10(k - 1)
  }

  lemma {:induction false} WidthBound(n: nat, k: nat)
    requires 1 <= k && n < Pow10(k)
    ensures DecimalWidth(n) <= k
  {
    if n >= 10 {
      assert Pow10(1) == 10 * Pow10(0);
      WidthBound(n / 10, k - 1);
    }
  }

  /** A `u64` prints in at most twenty digits. */
  lemma U64Width(n: nat)
    requires n <= U64_MAX
    ensures DecimalWidth(n) <= 20
  {
    assert Pow10(3) == 1_000;
    assert Pow10(6) == 1_000_000;
    assert Pow10(9) == 1_000_000_000;
    assert Pow10(12) == 1_000_000_000_000;
    assert Pow10(15) == 1_000_000_000_000_000;
    assert Pow10(18) == 1_000_000_000_000_000_000;
    WidthBound(n, 20);
  }

  // ---- sums over finite maps ----

  /** The sum of a map's values. */
  ghost function Total<K>(m: map<K, nat>): nat
    decreases |m|
  {
    if m == map[] then 0 else
      var k :| k in m;
      m[k] + Total(m - {k})
  }

  lemma {:induction false} TotalRemove<K>(m: map<K, nat>, k: K)
    requires k in m
    ensures Total(m) == m[k] + Total(m - {k})
    decreases |m|
  {
    var p :| p in m && Total(m) == m[p] + Total(m - {p});
    if p != k {
      TotalRemove(m - {p}, k);
      TotalRemove(m - {k}, p);
      assert m - {p} - {k} == m - {k} - {p};
    }
  }

  lemma TotalUpdate<K>(m: map<K, nat>, k: K, v: nat)
    ensures Total(m[k := v]) == v + Total(m - {k})
  {
    TotalRemove(m[k := v], k);
    assert m[k := v] - {k} == m - {k};
  }

  lemma {:induction false} TotalMonotone<K>(a: map<K, nat>, b: map<K, nat>)
    requires a.Keys <= b.Keys
    requires forall k | k in a :: a[k] <= b[k]
    ensures Total(a) <= Total(b)
    decreases |a|
  {
    if a != map[] {
      var k :| k in a;
      TotalRemove(a, k);
      TotalRemove(b, k);
      TotalMonotone(a - {k}, b - {k});
    }
  }

  function Max(a: nat, b: nat): nat {
    if a < b then b else a
  }

  /** The largest of a map's values, or zero. */
  ghost function MaxOf<K>(m: map<K, nat>): nat
    decreases |m|
  {
    if m == map[] then 0 else
      var k :| k in m;
      var rest := MaxOf(m - {k});
      if m[k] < rest then rest else m[k]
  }

  lemma {:induction false} MaxOfRemove<K>(m: map<K, nat>, k: K)
    requires k in m
    ensures MaxOf(m) == Max(m[k], MaxOf(m - {k}))
    decreases |m|
  {
    var p :| p in m && MaxOf(m) == (if m[p] < MaxOf(m - {p}) then MaxOf(m - {p}) else m[p]);
    if p != k {
      MaxOfRemove(m - {p}, k);
      MaxOfRemove(m - {k}, p);
      assert m - {p} - {k} == m - {k} - {p};
    }
  }

  lemma {:induction false} MaxOfBelow<K>(m: map<K, nat>, b: nat)
    requires 0 < b && forall k | k in m :: m[k] < b
    ensures MaxOf(m) < b
    decreases |m|
  {
    if m != map[] {
      var p :| p in m && MaxOf(m) == (if m[p] < MaxOf(m - {p}) then MaxOf(m - {p}) else m[p]);
      MaxOfBelow(m - {p}, b);
    }
  }

  // ---- finite sets ----

  lemma {:induction false} SubsetCount<T>(a: set<T>, b: set<T>)
    requires a <= b
    ensures |a| <= |b|
  {
    if a != {} {
      var x :| x in a;
      SubsetCount(a - {x}, b - {x});
    }
  }

  /** `order` lists the elements of `s`, each once. */
  ghost predicate Enumerates<T(!new)>(order: seq<T>, s: set<T>) {
    && (forall i, j | 0 <= i < j < |order| :: order[i] != order[j])
    && (forall x :: x in order <==> x in s)
  }

  ghost predicate IsLeast(m: nat, s: set<nat>) {
    m in s && forall x | x in s :: m <= x
  }

  lemma {:induction false} LeastExists(s: set<nat>) returns (m: nat)
    requires s != {}
    ensures IsLeast(m, s)
  {
    var x :| x in s;
    if s == {x} {
      m := x;
    } else {
      var l := LeastExists(s - {x});
      m := if x <= l then x else l;
      assert s == (s - {x}) + {x};
    }
  }

  ghost function Least(s: set<nat>): (m: nat)
    requires s != {}
    ensures IsLeast(m, s)
  {
    assert exists m :: IsLeast(m, s) by { var m := LeastExists(s); }
    var m :| IsLeast(m, s); m
  }

  /** The elements of `s` in ascending order. */
  ghost function Ascending(s: set<nat>): seq<nat> {
    if s == {} then [] else [Least(s)] + Ascending(s - {Least(s)})
  }

  lemma {:induction false} AscendingLists(s: set<nat>)
    ensures Enumerates(Ascending(s), s)
  {
    if s != {} {
      AscendingLists(s - {Least(s)});
    }
  }
}
