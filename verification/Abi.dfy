/** Identifiers, principals, capability masks and the saturating machine arithmetic
    every other module computes with (`arkhe-kernel/src/abi`). */
module Abi {
  const U16_MAX: nat := 0xFFFF
  const U32_MAX: nat := 0xFFFF_FFFF
  const U64_MAX: nat := 0xFFFF_FFFF_FFFF_FFFF
  const U128_MAX: nat := 0xFFFF_FFFF_FFFF_FFFF_FFFF_FFFF_FFFF_FFFF

  type U16 = n: nat | n <= U16_MAX
  type U32 = n: nat | n <= U32_MAX
  type U64 = n: nat | n <= U64_MAX
  type U128 = n: nat | n <= U128_MAX

  /** `NonZeroU64`: zero is not representable. */
  type NonZeroU64 = n: nat | 1 <= n <= U64_MAX witness 1

  type InstanceId = NonZeroU64
  type EntityId = NonZeroU64
  type ScheduledActionId = NonZeroU64
  type Tick = U64
  type TypeCode = U32
  type RouteId = U32
  type Byte = bv8
  type Bytes = seq<Byte>

  datatype Option<+T> = None | Some(value: T)

  datatype Result<+T, +E> = Ok(value: T) | Err(error: E)

  datatype Principal = Unauthenticated | External(external: U64) | System

  datatype ArkheError = InstanceNotFound | QuotaExceeded | CapabilityDenied

  /** A 64-bit capability mask, as the set of its bits; the kernel reserves the four lowest. */
  type CapBit = n: nat | n < 64
  type Caps = set<CapBit>
  const SYSTEM: Caps := {0}
  const ADMIN_UNLOAD: Caps := {1}

  predicate Contains(caps: Caps, bits: Caps) {
    bits <= caps
  }

  /** `sub` grants nothing that `sup` does not. */
  predicate Narrower(sub: Caps, sup: Caps) {
    sub <= sup
  }

  function Min(a: nat, b: nat): nat {
    if a <= b then a else b
  }

  function Max(a: nat, b: nat): nat {
    if a <= b then b else a
  }

  function SatAdd(a: U64, b: U64): U64 {
    Min(a + b, U64_MAX)
  }

  /** Saturating subtraction; the subtrahend may be a mathematical sum. */
  function SatSub(a: U64, b: nat): U64 {
    if b <= a then a - b else 0
  }

  function SatAdd32(a: U32, b: U32): U32 {
    Min(a + b, U32_MAX)
  }

  function SatAdd128(a: U128, b: U128): U128 {
    Min(a + b, U128_MAX)
  }

  /** `as u32` on a length: keeps the low 32 bits. */
  function Truncate32(n: nat): U32 {
    n % 0x1_0000_0000
  }

  /** The arithmetic stops at its ends and is exact between them. */
  lemma SaturationExactly(a: U64, b: U64, c: nat, d: U32, e: U32, f: U128, g: U128)
    ensures SatAdd(a, b) == if a + b <= 0xFFFF_FFFF_FFFF_FFFF then a + b else 0xFFFF_FFFF_FFFF_FFFF
    ensures c <= a ==> SatSub(a, c) + c == a
    ensures c > a ==> SatSub(a, c) == 0
    ensures SatAdd32(d, e) == if d + e <= 0xFFFF_FFFF then d + e else 0xFFFF_FFFF
    ensures f + g <= U128_MAX ==> SatAdd128(f, g) == f + g
    ensures f + g > U128_MAX ==> SatAdd128(f, g) == U128_MAX == 0x1_0000_0000_0000_0000 * 0x1_0000_0000_0000_0000 - 1
    ensures Min(a, b) <= a && Min(a, b) <= b && (Min(a, b) == a || Min(a, b) == b)
    ensures Max(a, b) >= a && Max(a, b) >= b && (Max(a, b) == a || Max(a, b) == b)
  {
  }

  predicate IsLeast(m: nat, s: set<nat>) {
    m in s && forall y :: y in s ==> m <= y
  }

  lemma LeastExists(s: set<nat>)
    requires s != {}
    ensures exists m :: IsLeast(m, s)
  {
    var x :| x in s;
    if s == {x} {
      assert IsLeast(x, s);
    } else {
      LeastExists(s - {x});
      var m :| IsLeast(m, s - {x});
      LeastOfBoth(s, x, m);
    }
  }

  lemma LeastOfBoth(s: set<nat>, x: nat, m: nat)
    requires x in s && IsLeast(m, s - {x})
    ensures IsLeast(Min(x, m), s)
  {
    forall y | y in s ensures Min(x, m) <= y {
      assert y == x || y in s - {x};
    }
  }

  function Least(s: set<nat>): (m: nat)
    requires s != {}
    ensures IsLeast(m, s)
  {
    LeastExists(s);
    var m :| IsLeast(m, s);
    m
  }

  /** The keys of a `BTreeMap` in iteration order. */
  function Ascending(s: set<nat>): (r: seq<nat>) {
    if s == {} then [] else [Least(s)] + Ascending(s - {Least(s)})
  }

  lemma {:induction false} AscendingElements(s: set<nat>)
    ensures forall x :: x in Ascending(s) <==> x in s
  {
    if s != {} {
      AscendingElements(s - {Least(s)});
    }
  }

  lemma {:induction false} AscendingOrdered(s: set<nat>)
    ensures forall i, j :: 0 <= i < j < |Ascending(s)| ==> Ascending(s)[i] < Ascending(s)[j]
  {
    if s != {} {
      var m := Least(s);
      var rest := Ascending(s - {m});
      AscendingOrdered(s - {m});
      AscendingElements(s - {m});
      forall i, j | 0 <= i < j < |Ascending(s)| ensures Ascending(s)[i] < Ascending(s)[j] {
        assert Ascending(s)[j] == rest[j-1];
        assert rest[j-1] in s - {m};
      }
    }
  }

  // ---- strictly ascending sequences ----

  predicate Ascends(s: seq<nat>) {
    forall x, y :: 0 <= x < y < |s| ==> s[x] < s[y]
  }

  lemma AscendsSnoc(s: seq<nat>, last: nat)
    requires Ascends(s) && forall id :: id in s ==> id < last
    ensures Ascends(s + [last])
  {
    assert forall x :: 0 <= x < |s| ==> s[x] in s;
  }

  lemma BelowLast(ids: seq<nat>, id: nat)
    requires Ascends(ids) && ids != [] && id in ids[..|ids|-1]
    ensures id < ids[|ids|-1]
  {
  }

  lemma {:induction false} AscendingCount(s: seq<nat>, elements: set<nat>)
    requires Ascends(s) && forall id :: id in s <==> id in elements
    ensures |s| == |elements|
    decreases |s|
  {
    if s == [] {
      assert elements == {};
    } else {
      var init, last := s[..|s|-1], s[|s|-1];
      assert s == init + [last] && last !in init;
      AscendingCount(init, elements - {last});
    }
  }

  // ---- joining sequences ----

  lemma Rejoined<T>(a: seq<T>, b: seq<T>, c: seq<T>)
    ensures (a + b) + c == a + (b + c)
  {
  }

  lemma LastApart<T>(s: seq<T>)
    requires s != []
    ensures s == s[..|s|-1] + [s[|s|-1]]
  {
  }

  // ---- folds ----

  function Fold<S, A>(f: (S, A) -> S, s: S, xs: seq<A>): S {
    if xs == [] then s else f(Fold(f, s, xs[..|xs|-1]), xs[|xs|-1])
  }

  lemma FoldSnoc<S, A>(f: (S, A) -> S, s: S, xs: seq<A>, x: A)
    ensures Fold(f, s, xs + [x]) == f(Fold(f, s, xs), x)
  {
  }

  lemma {:induction false} FoldConcat<S, A>(f: (S, A) -> S, s: S, a: seq<A>, b: seq<A>)
    ensures Fold(f, s, a + b) == Fold(f, Fold(f, s, a), b)
    decreases |b|
  {
    if b == [] {
      assert a + b == a;
    } else {
      var init, last := b[..|b|-1], b[|b|-1];
      FoldConcat(f, s, a, init);
      FoldSnoc(f, s, a + init, last);
      assert a + b == (a + init) + [last];
    }
  }
}
