/** Exactly which operation lists the byte projection may be trusted on
    (`projected_component_bytes` in `arkhe-kernel/src/runtime/stage.rs`). */
module Projection {
  import opened Abi
  import opened Sums
  import opened Step
  import opened Limits
  import L = Ledger

  /** Every byte the staged operations declare. */
  function Added(ops: seq<L.LedgerOp>): nat {
    if ops == [] then 0
    else Added(ops[..|ops|-1]) + if ops[|ops|-1].AddComponentOp? then ops[|ops|-1].size else 0
  }

  function EntityOf(op: L.LedgerOp): EntityId {
    match op
    case AddEntityOp(e) => e
    case RemoveEntityOp(e) => e
    case AddComponentOp(k, _) => k.0
    case RemoveComponentOp(k, _) => k.0
  }

  /** No component is removed twice, whatever it held. */
  predicate NoDoubleRemoval(ops: seq<L.LedgerOp>) {
    forall a, b :: 0 <= a < b < |ops| && ops[a].RemoveComponentOp? && ops[b].RemoveComponentOp? ==>
      ops[a].removedKey != ops[b].removedKey
  }

  /** The documented promise for one ledger: the projection bounds what the commit will store. */
  ghost predicate Bounds(l: L.LedgerState, ops: seq<L.LedgerOp>) {
    L.TrueTotal(L.ApplyLedgerOps(l, ops)) <= ProjectedBytes(l.totalBytes, l, ops)
  }

  /** An exact total over owned components, and a projection that stays below its saturation point. */
  ghost predicate Eligible(l: L.LedgerState, ops: seq<L.LedgerOp>) {
    l.totalBytes == L.TrueTotal(l) && L.Owned(l) && Unsaturated(l, ops)
  }

  // ---- an entity no operation mentions ----

  lemma {:induction false} UnusedId(s: set<nat>, n: nat) returns (x: nat)
    requires |s| < n
    ensures 1 <= x <= n && x !in s
    decreases n
  {
    if n in s {
      x := UnusedId(s - {n}, n - 1);
    } else {
      x := n;
    }
  }

  function Mentioned(ops: seq<L.LedgerOp>): set<nat> {
    if ops == [] then {} else Mentioned(ops[..|ops|-1]) + {EntityOf(ops[|ops|-1])}
  }

  lemma {:induction false} MentionedCounts(ops: seq<L.LedgerOp>)
    ensures |Mentioned(ops)| <= |ops|
    ensures forall n :: 0 <= n < |ops| ==> EntityOf(ops[n]) in Mentioned(ops)
    decreases |ops|
  {
    if ops != [] {
      MentionedCounts(ops[..|ops|-1]);
    }
  }

  // ---- a ledger that shows a double removal ----

  /** The component removed twice, and as many bytes on an entity nothing mentions. */
  function Exposing(k: L.ComponentKey, spare: EntityId, size: U64): L.LedgerState
    requires 2 * size <= U64_MAX
  {
    L.LedgerState({k.0, spare}, map[k := size, (spare, 0) := size], 2 * size)
  }

  lemma ExposingTotal(k: L.ComponentKey, spare: EntityId, size: U64)
    requires 2 * size <= U64_MAX && k.0 != spare
    ensures L.TrueTotal(Exposing(k, spare, size)) == 2 * size
  {
    var sizes: map<L.ComponentKey, nat> := Exposing(k, spare, size).sizes;
    var rest: map<L.ComponentKey, nat> := map[(spare, 0) := size];
    SumTake(sizes, k);
    assert sizes - {k} == rest;
    SumTake(rest, (spare, 0));
    assert rest - {(spare, 0)} == map[];
  }

  /** What nothing mentions is still stored afterwards. */
  lemma {:induction false} SpareSurvives(l: L.LedgerState, ops: seq<L.LedgerOp>, spare: EntityId, size: U64)
    requires (spare, 0) in l.sizes && l.sizes[(spare, 0)] == size
    requires forall n :: 0 <= n < |ops| ==> EntityOf(ops[n]) != spare
    ensures (spare, 0) in L.ApplyLedgerOps(l, ops).sizes && L.ApplyLedgerOps(l, ops).sizes[(spare, 0)] == size
    decreases |ops|
  {
    if ops != [] {
      SpareSurvives(l, ops[..|ops|-1], spare, size);
      assert EntityOf(ops[|ops|-1]) != spare;
    }
  }

  function Removals(ops: seq<L.LedgerOp>, k: L.ComponentKey): nat {
    if ops == [] then 0
    else Removals(ops[..|ops|-1], k) + if ops[|ops|-1].RemoveComponentOp? && ops[|ops|-1].removedKey == k then 1 else 0
  }

  /** Each removal of `k` takes the whole stored size off the projection again. */
  lemma {:induction false} CreditsPileUp(k: L.ComponentKey, spare: EntityId, size: U64, ops: seq<L.LedgerOp>)
    requires 2 * size <= U64_MAX && k.0 != spare
    ensures var p := ProjectedBytes(2 * size, Exposing(k, spare, size), ops);
            && p <= 2 * size + Added(ops)
            && (Removals(ops, k) >= 1 ==> p <= size + Added(ops))
            && (Removals(ops, k) >= 2 ==> p <= Added(ops))
    decreases |ops|
  {
    if ops != [] {
      CreditsPileUp(k, spare, size, ops[..|ops|-1]);
    }
  }

  lemma {:induction false} AddedGrows(ops: seq<L.LedgerOp>, n: nat)
    requires n <= |ops|
    ensures Added(ops[..n]) <= Added(ops)
    decreases |ops|
  {
    if n == |ops| {
      assert ops[..n] == ops;
    } else {
      assert ops[..|ops|-1][..n] == ops[..n];
      AddedGrows(ops[..|ops|-1], n);
    }
  }

  lemma {:induction false} TwoRemovalsCount(ops: seq<L.LedgerOp>, k: L.ComponentKey, a: nat, b: nat)
    requires a < b < |ops| && ops[a].RemoveComponentOp? && ops[b].RemoveComponentOp? && ops[a].removedKey == ops[b].removedKey == k
    ensures Removals(ops, k) >= 2
    decreases |ops|
  {
    var init := ops[..|ops|-1];
    if b < |init| {
      TwoRemovalsCount(init, k, a, b);
    } else {
      OneRemovalCounts(init, k, a);
    }
  }

  lemma {:induction false} OneRemovalCounts(ops: seq<L.LedgerOp>, k: L.ComponentKey, a: nat)
    requires a < |ops| && ops[a].RemoveComponentOp? && ops[a].removedKey == k
    ensures Removals(ops, k) >= 1
    decreases |ops|
  {
    if a < |ops| - 1 {
      OneRemovalCounts(ops[..|ops|-1], k, a);
    }
  }

  /** Any list with a double removal misleads the projection on some eligible ledger. */
  lemma DoubleRemovalMisleads(ops: seq<L.LedgerOp>, a: nat, b: nat) returns (l: L.LedgerState)
    requires |ops| < U64_MAX && 3 * Added(ops) + 2 < U64_MAX
    requires a < b < |ops| && ops[a].RemoveComponentOp? && ops[b].RemoveComponentOp? && ops[a].removedKey == ops[b].removedKey
    ensures Eligible(l, ops) && !Bounds(l, ops)
  {
    MentionedCounts(ops);
    var spare := UnusedId(Mentioned(ops), U64_MAX);
    var k, size := ops[a].removedKey, Added(ops) + 1;
    assert EntityOf(ops[a]) == k.0;
    l := Exposing(k, spare, size);
    ExposingTotal(k, spare, size);
    forall n | 0 <= n <= |ops| ensures ProjectedBytes(l.totalBytes, l, ops[..n]) < U64_MAX {
      CreditsPileUp(k, spare, size, ops[..n]);
      AddedGrows(ops, n);
    }
    TwoRemovalsCount(ops, k, a, b);
    CreditsPileUp(k, spare, size, ops);
    SpareSurvives(l, ops, spare, size);
    SumTake(L.ApplyLedgerOps(l, ops).sizes, (spare, 0));
  }

  /** The documentation calls the projection an upper bound on the post-commit total. It is one on
      every ledger if and only if the staged operations remove no component twice. (The bounds on the
      list leave room for the ledger that shows a failure: an entity the list does not mention, and
      stored sizes that still fit 64 bits next to the declared ones.) */
  lemma UpperBoundExactly(ops: seq<L.LedgerOp>)
    requires |ops| < U64_MAX && 3 * Added(ops) + 2 < U64_MAX
    ensures (forall l :: Eligible(l, ops) ==> Bounds(l, ops)) <==> NoDoubleRemoval(ops)
  {
    if NoDoubleRemoval(ops) {
      forall l | Eligible(l, ops) ensures Bounds(l, ops) {
        assert CreditsOnce(l, ops);
        ProjectionBounds(l, ops);
      }
    } else {
      var a, b :| 0 <= a < b < |ops| && ops[a].RemoveComponentOp? && ops[b].RemoveComponentOp? && ops[a].removedKey == ops[b].removedKey;
      var l := DoubleRemovalMisleads(ops, a, b);
      assert Eligible(l, ops) && !Bounds(l, ops);
    }
  }
}
