/** The configured limits hold in every reachable state: entity and schedule counts, and the byte
    budget wherever its projection is not credited twice for one removal. */
module Limits {
  import opened Abi
  import opened Authz
  import opened Sums
  import opened Instance
  import opened Stage
  import opened Step
  import opened Kernel
  import opened Moves
  import opened Invariants
  import L = Ledger
  import S = Scheduler

  // ---- count quotas ----

  ghost predicate WithinCounts(i: InstanceSnapshot) {
    && (i.config.maxEntities > 0 ==> |i.entities| <= i.config.maxEntities)
    && (i.config.maxScheduled > 0 ==> |i.scheduler.ready| <= i.config.maxScheduled)
  }

  lemma PutGrowsByOne<K, V>(m: map<K, V>, k: K, v: V)
    ensures |m[k := v]| <= |m| + 1
  {
  }

  lemma DropShrinks<K, V>(m: map<K, V>, ks: set<K>)
    ensures |m - ks| <= |m|
  {
  }

  /** What the quota gates keep while one action is gated: the admitted operations can add at most
      the staged advances, and these still fit under the limits. */
  ghost predicate CountsFit(o: Origin, i: InstanceSnapshot, g: GateState) {
    var j := ExecAll(o, i, g.admitted);
    && (i.config.maxEntities > 0 ==>
          |j.entities| <= |i.entities| + g.stage.idCounters.entityAdvance <= i.config.maxEntities)
    && (i.config.maxScheduled > 0 ==>
          |j.scheduler.ready| <= |i.scheduler.ready| + g.stage.idCounters.scheduledAdvance <= i.config.maxScheduled)
  }

  lemma ExecCounts(o: Origin, i: InstanceSnapshot, op: Op)
    ensures |Exec(o, i, op).entities| <= |i.entities| + if op.SpawnEntity? then 1 else 0
    ensures |Exec(o, i, op).scheduler.ready| <= |i.scheduler.ready| + if op.ScheduleAction? then 1 else 0
  {
  }

  /** What one gated operation does to the staged advances. */
  lemma GateAdvances(o: Origin, i: InstanceSnapshot, g: GateState, op: Op)
    ensures var g' := Gate(o, i, g, op);
            var c, c' := g.stage.idCounters, g'.stage.idCounters;
            || (g'.admitted == g.admitted && c' == c)
            || (&& g'.admitted == g.admitted + [op] && QuotaGate(i, g.stage, op).None?
                && c'.entityAdvance == (if op.SpawnEntity? then SatAdd(c.entityAdvance, 1) else c.entityAdvance)
                && c'.scheduledAdvance == (if op.ScheduleAction? then SatAdd(c.scheduledAdvance, 1) else c.scheduledAdvance))
  {
  }

  /** An operation past the quota gates has room left for it. */
  lemma RoomLeft(i: InstanceSnapshot, s: StageState, op: Op)
    requires QuotaGate(i, s, op).None?
    ensures i.config.maxEntities > 0 && op.SpawnEntity? ==> |i.entities| + s.idCounters.entityAdvance < i.config.maxEntities
    ensures i.config.maxScheduled > 0 && op.ScheduleAction? ==>
              |i.scheduler.ready| + s.idCounters.scheduledAdvance < i.config.maxScheduled
  {
  }

  lemma GateKeepsCounts(o: Origin, i: InstanceSnapshot, g: GateState, op: Op)
    requires CountsFit(o, i, g)
    ensures CountsFit(o, i, Gate(o, i, g, op))
  {
    GateAdvances(o, i, g, op);
    var g' := Gate(o, i, g, op);
    if g'.admitted != g.admitted {
      RoomLeft(i, g.stage, op);
      ExecSnoc(o, i, g.admitted, op);
      ExecCounts(o, ExecAll(o, i, g.admitted), op);
      var j, j' := ExecAll(o, i, g.admitted), ExecAll(o, i, g'.admitted);
      assert |j'.entities| <= |j.entities| + if op.SpawnEntity? then 1 else 0;
      assert |j'.scheduler.ready| <= |j.scheduler.ready| + if op.ScheduleAction? then 1 else 0;
    }
  }

  lemma {:induction false} GatesKeepCounts(o: Origin, i: InstanceSnapshot, g: GateState, ops: seq<Op>)
    requires CountsFit(o, i, g)
    ensures CountsFit(o, i, GateAll(o, i, g, ops))
    decreases |ops|
  {
    if ops != [] {
      GateKeepsCounts(o, i, g, ops[0]);
      GatesKeepCounts(o, i, Gate(o, i, g, ops[0]), ops[1..]);
    }
  }

  lemma ExecKeepsConfig(o: Origin, i: InstanceSnapshot, op: Op)
    ensures Exec(o, i, op).config == i.config && Exec(o, i, op).id == i.id
  {
  }

  lemma {:induction false} ExecAllKeepsConfig(o: Origin, i: InstanceSnapshot, ops: seq<Op>)
    ensures ExecAll(o, i, ops).config == i.config && ExecAll(o, i, ops).id == i.id
    decreases |ops|
  {
    if ops != [] {
      ExecAllKeepsConfig(o, i, ops[..|ops|-1]);
      ExecKeepsConfig(o, ExecAll(o, i, ops[..|ops|-1]), ops[|ops|-1]);
    }
  }

  lemma PopKeepsCounts(reg: Registry, i: InstanceSnapshot, id: InstanceId, now: Tick, session: Caps)
    requires WithinCounts(i) && S.Due(i.scheduler, now)
    ensures WithinCounts(StepOne(reg, i, id, now, session, true).value.0)
  {
    var p, e := AfterPop(i), i.scheduler.ready[S.Head(i.scheduler.ready.Keys)];
    DropShrinks(i.scheduler.ready, {S.Head(i.scheduler.ready.Keys)});
    assert WithinCounts(p);
    StagingPreservesMeaning(reg, p, id, e, now, session, true);
    if e.typeCode in reg {
      var o := OriginOf(p, id, e, now, session);
      GatesKeepCounts(o, p, GateStart(p), reg[e.typeCode].compute(e.bytes, Context(p, e.actor, now, id)));
      ExecAllKeepsConfig(o, p, Admitted(reg, p, id, e, now, session));
    }
  }

  lemma MoveKeepsCounts(reg: Registry, i: InstanceSnapshot, id: InstanceId, move: Move)
    requires WithinCounts(i)
    ensures WithinCounts(ApplyMove(reg, i, id, move))
  {
    match move
    case Admit(s) =>
      var e := EntryFor(s, SatAdd(i.idCounters.nextScheduled, 1));
      PutGrowsByOne(i.scheduler.ready, S.SchedKey(e.at, i.scheduler.nextSeq, e.id), e);
    case PopAt(now, session) =>
      if S.Due(i.scheduler, now) {
        PopKeepsCounts(reg, i, id, now, session);
      }
    case Receive(_, _) =>
    case Unload(_) =>
  }

  /** Non-zero count limits bound every reachable state, across submissions, pops, spawns, despawns
      and the children scheduled within one step. */
  lemma CountsHoldInEveryRun(reg: Registry, k: KernelState, inputs: seq<Input>)
    requires k.instances == map[]
    ensures forall id :: id in Run(reg, k, inputs).instances ==> WithinCounts(Run(reg, k, inputs).instances[id])
  {
    forall i, id, move | WithinCounts(i) ensures WithinCounts(ApplyMove(reg, i, id, move)) {
      MoveKeepsCounts(reg, i, id, move);
    }
    RunKeeps(reg, k, inputs, WithinCounts);
  }

  // ---- the byte projection ----

  type Bound = map<L.ComponentKey, nat>

  function At(b: Bound, k: L.ComponentKey): nat {
    if k in b then b[k] else 0
  }

  /** Per component, the most the ledger can hold after the staged operations: sizes set add up,
      a removal credits the size stored before the step. */
  function BoundAfter(l: L.LedgerState, ops: seq<L.LedgerOp>): Bound {
    if ops == [] then l.sizes
    else
      var b := BoundAfter(l, ops[..|ops|-1]);
      match ops[|ops|-1]
      case AddComponentOp(k, size) => b[k := At(b, k) + size]
      case RemoveComponentOp(k, _) =>
        b[k := if At(b, k) >= L.StoredSize(l, k) then At(b, k) - L.StoredSize(l, k) else 0]
      case _ => b
  }

  predicate Removes(ops: seq<L.LedgerOp>, k: L.ComponentKey) {
    exists n :: 0 <= n < |ops| && ops[n].RemoveComponentOp? && ops[n].removedKey == k
  }

  /** No component that held bytes before the step is removed twice in it. */
  predicate CreditsOnce(l: L.LedgerState, ops: seq<L.LedgerOp>) {
    forall a, b | 0 <= a < b < |ops| && ops[a].RemoveComponentOp? && ops[b].RemoveComponentOp? ::
      ops[a].removedKey == ops[b].removedKey ==> L.StoredSize(l, ops[b].removedKey) == 0
  }

  /** The projection never reaches the saturation point on the way. */
  predicate Unsaturated(l: L.LedgerState, ops: seq<L.LedgerOp>) {
    forall n :: 0 <= n <= |ops| ==> ProjectedBytes(l.totalBytes, l, ops[..n]) < U64_MAX
  }

  lemma PrefixHypotheses(l: L.LedgerState, ops: seq<L.LedgerOp>)
    requires ops != [] && CreditsOnce(l, ops) && Unsaturated(l, ops)
    ensures CreditsOnce(l, ops[..|ops|-1]) && Unsaturated(l, ops[..|ops|-1])
    ensures ProjectedBytes(l.totalBytes, l, ops) < U64_MAX
  {
    var init := ops[..|ops|-1];
    forall n | 0 <= n <= |init| ensures ProjectedBytes(l.totalBytes, l, init[..n]) < U64_MAX {
      assert init[..n] == ops[..n];
    }
    assert ops[..|ops|] == ops;
  }

  /** The bound's sum is the projection, and it covers the ledger key by key. */
  lemma {:induction false} BoundCovers(l: L.LedgerState, ops: seq<L.LedgerOp>)
    requires l.totalBytes == L.TrueTotal(l) && L.Owned(l) && CreditsOnce(l, ops) && Unsaturated(l, ops)
    ensures var b := BoundAfter(l, ops);
            var end := L.ApplyLedgerOps(l, ops);
            && Sum(b) == ProjectedBytes(l.totalBytes, l, ops)
            && L.Owned(end)
            && (forall k :: k in end.sizes ==> k in b && end.sizes[k] <= b[k])
            && (forall k :: !Removes(ops, k) ==> At(b, k) >= L.StoredSize(l, k))
    decreases |ops|
  {
    if ops != [] {
      var init, op := ops[..|ops|-1], ops[|ops|-1];
      PrefixHypotheses(l, ops);
      BoundCovers(l, init);
      BoundStep(l, ops);
      L.StepKeepsOwned(L.ApplyLedgerOps(l, init), op);
      forall k | !Removes(ops, k) ensures !Removes(init, k) && !(op.RemoveComponentOp? && op.removedKey == k) {
        assert forall n :: 0 <= n < |init| ==> init[n] == ops[n];
        assert ops[|ops|-1] == op;
      }
    }
  }

  /** One more operation moves the bound's sum as it moves the projection. */
  lemma BoundStep(l: L.LedgerState, ops: seq<L.LedgerOp>)
    requires ops != [] && CreditsOnce(l, ops) && ProjectedBytes(l.totalBytes, l, ops) < U64_MAX
    requires Sum(BoundAfter(l, ops[..|ops|-1])) == ProjectedBytes(l.totalBytes, l, ops[..|ops|-1])
    requires forall k :: !Removes(ops[..|ops|-1], k) ==> At(BoundAfter(l, ops[..|ops|-1]), k) >= L.StoredSize(l, k)
    ensures Sum(BoundAfter(l, ops)) == ProjectedBytes(l.totalBytes, l, ops)
  {
    match ops[|ops|-1]
    case AddComponentOp(_, _) => BoundAdds(l, ops);
    case RemoveComponentOp(k, _) =>
      CreditCovered(l, ops, k);
      BoundCredits(l, ops);
    case _ =>
  }

  lemma BoundAdds(l: L.LedgerState, ops: seq<L.LedgerOp>)
    requires ops != [] && ops[|ops|-1].AddComponentOp? && ProjectedBytes(l.totalBytes, l, ops) < U64_MAX
    requires Sum(BoundAfter(l, ops[..|ops|-1])) == ProjectedBytes(l.totalBytes, l, ops[..|ops|-1])
    ensures Sum(BoundAfter(l, ops)) == ProjectedBytes(l.totalBytes, l, ops)
  {
    var b, op := BoundAfter(l, ops[..|ops|-1]), ops[|ops|-1];
    PutAt(b, op.key, At(b, op.key) + op.size);
  }

  lemma BoundCredits(l: L.LedgerState, ops: seq<L.LedgerOp>)
    requires ops != [] && ops[|ops|-1].RemoveComponentOp?
    requires At(BoundAfter(l, ops[..|ops|-1]), ops[|ops|-1].removedKey) >= L.StoredSize(l, ops[|ops|-1].removedKey)
    requires Sum(BoundAfter(l, ops[..|ops|-1])) == ProjectedBytes(l.totalBytes, l, ops[..|ops|-1])
    ensures Sum(BoundAfter(l, ops)) == ProjectedBytes(l.totalBytes, l, ops)
  {
    CreditMoves(BoundAfter(l, ops[..|ops|-1]), ops[|ops|-1].removedKey, L.StoredSize(l, ops[|ops|-1].removedKey),
                ProjectedBytes(l.totalBytes, l, ops[..|ops|-1]));
  }

  lemma CreditMoves(b: Bound, k: L.ComponentKey, credit: U64, projected: U64)
    requires Sum(b) == projected && At(b, k) >= credit
    ensures Sum(b[k := At(b, k) - credit]) == SatSub(projected, credit)
  {
    PutAt(b, k, At(b, k) - credit);
    AtBelowSum(b, k);
  }

  lemma AtBelowSum(b: Bound, k: L.ComponentKey)
    ensures At(b, k) <= Sum(b)
  {
    if k in b {
      SumTake(b, k);
    }
  }

  lemma PutAt(b: Bound, k: L.ComponentKey, v: nat)
    ensures Sum(b[k := v]) == Sum(b) - At(b, k) + v
  {
    SumPut(b, k, v);
  }

  /** A removal credits no more than the bound still holds. */
  lemma CreditCovered(l: L.LedgerState, ops: seq<L.LedgerOp>, k: L.ComponentKey)
    requires ops != [] && CreditsOnce(l, ops) && ops[|ops|-1].RemoveComponentOp? && ops[|ops|-1].removedKey == k
    requires !Removes(ops[..|ops|-1], k) ==> At(BoundAfter(l, ops[..|ops|-1]), k) >= L.StoredSize(l, k)
    ensures At(BoundAfter(l, ops[..|ops|-1]), k) >= L.StoredSize(l, k)
  {
  }

  /** The staged projection is an upper bound on what the commit will store: replaces, despawn
      cascades and sets on unknown entities only ever make it larger than needed. */
  lemma ProjectionBounds(l: L.LedgerState, ops: seq<L.LedgerOp>)
    requires l.totalBytes == L.TrueTotal(l) && L.Owned(l) && CreditsOnce(l, ops) && Unsaturated(l, ops)
    ensures L.TrueTotal(L.ApplyLedgerOps(l, ops)) <= ProjectedBytes(l.totalBytes, l, ops)
  {
    BoundCovers(l, ops);
    SumBelow(L.ApplyLedgerOps(l, ops).sizes, BoundAfter(l, ops));
  }

  /** Under the same hypotheses the cached total stays the true sum throughout. */
  lemma {:induction false} CacheStaysExact(l: L.LedgerState, ops: seq<L.LedgerOp>)
    requires l.totalBytes == L.TrueTotal(l) && L.Owned(l) && CreditsOnce(l, ops) && Unsaturated(l, ops)
    ensures L.ApplyLedgerOps(l, ops).totalBytes == L.TrueTotal(L.ApplyLedgerOps(l, ops))
    decreases |ops|
  {
    if ops != [] {
      PrefixHypotheses(l, ops);
      CacheStaysExact(l, ops[..|ops|-1]);
      ProjectionBounds(l, ops);
      L.CacheExactWhenItFits(L.ApplyLedgerOps(l, ops[..|ops|-1]), ops[|ops|-1]);
    }
  }

  // ---- the budget over steps and runs ----

  /** A budget that can be enforced, with the stored bytes within it and the cache exact. */
  ghost predicate WithinBudget(i: InstanceSnapshot) {
    && StoresAgree(i)
    && (0 < i.config.memoryBudgetBytes < U64_MAX ==>
          i.ledger.totalBytes == L.TrueTotal(i.ledger) <= i.config.memoryBudgetBytes)
  }

  /** Every staged prefix was admitted under the budget. */
  ghost predicate ProjectionFits(i: InstanceSnapshot, ops: seq<L.LedgerOp>) {
    forall n :: 0 <= n <= |ops| ==> ProjectedBytes(i.ledger.totalBytes, i.ledger, ops[..n]) <= i.config.memoryBudgetBytes
  }

  lemma GateKeepsProjection(o: Origin, i: InstanceSnapshot, g: GateState, op: Op)
    requires i.config.memoryBudgetBytes > 0 && ProjectionFits(i, g.stage.ledgerOps)
    ensures ProjectionFits(i, Gate(o, i, g, op).stage.ledgerOps)
  {
    var before, after := g.stage.ledgerOps, Gate(o, i, g, op).stage.ledgerOps;
    if after != before {
      assert after[..|after|-1] == before;
      forall n | 0 <= n <= |after|
        ensures ProjectedBytes(i.ledger.totalBytes, i.ledger, after[..n]) <= i.config.memoryBudgetBytes
      {
        if n <= |before| {
          assert after[..n] == before[..n];
        } else {
          assert after[..n] == after;
        }
      }
    }
  }

  lemma {:induction false} GatesKeepProjection(o: Origin, i: InstanceSnapshot, g: GateState, ops: seq<Op>)
    requires i.config.memoryBudgetBytes > 0 && ProjectionFits(i, g.stage.ledgerOps)
    ensures ProjectionFits(i, GateAll(o, i, g, ops).stage.ledgerOps)
    decreases |ops|
  {
    if ops != [] {
      GateKeepsProjection(o, i, g, ops[0]);
      GatesKeepProjection(o, i, Gate(o, i, g, ops[0]), ops[1..]);
    }
  }

  /** No two operations of the list remove the same component. */
  predicate RemovesOnce(ops: seq<Op>) {
    forall a, b :: 0 <= a < b < |ops| && ops[a].RemoveComponent? && ops[b].RemoveComponent? ==>
      (ops[a].removedFrom, ops[a].removedType) != (ops[b].removedFrom, ops[b].removedType)
  }

  /** Staging a removal of what is not staged for removal yet credits nothing twice. */
  lemma CreditsOnceSnoc(l: L.LedgerState, ops: seq<L.LedgerOp>, op: L.LedgerOp)
    requires CreditsOnce(l, ops) && (op.RemoveComponentOp? ==> !Removes(ops, op.removedKey))
    ensures CreditsOnce(l, ops + [op])
  {
    var all := ops + [op];
    forall a, b | 0 <= a < b < |all|
      ensures all[a].RemoveComponentOp? && all[b].RemoveComponentOp? && all[a].removedKey == all[b].removedKey ==>
                L.StoredSize(l, all[b].removedKey) == 0
    {
      assert all[a] == ops[a];
    }
  }

  /** Gating a list that removes nothing twice, nor what is staged for removal already, credits
      no removal twice. */
  lemma {:induction false} GatesCreditOnce(o: Origin, i: InstanceSnapshot, g: GateState, ops: seq<Op>)
    requires CreditsOnce(i.ledger, g.stage.ledgerOps) && RemovesOnce(ops)
    requires forall n :: 0 <= n < |ops| && ops[n].RemoveComponent? ==>
               !Removes(g.stage.ledgerOps, (ops[n].removedFrom, ops[n].removedType))
    ensures CreditsOnce(i.ledger, GateAll(o, i, g, ops).stage.ledgerOps)
    decreases |ops|
  {
    if ops != [] {
      var g' := Gate(o, i, g, ops[0]);
      var before, after := g.stage.ledgerOps, g'.stage.ledgerOps;
      if after != before {
        assert after == before + [LedgerView(ops[0]).value];
        CreditsOnceSnoc(i.ledger, before, LedgerView(ops[0]).value);
      }
      var rest := ops[1..];
      forall n | 0 <= n < |rest| && rest[n].RemoveComponent?
        ensures !Removes(after, (rest[n].removedFrom, rest[n].removedType))
      {
        assert rest[n] == ops[n+1];
        assert forall m :: 0 <= m < |before| ==> after[m] == before[m];
      }
      assert forall a :: 0 <= a < |rest| ==> rest[a] == ops[a+1];
      GatesCreditOnce(o, i, g', rest);
    }
  }

  /** The action `e` about to run on `i` commits no step that credits the removal of a stored component
      twice. */
  ghost predicate CommitsCreditOnce(reg: Registry, i: InstanceSnapshot, id: InstanceId, e: S.ScheduledEntry, now: Tick, session: Caps) {
    Commits(RunEntry(reg, i, id, e, now, session, true).1.verdict) ==>
      e.typeCode in reg && CreditsOnce(i.ledger, Gated(reg[e.typeCode], i, id, e, now, session).stage.ledgerOps)
  }

  /** Byte budget of one step: from within an enforceable budget, an action whose committed removals
      credit nothing twice leaves the instance within it, whatever it replaces, despawns, or sets on
      entities that do not exist. */
  lemma StepKeepsBudget(reg: Registry, i: InstanceSnapshot, id: InstanceId, e: S.ScheduledEntry, now: Tick, session: Caps)
    requires WithinBudget(i) && CommitsCreditOnce(reg, i, id, e, now, session)
    ensures WithinBudget(RunEntry(reg, i, id, e, now, session, true).0)
  {
    var o := OriginOf(i, id, e, now, session);
    StagingPreservesMeaning(reg, i, id, e, now, session, true);
    ExecAllKeepsStores(o, i, Admitted(reg, i, id, e, now, session));
    ExecAllKeepsConfig(o, i, Admitted(reg, i, id, e, now, session));
    if 0 < i.config.memoryBudgetBytes < U64_MAX && Commits(RunEntry(reg, i, id, e, now, session, true).1.verdict) {
      GatedKeepsBudget(reg[e.typeCode], i, id, e, now, session);
    }
  }

  lemma GatedKeepsBudget(r: Registration, i: InstanceSnapshot, id: InstanceId, e: S.ScheduledEntry, now: Tick, session: Caps)
    requires WithinBudget(i) && 0 < i.config.memoryBudgetBytes < U64_MAX
    requires CreditsOnce(i.ledger, Gated(r, i, id, e, now, session).stage.ledgerOps)
    ensures var end := L.ApplyLedgerOps(i.ledger, Gated(r, i, id, e, now, session).stage.ledgerOps);
            end.totalBytes == L.TrueTotal(end) <= i.config.memoryBudgetBytes
  {
    var ops := Gated(r, i, id, e, now, session).stage.ledgerOps;
    assert ProjectionFits(i, GateStart(i).stage.ledgerOps);
    GatesKeepProjection(OriginOf(i, id, e, now, session), i, GateStart(i), r.compute(e.bytes, Context(i, e.actor, now, id)));
    assert Unsaturated(i.ledger, ops);
    ProjectionBounds(i.ledger, ops);
    CacheStaysExact(i.ledger, ops);
    assert ops[..|ops|] == ops;
  }

  ghost predicate CreditsOnceAt(reg: Registry, o: Occasion) {
    S.Due(o.before.scheduler, o.now) ==>
      CommitsCreditOnce(reg, AfterPop(o.before), o.id, o.before.scheduler.ready[S.Head(o.before.scheduler.ready.Keys)], o.now, o.session)
  }

  lemma PopKeepsBudget(reg: Registry, o: Occasion)
    requires WithinBudget(o.before) && S.Due(o.before.scheduler, o.now) && CreditsOnceAt(reg, o)
    ensures WithinBudget(StepOne(reg, o.before, o.id, o.now, o.session, true).value.0)
  {
    var p, e := AfterPop(o.before), o.before.scheduler.ready[S.Head(o.before.scheduler.ready.Keys)];
    assert WithinBudget(p);
    StepKeepsBudget(reg, p, o.id, e, o.now, o.session);
  }

  lemma MoveKeepsBudget(reg: Registry, i: InstanceSnapshot, id: InstanceId, move: Move)
    requires WithinBudget(i)
    requires move.PopAt? && S.Due(i.scheduler, move.now) ==> CreditsOnceAt(reg, Occasion(i, id, move.now, move.session))
    ensures WithinBudget(ApplyMove(reg, i, id, move))
  {
    if move.PopAt? {
      if S.Due(i.scheduler, move.now) {
        PopKeepsBudget(reg, Occasion(i, id, move.now, move.session));
      }
    } else {
      MoveKeepsStores(reg, i, id, move);
    }
  }

  lemma FreshWithinBudget(id: InstanceId, config: InstanceConfig)
    ensures WithinBudget(Fresh(id, config))
  {
    assert L.TrueTotal(L.EMPTY) == 0;
  }

  /** Byte budget over runs: from any kernel whose instances are within their budgets, through any run
      none of whose committed steps credits the removal of a stored component twice, every instance
      with an enforceable budget stays within it, with an exact total. */
  lemma BudgetHoldsInEveryRun(reg: Registry, k: KernelState, inputs: seq<Input>)
    requires Everywhere(k.instances, WithinBudget)
    requires forall o :: o in Occasions(reg, k, inputs) ==> CreditsOnceAt(reg, o)
    ensures Everywhere(Run(reg, k, inputs).instances, WithinBudget)
  {
    forall id, config ensures WithinBudget(Fresh(id, config)) {
      FreshWithinBudget(id, config);
    }
    var ok := o => CreditsOnceAt(reg, o);
    forall i, id, move: Move | WithinBudget(i) && (move.PopAt? && S.Due(i.scheduler, move.now) ==> ok(Occasion(i, id, move.now, move.session)))
      ensures WithinBudget(ApplyMove(reg, i, id, move))
    {
      MoveKeepsBudget(reg, i, id, move);
    }
    RunKeepsWhere(reg, k, inputs, WithinBudget, ok);
  }

  /** What an action computes when it is popped on this occasion removes no component twice. */
  ghost predicate RemovesOnceAt(reg: Registry, o: Occasion) {
    S.Due(o.before.scheduler, o.now) ==>
      var p, e := AfterPop(o.before), o.before.scheduler.ready[S.Head(o.before.scheduler.ready.Keys)];
      e.typeCode in reg ==> RemovesOnce(reg[e.typeCode].compute(e.bytes, Context(p, e.actor, o.now, o.id)))
  }

  lemma RemovingOnceCreditsOnce(reg: Registry, o: Occasion)
    requires RemovesOnceAt(reg, o)
    ensures CreditsOnceAt(reg, o)
  {
    if S.Due(o.before.scheduler, o.now) {
      var p, e := AfterPop(o.before), o.before.scheduler.ready[S.Head(o.before.scheduler.ready.Keys)];
      if e.typeCode in reg {
        GatesCreditOnce(OriginOf(p, o.id, e, o.now, o.session), p, GateStart(p),
                        reg[e.typeCode].compute(e.bytes, Context(p, e.actor, o.now, o.id)));
      }
    }
  }

  /** In particular it is enough that nothing computed along the run names one component in two removals. */
  lemma BudgetHoldsWhereNothingIsRemovedTwice(reg: Registry, k: KernelState, inputs: seq<Input>)
    requires Everywhere(k.instances, WithinBudget)
    requires forall o :: o in Occasions(reg, k, inputs) ==> RemovesOnceAt(reg, o)
    ensures Everywhere(Run(reg, k, inputs).instances, WithinBudget)
  {
    forall o | o in Occasions(reg, k, inputs) ensures CreditsOnceAt(reg, o) {
      RemovingOnceCreditsOnce(reg, o);
    }
    BudgetHoldsInEveryRun(reg, k, inputs);
  }

  // ---- why the hypothesis is needed ----

  /** Two components of 5 bytes each under a budget of 10. */
  function FullInstance(): InstanceSnapshot {
    var meta := EntityMeta(System, 0);
    Fresh(1, InstanceConfig(SYSTEM, 0, 0, 0, 10, None, Reject)).(
      entities := map[1 := meta],
      components := map[(1, 1) := [], (1, 2) := []],
      ledger := L.LedgerState({1}, map[(1, 1) := 5, (1, 2) := 5], 10))
  }

  /** Removes one of them twice, then stores 10 bytes elsewhere. */
  function DoubleRemoval(): seq<Op> {
    [RemoveComponent(1, 1, 5), RemoveComponent(1, 1, 5), SetComponent(1, 3, [], 10)]
  }

  /** A store operation that fits the projection is admitted and staged. */
  lemma AdmittedWhenItFits(o: Origin, i: InstanceSnapshot, g: GateState, op: Op)
    requires o.principal.System? && LedgerView(op).Some?
    requires i.config.maxEntities == 0 == i.config.maxScheduled
    requires ProjectedBytes(i.ledger.totalBytes, i.ledger, g.stage.ledgerOps + [LedgerView(op).value]) <= i.config.memoryBudgetBytes
    ensures var g' := Gate(o, i, g, op);
            && g'.stage.ledgerOps == g.stage.ledgerOps + [LedgerView(op).value]
            && g'.denied == g.denied && g'.anyDenied == g.anyDenied && g'.admitted == g.admitted + [op]
  {
  }

  lemma FullInstanceWithinBudget()
    ensures WithinBudget(FullInstance())
  {
    var sizes := FullInstance().ledger.sizes;
    var one: map<L.ComponentKey, nat> := map[(1, 2) := 5];
    SumTake(sizes, (1, 1));
    assert sizes - {(1, 1)} == one;
    SumTake(one, (1, 2));
    assert one - {(1, 2)} == map[];
  }

  /** Projected and stored bytes part ways at the second removal. */
  lemma ProjectionFallsBelow()
    ensures var l, r := FullInstance().ledger, L.RemoveComponentOp((1, 1), 5);
            && ProjectedBytes(10, l, []) == 10 && ProjectedBytes(10, l, [r]) == 5 && ProjectedBytes(10, l, [r, r]) == 0
            && L.ApplyLedgerOps(l, [r, r]) == L.LedgerState({1}, map[(1, 2) := 5], 5)
  {
    var l, r := FullInstance().ledger, L.RemoveComponentOp((1, 1), 5);
    assert [r][..0] == [] && [r, r][..1] == [r];
    assert l.sizes - {(1, 1)} == map[(1, 2) := 5];
    assert map[(1, 2) := 5] - {(1, 1)} == map[(1, 2) := 5];
    assert L.ApplyLedgerOps(l, [r]) == L.LedgerState({1}, map[(1, 2) := 5], 5);
  }

  lemma AdmittedNext(o: Origin, i: InstanceSnapshot, g: GateState, op: Op, l: L.LedgerOp, staged: seq<L.LedgerOp>)
    requires o.principal.System? && LedgerView(op) == Some(l) && i.config.maxEntities == 0 == i.config.maxScheduled
    requires staged == g.stage.ledgerOps + [l] && ProjectedBytes(i.ledger.totalBytes, i.ledger, staged) <= i.config.memoryBudgetBytes
    ensures var g' := Gate(o, i, g, op);
            g'.stage.ledgerOps == staged && g'.denied == g.denied && g'.anyDenied == g.anyDenied && g'.admitted == g.admitted + [op]
  {
    AdmittedWhenItFits(o, i, g, op);
  }

  lemma ThreeInTurn(o: Origin, i: InstanceSnapshot, x: Op, y: Op, z: Op, a: L.LedgerOp, b: L.LedgerOp, c: L.LedgerOp)
      returns (g: GateState)
    requires o.principal.System? && i.config.maxEntities == 0 == i.config.maxScheduled
    requires LedgerView(x) == Some(a) && LedgerView(y) == Some(b) && LedgerView(z) == Some(c)
    requires ProjectedBytes(i.ledger.totalBytes, i.ledger, [a]) <= i.config.memoryBudgetBytes
    requires ProjectedBytes(i.ledger.totalBytes, i.ledger, [a, b]) <= i.config.memoryBudgetBytes
    requires ProjectedBytes(i.ledger.totalBytes, i.ledger, [a, b, c]) <= i.config.memoryBudgetBytes
    ensures g == Gate(o, i, Gate(o, i, Gate(o, i, GateStart(i), x), y), z)
    ensures g.stage.ledgerOps == [a, b, c] && g.denied == 0 && !g.anyDenied && g.admitted == [x, y, z]
  {
    var g0 := GateStart(i);
    AdmittedNext(o, i, g0, x, a, [a]);
    var g1 := Gate(o, i, g0, x);
    AdmittedNext(o, i, g1, y, b, [a, b]);
    var g2 := Gate(o, i, g1, y);
    AdmittedNext(o, i, g2, z, c, [a, b, c]);
    g := Gate(o, i, g2, z);
  }

  /** Three store operations whose projections all fit pass the gates together. */
  lemma ThreeAdmitted(o: Origin, i: InstanceSnapshot, ops: seq<Op>, a: L.LedgerOp, b: L.LedgerOp, c: L.LedgerOp)
    requires o.principal.System? && i.config.maxEntities == 0 == i.config.maxScheduled && |ops| == 3
    requires LedgerView(ops[0]) == Some(a) && LedgerView(ops[1]) == Some(b) && LedgerView(ops[2]) == Some(c)
    requires ProjectedBytes(i.ledger.totalBytes, i.ledger, [a]) <= i.config.memoryBudgetBytes
    requires ProjectedBytes(i.ledger.totalBytes, i.ledger, [a, b]) <= i.config.memoryBudgetBytes
    requires ProjectedBytes(i.ledger.totalBytes, i.ledger, [a, b, c]) <= i.config.memoryBudgetBytes
    ensures var g := GateAll(o, i, GateStart(i), ops);
            g.stage.ledgerOps == [a, b, c] && g.denied == 0 && !g.anyDenied && g.admitted == ops
  {
    var g := ThreeInTurn(o, i, ops[0], ops[1], ops[2], a, b, c);
    GateThree(o, i, GateStart(i), ops);
    assert ops == [ops[0], ops[1], ops[2]];
  }

  lemma DoubleRemovalProjects()
    ensures var (l, r, a) := (FullInstance().ledger, L.RemoveComponentOp((1, 1), 5), L.AddComponentOp((1, 3), 10));
            && ProjectedBytes(10, l, [r]) == 5 && ProjectedBytes(10, l, [r, r]) == 0 && ProjectedBytes(10, l, [r, r, a]) == 10
            && L.ApplyLedgerOps(l, [r, r, a]).totalBytes == 15
  {
    var (r, a) := (L.RemoveComponentOp((1, 1), 5), L.AddComponentOp((1, 3), 10));
    ProjectionFallsBelow();
    assert [r, r, a][..2] == [r, r];
    L.LedgerOpsSnoc(FullInstance().ledger, [r, r], a);
    assert [r, r] + [a] == [r, r, a];
  }

  /** A second removal credits the stored size again, and the next set fills the phantom room: an
      instance within its budget of 10 ends the step holding 15 bytes, with every operation admitted. */
  lemma DoubleRemovalBreaksBudget()
    ensures WithinBudget(FullInstance())
    ensures var o := Origin(1, System, 0, SYSTEM);
            var g := GateAll(o, FullInstance(), GateStart(FullInstance()), DoubleRemoval());
            && g.denied == 0 && !g.anyDenied
            && ApplyStage(FullInstance(), g.stage).ledger.totalBytes == 15 > FullInstance().config.memoryBudgetBytes
  {
    var r, a := L.RemoveComponentOp((1, 1), 5), L.AddComponentOp((1, 3), 10);
    FullInstanceWithinBudget();
    DoubleRemovalProjects();
    ThreeAdmitted(Origin(1, System, 0, SYSTEM), FullInstance(), DoubleRemoval(), r, r, a);
  }

  lemma GateThree(o: Origin, i: InstanceSnapshot, g: GateState, ops: seq<Op>)
    requires |ops| == 3
    ensures GateAll(o, i, g, ops) == Gate(o, i, Gate(o, i, Gate(o, i, g, ops[0]), ops[1]), ops[2])
  {
    var two, one := ops[1..], ops[2..];
    assert two[1..] == one && one[1..] == [];
    var g1 := Gate(o, i, g, ops[0]);
    var g2 := Gate(o, i, g1, ops[1]);
    assert GateAll(o, i, g2, one) == GateAll(o, i, Gate(o, i, g2, ops[2]), []);
    assert GateAll(o, i, g1, two) == GateAll(o, i, g2, one);
  }
}
