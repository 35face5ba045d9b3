/** One pop of one instance: gates, staging, commit or rollback
    (`step_one_core` in `arkhe-kernel/src/runtime/kernel.rs`). */
module Step {
  import opened Abi
  import opened Authz
  import opened Event
  import opened Instance
  import opened Stage
  import L = Ledger
  import S = Scheduler

  /** Everything an action's `compute` is shown. */
  datatype ActionContext = ActionContext(
    actor: Option<EntityId>, now: Tick, instance: InstanceId,
    entitiesLen: nat, componentsLen: nat, localTick: U64)

  /** A registered action type: which bytes decode under its schema, and what they compute. */
  datatype Registration = Registration(
    schemaVersion: U32,
    decodes: (U32, Bytes) -> bool,
    compute: (Bytes, ActionContext) -> seq<Op>)

  type Registry = map<TypeCode, Registration>

  datatype SkipReason = Unregistered | DeserFailed

  datatype StepVerdict = Committed | AuthDenied | BudgetPartial(denied: U32) | Skipped(reason: SkipReason)

  datatype StepCore = StepCore(
    poppedId: ScheduledActionId, actionType: TypeCode, verdict: StepVerdict, digest: Digest,
    pendingSignals: seq<PendingSignal>, events: seq<KernelEvent>,
    effectsApplied: U32, effectsDenied: U32, domainEvents: U32)

  // ---- the gates one operation meets ----

  function ProjectedBytes(total: U64, ledger: L.LedgerState, ops: seq<L.LedgerOp>): U64 {
    if ops == [] then total
    else
      var before := ProjectedBytes(total, ledger, ops[..|ops|-1]);
      match ops[|ops|-1]
      case AddComponentOp(_, size) => SatAdd(before, size)
      case RemoveComponentOp(k, _) => SatSub(before, L.StoredSize(ledger, k))
      case _ => before
  }

  /** The byte total the budget gate compares against the limit for `op`. */
  function ProjectedWith(i: InstanceSnapshot, s: StageState, op: Op): U64 {
    var staged := ProjectedBytes(i.ledger.totalBytes, i.ledger, s.ledgerOps);
    match op
    case SetComponent(_, _, _, size) => SatAdd(staged, size)
    case RemoveComponent(e, tc, _) => SatSub(staged, L.StoredSize(i.ledger, (e, tc)))
    case _ => staged
  }

  /** The first quota gate that refuses `op`, if any. */
  function QuotaGate(i: InstanceSnapshot, s: StageState, op: Op): Option<FailReason> {
    if i.config.memoryBudgetBytes > 0 && ProjectedWith(i, s, op) > i.config.memoryBudgetBytes then
      Some(BudgetExceeded)
    else if i.config.maxEntities > 0 && op.SpawnEntity? &&
            SatAdd(Min(|i.entities|, U64_MAX), s.idCounters.entityAdvance) >= i.config.maxEntities then
      Some(EntityQuotaExceeded)
    else if i.config.maxScheduled > 0 && op.ScheduleAction? &&
            SatAdd(Min(|i.scheduler.ready|, U64_MAX), s.idCounters.scheduledAdvance) >= i.config.maxScheduled then
      Some(ScheduledQuotaExceeded)
    else None
  }

  /** The gate loop's running values; `admitted` lists the operations dispatched so far. */
  datatype GateState = GateState(
    stage: StageState, nextScheduledId: U64, anyDenied: bool, applied: U32, denied: U32, admitted: seq<Op>)

  function Gate(o: Origin, i: InstanceSnapshot, g: GateState, op: Op): GateState {
    if !Authorized(o.caps, o.principal, op) then
      g.(denied := SatAdd32(g.denied, 1), anyDenied := true)
    else
      match QuotaGate(i, g.stage, op)
      case Some(reason) =>
        g.(denied := SatAdd32(g.denied, 1), stage := g.stage.(events := g.stage.events + [EffectFailed(o.instance, reason)]))
      case None =>
        var (stage, next) := Dispatch(o, g.stage, g.nextScheduledId, op);
        GateState(stage, next, g.anyDenied, SatAdd32(g.applied, 1), g.denied, g.admitted + [op])
  }

  function GateAll(o: Origin, i: InstanceSnapshot, g: GateState, ops: seq<Op>): GateState
    decreases |ops|
  {
    if ops == [] then g else GateAll(o, i, Gate(o, i, g, ops[0]), ops[1..])
  }

  function GateStart(i: InstanceSnapshot): GateState {
    GateState(Stage.EMPTY, i.idCounters.nextScheduled, false, 0, 0, [])
  }

  // ---- the whole pop ----

  function DomainEvents(events: seq<KernelEvent>): nat {
    if events == [] then 0
    else DomainEvents(events[..|events|-1]) + if events[|events|-1].DomainEventEmitted? then 1 else 0
  }

  ghost function DigestOf(i: InstanceSnapshot, measure: bool): Digest {
    if measure then StateDigest(i) else ZeroDigest
  }

  function Context(i: InstanceSnapshot, actor: Option<EntityId>, now: Tick, id: InstanceId): ActionContext {
    ActionContext(actor, now, id, |i.entities|, |i.components|, i.localTick)
  }

  function OriginOf(i: InstanceSnapshot, id: InstanceId, e: S.ScheduledEntry, now: Tick, session: Caps): Origin {
    Origin(id, e.principal, now, EffectiveCaps(i.config.defaultCaps, e.principal, e.ceiling) * session)
  }

  /** Where the gate loop ends for the popped entry `e`; `i` is the instance after the pop. */
  function Gated(reg: Registration, i: InstanceSnapshot, id: InstanceId, e: S.ScheduledEntry, now: Tick, session: Caps): GateState {
    GateAll(OriginOf(i, id, e, now, session), i, GateStart(i), reg.compute(e.bytes, Context(i, e.actor, now, id)))
  }

  function AfterPop(i: InstanceSnapshot): InstanceSnapshot
    requires i.scheduler.ready != map[]
  {
    i.(scheduler := S.Popped(i.scheduler, S.Head(i.scheduler.ready.Keys)))
  }

  ghost function RunEntry(reg: Registry, i: InstanceSnapshot, id: InstanceId, e: S.ScheduledEntry,
                          now: Tick, session: Caps, measure: bool): (InstanceSnapshot, StepCore) {
    if e.typeCode !in reg then
      (i, StepCore(e.id, e.typeCode, Skipped(Unregistered), DigestOf(i, measure), [], [], 0, 0, 0))
    else if !reg[e.typeCode].decodes(reg[e.typeCode].schemaVersion, e.bytes) then
      (i, StepCore(e.id, e.typeCode, Skipped(DeserFailed), DigestOf(i, measure), [], [], 0, 0, 0))
    else
      var g := Gated(reg[e.typeCode], i, id, e, now, session);
      if g.anyDenied then
        (i, StepCore(e.id, e.typeCode, AuthDenied, DigestOf(i, measure), [], [], 0, g.denied, 0))
      else
        var j := ApplyStage(i, g.stage);
        (j, StepCore(e.id, e.typeCode, if g.denied > 0 then BudgetPartial(g.denied) else Committed,
                     DigestOf(j, measure), g.stage.pendingSignals, g.stage.events,
                     g.applied, g.denied, Truncate32(DomainEvents(g.stage.events))))
  }

  /** Pop the head of `i` if it is due and run it; `None` leaves the instance untouched. */
  ghost function StepOne(reg: Registry, i: InstanceSnapshot, id: InstanceId, now: Tick, session: Caps, measure: bool)
      : Option<(InstanceSnapshot, StepCore)> {
    if !S.Due(i.scheduler, now) then None
    else Some(RunEntry(reg, AfterPop(i), id, i.scheduler.ready[S.Head(i.scheduler.ready.Keys)], now, session, measure))
  }

  // ---- staging preserves meaning ----

  /** Whatever the gates decide, the stage stands for exactly the operations they admitted. */
  lemma {:induction false} GatedStandsFor(o: Origin, i: InstanceSnapshot, g: GateState, ops: seq<Op>)
    requires StandsFor(o, i, g.stage, g.nextScheduledId, g.admitted)
    ensures var end := GateAll(o, i, g, ops);
            StandsFor(o, i, end.stage, end.nextScheduledId, end.admitted)
    decreases |ops|
  {
    if ops != [] {
      var g' := Gate(o, i, g, ops[0]);
      if g'.admitted != g.admitted {
        DispatchExtends(o, i, g.stage, g.nextScheduledId, g.admitted, ops[0]);
      }
      GatedStandsFor(o, i, g', ops[1..]);
    }
  }

  /** The operations the gates admit when `e`, just popped from `i`, runs. */
  function Admitted(reg: Registry, i: InstanceSnapshot, id: InstanceId, e: S.ScheduledEntry, now: Tick, session: Caps): seq<Op> {
    if e.typeCode in reg then Gated(reg[e.typeCode], i, id, e, now, session).admitted else []
  }

  predicate Commits(v: StepVerdict) {
    v.Committed? || v.BudgetPartial?
  }

  /** Committing the staged buckets is executing the admitted operations one at a time, in order,
      directly on the popped instance; their signals are the outbound signals; a single denied
      authorization leaves exactly the state after the pop. */
  lemma StagingPreservesMeaning(reg: Registry, i: InstanceSnapshot, id: InstanceId, e: S.ScheduledEntry,
                                now: Tick, session: Caps, measure: bool)
    ensures var (j, core) := RunEntry(reg, i, id, e, now, session, measure);
            if Commits(core.verdict) then
              && j == ExecAll(OriginOf(i, id, e, now, session), i, Admitted(reg, i, id, e, now, session))
              && core.pendingSignals == Sent(OriginOf(i, id, e, now, session), Admitted(reg, i, id, e, now, session))
            else
              j == i && core.pendingSignals == [] && core.events == [] && core.effectsApplied == 0
  {
    if e.typeCode in reg {
      var o := OriginOf(i, id, e, now, session);
      EmptyStandsForNothing(o, i);
      var ops := reg[e.typeCode].compute(e.bytes, Context(i, e.actor, now, id));
      GatedStandsFor(o, i, GateStart(i), ops);
      var g := GateAll(o, i, GateStart(i), ops);
      assert StandsFor(o, i, g.stage, g.nextScheduledId, g.admitted);
      assert g == Gated(reg[e.typeCode], i, id, e, now, session);
    }
  }

  /** The step is rolled back exactly when some operation of the list fails authorization:
      a quota refusal never rolls back, and no later success undoes a denial. */
  lemma {:induction false} DeniedExactly(o: Origin, i: InstanceSnapshot, g: GateState, ops: seq<Op>)
    ensures GateAll(o, i, g, ops).anyDenied <==>
            g.anyDenied || exists k :: 0 <= k < |ops| && !Authorized(o.caps, o.principal, ops[k])
    decreases |ops|
  {
    if ops != [] {
      var g' := Gate(o, i, g, ops[0]);
      DeniedExactly(o, i, g', ops[1..]);
      forall k | 0 < k < |ops| ensures ops[k] == ops[1..][k-1] {
      }
      if k :| 0 <= k < |ops| && !Authorized(o.caps, o.principal, ops[k]) && k > 0 {
        assert !Authorized(o.caps, o.principal, ops[1..][k-1]);
      }
    }
  }

  // ---- the pop as the kernel performs it ----

  /** The projection loop: saturating adds, removals credited at their stored size. */
  method ProjectComponentBytes(baseline: U64, ops: seq<L.LedgerOp>, ledger: L.ResourceLedger) returns (total: U64)
    ensures total == ProjectedBytes(baseline, ledger.View(), ops)
  {
    total := baseline;
    for n := 0 to |ops|
      invariant total == ProjectedBytes(baseline, ledger.View(), ops[..n])
    {
      assert ops[..n+1][..n] == ops[..n];
      match ops[n]
      case AddComponentOp(_, size) => total := SatAdd(total, size);
      case RemoveComponentOp(k, _) =>
        var stored := ledger.ComponentSize(k);
        total := SatSub(total, if stored.Some? then stored.value else 0);
      case AddEntityOp(_) =>
      case RemoveEntityOp(_) =>
    }
    assert ops[..|ops|] == ops;
  }

  method OverBudget(inst: Instance, stage: StepStage, op: Op) returns (over: bool)
    ensures over == (inst.config.memoryBudgetBytes > 0 &&
                     ProjectedWith(inst.View(), stage.View(), op) > inst.config.memoryBudgetBytes)
  {
    var budget := inst.config.memoryBudgetBytes;
    if budget == 0 {
      return false;
    }
    var projected := ProjectComponentBytes(inst.ledger.totalBytes, stage.ledgerOps, inst.ledger);
    match op {
      case SetComponent(_, _, _, size) => projected := SatAdd(projected, size);
      case RemoveComponent(e, tc, _) =>
        var stored := inst.ledger.ComponentSize((e, tc));
        projected := SatSub(projected, if stored.Some? then stored.value else 0);
      case _ =>
    }
    over := projected > budget;
  }

  /** The quota gates in the order they are tried. */
  method CheckQuotas(inst: Instance, stage: StepStage, op: Op) returns (refusal: Option<FailReason>)
    ensures refusal == QuotaGate(inst.View(), stage.View(), op)
  {
    var over := OverBudget(inst, stage, op);
    if over {
      return Some(BudgetExceeded);
    }
    if inst.config.maxEntities > 0 && op.SpawnEntity? {
      var projected := SatAdd(Min(|inst.entities|, U64_MAX), stage.idCounters.entityAdvance);
      if projected >= inst.config.maxEntities {
        return Some(EntityQuotaExceeded);
      }
    }
    if inst.config.maxScheduled > 0 && op.ScheduleAction? {
      var projected := SatAdd(Min(|inst.scheduler.ready|, U64_MAX), stage.idCounters.scheduledAdvance);
      if projected >= inst.config.maxScheduled {
        return Some(ScheduledQuotaExceeded);
      }
    }
    refusal := None;
  }

  /** The gate loop over one action's operations, filling the scratch stage. */
  method GateLoop(o: Origin, inst: Instance, stage: StepStage, ops: seq<Op>)
      returns (nextScheduledId: U64, anyDenied: bool, applied: U32, denied: U32, ghost admitted: seq<Op>)
    requires stage.View() == Stage.EMPTY
    modifies stage
    ensures GateState(stage.View(), nextScheduledId, anyDenied, applied, denied, admitted) ==
            GateAll(o, inst.View(), GateStart(inst.View()), ops)
  {
    nextScheduledId, anyDenied, applied, denied, admitted := inst.idCounters.nextScheduled, false, 0, 0, [];
    for n := 0 to |ops|
      invariant GateAll(o, inst.View(), GateState(stage.View(), nextScheduledId, anyDenied, applied, denied, admitted), ops[n..]) ==
                GateAll(o, inst.View(), GateStart(inst.View()), ops)
    {
      var op := ops[n];
      assert ops[n..][0] == op && ops[n..][1..] == ops[n+1..];
      ghost var g := GateState(stage.View(), nextScheduledId, anyDenied, applied, denied, admitted);
      if !Authorized(o.caps, o.principal, op) {
        denied := SatAdd32(denied, 1);
        anyDenied := true;
      } else {
        var refusal := CheckQuotas(inst, stage, op);
        if refusal.Some? {
          denied := SatAdd32(denied, 1);
          stage.PushEvent(EffectFailed(o.instance, refusal.value));
        } else {
          nextScheduledId := DispatchInto(o, stage, nextScheduledId, op);
          applied := SatAdd32(applied, 1);
          admitted := admitted + [op];
        }
      }
      assert GateState(stage.View(), nextScheduledId, anyDenied, applied, denied, admitted) == Gate(o, inst.View(), g, op);
    }
    assert ops[|ops|..] == [];
  }

  method CountDomainEvents(events: seq<KernelEvent>) returns (n: nat)
    ensures n == DomainEvents(events)
  {
    n := 0;
    for k := 0 to |events|
      invariant n == DomainEvents(events[..k])
    {
      assert events[..k+1][..k] == events[..k];
      if events[k].DomainEventEmitted? {
        n := n + 1;
      }
    }
    assert events[..|events|] == events;
  }

  /** Runs one popped entry: skip, roll back, or commit. What the scratch held before is irrelevant. */
  method RunPopped(inst: Instance, e: S.ScheduledEntry, reg: Registry, stage: StepStage, id: InstanceId,
                   now: Tick, session: Caps, measure: bool) returns (core: StepCore)
    requires inst.Valid()
    modifies inst, inst.scheduler, inst.ledger, stage
    ensures inst.Valid()
    ensures (inst.View(), core) == RunEntry(reg, old(inst.View()), id, e, now, session, measure)
  {
    if e.typeCode !in reg {
      var digest := inst.Digested(measure);
      return StepCore(e.id, e.typeCode, Skipped(Unregistered), digest, [], [], 0, 0, 0);
    }
    var r := reg[e.typeCode];
    if !r.decodes(r.schemaVersion, e.bytes) {
      var digest := inst.Digested(measure);
      return StepCore(e.id, e.typeCode, Skipped(DeserFailed), digest, [], [], 0, 0, 0);
    }
    ghost var before := inst.View();
    var o := Origin(id, e.principal, now, EffectiveCaps(inst.config.defaultCaps, e.principal, e.ceiling) * session);
    var ops := r.compute(e.bytes, ActionContext(e.actor, now, id, |inst.entities|, |inst.components|, inst.localTick));
    stage.Clear();
    var _, anyDenied, applied, denied, admitted := GateLoop(o, inst, stage, ops);
    ghost var g := Gated(r, before, id, e, now, session);
    assert stage.View() == g.stage && anyDenied == g.anyDenied && applied == g.applied && denied == g.denied;
    if anyDenied {
      var digest := inst.Digested(measure);
      return StepCore(e.id, e.typeCode, AuthDenied, digest, [], [], 0, denied, 0);
    }
    var domainEvents := CountDomainEvents(stage.events);
    var events := stage.events;
    var signals := CommitStage(inst, stage);
    var digest := inst.Digested(measure);
    var verdict := if denied > 0 then BudgetPartial(denied) else Committed;
    core := StepCore(e.id, e.typeCode, verdict, digest, signals, events, applied, denied, Truncate32(domainEvents));
  }

  /** A step function's answer against what a method left behind. */
  predicate Outcome(answer: Option<(InstanceSnapshot, StepCore)>, before: InstanceSnapshot, after: InstanceSnapshot, core: Option<StepCore>) {
    match answer
    case None => core == None && after == before
    case Some((i, c)) => core == Some(c) && after == i
  }

  method StepOneCore(inst: Instance, reg: Registry, stage: StepStage, id: InstanceId, now: Tick, session: Caps, measure: bool)
      returns (core: Option<StepCore>)
    requires inst.Valid()
    modifies inst, inst.scheduler, inst.ledger, stage
    ensures inst.Valid()
    ensures Outcome(StepOne(reg, old(inst.View()), id, now, session, measure), old(inst.View()), inst.View(), core)
  {
    ghost var before := inst.View();
    if S.Due(before.scheduler, now) {
      S.OperationsKeepAnchored(before.scheduler, S.ScheduledEntry(1, 0, None, System, 0, [], {}), 1, S.Head(before.scheduler.ready.Keys));
    }
    var popped := inst.scheduler.PopDue(now);
    if popped.None? {
      return None;
    }
    assert inst.View() == AfterPop(before);
    var c := RunPopped(inst, popped.value, reg, stage, id, now, session, measure);
    core := Some(c);
  }
}
