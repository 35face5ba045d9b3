/** The transactional step stage, the dispatcher that fills it and the commit that drains it
    (`arkhe-kernel/src/runtime/stage.rs`, `dispatch.rs`, `apply.rs`). */
module Stage {
  import opened Abi
  import opened Authz
  import opened Event
  import opened Instance
  import L = Ledger
  import S = Scheduler

  datatype StagedStateDelta =
    | StagedSpawn(spawned: EntityId, meta: EntityMeta)
    | StagedDespawn(despawned: EntityId)
    | StagedSet(key: L.ComponentKey, bytes: Bytes, size: U64)
    | StagedRemove(removedKey: L.ComponentKey, declaredSize: U64)

  datatype ScheduledEntryDelta = Add(entry: S.ScheduledEntry) | Remove(id: ScheduledActionId)

  datatype PendingSignal = PendingSignal(target: InstanceId, route: RouteId, payload: Bytes, principal: Principal)

  datatype IdCountersDelta = IdCountersDelta(entityAdvance: U64, scheduledAdvance: U64, sourceSeqAdvance: U64)

  /** The nine buckets. */
  datatype StageState = StageState(
    stateOps: seq<StagedStateDelta>,
    events: seq<KernelEvent>,
    scheduleDeltas: seq<ScheduledEntryDelta>,
    pendingSignals: seq<PendingSignal>,
    idCounters: IdCountersDelta,
    ledgerOps: seq<L.LedgerOp>,
    wallRemainderDelta: U128,
    localTickDelta: U64,
    evictionPending: seq<U64>)

  const EMPTY := StageState([], [], [], [], IdCountersDelta(0, 0, 0), [], 0, 0, [])

  /** Who acts, where, when and under which resolved capabilities: fixed for one action. */
  datatype Origin = Origin(instance: InstanceId, principal: Principal, now: Tick, caps: Caps)

  // ---- dispatch: one authorized operation becomes bucket entries ----

  /** The child a `ScheduleAction` stages: the parent's principal, the parent's caps as ceiling. */
  function Child(o: Origin, op: Op, id: ScheduledActionId): S.ScheduledEntry
    requires op.ScheduleAction?
  {
    S.ScheduledEntry(id, op.at, op.actor, o.principal, op.actionType, op.actionBytes, o.caps)
  }

  function Dispatch(o: Origin, s: StageState, nextScheduledId: U64, op: Op): (StageState, U64) {
    match op
    case SpawnEntity(e, owner) =>
      (s.(stateOps := s.stateOps + [StagedSpawn(e, EntityMeta(owner, o.now))],
          ledgerOps := s.ledgerOps + [L.AddEntityOp(e)],
          idCounters := s.idCounters.(entityAdvance := SatAdd(s.idCounters.entityAdvance, 1))), nextScheduledId)
    case DespawnEntity(e) =>
      (s.(stateOps := s.stateOps + [StagedDespawn(e)],
          ledgerOps := s.ledgerOps + [L.RemoveEntityOp(e)]), nextScheduledId)
    case SetComponent(e, tc, bytes, size) =>
      (s.(stateOps := s.stateOps + [StagedSet((e, tc), bytes, size)],
          ledgerOps := s.ledgerOps + [L.AddComponentOp((e, tc), size)]), nextScheduledId)
    case RemoveComponent(e, tc, size) =>
      (s.(stateOps := s.stateOps + [StagedRemove((e, tc), size)],
          ledgerOps := s.ledgerOps + [L.RemoveComponentOp((e, tc), size)]), nextScheduledId)
    case EmitEvent(actor, tc, bytes) =>
      (s.(events := s.events + [DomainEventEmitted(o.instance, actor, tc, bytes)]), nextScheduledId)
    case ScheduleAction(_, _, _, _) =>
      var id := SatAdd(nextScheduledId, 1);
      (s.(scheduleDeltas := s.scheduleDeltas + [Add(Child(o, op, id))],
          idCounters := s.idCounters.(scheduledAdvance := SatAdd(s.idCounters.scheduledAdvance, 1))), id)
    case SendSignal(target, route, payload) =>
      (s.(pendingSignals := s.pendingSignals + [PendingSignal(target, route, payload, o.principal)]), nextScheduledId)
  }

  // ---- apply: the buckets reach the instance one after another ----

  function ApplyStateOp(st: Store, d: StagedStateDelta): Store {
    match d
    case StagedSpawn(e, meta) => st.(entities := st.entities[e := meta])
    case StagedDespawn(e) => RemoveEntity(st, e)
    case StagedSet(k, bytes, _) => if k.0 in st.entities then st.(components := st.components[k := bytes]) else st
    case StagedRemove(k, _) => st.(components := st.components - {k})
  }

  function ApplyStateOps(st: Store, ds: seq<StagedStateDelta>): Store {
    if ds == [] then st else ApplyStateOp(ApplyStateOps(st, ds[..|ds|-1]), ds[|ds|-1])
  }

  function ApplyScheduleDelta(s: S.SchedulerState, d: ScheduledEntryDelta): S.SchedulerState {
    match d
    case Add(e) => S.Insert(s, e)
    case Remove(id) => if id in s.byId && s.byId[id] in s.ready then S.Cancelled(s, id) else s
  }

  function ApplyScheduleDeltas(s: S.SchedulerState, ds: seq<ScheduledEntryDelta>): S.SchedulerState {
    if ds == [] then s else ApplyScheduleDelta(ApplyScheduleDeltas(s, ds[..|ds|-1]), ds[|ds|-1])
  }

  function AdvanceCounters(c: IdCounters, d: IdCountersDelta): IdCounters {
    IdCounters(SatAdd(c.nextEntity, d.entityAdvance), SatAdd(c.nextScheduled, d.scheduledAdvance),
               SatAdd(c.nextSourceSeq, d.sourceSeqAdvance))
  }

  ghost function ApplyStage(i: InstanceSnapshot, s: StageState): InstanceSnapshot {
    var st := ApplyStateOps(Store(i.entities, i.components), s.stateOps);
    i.(idCounters := AdvanceCounters(i.idCounters, s.idCounters),
       entities := st.entities, components := st.components,
       ledger := L.ApplyLedgerOps(i.ledger, s.ledgerOps),
       scheduler := ApplyScheduleDeltas(i.scheduler, s.scheduleDeltas),
       wallRemainder := SatAdd128(i.wallRemainder, s.wallRemainderDelta),
       localTick := SatAdd(i.localTick, s.localTickDelta))
  }

  // ---- the reference: operations executed one at a time, with no stage ----

  /** What one operation means for the instance that issued it. */
  ghost function Exec(o: Origin, i: InstanceSnapshot, op: Op): InstanceSnapshot {
    match op
    case SpawnEntity(e, owner) =>
      i.(entities := i.entities[e := EntityMeta(owner, o.now)], ledger := L.AddEntity(i.ledger, e),
         idCounters := i.idCounters.(nextEntity := SatAdd(i.idCounters.nextEntity, 1)))
    case DespawnEntity(e) =>
      i.(entities := i.entities - {e}, components := i.components - L.KeysOf(i.components, e),
         ledger := L.RemoveEntity(i.ledger, e))
    case SetComponent(e, tc, bytes, size) =>
      i.(components := if e in i.entities then i.components[(e, tc) := bytes] else i.components,
         ledger := L.AddComponent(i.ledger, (e, tc), size))
    case RemoveComponent(e, tc, _) =>
      i.(components := i.components - {(e, tc)}, ledger := L.RemoveComponent(i.ledger, (e, tc)))
    case EmitEvent(_, _, _) => i
    case ScheduleAction(_, _, _, _) =>
      var id := SatAdd(i.idCounters.nextScheduled, 1);
      i.(scheduler := S.Insert(i.scheduler, Child(o, op, id)), idCounters := i.idCounters.(nextScheduled := id))
    case SendSignal(_, _, _) => i
  }

  ghost function ExecAll(o: Origin, i: InstanceSnapshot, ops: seq<Op>): InstanceSnapshot {
    if ops == [] then i else Exec(o, ExecAll(o, i, ops[..|ops|-1]), ops[|ops|-1])
  }

  /** The signals a list of operations sends, in order. */
  function Sent(o: Origin, ops: seq<Op>): seq<PendingSignal> {
    if ops == [] then []
    else
      var op := ops[|ops|-1];
      Sent(o, ops[..|ops|-1]) +
      if op.SendSignal? then [PendingSignal(op.target, op.route, op.payload, o.principal)] else []
  }

  /** A stage that stands for `ops` executed on `i`: applying its buckets is executing the
      operations, its signals are theirs, and the id cursor is where direct execution stands. */
  ghost predicate StandsFor(o: Origin, i: InstanceSnapshot, s: StageState, nextScheduledId: U64, ops: seq<Op>) {
    && ApplyStage(i, s) == ExecAll(o, i, ops)
    && s.pendingSignals == Sent(o, ops)
    && nextScheduledId == ExecAll(o, i, ops).idCounters.nextScheduled
    && s.wallRemainderDelta == 0 && s.localTickDelta == 0 && s.idCounters.sourceSeqAdvance == 0
  }

  lemma EmptyStandsForNothing(o: Origin, i: InstanceSnapshot)
    ensures StandsFor(o, i, EMPTY, i.idCounters.nextScheduled, [])
  {
  }

  lemma ExecSnoc(o: Origin, i: InstanceSnapshot, ops: seq<Op>, op: Op)
    ensures ExecAll(o, i, ops + [op]) == Exec(o, ExecAll(o, i, ops), op)
    ensures Sent(o, ops + [op]) ==
            Sent(o, ops) + if op.SendSignal? then [PendingSignal(op.target, op.route, op.payload, o.principal)] else []
  {
  }

  /** One more store delta with its ledger entry. */
  lemma ApplyPair(i: InstanceSnapshot, s: StageState, d: StagedStateDelta, l: L.LedgerOp)
    ensures var j := ApplyStage(i, s);
            var st := ApplyStateOp(Store(j.entities, j.components), d);
            ApplyStage(i, s.(stateOps := s.stateOps + [d], ledgerOps := s.ledgerOps + [l])) ==
            j.(entities := st.entities, components := st.components, ledger := L.ApplyLedgerOp(j.ledger, l))
  {
  }

  lemma ApplyAfterSchedule(o: Origin, i: InstanceSnapshot, s: StageState, nextScheduledId: U64, op: Op)
    requires nextScheduledId == ApplyStage(i, s).idCounters.nextScheduled && op.ScheduleAction?
    ensures ApplyStage(i, Dispatch(o, s, nextScheduledId, op).0) == Exec(o, ApplyStage(i, s), op)
  {
  }

  lemma ApplyAfterSpawn(o: Origin, i: InstanceSnapshot, s: StageState, nextScheduledId: U64, op: Op)
    requires op.SpawnEntity?
    ensures ApplyStage(i, Dispatch(o, s, nextScheduledId, op).0) == Exec(o, ApplyStage(i, s), op)
  {
  }

  lemma ApplyAfterDespawn(o: Origin, i: InstanceSnapshot, s: StageState, nextScheduledId: U64, op: Op)
    requires op.DespawnEntity?
    ensures ApplyStage(i, Dispatch(o, s, nextScheduledId, op).0) == Exec(o, ApplyStage(i, s), op)
  {
    ApplyPair(i, s, StagedDespawn(op.despawned), L.RemoveEntityOp(op.despawned));
  }

  lemma ApplyAfterSet(o: Origin, i: InstanceSnapshot, s: StageState, nextScheduledId: U64, op: Op)
    requires op.SetComponent?
    ensures ApplyStage(i, Dispatch(o, s, nextScheduledId, op).0) == Exec(o, ApplyStage(i, s), op)
  {
    ApplyPair(i, s, StagedSet((op.entity, op.typeCode), op.bytes, op.size), L.AddComponentOp((op.entity, op.typeCode), op.size));
  }

  lemma ApplyAfterRemove(o: Origin, i: InstanceSnapshot, s: StageState, nextScheduledId: U64, op: Op)
    requires op.RemoveComponent?
    ensures ApplyStage(i, Dispatch(o, s, nextScheduledId, op).0) == Exec(o, ApplyStage(i, s), op)
  {
    var key := (op.removedFrom, op.removedType);
    ApplyPair(i, s, StagedRemove(key, op.declaredSize), L.RemoveComponentOp(key, op.declaredSize));
  }

  /** Applying a stage with one more dispatched operation is applying the stage, then executing it. */
  lemma ApplyAfterDispatch(o: Origin, i: InstanceSnapshot, s: StageState, nextScheduledId: U64, op: Op)
    requires nextScheduledId == ApplyStage(i, s).idCounters.nextScheduled
    ensures ApplyStage(i, Dispatch(o, s, nextScheduledId, op).0) == Exec(o, ApplyStage(i, s), op)
  {
    match op
    case SpawnEntity(_, _) => ApplyAfterSpawn(o, i, s, nextScheduledId, op);
    case DespawnEntity(_) => ApplyAfterDespawn(o, i, s, nextScheduledId, op);
    case SetComponent(_, _, _, _) => ApplyAfterSet(o, i, s, nextScheduledId, op);
    case RemoveComponent(_, _, _) => ApplyAfterRemove(o, i, s, nextScheduledId, op);
    case ScheduleAction(_, _, _, _) => ApplyAfterSchedule(o, i, s, nextScheduledId, op);
    case EmitEvent(_, _, _) =>
    case SendSignal(_, _, _) =>
  }

  /** Dispatching one more operation extends what the stage stands for by that operation: the
      separate buckets lose nothing of the order in which operations were issued. */
  lemma DispatchExtends(o: Origin, i: InstanceSnapshot, s: StageState, nextScheduledId: U64, ops: seq<Op>, op: Op)
    requires StandsFor(o, i, s, nextScheduledId, ops)
    ensures var (s', next') := Dispatch(o, s, nextScheduledId, op);
            StandsFor(o, i, s', next', ops + [op])
  {
    ApplyAfterDispatch(o, i, s, nextScheduledId, op);
    ExecSnoc(o, i, ops, op);
  }

  // ---- the scratch stage and the methods that fill and drain it ----

  class StepStage {
    var stateOps: seq<StagedStateDelta>
    var events: seq<KernelEvent>
    var scheduleDeltas: seq<ScheduledEntryDelta>
    var pendingSignals: seq<PendingSignal>
    var idCounters: IdCountersDelta
    var ledgerOps: seq<L.LedgerOp>
    var wallRemainderDelta: U128
    var localTickDelta: U64
    var evictionPending: seq<U64>

    ghost function View(): StageState
      reads this
    {
      StageState(stateOps, events, scheduleDeltas, pendingSignals, idCounters, ledgerOps, wallRemainderDelta,
                 localTickDelta, evictionPending)
    }

    constructor ()
      ensures View() == EMPTY
    {
      stateOps, events, scheduleDeltas, pendingSignals := [], [], [], [];
      idCounters, ledgerOps := IdCountersDelta(0, 0, 0), [];
      wallRemainderDelta, localTickDelta, evictionPending := 0, 0, [];
    }

    /** Whatever an earlier action left behind is gone. */
    method Clear()
      modifies this
      ensures View() == EMPTY
    {
      stateOps, events, scheduleDeltas, pendingSignals := [], [], [], [];
      idCounters, ledgerOps := IdCountersDelta(0, 0, 0), [];
      wallRemainderDelta, localTickDelta, evictionPending := 0, 0, [];
    }

    method PushPair(d: StagedStateDelta, l: L.LedgerOp)
      modifies this`stateOps, this`ledgerOps
      ensures stateOps == old(stateOps) + [d] && ledgerOps == old(ledgerOps) + [l]
    {
      stateOps := stateOps + [d];
      ledgerOps := ledgerOps + [l];
    }

    method PushEvent(e: KernelEvent)
      modifies this`events
      ensures events == old(events) + [e]
    {
      events := events + [e];
    }
  }

  /** Translates one authorized operation into bucket entries; a schedule mints the next id. */
  method DispatchInto(o: Origin, stage: StepStage, nextScheduledId: U64, op: Op) returns (next: U64)
    modifies stage
    ensures (stage.View(), next) == Dispatch(o, old(stage.View()), nextScheduledId, op)
  {
    next := nextScheduledId;
    match op
    case SpawnEntity(e, owner) =>
      stage.PushPair(StagedSpawn(e, EntityMeta(owner, o.now)), L.AddEntityOp(e));
      stage.idCounters := stage.idCounters.(entityAdvance := SatAdd(stage.idCounters.entityAdvance, 1));
    case DespawnEntity(e) =>
      stage.PushPair(StagedDespawn(e), L.RemoveEntityOp(e));
    case SetComponent(e, tc, bytes, size) =>
      stage.PushPair(StagedSet((e, tc), bytes, size), L.AddComponentOp((e, tc), size));
    case RemoveComponent(e, tc, size) =>
      stage.PushPair(StagedRemove((e, tc), size), L.RemoveComponentOp((e, tc), size));
    case EmitEvent(actor, tc, bytes) =>
      stage.PushEvent(DomainEventEmitted(o.instance, actor, tc, bytes));
    case ScheduleAction(at, actor, tc, bytes) =>
      next := SatAdd(next, 1);
      var child := S.ScheduledEntry(next, at, actor, o.principal, tc, bytes, o.caps);
      stage.scheduleDeltas := stage.scheduleDeltas + [Add(child)];
      stage.idCounters := stage.idCounters.(scheduledAdvance := SatAdd(stage.idCounters.scheduledAdvance, 1));
    case SendSignal(target, route, payload) =>
      stage.pendingSignals := stage.pendingSignals + [PendingSignal(target, route, payload, o.principal)];
  }

  method DrainStateOps(inst: Instance, ops: seq<StagedStateDelta>)
    modifies inst`entities, inst`components
    ensures Store(inst.entities, inst.components) == ApplyStateOps(Store(old(inst.entities), old(inst.components)), ops)
  {
    for n := 0 to |ops|
      invariant Store(inst.entities, inst.components) == ApplyStateOps(Store(old(inst.entities), old(inst.components)), ops[..n])
    {
      assert ops[..n+1][..n] == ops[..n];
      match ops[n]
      case StagedSpawn(e, meta) => inst.InsertEntity(e, meta);
      case StagedDespawn(e) => inst.DespawnEntity(e);
      case StagedSet(k, bytes, _) =>
        if k.0 in inst.entities {
          inst.InsertComponent(k, bytes);
        }
      case StagedRemove(k, _) => inst.DropComponent(k);
    }
    assert ops[..|ops|] == ops;
  }

  method DrainLedgerOps(ledger: L.ResourceLedger, ops: seq<L.LedgerOp>)
    modifies ledger
    ensures ledger.View() == L.ApplyLedgerOps(old(ledger.View()), ops)
  {
    for n := 0 to |ops|
      invariant ledger.View() == L.ApplyLedgerOps(old(ledger.View()), ops[..n])
    {
      assert ops[..n+1][..n] == ops[..n];
      match ops[n]
      case AddEntityOp(e) => var _ := ledger.RegisterEntity(e);
      case RemoveEntityOp(e) => var _ := ledger.DropEntity(e);
      case AddComponentOp(k, size) => var _ := ledger.PutComponent(k, size);
      case RemoveComponentOp(k, _) => var _ := ledger.DropComponent(k);
    }
    assert ops[..|ops|] == ops;
  }

  method DrainScheduleDeltas(scheduler: S.Scheduler, ds: seq<ScheduledEntryDelta>)
    requires S.Anchored(scheduler.View())
    modifies scheduler
    ensures scheduler.View() == ApplyScheduleDeltas(old(scheduler.View()), ds) && S.Anchored(scheduler.View())
  {
    for n := 0 to |ds|
      invariant scheduler.View() == ApplyScheduleDeltas(old(scheduler.View()), ds[..n])
      invariant S.Anchored(scheduler.View())
    {
      assert ds[..n+1][..n] == ds[..n];
      match ds[n]
      case Add(e) =>
        S.OperationsKeepAnchored(scheduler.View(), e, 1, S.SchedKey(0, 0, 1));
        scheduler.ScheduleWithId(e.id, e.at, e.actor, e.principal, e.ceiling, e.typeCode, e.bytes);
      case Remove(id) => var _ := scheduler.Cancel(id);
    }
    assert ds[..|ds|] == ds;
  }

  /** The counters, the entity and component changes and their accounting. */
  method CommitStores(inst: Instance, stage: StepStage)
    requires inst.Valid()
    modifies inst`idCounters, inst`entities, inst`components, inst.ledger, stage`stateOps, stage`ledgerOps
    ensures stage.stateOps == [] && stage.ledgerOps == []
    ensures inst.idCounters == AdvanceCounters(old(inst.idCounters), stage.idCounters)
    ensures Store(inst.entities, inst.components) ==
            ApplyStateOps(Store(old(inst.entities), old(inst.components)), old(stage.stateOps))
    ensures inst.ledger.View() == L.ApplyLedgerOps(old(inst.ledger.View()), old(stage.ledgerOps))
  {
    var c, d := inst.idCounters, stage.idCounters;
    inst.idCounters := IdCounters(SatAdd(c.nextEntity, d.entityAdvance), SatAdd(c.nextScheduled, d.scheduledAdvance),
                                  SatAdd(c.nextSourceSeq, d.sourceSeqAdvance));
    DrainStateOps(inst, stage.stateOps);
    stage.stateOps := [];
    DrainLedgerOps(inst.ledger, stage.ledgerOps);
    stage.ledgerOps := [];
  }

  /** Commits the stage: counters, entity and component changes, accounting, schedules, clocks, each
      bucket in turn; the outbound signals are handed to the caller. */
  method CommitStage(inst: Instance, stage: StepStage) returns (signals: seq<PendingSignal>)
    requires inst.Valid()
    modifies inst, inst.scheduler, inst.ledger, stage
    ensures inst.Valid()
    ensures inst.View() == ApplyStage(old(inst.View()), old(stage.View()))
    ensures signals == old(stage.pendingSignals)
    ensures stage.View() == old(stage.View()).(stateOps := [], ledgerOps := [], scheduleDeltas := [], pendingSignals := [])
  {
    CommitStores(inst, stage);
    DrainScheduleDeltas(inst.scheduler, stage.scheduleDeltas);
    stage.scheduleDeltas := [];
    inst.wallRemainder := SatAdd128(inst.wallRemainder, stage.wallRemainderDelta);
    inst.localTick := SatAdd(inst.localTick, stage.localTickDelta);
    signals := stage.pendingSignals;
    stage.pendingSignals := [];
  }
}
