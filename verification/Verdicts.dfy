/** What a popped action is allowed to do, written out in terms of its own operations: which of them go
    through, which limit stops the others, and what the step answers. */
module Verdicts {
  import opened Abi
  import opened Authz
  import opened Event
  import opened Instance
  import opened Stage
  import opened Step
  import L = Ledger
  import S = Scheduler

  // ---- the action that runs, and what it is shown ----

  /** The queued key that comes first by tick, then sequence, then id, and is due. */
  ghost predicate IsNext(i: InstanceSnapshot, key: S.SchedKey, now: Tick) {
    && key in i.scheduler.ready && key.at <= now
    && forall k :: k in i.scheduler.ready && k != key ==>
         key.at < k.at || (key.at == k.at && (key.seqNo < k.seqNo || (key.seqNo == k.seqNo && key.id < k.id)))
  }

  /** What the entry computes from its bytes and the instance it runs on, had its type been registered as `r`. */
  function Computed(r: Registration, i: InstanceSnapshot, id: InstanceId, e: S.ScheduledEntry, now: Tick): seq<Op> {
    r.compute(e.bytes, ActionContext(e.actor, now, id, |i.entities|, |i.components|, i.localTick))
  }

  /** The entry's type is registered and its bytes decode under the registered schema. */
  predicate Runs(reg: Registry, e: S.ScheduledEntry) {
    e.typeCode in reg && reg[e.typeCode].decodes(reg[e.typeCode].schemaVersion, e.bytes)
  }

  // ---- what one operation needs ----

  /** Everyone but the unauthenticated may change state and emit; scheduling and signalling take bit 0,
      granted by the instance, the entry's ceiling and the session alike. */
  predicate Allowed(i: InstanceSnapshot, e: S.ScheduledEntry, session: Caps, op: Op) {
    && !e.principal.Unauthenticated?
    && (op.ScheduleAction? || op.SendSignal? ==> 0 in i.config.defaultCaps && 0 in e.ceiling && 0 in session)
  }

  function Spawns(ops: seq<Op>): nat {
    if ops == [] then 0 else Spawns(ops[..|ops|-1]) + if ops[|ops|-1].SpawnEntity? then 1 else 0
  }

  function Schedules(ops: seq<Op>): nat {
    if ops == [] then 0 else Schedules(ops[..|ops|-1]) + if ops[|ops|-1].ScheduleAction? then 1 else 0
  }

  /** The bytes accounted once `op` follows, in arithmetic that stops at zero and at 64 bits: a set adds its
      declared size, a removal frees what was stored before the step. */
  function Priced(l: L.LedgerState, before: nat, op: Op): nat {
    match op
    case SetComponent(_, _, _, size) => if before + size <= U64_MAX then before + size else U64_MAX
    case RemoveComponent(e, tc, _) =>
      var freed := if (e, tc) in l.sizes then l.sizes[(e, tc)] else 0;
      if freed <= before then before - freed else 0
    case _ => before
  }

  function Projected(l: L.LedgerState, ops: seq<Op>): nat {
    if ops == [] then l.totalBytes else Priced(l, Projected(l, ops[..|ops|-1]), ops[|ops|-1])
  }

  predicate BytesFit(i: InstanceSnapshot, before: seq<Op>, op: Op) {
    i.config.memoryBudgetBytes == 0 || Projected(i.ledger, before + [op]) <= i.config.memoryBudgetBytes
  }

  predicate EntityFits(i: InstanceSnapshot, before: seq<Op>, op: Op) {
    op.SpawnEntity? && i.config.maxEntities != 0 ==> |i.entities| + Spawns(before) < i.config.maxEntities
  }

  /** The action itself no longer counts: it has been popped. */
  predicate EntryFits(i: InstanceSnapshot, before: seq<Op>, op: Op) {
    op.ScheduleAction? && i.config.maxScheduled != 0 ==> |i.scheduler.ready| - 1 + Schedules(before) < i.config.maxScheduled
  }

  // ---- what becomes of each operation ----

  datatype Decision = Passed | Unauthorized | Refused(reason: FailReason)

  function Decide(i: InstanceSnapshot, e: S.ScheduledEntry, session: Caps, before: seq<Op>, op: Op): Decision {
    if !Allowed(i, e, session, op) then Unauthorized
    else if !BytesFit(i, before, op) then Refused(BudgetExceeded)
    else if !EntityFits(i, before, op) then Refused(EntityQuotaExceeded)
    else if !EntryFits(i, before, op) then Refused(ScheduledQuotaExceeded)
    else Passed
  }

  /** The operations decided `Passed`, in order. */
  function Kept(ops: seq<Op>, ds: seq<Decision>): seq<Op>
    requires |ops| == |ds|
  {
    if ops == [] then []
    else Kept(ops[..|ops|-1], ds[..|ds|-1]) + if ds[|ds|-1].Passed? then [ops[|ops|-1]] else []
  }

  /** One decision per operation, each with the ones admitted so far in hand. */
  function Decisions(i: InstanceSnapshot, e: S.ScheduledEntry, session: Caps, ops: seq<Op>): (ds: seq<Decision>)
    ensures |ds| == |ops|
  {
    if ops == [] then []
    else
      var init := ops[..|ops|-1];
      var ds := Decisions(i, e, session, init);
      ds + [Decide(i, e, session, Kept(init, ds), ops[|ops|-1])]
  }

  function NotPassed(ds: seq<Decision>): nat {
    if ds == [] then 0 else NotPassed(ds[..|ds|-1]) + if ds[|ds|-1].Passed? then 0 else 1
  }

  /** A failure for a refusal, a domain event for an admitted `EmitEvent`. */
  function AnnouncedFor(id: InstanceId, op: Op, d: Decision): seq<KernelEvent> {
    if d.Refused? then [EffectFailed(id, d.reason)]
    else if d.Passed? && op.EmitEvent? then [DomainEventEmitted(id, op.emitter, op.eventType, op.eventBytes)]
    else []
  }

  /** The staged events, in the order of the operations. */
  function Announced(id: InstanceId, ops: seq<Op>, ds: seq<Decision>): seq<KernelEvent>
    requires |ops| == |ds|
  {
    if ops == [] then []
    else Announced(id, ops[..|ops|-1], ds[..|ds|-1]) + AnnouncedFor(id, ops[|ops|-1], ds[|ds|-1])
  }

  function Emits(ops: seq<Op>): nat {
    if ops == [] then 0 else Emits(ops[..|ops|-1]) + if ops[|ops|-1].EmitEvent? then 1 else 0
  }

  /** The outbound signals of the admitted operations, in order. */
  function Outbound(principal: Principal, kept: seq<Op>): seq<PendingSignal> {
    if kept == [] then []
    else
      var op := kept[|kept|-1];
      Outbound(principal, kept[..|kept|-1]) +
      if op.SendSignal? then [PendingSignal(op.target, op.route, op.payload, principal)] else []
  }

  function Capped(n: nat): nat {
    if n <= U32_MAX then n else U32_MAX
  }

  // ---- the gate loop, one operation at a time ----

  lemma {:induction false} GateAllConcat(o: Origin, p: InstanceSnapshot, g: GateState, a: seq<Op>, b: seq<Op>)
    ensures GateAll(o, p, g, a + b) == GateAll(o, p, GateAll(o, p, g, a), b)
    decreases |a|
  {
    if a == [] {
      assert a + b == b;
    } else {
      assert (a + b)[0] == a[0] && (a + b)[1..] == a[1..] + b;
      GateAllConcat(o, p, Gate(o, p, g, a[0]), a[1..], b);
    }
  }

  lemma GateAllLast(o: Origin, p: InstanceSnapshot, g: GateState, ops: seq<Op>)
    requires ops != []
    ensures GateAll(o, p, g, ops) == Gate(o, p, GateAll(o, p, g, ops[..|ops|-1]), ops[|ops|-1])
  {
    var init, last := ops[..|ops|-1], ops[|ops|-1];
    assert ops == init + [last] && [last][1..] == [];
    GateAllConcat(o, p, g, init, [last]);
    assert GateAll(o, p, GateAll(o, p, g, init), [last]) == GateAll(o, p, Gate(o, p, GateAll(o, p, g, init), last), []);
  }

  /** The loop's hidden tallies, in terms of the operations admitted so far. */
  ghost predicate Tallied(p: InstanceSnapshot, g: GateState, kept: seq<Op>) {
    && g.admitted == kept && g.applied == Capped(|kept|)
    && ProjectedBytes(p.ledger.totalBytes, p.ledger, g.stage.ledgerOps) == Projected(p.ledger, kept)
    && g.stage.idCounters.entityAdvance == Min(Spawns(kept), U64_MAX)
    && g.stage.idCounters.scheduledAdvance == Min(Schedules(kept), U64_MAX)
  }

  /** The instance after the pop: one entry fewer queued, the same in all a gate looks at. */
  ghost predicate PoppedFrom(p: InstanceSnapshot, i: InstanceSnapshot) {
    p.config == i.config && p.ledger == i.ledger && p.entities == i.entities && |p.scheduler.ready| == |i.scheduler.ready| - 1
  }

  /** What an origin grants for the entry it was made for. */
  ghost predicate Grants(o: Origin, i: InstanceSnapshot, e: S.ScheduledEntry, session: Caps) {
    && o.principal == e.principal
    && (0 in o.caps <==> !e.principal.Unauthenticated? && 0 in i.config.defaultCaps && 0 in e.ceiling && 0 in session)
  }

  lemma AllowedIsAuthorized(o: Origin, i: InstanceSnapshot, e: S.ScheduledEntry, session: Caps, op: Op)
    requires Grants(o, i, e, session)
    ensures Authorized(o.caps, o.principal, op) <==> Allowed(i, e, session, op)
  {
  }

  lemma ProjectedNext(l: L.LedgerState, kept: seq<Op>, op: Op)
    ensures Projected(l, kept + [op]) == Priced(l, Projected(l, kept), op)
  {
    assert (kept + [op])[..|kept|] == kept;
  }

  lemma CountsNext(kept: seq<Op>, op: Op)
    ensures Spawns(kept + [op]) == Spawns(kept) + (if op.SpawnEntity? then 1 else 0)
    ensures Schedules(kept + [op]) == Schedules(kept) + (if op.ScheduleAction? then 1 else 0)
  {
    assert (kept + [op])[..|kept|] == kept;
  }

  lemma BytesGate(p: InstanceSnapshot, i: InstanceSnapshot, g: GateState, kept: seq<Op>, op: Op)
    requires Tallied(p, g, kept) && PoppedFrom(p, i)
    ensures ProjectedWith(p, g.stage, op) == Projected(i.ledger, kept + [op])
  {
    ProjectedNext(i.ledger, kept, op);
  }

  /** The quota gates refuse what the decision refuses, for the reason it names. */
  lemma GateDecides(p: InstanceSnapshot, i: InstanceSnapshot, g: GateState, kept: seq<Op>, op: Op)
    requires Tallied(p, g, kept) && PoppedFrom(p, i)
    ensures QuotaGate(p, g.stage, op) ==
            if !BytesFit(i, kept, op) then Some(BudgetExceeded)
            else if !EntityFits(i, kept, op) then Some(EntityQuotaExceeded)
            else if !EntryFits(i, kept, op) then Some(ScheduledQuotaExceeded)
            else None
  {
    BytesGate(p, i, g, kept, op);
  }

  lemma StagedBytes(total: U64, l: L.LedgerState, ops: seq<L.LedgerOp>, op: L.LedgerOp)
    ensures var before := ProjectedBytes(total, l, ops);
            ProjectedBytes(total, l, ops + [op]) ==
            if op.AddComponentOp? then SatAdd(before, op.size)
            else if op.RemoveComponentOp? then SatSub(before, L.StoredSize(l, op.removedKey))
            else before
  {
    assert (ops + [op])[..|ops|] == ops;
  }

  lemma DispatchBytes(o: Origin, p: InstanceSnapshot, s: StageState, next: U64, op: Op)
    ensures var s' := Dispatch(o, s, next, op).0;
            ProjectedBytes(p.ledger.totalBytes, p.ledger, s'.ledgerOps) == ProjectedWith(p, s, op)
  {
    var s' := Dispatch(o, s, next, op).0;
    if s'.ledgerOps != s.ledgerOps {
      StagedBytes(p.ledger.totalBytes, p.ledger, s.ledgerOps, s'.ledgerOps[|s.ledgerOps|]);
    }
  }

  lemma DispatchAdvances(o: Origin, s: StageState, next: U64, op: Op)
    ensures var c, c' := s.idCounters, Dispatch(o, s, next, op).0.idCounters;
            && c'.entityAdvance == (if op.SpawnEntity? then SatAdd(c.entityAdvance, 1) else c.entityAdvance)
            && c'.scheduledAdvance == (if op.ScheduleAction? then SatAdd(c.scheduledAdvance, 1) else c.scheduledAdvance)
  {
  }

  lemma DispatchTallies(o: Origin, p: InstanceSnapshot, i: InstanceSnapshot, g: GateState, kept: seq<Op>, op: Op, g': GateState)
    requires Tallied(p, g, kept) && PoppedFrom(p, i)
    requires g'.stage == Dispatch(o, g.stage, g.nextScheduledId, op).0
    requires g'.applied == SatAdd32(g.applied, 1) && g'.admitted == g.admitted + [op]
    ensures Tallied(p, g', kept + [op])
  {
    DispatchBytes(o, p, g.stage, g.nextScheduledId, op);
    DispatchAdvances(o, g.stage, g.nextScheduledId, op);
    BytesGate(p, i, g, kept, op);
    CountsNext(kept, op);
  }

  lemma GateTallies(o: Origin, p: InstanceSnapshot, i: InstanceSnapshot, g: GateState, kept: seq<Op>, op: Op)
    requires Tallied(p, g, kept) && PoppedFrom(p, i)
    ensures var admitted := Authorized(o.caps, o.principal, op) && QuotaGate(p, g.stage, op).None?;
            Tallied(p, Gate(o, p, g, op), if admitted then kept + [op] else kept)
  {
    if Authorized(o.caps, o.principal, op) && QuotaGate(p, g.stage, op).None? {
      DispatchTallies(o, p, i, g, kept, op, Gate(o, p, g, op));
    }
  }

  /** What the loop answers and announces. */
  ghost predicate Answers(g: GateState, id: InstanceId, ops: seq<Op>, ds: seq<Decision>)
    requires |ops| == |ds|
  {
    && (g.anyDenied <==> Unauthorized in ds)
    && g.denied == Capped(NotPassed(ds))
    && g.stage.events == Announced(id, ops, ds)
  }

  lemma DispatchEvents(o: Origin, s: StageState, next: U64, op: Op)
    ensures Dispatch(o, s, next, op).0.events ==
            s.events + if op.EmitEvent? then [DomainEventEmitted(o.instance, op.emitter, op.eventType, op.eventBytes)] else []
  {
  }

  lemma GateAnswers(o: Origin, p: InstanceSnapshot, g: GateState, id: InstanceId, ops: seq<Op>, ds: seq<Decision>, op: Op, d: Decision)
    requires |ops| == |ds| && Answers(g, id, ops, ds) && o.instance == id
    requires d == if !Authorized(o.caps, o.principal, op) then Unauthorized
                  else match QuotaGate(p, g.stage, op) case None => Passed case Some(reason) => Refused(reason)
    ensures Answers(Gate(o, p, g, op), id, ops + [op], ds + [d])
  {
    assert (ops + [op])[..|ops|] == ops && (ds + [d])[..|ds|] == ds;
    if d.Passed? {
      DispatchEvents(o, g.stage, g.nextScheduledId, op);
    }
  }

  lemma KeptNext(ops: seq<Op>, ds: seq<Decision>, op: Op, d: Decision)
    requires |ops| == |ds|
    ensures Kept(ops + [op], ds + [d]) == Kept(ops, ds) + if d.Passed? then [op] else []
  {
    assert (ops + [op])[..|ops|] == ops && (ds + [d])[..|ds|] == ds;
  }

  /** The loop has come to `g` after `ops`, each decided. */
  ghost predicate Decided(g: GateState, p: InstanceSnapshot, id: InstanceId, i: InstanceSnapshot, e: S.ScheduledEntry, session: Caps, ops: seq<Op>) {
    var ds := Decisions(i, e, session, ops);
    Tallied(p, g, Kept(ops, ds)) && Answers(g, id, ops, ds)
  }

  lemma LoopStarts(p: InstanceSnapshot, id: InstanceId, i: InstanceSnapshot, e: S.ScheduledEntry, session: Caps)
    ensures Decided(GateStart(p), p, id, i, e, session, [])
  {
  }

  lemma DecisionsNext(i: InstanceSnapshot, e: S.ScheduledEntry, session: Caps, init: seq<Op>, op: Op)
    ensures var ds := Decisions(i, e, session, init);
            Decisions(i, e, session, init + [op]) == ds + [Decide(i, e, session, Kept(init, ds), op)]
  {
    assert (init + [op])[..|init|] == init;
  }

  lemma LoopDecidesNext(o: Origin, p: InstanceSnapshot, i: InstanceSnapshot, e: S.ScheduledEntry, session: Caps, init: seq<Op>, op: Op, g: GateState)
    requires Grants(o, i, e, session) && PoppedFrom(p, i) && Decided(g, p, o.instance, i, e, session, init)
    ensures Decided(Gate(o, p, g, op), p, o.instance, i, e, session, init + [op])
  {
    var ds := Decisions(i, e, session, init);
    var kept, d := Kept(init, ds), Decide(i, e, session, Kept(init, ds), op);
    DecisionsNext(i, e, session, init, op);
    AllowedIsAuthorized(o, i, e, session, op);
    GateDecides(p, i, g, kept, op);
    GateTallies(o, p, i, g, kept, op);
    GateAnswers(o, p, g, o.instance, init, ds, op, d);
    KeptNext(init, ds, op, d);
  }

  lemma {:induction false} LoopDecides(o: Origin, p: InstanceSnapshot, i: InstanceSnapshot, e: S.ScheduledEntry, session: Caps, ops: seq<Op>)
    requires Grants(o, i, e, session) && PoppedFrom(p, i)
    ensures Decided(GateAll(o, p, GateStart(p), ops), p, o.instance, i, e, session, ops)
    decreases |ops|
  {
    if ops == [] {
      LoopStarts(p, o.instance, i, e, session);
    } else {
      var init, op := ops[..|ops|-1], ops[|ops|-1];
      LoopDecides(o, p, i, e, session, init);
      GateAllLast(o, p, GateStart(p), ops);
      LoopDecidesNext(o, p, i, e, session, init, op, GateAll(o, p, GateStart(p), init));
      LastApart(ops);
    }
  }

  // ---- the step ----

  lemma NextIsHead(i: InstanceSnapshot, key: S.SchedKey, now: Tick)
    requires IsNext(i, key, now)
    ensures S.Due(i.scheduler, now) && S.Head(i.scheduler.ready.Keys) == key
  {
    var head := S.Head(i.scheduler.ready.Keys);
    assert head in i.scheduler.ready && S.IsLeastKey(head, i.scheduler.ready.Keys);
    assert head == key || S.KeyLess(head, key);
  }

  lemma HeadIsNext(i: InstanceSnapshot, now: Tick)
    requires S.Due(i.scheduler, now)
    ensures IsNext(i, S.Head(i.scheduler.ready.Keys), now)
  {
  }

  /** A step does nothing exactly when nothing queued has come due; otherwise there is a next entry. */
  lemma IdleExactly(reg: Registry, i: InstanceSnapshot, id: InstanceId, now: Tick, session: Caps, measure: bool)
    ensures StepOne(reg, i, id, now, session, measure).None? <==> forall k :: k in i.scheduler.ready ==> k.at > now
    ensures StepOne(reg, i, id, now, session, measure).Some? <==> exists key :: IsNext(i, key, now)
  {
    if S.Due(i.scheduler, now) {
      HeadIsNext(i, now);
    }
    if i.scheduler.ready != map[] {
      var head := S.Head(i.scheduler.ready.Keys);
      assert head in i.scheduler.ready;
      forall k | k in i.scheduler.ready ensures head.at <= k.at {
        assert k in i.scheduler.ready.Keys;
      }
    }
  }

  lemma PopLeaves(i: InstanceSnapshot, key: S.SchedKey, now: Tick)
    requires IsNext(i, key, now)
    ensures S.Head(i.scheduler.ready.Keys) == key
    ensures var p := AfterPop(i);
            && p == i.(scheduler := p.scheduler) && p.scheduler.ready == i.scheduler.ready - {key}
            && p.scheduler.byId == i.scheduler.byId - {i.scheduler.ready[key].id}
            && p.scheduler.nextSeq == i.scheduler.nextSeq && p.scheduler.nextId == i.scheduler.nextId
            && PoppedFrom(p, i)
  {
    NextIsHead(i, key, now);
    assert (i.scheduler.ready - {key}).Keys == i.scheduler.ready.Keys - {key};
  }

  lemma OriginGrants(i: InstanceSnapshot, p: InstanceSnapshot, id: InstanceId, e: S.ScheduledEntry, now: Tick, session: Caps)
    requires p.config == i.config
    ensures Grants(OriginOf(p, id, e, now, session), i, e, session) && OriginOf(p, id, e, now, session).instance == id
  {
  }

  /** The loop as the step runs it. */
  lemma GatedDecides(reg: Registry, i: InstanceSnapshot, id: InstanceId, key: S.SchedKey, now: Tick, session: Caps)
    requires IsNext(i, key, now) && Runs(reg, i.scheduler.ready[key])
    ensures S.Head(i.scheduler.ready.Keys) == key
    ensures var e := i.scheduler.ready[key];
            var ops := Computed(reg[e.typeCode], i, id, e, now);
            var g, ds := Gated(reg[e.typeCode], AfterPop(i), id, e, now, session), Decisions(i, e, session, ops);
            Tallied(AfterPop(i), g, Kept(ops, ds)) && Answers(g, id, ops, ds)
  {
    PopLeaves(i, key, now);
    var e, p := i.scheduler.ready[key], AfterPop(i);
    OriginGrants(i, p, id, e, now, session);
    assert Context(p, e.actor, now, id) == ActionContext(e.actor, now, id, |i.entities|, |i.components|, i.localTick);
    LoopDecides(OriginOf(p, id, e, now, session), p, i, e, session, Computed(reg[e.typeCode], i, id, e, now));
  }

  lemma {:induction false} DomainEventsConcat(a: seq<KernelEvent>, b: seq<KernelEvent>)
    ensures DomainEvents(a + b) == DomainEvents(a) + DomainEvents(b)
    decreases |b|
  {
    if b == [] {
      assert a + b == a;
    } else {
      assert (a + b)[..|a + b|-1] == a + b[..|b|-1];
      DomainEventsConcat(a, b[..|b|-1]);
    }
  }

  lemma EmitsNext(ops: seq<Op>, op: Op)
    ensures Emits(ops + [op]) == Emits(ops) + if op.EmitEvent? then 1 else 0
  {
    assert (ops + [op])[..|ops|] == ops;
  }

  lemma DomainEventsFor(id: InstanceId, op: Op, d: Decision)
    ensures DomainEvents(AnnouncedFor(id, op, d)) == if d.Passed? && op.EmitEvent? then 1 else 0
  {
    var events := AnnouncedFor(id, op, d);
    assert events == [] || events[..0] == [];
  }

  lemma EmitsWith(kept: seq<Op>, op: Op, d: Decision)
    ensures Emits(kept + if d.Passed? then [op] else []) == Emits(kept) + if d.Passed? && op.EmitEvent? then 1 else 0
  {
    EmitsNext(kept, op);
    assert kept + [] == kept;
  }

  lemma DomainEventsNext(events: seq<KernelEvent>, kept: seq<Op>, id: InstanceId, op: Op, d: Decision)
    requires DomainEvents(events) == Emits(kept)
    ensures DomainEvents(events + AnnouncedFor(id, op, d)) == Emits(kept + if d.Passed? then [op] else [])
  {
    DomainEventsConcat(events, AnnouncedFor(id, op, d));
    DomainEventsFor(id, op, d);
    EmitsWith(kept, op, d);
  }

  lemma {:induction false} DomainEventsAreEmits(id: InstanceId, ops: seq<Op>, ds: seq<Decision>)
    requires |ops| == |ds|
    ensures DomainEvents(Announced(id, ops, ds)) == Emits(Kept(ops, ds))
    decreases |ops|
  {
    if ops != [] {
      var init, dinit, op, d := ops[..|ops|-1], ds[..|ds|-1], ops[|ops|-1], ds[|ds|-1];
      DomainEventsAreEmits(id, init, dinit);
      DomainEventsNext(Announced(id, init, dinit), Kept(init, dinit), id, op, d);
    }
  }

  lemma {:induction false} SentIsOutbound(o: Origin, kept: seq<Op>)
    ensures Sent(o, kept) == Outbound(o.principal, kept)
    decreases |kept|
  {
    if kept != [] {
      SentIsOutbound(o, kept[..|kept|-1]);
    }
  }

  /** What the step reports whichever way it ends. */
  ghost predicate Reports(core: StepCore, j: InstanceSnapshot, e: S.ScheduledEntry, ds: seq<Decision>, measure: bool) {
    && core.poppedId == e.id && core.actionType == e.typeCode && core.effectsDenied == Capped(NotPassed(ds))
    && core.digest == if measure then StateDigest(j) else ZeroDigest
  }

  lemma RanAnswers(reg: Registry, i: InstanceSnapshot, id: InstanceId, key: S.SchedKey, now: Tick, session: Caps, measure: bool,
                   ops: seq<Op>, ds: seq<Decision>)
    requires IsNext(i, key, now) && Runs(reg, i.scheduler.ready[key])
    requires ops == Computed(reg[i.scheduler.ready[key].typeCode], i, id, i.scheduler.ready[key], now)
    requires ds == Decisions(i, i.scheduler.ready[key], session, ops)
    ensures var e := i.scheduler.ready[key];
            var (j, core) := RunEntry(reg, AfterPop(i), id, e, now, session, measure);
            && Reports(core, j, e, ds, measure)
            && if Unauthorized in ds then core.verdict == AuthDenied
               else
                 && core.verdict == (if NotPassed(ds) == 0 then Committed else BudgetPartial(Capped(NotPassed(ds))))
                 && core.effectsApplied == Capped(|Kept(ops, ds)|) && core.events == Announced(id, ops, ds)
                 && core.domainEvents == Emits(Kept(ops, ds)) % 0x1_0000_0000
                 && Admitted(reg, AfterPop(i), id, e, now, session) == Kept(ops, ds)
  {
    GatedDecides(reg, i, id, key, now, session);
    DomainEventsAreEmits(id, ops, ds);
  }

  /** What a step answers, in terms of the operations the action computes and nothing else: one denied
      authorization rolls everything back; otherwise the admitted operations count, the refusals are
      reported by number, events and signals come from the operations in order. */
  lemma StepAnswers(reg: Registry, i: InstanceSnapshot, id: InstanceId, key: S.SchedKey, now: Tick, session: Caps, measure: bool)
    requires IsNext(i, key, now) && Runs(reg, i.scheduler.ready[key])
    ensures StepOne(reg, i, id, now, session, measure).Some?
    ensures var e := i.scheduler.ready[key];
            var (j, core) := StepOne(reg, i, id, now, session, measure).value;
            var ops := Computed(reg[e.typeCode], i, id, e, now);
            var ds := Decisions(i, e, session, ops);
            && Reports(core, j, e, ds, measure)
            && if Unauthorized in ds then
                 core.verdict == AuthDenied && core.effectsApplied == core.domainEvents == 0 && core.events == [] && core.pendingSignals == []
               else
                 && core.verdict == (if NotPassed(ds) == 0 then Committed else BudgetPartial(Capped(NotPassed(ds))))
                 && core.effectsApplied == Capped(|Kept(ops, ds)|) && core.domainEvents == Emits(Kept(ops, ds)) % 0x1_0000_0000
                 && core.events == Announced(id, ops, ds) && core.pendingSignals == Outbound(e.principal, Kept(ops, ds))
  {
    NextIsHead(i, key, now);
    var e, p := i.scheduler.ready[key], AfterPop(i);
    var ops := Computed(reg[e.typeCode], i, id, e, now);
    var ds := Decisions(i, e, session, ops);
    RanAnswers(reg, i, id, key, now, session, measure, ops, ds);
    StagingPreservesMeaning(reg, p, id, e, now, session, measure);
    SentIsOutbound(OriginOf(p, id, e, now, session), Kept(ops, ds));
    RollbackCountsNothing(reg, p, id, e, now, session, measure);
  }

  lemma RollbackCountsNothing(reg: Registry, p: InstanceSnapshot, id: InstanceId, e: S.ScheduledEntry, now: Tick, session: Caps, measure: bool)
    ensures var core := RunEntry(reg, p, id, e, now, session, measure).1; core.verdict == AuthDenied ==> core.domainEvents == 0
  {
  }

  /** An action that cannot run is popped, named in the report, and changes nothing else. */
  lemma SkipAnswers(reg: Registry, i: InstanceSnapshot, id: InstanceId, key: S.SchedKey, now: Tick, session: Caps, measure: bool)
    requires IsNext(i, key, now) && !Runs(reg, i.scheduler.ready[key])
    ensures StepOne(reg, i, id, now, session, measure).Some?
    ensures var e := i.scheduler.ready[key];
            var (j, core) := StepOne(reg, i, id, now, session, measure).value;
            && j == i.(scheduler := j.scheduler) && j.scheduler.ready == i.scheduler.ready - {key}
            && core.poppedId == e.id && core.actionType == e.typeCode
            && core.digest == (if measure then StateDigest(j) else ZeroDigest)
            && core.verdict == Skipped(if e.typeCode in reg then DeserFailed else Unregistered)
            && core.effectsApplied == core.effectsDenied == core.domainEvents == 0 && core.events == [] && core.pendingSignals == []
  {
    PopLeaves(i, key, now);
  }

  // ---- the conditions, one by one ----

  lemma {:induction false} DecidedAt(i: InstanceSnapshot, e: S.ScheduledEntry, session: Caps, ops: seq<Op>, n: nat)
    requires n < |ops|
    ensures var ds := Decisions(i, e, session, ops);
            && ds[..n] == Decisions(i, e, session, ops[..n])
            && ds[n] == Decide(i, e, session, Kept(ops[..n], ds[..n]), ops[n])
    decreases |ops|
  {
    var init := ops[..|ops|-1];
    var ds := Decisions(i, e, session, init);
    assert Decisions(i, e, session, ops) == ds + [Decide(i, e, session, Kept(init, ds), ops[|ops|-1])];
    if n < |init| {
      DecidedAt(i, e, session, init, n);
      assert init[..n] == ops[..n] && Decisions(i, e, session, ops)[..n] == ds[..n];
    } else {
      assert ops[..n] == init && Decisions(i, e, session, ops)[..n] == ds;
    }
  }

  /** An authorized operation goes through if and only if it fits each limit that is set, and a refusal
      names the first it does not fit: bytes, then entities, then queued entries. */
  lemma AdmittedExactly(i: InstanceSnapshot, e: S.ScheduledEntry, session: Caps, ops: seq<Op>, n: nat)
    requires n < |ops|
    ensures var ds := Decisions(i, e, session, ops);
            var (before, op, c, d) := (Kept(ops[..n], ds[..n]), ops[n], i.config, ds[n]);
            var bytes := c.memoryBudgetBytes == 0 || Projected(i.ledger, before + [op]) <= c.memoryBudgetBytes;
            var entity := op.SpawnEntity? ==> c.maxEntities == 0 || |i.entities| + Spawns(before) < c.maxEntities;
            var entry := op.ScheduleAction? ==> c.maxScheduled == 0 || |i.scheduler.ready| - 1 + Schedules(before) < c.maxScheduled;
            && (d == Unauthorized <==> !Allowed(i, e, session, op))
            && (d == Passed <==> Allowed(i, e, session, op) && bytes && entity && entry)
            && (d == Refused(BudgetExceeded) <==> Allowed(i, e, session, op) && !bytes)
            && (d == Refused(EntityQuotaExceeded) <==> Allowed(i, e, session, op) && bytes && !entity)
            && (d == Refused(ScheduledQuotaExceeded) <==> Allowed(i, e, session, op) && bytes && entity && !entry)
  {
    DecidedAt(i, e, session, ops, n);
  }

  /** A popped action of a registered, decodable type is denied if and only if nobody vouches for it and
      it asks for anything, or it asks to schedule or signal where bit 0 is missing from the instance's
      defaults, the entry's ceiling or the session. */
  lemma AuthDeniedExactly(reg: Registry, i: InstanceSnapshot, id: InstanceId, key: S.SchedKey, now: Tick, session: Caps, measure: bool)
    requires IsNext(i, key, now) && Runs(reg, i.scheduler.ready[key])
    ensures StepOne(reg, i, id, now, session, measure).Some?
    ensures var e := i.scheduler.ready[key];
            var ops := Computed(reg[e.typeCode], i, id, e, now);
            StepOne(reg, i, id, now, session, measure).value.1.verdict == AuthDenied <==>
            || (e.principal.Unauthenticated? && ops != [])
            || ((exists op :: op in ops && (op.ScheduleAction? || op.SendSignal?)) &&
                (0 !in i.config.defaultCaps || 0 !in e.ceiling || 0 !in session))
  {
    StepAnswers(reg, i, id, key, now, session, measure);
    var e := i.scheduler.ready[key];
    SomeUnauthorized(i, e, session, Computed(reg[e.typeCode], i, id, e, now));
  }

  lemma SomeUnauthorized(i: InstanceSnapshot, e: S.ScheduledEntry, session: Caps, ops: seq<Op>)
    ensures Unauthorized in Decisions(i, e, session, ops) <==> exists op :: op in ops && !Allowed(i, e, session, op)
  {
    var ds := Decisions(i, e, session, ops);
    forall n | 0 <= n < |ops| ensures ds[n] == Unauthorized <==> !Allowed(i, e, session, ops[n]) {
      DecidedAt(i, e, session, ops, n);
    }
    if op :| op in ops && !Allowed(i, e, session, op) {
      var n :| 0 <= n < |ops| && ops[n] == op;
      assert ds[n] in ds;
    }
    if Unauthorized in ds {
      var n :| 0 <= n < |ds| && ds[n] == Unauthorized;
      assert ops[n] in ops;
    }
  }
}
