/** The orchestrator on values: admission, stepping, the signal router, snapshots
    (`arkhe-kernel/src/runtime/kernel.rs`, `arkhe-kernel/src/persist/snapshot.rs`).
    The registry is a fixed parameter; observers see the event list each operation returns. */
module Kernel {
  import opened Abi
  import opened Event
  import opened Instance
  import opened Stage
  import opened Step
  import opened Wal
  import S = Scheduler

  type Instances = map<InstanceId, InstanceSnapshot>

  datatype KernelState = KernelState(
    instances: Instances, nextInstanceId: U64, manifest: ManifestDigest, wal: Option<WriterState>)

  /** The arguments of `submit`. */
  datatype Submission = Submission(
    instance: InstanceId, principal: Principal, actor: Option<EntityId>, caps: Caps, at: Tick,
    typeCode: TypeCode, bytes: Bytes)

  datatype InstanceStepResult = InstanceStepResult(
    poppedId: ScheduledActionId, verdict: StepVerdict, digest: Digest,
    effectsApplied: U32, effectsDenied: U32, domainEvents: U32)

  // ---- instances ----

  function CreateInstance(k: KernelState, config: InstanceConfig): (KernelState, InstanceId) {
    var id := SatAdd(k.nextInstanceId, 1);
    (k.(nextInstanceId := id, instances := k.instances[id := Fresh(id, config)]), id)
  }

  /** Instance ids in the order a pass visits them. */
  function Ids(m: Instances): (ids: seq<InstanceId>)
    ensures forall id :: id in ids <==> id in m
  {
    AscendingElements(m.Keys);
    var ids := Ascending(m.Keys);
    assert forall n :: 0 <= n < |ids| ==> ids[n] in ids && ids[n] in m.Keys;
    ids
  }

  // ---- admission ----

  function EntryFor(s: Submission, id: ScheduledActionId): S.ScheduledEntry {
    S.ScheduledEntry(id, s.at, s.actor, s.principal, s.typeCode, s.bytes, s.caps)
  }

  /** The instance after its counter is moved to `next` and the submission enters its scheduler. */
  function Enqueue(i: InstanceSnapshot, s: Submission, id: ScheduledActionId, next: U64): InstanceSnapshot {
    i.(idCounters := i.idCounters.(nextScheduled := next), scheduler := S.Insert(i.scheduler, EntryFor(s, id)))
  }

  predicate BackPressured(i: InstanceSnapshot) {
    i.config.maxScheduled > 0 && |i.scheduler.ready| >= i.config.maxScheduled
  }

  function SubmitEntryFor(s: Submission, id: ScheduledActionId): LogEntry {
    SubmitEntry(s.instance, s.principal, s.actor, s.caps, s.at, s.typeCode, s.bytes, id)
  }

  function Log(w: Option<WriterState>, entry: LogEntry): Option<WriterState> {
    if w.Some? then Some(Append(w.value, entry)) else None
  }

  function Submit(k: KernelState, s: Submission): (KernelState, Result<ScheduledActionId, ArkheError>) {
    if s.instance !in k.instances then (k, Err(InstanceNotFound))
    else
      var i := k.instances[s.instance];
      if BackPressured(i) then (k, Err(QuotaExceeded))
      else
        var id := SatAdd(i.idCounters.nextScheduled, 1);
        (k.(instances := k.instances[s.instance := Enqueue(i, s, id, id)], wal := Log(k.wal, SubmitEntryFor(s, id))), Ok(id))
  }

  /** Replay-side admission: the recorded id, no back-pressure, no record. */
  function SubmitWithId(m: Instances, s: Submission, id: ScheduledActionId): Result<Instances, ArkheError> {
    if s.instance !in m then Err(InstanceNotFound)
    else
      var i := m[s.instance];
      Ok(m[s.instance := Enqueue(i, s, id, Max(i.idCounters.nextScheduled, id))])
  }

  // ---- the signal router ----

  predicate InboxFull(i: InstanceSnapshot, route: RouteId) {
    i.config.maxInboxPerRoute > 0 && |Inbox(i, route)| >= i.config.maxInboxPerRoute
  }

  function Received(i: InstanceSnapshot, from: InstanceId, sig: PendingSignal): InstanceSnapshot {
    CreditRef(Deliver(i, sig.route, InboundSignal(from, sig.principal, sig.payload, 0)), sig.route)
  }

  function Route(m: Instances, from: InstanceId, sig: PendingSignal): (Instances, KernelEvent) {
    if sig.target !in m then (m, SignalDropped(sig.target, sig.route, TargetNotFound))
    else if InboxFull(m[sig.target], sig.route) then (m, SignalDropped(sig.target, sig.route, QueueFull))
    else (m[sig.target := Received(m[sig.target], from, sig)], SignalDelivered(from, sig.target, sig.route))
  }

  function RouteAll(m: Instances, from: InstanceId, sigs: seq<PendingSignal>): (Instances, seq<KernelEvent>) {
    if sigs == [] then (m, [])
    else
      var (m', events) := RouteAll(m, from, sigs[..|sigs|-1]);
      var (m'', e) := Route(m', from, sigs[|sigs|-1]);
      (m'', events + [e])
  }

  lemma RouteAllSnoc(m: Instances, from: InstanceId, sigs: seq<PendingSignal>, n: nat)
    requires n < |sigs|
    ensures var (m', events) := RouteAll(m, from, sigs[..n]);
            var (m'', e) := Route(m', from, sigs[n]);
            RouteAll(m, from, sigs[..n+1]) == (m'', events + [e])
  {
    assert sigs[..n+1][..n] == sigs[..n];
  }

  // ---- stepping ----

  function CommitEvents(core: StepCore, id: InstanceId, now: Tick): seq<KernelEvent> {
    core.events + if Commits(core.verdict) then [ActionExecuted(id, core.actionType, now)] else []
  }

  function ResultOf(core: StepCore): InstanceStepResult {
    InstanceStepResult(core.poppedId, core.verdict, core.digest, core.effectsApplied, core.effectsDenied, core.domainEvents)
  }

  datatype Processed = Idle | Ran(instances: Instances, result: InstanceStepResult, events: seq<KernelEvent>)

  /** `process_instance_record`: one due action end to end, shared by live stepping and replay. */
  ghost function Process(reg: Registry, m: Instances, id: InstanceId, now: Tick, session: Caps, measure: bool): Processed {
    if id !in m then Idle
    else
      match StepOne(reg, m[id], id, now, session, measure)
      case None => Idle
      case Some((i, core)) =>
        var (m', routed) := RouteAll(m[id := i], id, core.pendingSignals);
        Ran(m', ResultOf(core), CommitEvents(core, id, now) + routed)
  }

  /** `Process` put together from the step of its instance and the routing of what it sent. */
  function Assemble(m: Instances, id: InstanceId, now: Tick, i: InstanceSnapshot, core: Option<StepCore>): Processed {
    match core
    case None => Idle
    case Some(c) =>
      var (m', routed) := RouteAll(m[id := i], id, c.pendingSignals);
      Ran(m', ResultOf(c), CommitEvents(c, id, now) + routed)
  }

  lemma ProcessAssembled(reg: Registry, m: Instances, id: InstanceId, now: Tick, session: Caps, measure: bool,
                         i: InstanceSnapshot, core: Option<StepCore>)
    requires id in m && Outcome(StepOne(reg, m[id], id, now, session, measure), m[id], i, core)
    ensures Process(reg, m, id, now, session, measure) == Assemble(m, id, now, i, core)
  {
  }

  function StepEntryFor(id: InstanceId, r: InstanceStepResult, now: Tick, session: Caps): LogEntry {
    StepEntry(id, r.poppedId, now, session, r.verdict, r.digest)
  }

  datatype StepReport = StepReport(executed: U32, applied: U32, denied: U32, domainEvents: U32)

  function Tally(r: StepReport, p: InstanceStepResult): StepReport {
    StepReport(SatAdd32(r.executed, 1), SatAdd32(r.applied, p.effectsApplied), SatAdd32(r.denied, p.effectsDenied),
               SatAdd32(r.domainEvents, p.domainEvents))
  }

  /** What one pass over some instances leaves: state, counters, events, and who popped what. */
  datatype Pass = Pass(k: KernelState, report: StepReport, events: seq<KernelEvent>,
                       pops: seq<(InstanceId, InstanceStepResult)>)

  /** A pass moved on by what came of one instance; an idle instance leaves no trace. */
  function Advance(p: Pass, done: Processed, id: InstanceId, now: Tick, session: Caps): Pass {
    match done
    case Idle => p
    case Ran(m, r, events) =>
      Pass(p.k.(instances := m, wal := Log(p.k.wal, StepEntryFor(id, r, now, session))),
           Tally(p.report, r), p.events + events, p.pops + [(id, r)])
  }

  ghost function Visit(reg: Registry, p: Pass, id: InstanceId, now: Tick, session: Caps): Pass {
    Advance(p, Process(reg, p.k.instances, id, now, session, p.k.wal.Some?), id, now, session)
  }

  ghost function VisitAll(reg: Registry, p: Pass, ids: seq<InstanceId>, now: Tick, session: Caps): Pass {
    if ids == [] then p else Visit(reg, VisitAll(reg, p, ids[..|ids|-1], now, session), ids[|ids|-1], now, session)
  }

  /** `step`: at most one due action per instance, in ascending id order. */
  ghost function StepKernel(reg: Registry, k: KernelState, now: Tick, session: Caps): Pass {
    VisitAll(reg, Pass(k, StepReport(0, 0, 0, 0), [], []), Ids(k.instances), now, session)
  }

  // ---- a pass over a given way of processing one instance ----

  /** `f` is what a pass at this tick does to one instance. */
  ghost predicate Processes(f: (Instances, InstanceId) -> Processed, reg: Registry, now: Tick, session: Caps, measure: bool) {
    forall m, id {:trigger Process(reg, m, id, now, session, measure)} :: f(m, id) == Process(reg, m, id, now, session, measure)
  }

  function Sweep(f: (Instances, InstanceId) -> Processed, p: Pass, ids: seq<InstanceId>, now: Tick, session: Caps): Pass {
    if ids == [] then p
    else
      var p', id := Sweep(f, p, ids[..|ids|-1], now, session), ids[|ids|-1];
      Advance(p', f(p'.k.instances, id), id, now, session)
  }

  lemma SweepSnoc(f: (Instances, InstanceId) -> Processed, p: Pass, ids: seq<InstanceId>, n: nat, now: Tick, session: Caps)
    requires n < |ids|
    ensures var p' := Sweep(f, p, ids[..n], now, session);
            Sweep(f, p, ids[..n+1], now, session) == Advance(p', f(p'.k.instances, ids[n]), ids[n], now, session)
  {
    assert ids[..n+1][..n] == ids[..n];
  }

  lemma {:induction false} SweepIsVisitAll(f: (Instances, InstanceId) -> Processed, reg: Registry, p: Pass, ids: seq<InstanceId>,
                                           now: Tick, session: Caps)
    requires Processes(f, reg, now, session, p.k.wal.Some?)
    ensures Sweep(f, p, ids, now, session) == VisitAll(reg, p, ids, now, session)
    ensures Sweep(f, p, ids, now, session).k.wal.Some? == p.k.wal.Some?
    decreases |ids|
  {
    if ids != [] {
      SweepIsVisitAll(f, reg, p, ids[..|ids|-1], now, session);
    }
  }

  // ---- forced unload ----

  function DropRoute(i: InstanceSnapshot, route: RouteId): InstanceSnapshot {
    i.(inflightRefs := i.inflightRefs - {route})
  }

  function DropRouteAll(m: Instances, route: RouteId): (dropped: Instances)
    ensures dropped.Keys == m.Keys
  {
    map id | id in m :: DropRoute(m[id], route)
  }

  /** The route dropped from the given instances only. */
  function DropFirst(m: Instances, ids: seq<InstanceId>, route: RouteId): Instances {
    map id | id in m :: if id in ids then DropRoute(m[id], route) else m[id]
  }

  lemma DropFirstIsAll(m: Instances, route: RouteId)
    ensures DropFirst(m, [], route) == m && DropFirst(m, Ids(m), route) == DropRouteAll(m, route)
  {
  }

  lemma IdsDistinct(m: Instances)
    ensures forall x, y :: 0 <= x < y < |Ids(m)| ==> Ids(m)[x] != Ids(m)[y]
  {
    AscendingOrdered(m.Keys);
  }

  /** Live references over some instances, added up in saturating 32-bit arithmetic. */
  function LiveRefs(m: Instances, ids: seq<InstanceId>, route: RouteId): U32
    requires forall id :: id in ids ==> id in m
  {
    if ids == [] then 0 else SatAdd32(LiveRefs(m, ids[..|ids|-1], route), Refs(m[ids[|ids|-1]], route))
  }

  lemma NotYetDropped(m: Instances, ids: seq<InstanceId>, id: InstanceId, route: RouteId)
    requires id in m && id !in ids
    ensures var part := DropFirst(m, ids, route);
            id in part && part[id] == m[id] && DropFirst(m, ids + [id], route) == part[id := DropRoute(m[id], route)]
  {
  }

  /** The loop of a forced unload is yet to touch the instance it reaches. */
  lemma DropOneMore(m: Instances, n: nat, route: RouteId)
    requires n < |Ids(m)|
    ensures var ids := Ids(m);
            var id, part := ids[n], DropFirst(m, ids[..n], route);
            && id in part && part[id] == m[id]
            && DropFirst(m, ids[..n+1], route) == part[id := DropRoute(m[id], route)]
            && LiveRefs(m, ids[..n+1], route) == SatAdd32(LiveRefs(m, ids[..n], route), Refs(m[id], route))
  {
    var ids := Ids(m);
    IdsDistinct(m);
    assert ids[..n+1] == ids[..n] + [ids[n]] && ids[..n+1][..n] == ids[..n];
    assert ids[n] in ids && ids[n] !in ids[..n];
    NotYetDropped(m, ids[..n], ids[n], route);
  }

  function ForceUnload(k: KernelState, route: RouteId, caps: Caps): (KernelState, Result<U32, ArkheError>) {
    if !Contains(caps, ADMIN_UNLOAD) then (k, Err(ArkheError.CapabilityDenied))
    else
      (k.(instances := DropRouteAll(k.instances, route)), Ok(LiveRefs(k.instances, Ids(k.instances), route)))
  }

  // ---- snapshots ----

  datatype KernelSnapshot = KernelSnapshot(instances: Instances, nextInstanceId: U64)

  /** The all-zero digest of a kernel built without a manifest. */
  const NO_MANIFEST: ManifestDigest :=
    [0, 0, 0, 0, 0, 0, 0, 0, 0, 0, 0, 0, 0, 0, 0, 0, 0, 0, 0, 0, 0, 0, 0, 0, 0, 0, 0, 0, 0, 0, 0, 0]

  function TakeSnapshot(k: KernelState): KernelSnapshot {
    KernelSnapshot(k.instances, k.nextInstanceId)
  }

  function Restore(s: KernelSnapshot): KernelState {
    KernelState(s.instances, s.nextInstanceId, NO_MANIFEST, None)
  }

  // ---- runs ----

  datatype Input =
    | DoCreate(config: InstanceConfig)
    | DoSubmit(submission: Submission)
    | DoStep(now: Tick, session: Caps)
    | DoUnload(route: RouteId, caps: Caps)

  /** What the caller of one input gets back. */
  datatype Output =
    | Created(instance: InstanceId)
    | Submitted(id: Result<ScheduledActionId, ArkheError>)
    | Stepped(report: StepReport, pops: seq<(InstanceId, InstanceStepResult)>)
    | Unloaded(liveRefs: Result<U32, ArkheError>)

  /** One input's whole effect: the kernel afterwards, the answer, and the events observers are shown. */
  datatype Reaction = Reaction(k: KernelState, output: Output, events: seq<KernelEvent>)

  ghost function React(reg: Registry, k: KernelState, input: Input): Reaction {
    match input
    case DoCreate(config) => var (k', id) := CreateInstance(k, config); Reaction(k', Created(id), [])
    case DoSubmit(s) => var (k', r) := Submit(k, s); Reaction(k', Submitted(r), [])
    case DoStep(now, session) => var p := StepKernel(reg, k, now, session); Reaction(p.k, Stepped(p.report, p.pops), p.events)
    case DoUnload(route, caps) =>
      var (k', r) := ForceUnload(k, route, caps);
      Reaction(k', Unloaded(r), if r.Ok? then [ModuleForceUnloaded(route, r.value)] else [])
  }

  ghost function Run(reg: Registry, k: KernelState, inputs: seq<Input>): KernelState {
    if inputs == [] then k else React(reg, Run(reg, k, inputs[..|inputs|-1]), inputs[|inputs|-1]).k
  }

  ghost function Outputs(reg: Registry, k: KernelState, inputs: seq<Input>): seq<Output> {
    if inputs == [] then []
    else Outputs(reg, k, inputs[..|inputs|-1]) + [React(reg, Run(reg, k, inputs[..|inputs|-1]), inputs[|inputs|-1]).output]
  }

  /** Every event of a run, in order. */
  ghost function Emitted(reg: Registry, k: KernelState, inputs: seq<Input>): seq<KernelEvent> {
    if inputs == [] then []
    else Emitted(reg, k, inputs[..|inputs|-1]) + React(reg, Run(reg, k, inputs[..|inputs|-1]), inputs[|inputs|-1]).events
  }
}
