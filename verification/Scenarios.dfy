/** Literal runs from an empty kernel at which documented promises fail. */
module Scenarios {
  import opened Abi
  import opened Authz
  import opened Event
  import opened Instance
  import opened Stage
  import opened Step
  import opened Wal
  import opened Kernel
  import opened Isolation
  import opened Invariants
  import opened Limits
  import Admission
  import opened ReplayTheorems
  import opened ReplayExact
  import L = Ledger
  import S = Scheduler

  // ---- one instance, one queued action ----

  const FREE := InstanceConfig(SYSTEM, 0, 0, 0, 0, None, Reject)
  const TIGHT := InstanceConfig(SYSTEM, 0, 0, 0, 10, None, Reject)

  function Blank(): KernelState {
    KernelState(map[], 0, NO_MANIFEST, Some(NewWriter([], NO_MANIFEST, Unsigned)))
  }

  /** The system asks the first instance to run an action of this type at once. */
  function Ask(tc: TypeCode): Submission {
    Submission(1, System, None, SYSTEM, 0, tc, [])
  }

  /** A type whose every byte string decodes and computes these operations. */
  function Fixed(ops: seq<Op>): Registration {
    Registration(1, (v, b) => true, (b, c) => ops)
  }

  /** An idle first instance, alone in its kernel. */
  ghost predicate Alone(k: KernelState, i: InstanceSnapshot) {
    k.instances == map[1 := i] && i.scheduler.ready == map[] && i.idCounters.nextScheduled < U64_MAX
  }

  function Queued(i: InstanceSnapshot, tc: TypeCode): InstanceSnapshot {
    Enqueue(i, Ask(tc), SatAdd(i.idCounters.nextScheduled, 1), SatAdd(i.idCounters.nextScheduled, 1))
  }

  lemma AskIsAccepted(k: KernelState, i: InstanceSnapshot, tc: TypeCode)
    requires Alone(k, i) && i.config.maxScheduled == 0
    ensures Submit(k, Ask(tc)).0.instances == map[1 := Queued(i, tc)] && Submit(k, Ask(tc)).0.nextInstanceId == k.nextInstanceId
  {
  }

  function QueuedEntry(i: InstanceSnapshot, tc: TypeCode): S.ScheduledEntry {
    EntryFor(Ask(tc), SatAdd(i.idCounters.nextScheduled, 1))
  }

  /** The instance once the queued action is popped, idle again. */
  function Popping(i: InstanceSnapshot, tc: TypeCode): InstanceSnapshot {
    var q := Queued(i, tc);
    q.(scheduler := q.scheduler.(ready := map[], byId := q.scheduler.byId - {QueuedEntry(i, tc).id}))
  }

  /** The one queued action is the head, due at once. */
  lemma QueuedPops(i: InstanceSnapshot, tc: TypeCode)
    requires i.scheduler.ready == map[]
    ensures var q := Queued(i, tc);
            && S.Due(q.scheduler, 0) && q.scheduler.ready[S.Head(q.scheduler.ready.Keys)] == QueuedEntry(i, tc)
            && AfterPop(q) == Popping(i, tc)
  {
    var q := Queued(i, tc);
    var key := S.SchedKey(0, i.scheduler.nextSeq, QueuedEntry(i, tc).id);
    assert q.scheduler.ready == map[key := QueuedEntry(i, tc)];
    assert q.scheduler.ready.Keys == {key};
    assert q.scheduler.ready - {key} == map[];
  }

  lemma QueuedRuns(reg: Registry, i: InstanceSnapshot, tc: TypeCode, measure: bool)
    requires i.scheduler.ready == map[]
    ensures StepOne(reg, Queued(i, tc), 1, 0, SYSTEM, measure) ==
            Some(RunEntry(reg, Popping(i, tc), 1, QueuedEntry(i, tc), 0, SYSTEM, measure))
  {
    QueuedPops(i, tc);
  }

  lemma StepAlone(reg: Registry, k: KernelState, now: Tick, session: Caps)
    requires k.instances.Keys == {1}
    ensures StepKernel(reg, k, now, session) == Visit(reg, Pass(k, StepReport(0, 0, 0, 0), [], []), 1, now, session)
  {
    var p := Pass(k, StepReport(0, 0, 0, 0), [], []);
    IdsOfOne(k.instances, 1);
    assert [1][..0] == [];
    assert VisitAll(reg, p, [], now, session) == p;
    assert Ids(k.instances) == [1];
  }

  lemma LoneReplaced(i: InstanceSnapshot, j: InstanceSnapshot)
    ensures var m: Instances := map[1 := i]; m[1 := j] == map[1 := j]
  {
  }

  lemma ProcessLone(reg: Registry, m: Instances, measure: bool, j: InstanceSnapshot, core: StepCore)
    requires 1 in m && StepOne(reg, m[1], 1, 0, SYSTEM, measure) == Some((j, core))
    ensures var (m', routed) := RouteAll(m[1 := j], 1, core.pendingSignals);
            Process(reg, m, 1, 0, SYSTEM, measure) == Ran(m', ResultOf(core), CommitEvents(core, 1, 0) + routed)
  {
  }

  /** What the lone instance is left as, what it reports and sends. */
  lemma ProcessQueued(reg: Registry, i: InstanceSnapshot, tc: TypeCode, measure: bool, j: InstanceSnapshot, core: StepCore)
    requires i.scheduler.ready == map[]
    requires (j, core) == RunEntry(reg, Popping(i, tc), 1, QueuedEntry(i, tc), 0, SYSTEM, measure)
    ensures var (m, routed) := RouteAll(map[1 := j], 1, core.pendingSignals);
            Process(reg, map[1 := Queued(i, tc)], 1, 0, SYSTEM, measure) == Ran(m, ResultOf(core), CommitEvents(core, 1, 0) + routed)
  {
    QueuedRuns(reg, i, tc, measure);
    ProcessLone(reg, map[1 := Queued(i, tc)], measure, j, core);
    LoneReplaced(Queued(i, tc), j);
  }

  /** A step of the lone instance runs its one action and routes what it sends. */
  lemma StepRunsQueued(reg: Registry, k: KernelState, i: InstanceSnapshot, tc: TypeCode, j: InstanceSnapshot, core: StepCore)
    requires k.instances == map[1 := Queued(i, tc)] && i.scheduler.ready == map[]
    requires (j, core) == RunEntry(reg, Popping(i, tc), 1, QueuedEntry(i, tc), 0, SYSTEM, k.wal.Some?)
    ensures var (m, routed) := RouteAll(map[1 := j], 1, core.pendingSignals);
            var p := StepKernel(reg, k, 0, SYSTEM);
            && p.pops == [(1, ResultOf(core))] && p.k.instances == m && p.events == CommitEvents(core, 1, 0) + routed
            && p.k.nextInstanceId == k.nextInstanceId
  {
    ProcessQueued(reg, i, tc, k.wal.Some?, j, core);
    StepAlone(reg, k, 0, SYSTEM);
    VisitRan(reg, Pass(k, StepReport(0, 0, 0, 0), [], []), 1, Process(reg, k.instances, 1, 0, SYSTEM, k.wal.Some?));
  }

  lemma VisitRan(reg: Registry, p: Pass, id: InstanceId, x: Processed)
    requires x == Process(reg, p.k.instances, id, 0, SYSTEM, p.k.wal.Some?) && x.Ran?
    ensures var p' := Visit(reg, p, id, 0, SYSTEM);
            && p'.k.instances == x.instances && p'.pops == p.pops + [(id, x.result)] && p'.events == p.events + x.events
            && p'.k.nextInstanceId == p.k.nextInstanceId
  {
  }

  // ---- an action type nobody registered ----

  /** Nobody registered type 8: its submission is accepted all the same, and the step that pops it skips
      it. The log then holds two records after one step: the submission's and the pop's. */
  lemma UnregisteredIsAcceptedThenSkipped()
    ensures var k1 := CreateInstance(Blank(), FREE).0;
            var (k2, r) := Submit(k1, Ask(8));
            var p := StepKernel(map[], k2, 0, SYSTEM);
            && r == Ok(1) && |p.pops| == 1 && p.pops[0].0 == 1
            && p.pops[0].1.poppedId == 1 && p.pops[0].1.verdict == Skipped(Unregistered)
            && p.k.instances == map[1 := Popping(Fresh(1, FREE), 8)]
  {
    var k1 := CreateInstance(Blank(), FREE).0;
    var i := Fresh(1, FREE);
    assert k1.instances == map[1 := i];
    AskIsAccepted(k1, i, 8);
    var k2 := Submit(k1, Ask(8)).0;
    var (j, core) := RunEntry(map[], Popping(i, 8), 1, QueuedEntry(i, 8), 0, SYSTEM, true);
    assert k2.wal.Some?;
    StepRunsQueued(map[], k2, i, 8, j, core);
  }

  // ---- one signal ----

  function Sends(target: InstanceId): Registry {
    map[7 := Fixed([SendSignal(target, 5, [])])]
  }

  function Sent5(target: InstanceId): PendingSignal {
    PendingSignal(target, 5, [], System)
  }

  lemma SendingPasses(o: Origin, i: InstanceSnapshot, target: InstanceId)
    requires o.caps == SYSTEM && o.principal == System && i.config == FREE
    ensures var g := GateAll(o, i, GateStart(i), [SendSignal(target, 5, [])]);
            !g.anyDenied && g.denied == 0 && g.stage == Stage.EMPTY.(pendingSignals := [Sent5(target)])
  {
    var ops := [SendSignal(target, 5, [])];
    assert ops[1..] == [];
    assert Authorized(o.caps, o.principal, ops[0]);
    assert QuotaGate(i, GateStart(i).stage, ops[0]) == None;
    var g := Gate(o, i, GateStart(i), ops[0]);
    assert g.stage.pendingSignals == [Sent5(target)];
    assert GateAll(o, i, GateStart(i), ops) == GateAll(o, i, g, []);
  }

  lemma ApplyNothing(i: InstanceSnapshot, target: InstanceId)
    ensures ApplyStage(i, Stage.EMPTY.(pendingSignals := [Sent5(target)])) == i
  {
  }

  /** The action commits, changes nothing of its own instance but the queue, and sends its signal. */
  lemma SendingRuns(i: InstanceSnapshot, target: InstanceId, measure: bool)
    requires i.config == FREE
    ensures var (j, core) := RunEntry(Sends(target), Popping(i, 7), 1, QueuedEntry(i, 7), 0, SYSTEM, measure);
            j == Popping(i, 7) && core.pendingSignals == [Sent5(target)] && core.verdict == Committed && core.events == []
  {
    var p, e := Popping(i, 7), QueuedEntry(i, 7);
    var o := OriginOf(p, 1, e, 0, SYSTEM);
    assert o.caps == SYSTEM && o.principal == System;
    SendingPasses(o, p, target);
    assert Gated(Sends(target)[7], p, 1, e, 0, SYSTEM) == GateAll(o, p, GateStart(p), [SendSignal(target, 5, [])]);
    ApplyNothing(p, target);
  }

  lemma RouteOne(m: Instances, from: InstanceId, sig: PendingSignal)
    ensures RouteAll(m, from, [sig]) == (Route(m, from, sig).0, [Route(m, from, sig).1])
  {
    assert [sig][..0] == [];
    assert RouteAll(m, from, []) == (m, []);
    assert [] + [Route(m, from, sig).1] == [Route(m, from, sig).1];
  }

  // ---- runs that ask and step ----

  lemma RunAsks(reg: Registry, inputs: seq<Input>, n: nat, k: KernelState, s: Submission)
    requires n < |inputs| && inputs[n] == DoSubmit(s) && k == Run(reg, Blank(), inputs[..n])
    ensures Run(reg, Blank(), inputs[..n+1]) == Submit(k, s).0
  {
    RunSnoc(reg, Blank(), inputs, n);
  }

  lemma RunSteps(reg: Registry, inputs: seq<Input>, n: nat, k: KernelState)
    requires n < |inputs| && inputs[n] == DoStep(0, SYSTEM) && k == Run(reg, Blank(), inputs[..n])
    ensures Run(reg, Blank(), inputs[..n+1]) == StepKernel(reg, k, 0, SYSTEM).k
  {
    RunSnoc(reg, Blank(), inputs, n);
  }

  /** The last two inputs of a run. */
  lemma RunEnds(reg: Registry, inputs: seq<Input>, n: nat, k: KernelState)
    requires |inputs| == n + 2 && k == Run(reg, Blank(), inputs[..n])
    ensures Run(reg, Blank(), inputs) == React(reg, React(reg, k, inputs[n]).k, inputs[n+1]).k
  {
    RunSnoc(reg, Blank(), inputs, n);
    RunSnoc(reg, Blank(), inputs, n + 1);
    assert inputs[..n+2] == inputs;
  }

  /** A submission to the idle lone instance, then a step. */
  lemma AskAndStep(reg: Registry, k: KernelState, i: InstanceSnapshot, tc: TypeCode, j: InstanceSnapshot, core: StepCore)
    requires k.instances == map[1 := i] && i.scheduler.ready == map[] && i.config.maxScheduled == 0 && k.wal.Some?
    requires (j, core) == RunEntry(reg, Popping(i, tc), 1, QueuedEntry(i, tc), 0, SYSTEM, true)
    ensures var k1 := Submit(k, Ask(tc)).0;
            var p := StepKernel(reg, k1, 0, SYSTEM);
            && k1.instances.Keys == {1} && k1.nextInstanceId == k.nextInstanceId
            && p.k.instances == RouteAll(map[1 := j], 1, core.pendingSignals).0
            && p.events == CommitEvents(core, 1, 0) + RouteAll(map[1 := j], 1, core.pendingSignals).1
            && p.k.nextInstanceId == k.nextInstanceId && p.k.wal.Some?
  {
    var k1 := Submit(k, Ask(tc)).0;
    assert k1.instances == map[1 := Queued(i, tc)];
    StepRunsQueued(reg, k1, i, tc, j, core);
    Kept(reg, k1);
  }

  lemma Kept(reg: Registry, k: KernelState)
    requires k.wal.Some? && k.instances.Keys == {1}
    ensures StepKernel(reg, k, 0, SYSTEM).k.wal.Some?
  {
    StepAlone(reg, k, 0, SYSTEM);
  }

  /** Every run here starts this way: one instance, one action, one step. */
  ghost predicate Opens(inputs: seq<Input>, config: InstanceConfig, tc: TypeCode) {
    |inputs| >= 3 && inputs[0] == DoCreate(config) && inputs[1] == DoSubmit(Ask(tc)) && inputs[2] == DoStep(0, SYSTEM)
  }

  lemma FirstCreated(config: InstanceConfig)
    ensures var k := CreateInstance(Blank(), config).0;
            k.instances == map[1 := Fresh(1, config)] && k.nextInstanceId == 1 && k.wal.Some?
  {
  }

  lemma Started(reg: Registry, inputs: seq<Input>, config: InstanceConfig, tc: TypeCode)
    requires Opens(inputs, config, tc)
    ensures Run(reg, Blank(), inputs[..1]) == CreateInstance(Blank(), config).0
  {
    assert inputs[..0] == [];
    RunSnoc(reg, Blank(), inputs, 0);
  }

  lemma Asked(reg: Registry, inputs: seq<Input>, config: InstanceConfig, tc: TypeCode)
    requires Opens(inputs, config, tc)
    ensures Run(reg, Blank(), inputs[..2]) == Submit(CreateInstance(Blank(), config).0, Ask(tc)).0
  {
    Started(reg, inputs, config, tc);
    RunAsks(reg, inputs, 1, CreateInstance(Blank(), config).0, Ask(tc));
  }

  /** The queued action and what its step announces. */
  lemma OpenedToStep(reg: Registry, inputs: seq<Input>, config: InstanceConfig, tc: TypeCode, j: InstanceSnapshot, core: StepCore)
    requires Opens(inputs, config, tc) && config.maxScheduled == 0
    requires (j, core) == RunEntry(reg, Popping(Fresh(1, config), tc), 1, QueuedEntry(Fresh(1, config), tc), 0, SYSTEM, true)
    ensures var k := Run(reg, Blank(), inputs[..2]);
            && k.nextInstanceId == 1 && k.instances.Keys == {1}
            && StepKernel(reg, k, 0, SYSTEM).events == CommitEvents(core, 1, 0) + RouteAll(map[1 := j], 1, core.pendingSignals).1
  {
    FirstCreated(config);
    AskAndStep(reg, CreateInstance(Blank(), config).0, Fresh(1, config), tc, j, core);
    Asked(reg, inputs, config, tc);
  }

  lemma AskedThenStepped(reg: Registry, inputs: seq<Input>, config: InstanceConfig, tc: TypeCode)
    requires Opens(inputs, config, tc)
    ensures Run(reg, Blank(), inputs[..3]) == StepKernel(reg, Submit(CreateInstance(Blank(), config).0, Ask(tc)).0, 0, SYSTEM).k
  {
    Asked(reg, inputs, config, tc);
    RunSteps(reg, inputs, 2, Submit(CreateInstance(Blank(), config).0, Ask(tc)).0);
  }

  /** The state after that step. */
  lemma Opened(reg: Registry, inputs: seq<Input>, config: InstanceConfig, tc: TypeCode, j: InstanceSnapshot, core: StepCore)
    requires Opens(inputs, config, tc) && config.maxScheduled == 0
    requires (j, core) == RunEntry(reg, Popping(Fresh(1, config), tc), 1, QueuedEntry(Fresh(1, config), tc), 0, SYSTEM, true)
    ensures var k := Run(reg, Blank(), inputs[..3]);
            k.instances == RouteAll(map[1 := j], 1, core.pendingSignals).0 && k.nextInstanceId == 1 && k.wal.Some?
  {
    FirstCreated(config);
    AskAndStep(reg, CreateInstance(Blank(), config).0, Fresh(1, config), tc, j, core);
    AskedThenStepped(reg, inputs, config, tc);
  }

  // ---- replay after an unload ----

  /** An instance signals itself; the reference that leaves is dropped; the instance steps again. */
  function UnloadRun(): seq<Input> {
    [DoCreate(FREE), DoSubmit(Ask(7)), DoStep(0, SYSTEM), DoUnload(5, ADMIN_UNLOAD), DoSubmit(Ask(8)), DoStep(0, SYSTEM)]
  }

  ghost predicate IsUnloadRun(inputs: seq<Input>) {
    && |inputs| == 6 && Opens(inputs, FREE, 7) && inputs[3] == DoUnload(5, ADMIN_UNLOAD)
    && inputs[4] == DoSubmit(Ask(8)) && inputs[5] == DoStep(0, SYSTEM)
  }

  lemma SignalToSelf(j: InstanceSnapshot)
    requires j.config == FREE
    ensures RouteAll(map[1 := j], 1, [Sent5(1)]).0 == map[1 := Received(j, 1, Sent5(1))]
  {
    var m: Instances := map[1 := j];
    RouteOne(m, 1, Sent5(1));
    assert m[1 := Received(j, 1, Sent5(1))] == map[1 := Received(j, 1, Sent5(1))];
  }

  /** What the opening action of a sender leaves and sends. */
  ghost predicate SenderRan(target: InstanceId, j: InstanceSnapshot, core: StepCore) {
    && (j, core) == RunEntry(Sends(target), Popping(Fresh(1, FREE), 7), 1, QueuedEntry(Fresh(1, FREE), 7), 0, SYSTEM, true)
    && j.config == FREE && j.scheduler.ready == map[] && j.inflightRefs == map[] && j.signalInbox == map[] && j.inboxSeq == 0
    && core.pendingSignals == [Sent5(target)] && CommitEvents(core, 1, 0) == [ActionExecuted(1, core.actionType, 0)]
  }

  lemma SenderRuns(target: InstanceId) returns (j: InstanceSnapshot, core: StepCore)
    ensures SenderRan(target, j, core)
  {
    SendingRuns(Fresh(1, FREE), target, true);
    var ran := RunEntry(Sends(target), Popping(Fresh(1, FREE), 7), 1, QueuedEntry(Fresh(1, FREE), 7), 0, SYSTEM, true);
    j, core := ran.0, ran.1;
  }

  /** After the first step the lone instance holds its own signal and one reference. */
  ghost predicate HoldsSignal(i: InstanceSnapshot) {
    i.config == FREE && i.scheduler.ready == map[] && i.inflightRefs == map[5 := 1] && i.inboxSeq == 1
  }

  lemma ReceivedHolds(j: InstanceSnapshot)
    requires j.config == FREE && j.scheduler.ready == map[] && j.inflightRefs == map[] && j.inboxSeq == 0
    ensures HoldsSignal(Received(j, 1, Sent5(1)))
  {
  }

  lemma AfterSignal(inputs: seq<Input>) returns (i: InstanceSnapshot)
    requires IsUnloadRun(inputs)
    ensures HoldsSignal(i)
    ensures var k := Run(Sends(1), Blank(), inputs[..3]); k.instances == map[1 := i] && k.nextInstanceId == 1 && k.wal.Some?
  {
    var j, core := SenderRuns(1);
    Opened(Sends(1), inputs, FREE, 7, j, core);
    SignalToSelf(j);
    ReceivedHolds(j);
    i := Received(j, 1, Sent5(1));
  }

  /** The unload finds the reference: the run is not one its log can tell. */
  lemma UnloadIsUntold(inputs: seq<Input>)
    requires IsUnloadRun(inputs)
    ensures !TraceableRun(Sends(1), Blank(), inputs)
  {
    var i := AfterSignal(inputs);
    var k := Run(Sends(1), Blank(), inputs[..3]);
    HeldIsUntold(Sends(1), k, i, Later(k.nextInstanceId, inputs[3..]));
    assert !TraceableAt(Sends(1), Blank(), inputs, 3);
  }

  lemma HeldIsUntold(reg: Registry, k: KernelState, i: InstanceSnapshot, later: Instances)
    requires k.instances == map[1 := i] && HoldsSignal(i)
    ensures !Traceable(reg, k, DoUnload(5, ADMIN_UNLOAD), later)
  {
    assert 5 in k.instances[1].inflightRefs;
  }

  /** The same instance with nothing left on the route. */
  ghost predicate HoldsNothing(i: InstanceSnapshot) {
    i.config == FREE && i.scheduler.ready == map[] && i.inflightRefs == map[] && i.inboxSeq == 1
  }

  lemma DropHolds(i: InstanceSnapshot)
    requires HoldsSignal(i)
    ensures HoldsNothing(DropRoute(i, 5))
  {
  }

  lemma DropAlone(i: InstanceSnapshot)
    ensures DropRouteAll(map[1 := i], 5) == map[1 := DropRoute(i, 5)]
  {
  }

  lemma UnloadReacts(reg: Registry, k: KernelState, i: InstanceSnapshot)
    requires k.instances == map[1 := i]
    ensures var k' := React(reg, k, DoUnload(5, ADMIN_UNLOAD)).k; k'.instances == map[1 := DropRoute(i, 5)] && k'.wal == k.wal
  {
    DropAlone(i);
  }

  lemma AfterUnload(inputs: seq<Input>) returns (i: InstanceSnapshot)
    requires IsUnloadRun(inputs)
    ensures HoldsNothing(i)
    ensures var k := Run(Sends(1), Blank(), inputs[..4]); k.instances == map[1 := i] && k.wal.Some?
  {
    var held := AfterSignal(inputs);
    UnloadReacts(Sends(1), Run(Sends(1), Blank(), inputs[..3]), held);
    RunSnoc(Sends(1), Blank(), inputs, 3);
    DropHolds(held);
    i := DropRoute(held, 5);
  }

  lemma SkippedKeepsMail(i: InstanceSnapshot) returns (j: InstanceSnapshot, core: StepCore)
    ensures (j, core) == RunEntry(Sends(1), Popping(i, 8), 1, QueuedEntry(i, 8), 0, SYSTEM, true)
    ensures j.inflightRefs == i.inflightRefs && j.inboxSeq == i.inboxSeq && core.pendingSignals == []
  {
    var ran := RunEntry(Sends(1), Popping(i, 8), 1, QueuedEntry(i, 8), 0, SYSTEM, true);
    j, core := ran.0, ran.1;
  }

  /** Whatever is skipped leaves the mail alone, so the counts stay small to the end. */
  lemma SkipEnds(reg: Registry, k: KernelState, i: InstanceSnapshot)
    requires reg == Sends(1) && k.instances == map[1 := i] && HoldsNothing(i) && k.wal.Some?
    ensures CountsUnsaturated(React(reg, React(reg, k, DoSubmit(Ask(8))).k, DoStep(0, SYSTEM)).k.instances)
  {
    var j, core := SkippedKeepsMail(i);
    AskAndStep(reg, k, i, 8, j, core);
    NothingRouted(j);
  }

  lemma UnloadRunEnds(inputs: seq<Input>)
    requires IsUnloadRun(inputs)
    ensures CountsUnsaturated(Run(Sends(1), Blank(), inputs).instances)
  {
    var i := AfterUnload(inputs);
    SkipEnds(Sends(1), Run(Sends(1), Blank(), inputs[..4]), i);
    RunEnds(Sends(1), inputs, 4, Run(Sends(1), Blank(), inputs[..4]));
  }

  lemma NothingRouted(j: InstanceSnapshot)
    requires j.inflightRefs == map[] && j.inboxSeq == 1
    ensures CountsUnsaturated(RouteAll(map[1 := j], 1, []).0)
  {
  }

  lemma CreatedFirst(inputs: seq<Input>)
    requires IsUnloadRun(inputs)
    ensures Room(Blank(), inputs) && CountsPositive(Blank().instances) && UncappedCreations(inputs)
  {
  }

  /** A literal run that replay does not reproduce: signal, forced unload, step. */
  lemma UnloadedRunIsNotReproduced(replica: KernelState)
    requires replica.manifest == NO_MANIFEST && replica.instances == Run(Sends(1), Blank(), Creations(UnloadRun())).instances
    ensures !Reproduces(Sends(1), replica, Run(Sends(1), Blank(), UnloadRun()))
  {
    NotReproduced(Sends(1), UnloadRun(), replica);
  }

  lemma NotReproduced(reg: Registry, inputs: seq<Input>, replica: KernelState)
    requires reg == Sends(1) && IsUnloadRun(inputs)
    requires replica.manifest == NO_MANIFEST && replica.instances == Run(reg, Blank(), Creations(inputs)).instances
    ensures !Reproduces(reg, replica, Run(reg, Blank(), inputs))
  {
    UnloadIsUntold(inputs);
    UnloadRunEnds(inputs);
    CreatedFirst(inputs);
    ReplayReproducesExactly(reg, Blank(), replica, inputs, [], Unsigned);
  }

  // ---- replay after a late creation ----

  /** An instance signals another that does not exist yet; then that one is created. */
  function LateRun(): seq<Input> {
    [DoCreate(FREE), DoSubmit(Ask(7)), DoStep(0, SYSTEM), DoCreate(FREE)]
  }

  ghost predicate IsLateRun(inputs: seq<Input>) {
    |inputs| == 4 && Opens(inputs, FREE, 7) && inputs[3] == DoCreate(FREE)
  }

  lemma SignalToNobody(j: InstanceSnapshot)
    ensures RouteAll(map[1 := j], 1, [Sent5(2)]) == (map[1 := j], [SignalDropped(2, 5, TargetNotFound)])
  {
    RouteOne(map[1 := j], 1, Sent5(2));
  }

  lemma SecondIsLater(rest: seq<Input>)
    requires |rest| == 2 && rest[0] == DoStep(0, SYSTEM) && rest[1] == DoCreate(FREE)
    ensures 2 in Later(1, rest)
  {
    assert rest[1..][0] == DoCreate(FREE);
    assert Later(1, rest) == Later(1, rest[1..]);
  }

  lemma DropIsUntold(reg: Registry, k: KernelState, later: Instances, events: seq<KernelEvent>)
    requires StepKernel(reg, k, 0, SYSTEM).events == events + [SignalDropped(2, 5, TargetNotFound)] && 2 in later
    ensures !Traceable(reg, k, DoStep(0, SYSTEM), later)
  {
    var e := SignalDropped(2, 5, TargetNotFound);
    assert e in events + [e];
    assert !NoneMissed(events + [e], later);
  }

  lemma LateIsUntold(inputs: seq<Input>)
    requires IsLateRun(inputs)
    ensures !TraceableRun(Sends(2), Blank(), inputs)
  {
    var j, core := SenderRuns(2);
    OpenedToStep(Sends(2), inputs, FREE, 7, j, core);
    SignalToNobody(j);
    SecondIsLater(inputs[2..]);
    var k := Run(Sends(2), Blank(), inputs[..2]);
    DropIsUntold(Sends(2), k, Later(1, inputs[2..]), CommitEvents(core, 1, 0));
    assert !TraceableAt(Sends(2), Blank(), inputs, 2);
  }

  lemma SecondCreated(reg: Registry, k: KernelState, j: InstanceSnapshot)
    requires k.instances == map[1 := j] && j.inflightRefs == map[] && j.inboxSeq == 0
    ensures CountsUnsaturated(React(reg, k, DoCreate(FREE)).k.instances)
  {
  }

  lemma AfterLoss(inputs: seq<Input>) returns (j: InstanceSnapshot)
    requires IsLateRun(inputs)
    ensures Run(Sends(2), Blank(), inputs[..3]).instances == map[1 := j] && j.inflightRefs == map[] && j.inboxSeq == 0
  {
    var core;
    j, core := SenderRuns(2);
    Opened(Sends(2), inputs, FREE, 7, j, core);
    SignalToNobody(j);
  }

  lemma LateRunEnds(inputs: seq<Input>)
    requires IsLateRun(inputs)
    ensures CountsUnsaturated(Run(Sends(2), Blank(), inputs).instances)
  {
    var j := AfterLoss(inputs);
    SecondCreated(Sends(2), Run(Sends(2), Blank(), inputs[..3]), j);
    RunSnoc(Sends(2), Blank(), inputs, 3);
    assert inputs[..4] == inputs;
  }

  lemma LateStarts(inputs: seq<Input>)
    requires IsLateRun(inputs)
    ensures Room(Blank(), inputs) && CountsPositive(Blank().instances) && UncappedCreations(inputs)
  {
  }

  lemma LateNotReproduced(reg: Registry, inputs: seq<Input>, replica: KernelState)
    requires reg == Sends(2) && IsLateRun(inputs)
    requires replica.manifest == NO_MANIFEST && replica.instances == Run(reg, Blank(), Creations(inputs)).instances
    ensures !Reproduces(reg, replica, Run(reg, Blank(), inputs))
  {
    LateIsUntold(inputs);
    LateRunEnds(inputs);
    LateStarts(inputs);
    ReplayReproducesExactly(reg, Blank(), replica, inputs, [], Unsigned);
  }

  /** A literal run that replay does not reproduce: signal, then creation of the instance it names. */
  lemma LateCreationIsNotReproduced(replica: KernelState)
    requires replica.manifest == NO_MANIFEST && replica.instances == Run(Sends(2), Blank(), Creations(LateRun())).instances
    ensures !Reproduces(Sends(2), replica, Run(Sends(2), Blank(), LateRun()))
  {
    LateNotReproduced(Sends(2), LateRun(), replica);
  }

  // ---- a budget broken ----

  /** Fills a budget of 10 with two components. */
  function Filling(): seq<Op> {
    [SpawnEntity(1, System), SetComponent(1, 1, [], 5), SetComponent(1, 2, [], 5)]
  }

  function Overrunning(): Registry {
    map[7 := Fixed(Filling()), 8 := Fixed(DoubleRemoval())]
  }

  /** Fill, then remove one component twice and store 10 bytes elsewhere. */
  function OverrunRun(): seq<Input> {
    [DoCreate(TIGHT), DoSubmit(Ask(7)), DoStep(0, SYSTEM), DoSubmit(Ask(8)), DoStep(0, SYSTEM)]
  }

  ghost predicate IsOverrunRun(inputs: seq<Input>) {
    |inputs| == 5 && Opens(inputs, TIGHT, 7) && inputs[3] == DoSubmit(Ask(8)) && inputs[4] == DoStep(0, SYSTEM)
  }

  lemma {:induction false} StoreOpsTouchNoQueue(o: Origin, i: InstanceSnapshot, ops: seq<Op>)
    requires forall op :: op in ops ==> LedgerView(op).Some?
    ensures ExecAll(o, i, ops).scheduler == i.scheduler && ExecAll(o, i, ops).config == i.config && Sent(o, ops) == []
    decreases |ops|
  {
    if ops != [] {
      assert ops[|ops|-1] in ops;
      StoreOpsTouchNoQueue(o, i, ops[..|ops|-1]);
    }
  }

  /** Everything is admitted, so everything commits. */
  lemma AllAdmittedCommits(reg: Registry, i: InstanceSnapshot, e: S.ScheduledEntry, o: Origin, ops: seq<Op>, g: GateState)
    requires e.typeCode in reg && reg[e.typeCode] == Fixed(ops) && o == OriginOf(i, 1, e, 0, SYSTEM)
    requires g == GateAll(o, i, GateStart(i), ops) && !g.anyDenied && g.denied == 0 && g.admitted == ops
    ensures var (j, core) := RunEntry(reg, i, 1, e, 0, SYSTEM, true);
            && core.verdict == Committed && core.pendingSignals == Sent(o, ops)
            && j == ExecAll(o, i, ops) && j.ledger == L.ApplyLedgerOps(i.ledger, g.stage.ledgerOps)
  {
    StagingPreservesMeaning(reg, i, 1, e, 0, SYSTEM, true);
    assert Gated(reg[e.typeCode], i, 1, e, 0, SYSTEM) == g;
  }

  lemma AllStoresCommit(reg: Registry, i: InstanceSnapshot, e: S.ScheduledEntry, o: Origin, ops: seq<Op>, g: GateState)
    requires e.typeCode in reg && reg[e.typeCode] == Fixed(ops) && o == OriginOf(i, 1, e, 0, SYSTEM)
    requires g == GateAll(o, i, GateStart(i), ops) && !g.anyDenied && g.denied == 0 && g.admitted == ops
    requires forall op :: op in ops ==> LedgerView(op).Some?
    ensures var (j, core) := RunEntry(reg, i, 1, e, 0, SYSTEM, true);
            && j.ledger == L.ApplyLedgerOps(i.ledger, g.stage.ledgerOps) && j.scheduler == i.scheduler && j.config == i.config
            && core.pendingSignals == [] && core.verdict == Committed
  {
    AllAdmittedCommits(reg, i, e, o, ops, g);
    StoreOpsTouchNoQueue(o, i, ops);
  }

  ghost predicate ThreeFit(i: InstanceSnapshot, ops: seq<Op>, a: L.LedgerOp, b: L.LedgerOp, c: L.LedgerOp) {
    && |ops| == 3 && LedgerView(ops[0]) == Some(a) && LedgerView(ops[1]) == Some(b) && LedgerView(ops[2]) == Some(c)
    && ProjectedBytes(i.ledger.totalBytes, i.ledger, [a]) <= 10
    && ProjectedBytes(i.ledger.totalBytes, i.ledger, [a, b]) <= 10
    && ProjectedBytes(i.ledger.totalBytes, i.ledger, [a, b, c]) <= 10
  }

  lemma ThreeGated(i: InstanceSnapshot, o: Origin, ops: seq<Op>, a: L.LedgerOp, b: L.LedgerOp, c: L.LedgerOp) returns (g: GateState)
    requires i.config == TIGHT && o.principal == System && ThreeFit(i, ops, a, b, c)
    ensures g == GateAll(o, i, GateStart(i), ops) && !g.anyDenied && g.denied == 0 && g.admitted == ops
    ensures g.stage.ledgerOps == [a, b, c] && forall op :: op in ops ==> LedgerView(op).Some?
  {
    ThreeAdmitted(o, i, ops, a, b, c);
    g := GateAll(o, i, GateStart(i), ops);
  }

  /** Three store operations that fit their projections commit together. */
  lemma ThreeCommit(reg: Registry, i: InstanceSnapshot, e: S.ScheduledEntry, ops: seq<Op>, a: L.LedgerOp, b: L.LedgerOp, c: L.LedgerOp)
    requires e.typeCode in reg && reg[e.typeCode] == Fixed(ops) && e.principal == System && i.config == TIGHT
    requires ThreeFit(i, ops, a, b, c)
    ensures var (j, core) := RunEntry(reg, i, 1, e, 0, SYSTEM, true);
            && j.ledger == L.ApplyLedgerOps(i.ledger, [a, b, c]) && j.scheduler == i.scheduler && j.config == TIGHT
            && core.pendingSignals == [] && core.verdict == Committed
  {
    var o := OriginOf(i, 1, e, 0, SYSTEM);
    var g := ThreeGated(i, o, ops, a, b, c);
    AllStoresCommit(reg, i, e, o, ops, g);
  }

  function Full(): L.LedgerState {
    L.LedgerState({1}, map[(1, 1) := 5, (1, 2) := 5], 10)
  }

  lemma FillingProjects()
    ensures var (s, a, b) := (L.AddEntityOp(1), L.AddComponentOp((1, 1), 5), L.AddComponentOp((1, 2), 5));
            && ProjectedBytes(0, L.EMPTY, [s]) == 0 && ProjectedBytes(0, L.EMPTY, [s, a]) == 5 && ProjectedBytes(0, L.EMPTY, [s, a, b]) == 10
            && L.ApplyLedgerOps(L.EMPTY, [s, a, b]) == Full()
  {
    var (s, a, b) := (L.AddEntityOp(1), L.AddComponentOp((1, 1), 5), L.AddComponentOp((1, 2), 5));
    assert [s][..0] == [] && [s, a][..1] == [s] && [s, a, b][..2] == [s, a];
    assert L.ApplyLedgerOps(L.EMPTY, [s]) == L.LedgerState({1}, map[], 0);
    assert L.ApplyLedgerOps(L.EMPTY, [s, a]) == L.LedgerState({1}, map[(1, 1) := 5], 5);
  }

  lemma EmptyingProjects()
    ensures var (r, a) := (L.RemoveComponentOp((1, 1), 5), L.AddComponentOp((1, 3), 10));
            && ProjectedBytes(10, Full(), [r]) == 5 && ProjectedBytes(10, Full(), [r, r]) == 0 && ProjectedBytes(10, Full(), [r, r, a]) == 10
            && L.ApplyLedgerOps(Full(), [r, r, a]).totalBytes == 15
  {
    DoubleRemovalProjects();
  }

  lemma FillingCommits() returns (j: InstanceSnapshot, core: StepCore)
    ensures (j, core) == RunEntry(Overrunning(), Popping(Fresh(1, TIGHT), 7), 1, QueuedEntry(Fresh(1, TIGHT), 7), 0, SYSTEM, true)
    ensures j.ledger == Full() && j.config == TIGHT && j.scheduler.ready == map[] && core.pendingSignals == []
  {
    var p, e := Popping(Fresh(1, TIGHT), 7), QueuedEntry(Fresh(1, TIGHT), 7);
    FillingProjects();
    ThreeCommit(Overrunning(), p, e, Filling(), L.AddEntityOp(1), L.AddComponentOp((1, 1), 5), L.AddComponentOp((1, 2), 5));
    var ran := RunEntry(Overrunning(), p, 1, e, 0, SYSTEM, true);
    j, core := ran.0, ran.1;
  }

  lemma EmptyingCommits(i: InstanceSnapshot) returns (j: InstanceSnapshot, core: StepCore)
    requires i.ledger == Full() && i.config == TIGHT
    ensures (j, core) == RunEntry(Overrunning(), Popping(i, 8), 1, QueuedEntry(i, 8), 0, SYSTEM, true)
    ensures j.ledger.totalBytes == 15 && j.config == TIGHT && core.pendingSignals == [] && core.verdict == Committed
  {
    var p, e := Popping(i, 8), QueuedEntry(i, 8);
    EmptyingProjects();
    ThreeCommit(Overrunning(), p, e, DoubleRemoval(), L.RemoveComponentOp((1, 1), 5), L.RemoveComponentOp((1, 1), 5), L.AddComponentOp((1, 3), 10));
    var ran := RunEntry(Overrunning(), p, 1, e, 0, SYSTEM, true);
    j, core := ran.0, ran.1;
  }

  lemma AfterFilling(inputs: seq<Input>) returns (i: InstanceSnapshot)
    requires IsOverrunRun(inputs)
    ensures var k := Run(Overrunning(), Blank(), inputs[..3]); k.instances == map[1 := i] && k.wal.Some?
    ensures i.ledger == Full() && i.config == TIGHT && i.scheduler.ready == map[]
  {
    var core;
    i, core := FillingCommits();
    Opened(Overrunning(), inputs, TIGHT, 7, i, core);
  }

  lemma EmptyingOverruns(reg: Registry, k: KernelState, i: InstanceSnapshot)
    requires reg == Overrunning() && k.instances == map[1 := i] && k.wal.Some?
    requires i.ledger == Full() && i.config == TIGHT && i.scheduler.ready == map[]
    ensures var k' := React(reg, React(reg, k, DoSubmit(Ask(8))).k, DoStep(0, SYSTEM)).k;
            1 in k'.instances && k'.instances[1].config == TIGHT && k'.instances[1].ledger.totalBytes == 15
  {
    var j, core := EmptyingCommits(i);
    AskAndStep(reg, k, i, 8, j, core);
  }

  lemma Overrun(inputs: seq<Input>)
    requires IsOverrunRun(inputs)
    ensures var m := Run(Overrunning(), Blank(), inputs).instances;
            1 in m && m[1].ledger.totalBytes == 15 > m[1].config.memoryBudgetBytes == 10
  {
    var i := AfterFilling(inputs);
    EmptyingOverruns(Overrunning(), Run(Overrunning(), Blank(), inputs[..3]), i);
    RunEnds(Overrunning(), inputs, 3, Run(Overrunning(), Blank(), inputs[..3]));
  }

  /** A literal run from an empty kernel that breaks the byte budget: an instance with a budget of 10 is
      filled, has one component removed twice in one step, and ends holding 15 bytes. */
  lemma DoubleRemovalOverruns()
    ensures var m := Run(Overrunning(), Blank(), OverrunRun()).instances;
            1 in m && m[1].ledger.totalBytes == 15 > m[1].config.memoryBudgetBytes == 10
  {
    Overrun(OverrunRun());
  }

  // ---- records and ceilings ----

  /** A step with nothing due writes no record. */
  lemma IdleStepWritesNothing(reg: Registry)
    ensures var k := StepKernel(reg, Blank(), 0, SYSTEM).k; k.wal.Some? && k.wal.value.records == []
  {
    assert Ids(Blank().instances) == [];
  }

  /** A submission granted one capability is queued under that one, not under all of them. */
  lemma CeilingIsNotPermissive()
    ensures var k := CreateInstance(Blank(), FREE).0;
            && Submit(k, Ask(8)).1.Ok?
            && var key := S.SchedKey(0, 0, 1);
               var q := Submit(k, Ask(8)).0.instances[1].scheduler.ready;
               key in q && q[key].ceiling == SYSTEM != Admission.EVERY_BIT
  {
    assert 1 in Admission.EVERY_BIT && 1 !in SYSTEM;
  }
}
