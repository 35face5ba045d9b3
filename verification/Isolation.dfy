/** Instances touch each other through inboxes and in-flight counts, and through nothing else. */
module Isolation {
  import opened Abi
  import opened Authz
  import opened Instance
  import opened Stage
  import opened Step
  import opened Kernel
  import opened Moves
  import S = Scheduler

  /** An instance without what the signal router may write from outside. */
  function Private(i: InstanceSnapshot): InstanceSnapshot {
    i.(inflightRefs := map[], signalInbox := map[], inboxSeq := 0)
  }

  // ---- one step reads and writes private state only ----

  lemma {:induction false} GatesReadPrivate(o: Origin, i: InstanceSnapshot, j: InstanceSnapshot, g: GateState, ops: seq<Op>)
    requires Private(i) == Private(j)
    ensures GateAll(o, i, g, ops) == GateAll(o, j, g, ops)
    decreases |ops|
  {
    if ops != [] {
      assert QuotaGate(i, g.stage, ops[0]) == QuotaGate(j, g.stage, ops[0]);
      GatesReadPrivate(o, i, j, Gate(o, i, g, ops[0]), ops[1..]);
    }
  }

  /** Everything a step reports apart from the digest. */
  function Report(c: StepCore): StepCore {
    c.(digest := ZeroDigest)
  }

  lemma StepReadsPrivate(reg: Registry, i: InstanceSnapshot, j: InstanceSnapshot, id: InstanceId, now: Tick, session: Caps,
                         measureI: bool, measureJ: bool)
    requires Private(i) == Private(j)
    ensures var a, b := StepOne(reg, i, id, now, session, measureI), StepOne(reg, j, id, now, session, measureJ);
            && a.Some? == b.Some?
            && (a.Some? ==> Private(a.value.0) == Private(b.value.0) && Report(a.value.1) == Report(b.value.1))
  {
    assert i.scheduler == j.scheduler;
    if i.scheduler.ready != map[] {
      var e := i.scheduler.ready[S.Head(i.scheduler.ready.Keys)];
      EntryReadsPrivate(reg, AfterPop(i), AfterPop(j), id, e, now, session, measureI, measureJ);
    }
  }

  lemma EntryReadsPrivate(reg: Registry, i: InstanceSnapshot, j: InstanceSnapshot, id: InstanceId, e: S.ScheduledEntry,
                          now: Tick, session: Caps, measureI: bool, measureJ: bool)
    requires Private(i) == Private(j)
    ensures var a, b := RunEntry(reg, i, id, e, now, session, measureI), RunEntry(reg, j, id, e, now, session, measureJ);
            Private(a.0) == Private(b.0) && Report(a.1) == Report(b.1)
  {
    if e.typeCode in reg {
      var r := reg[e.typeCode];
      assert Context(i, e.actor, now, id) == Context(j, e.actor, now, id);
      assert OriginOf(i, id, e, now, session) == OriginOf(j, id, e, now, session);
      GatesReadPrivate(OriginOf(i, id, e, now, session), i, j, GateStart(i), r.compute(e.bytes, Context(i, e.actor, now, id)));
      var g := Gated(r, i, id, e, now, session);
      assert g == Gated(r, j, id, e, now, session);
      assert Private(ApplyStage(i, g.stage)) == Private(ApplyStage(j, g.stage));
    }
  }

  // ---- the router writes non-private state only ----

  lemma {:induction false} RouterKeepsPrivate(m: Instances, from: InstanceId, sigs: seq<PendingSignal>)
    ensures var m' := RouteAll(m, from, sigs).0;
            m'.Keys == m.Keys && forall id :: id in m ==> Private(m'[id]) == Private(m[id])
    decreases |sigs|
  {
    if sigs != [] {
      RouterKeepsPrivate(m, from, sigs[..|sigs|-1]);
    }
  }

  /** One processed instance: its own private state moves as `StepOne` says, every other
      instance's stays. */
  lemma ProcessIsPrivate(reg: Registry, m: Instances, id: InstanceId, now: Tick, session: Caps, measure: bool)
    requires Process(reg, m, id, now, session, measure).Ran?
    ensures var x := Process(reg, m, id, now, session, measure);
            && id in m && StepOne(reg, m[id], id, now, session, measure).Some?
            && x.instances.Keys == m.Keys
            && Private(x.instances[id]) == Private(StepOne(reg, m[id], id, now, session, measure).value.0)
            && forall other :: other in m && other != id ==> Private(x.instances[other]) == Private(m[other])
  {
    var (i, core) := StepOne(reg, m[id], id, now, session, measure).value;
    RouterKeepsPrivate(m[id := i], id, core.pendingSignals);
  }

  // ---- runs ----

  /** What the caller can observe of one instance. */
  datatype Fact =
    | Admission(result: Result<ScheduledActionId, ArkheError>)
    | Pop(poppedId: ScheduledActionId, verdict: StepVerdict, applied: U32, denied: U32, domainEvents: U32)

  function PopFact(r: InstanceStepResult): Fact {
    Pop(r.poppedId, r.verdict, r.effectsApplied, r.effectsDenied, r.domainEvents)
  }

  function PopFacts(pops: seq<(InstanceId, InstanceStepResult)>, id: InstanceId): seq<Fact> {
    if pops == [] then []
    else PopFacts(pops[..|pops|-1], id) + if pops[|pops|-1].0 == id then [PopFact(pops[|pops|-1].1)] else []
  }

  function FactsOf(input: Input, output: Output, id: InstanceId): seq<Fact> {
    match (input, output)
    case (DoSubmit(s), Submitted(r)) => if s.instance == id then [Admission(r)] else []
    case (_, Stepped(_, pops)) => PopFacts(pops, id)
    case _ => []
  }

  ghost function History(reg: Registry, k: KernelState, inputs: seq<Input>, id: InstanceId): seq<Fact> {
    if inputs == [] then []
    else
      var last := inputs[|inputs|-1];
      History(reg, k, inputs[..|inputs|-1], id) + FactsOf(last, React(reg, Run(reg, k, inputs[..|inputs|-1]), last).output, id)
  }

  /** Whether an input is one the instance `id` would see if it ran alone. */
  predicate Concerns(input: Input, id: InstanceId) {
    match input
    case DoCreate(_) => false
    case DoSubmit(s) => s.instance == id
    case _ => true
  }

  /** The same steps and unloads, and only the submissions addressed to `id`. */
  function Own(inputs: seq<Input>, id: InstanceId): seq<Input> {
    if inputs == [] then []
    else
      var last := inputs[|inputs|-1];
      Own(inputs[..|inputs|-1], id) + if Concerns(last, id) then [last] else []
  }

  ghost predicate Agree(m: Instances, alone: Instances, id: InstanceId) {
    id in m && alone.Keys == {id} && Private(m[id]) == Private(alone[id])
  }

  lemma VisitOther(reg: Registry, p: Pass, other: InstanceId, now: Tick, session: Caps, id: InstanceId)
    requires id in p.k.instances && other != id
    ensures var p' := Visit(reg, p, other, now, session);
            && id in p'.k.instances && Private(p'.k.instances[id]) == Private(p.k.instances[id])
            && PopFacts(p'.pops, id) == PopFacts(p.pops, id)
  {
    var x := Process(reg, p.k.instances, other, now, session, p.k.wal.Some?);
    if x.Ran? {
      ProcessIsPrivate(reg, p.k.instances, other, now, session, p.k.wal.Some?);
      PopFactsSnoc(p.pops, id, other, x.result);
      assert Visit(reg, p, other, now, session).pops == p.pops + [(other, x.result)];
    }
  }

  lemma ProcessSelf(reg: Registry, m: Instances, alone: Instances, now: Tick, session: Caps, id: InstanceId, measureM: bool, measureA: bool)
    requires Agree(m, alone, id)
    ensures var x, y := Process(reg, m, id, now, session, measureM), Process(reg, alone, id, now, session, measureA);
            && x.Ran? == y.Ran?
            && (x.Ran? ==> Agree(x.instances, y.instances, id) && PopFact(x.result) == PopFact(y.result))
  {
    StepReadsPrivate(reg, m[id], alone[id], id, now, session, measureM, measureA);
    if StepOne(reg, m[id], id, now, session, measureM).Some? {
      ProcessIsPrivate(reg, m, id, now, session, measureM);
      ProcessIsPrivate(reg, alone, id, now, session, measureA);
    }
  }

  lemma PopFactsSnoc(pops: seq<(InstanceId, InstanceStepResult)>, id: InstanceId, popper: InstanceId, r: InstanceStepResult)
    ensures PopFacts(pops + [(popper, r)], id) == PopFacts(pops, id) + if popper == id then [PopFact(r)] else []
  {
  }

  lemma VisitSelf(reg: Registry, p: Pass, q: Pass, now: Tick, session: Caps, id: InstanceId)
    requires Agree(p.k.instances, q.k.instances, id) && PopFacts(p.pops, id) == PopFacts(q.pops, id)
    ensures var p', q' := Visit(reg, p, id, now, session), Visit(reg, q, id, now, session);
            Agree(p'.k.instances, q'.k.instances, id) && PopFacts(p'.pops, id) == PopFacts(q'.pops, id)
  {
    ProcessSelf(reg, p.k.instances, q.k.instances, now, session, id, p.k.wal.Some?, q.k.wal.Some?);
    var x := Process(reg, p.k.instances, id, now, session, p.k.wal.Some?);
    var y := Process(reg, q.k.instances, id, now, session, q.k.wal.Some?);
    if x.Ran? {
      PopFactsSnoc(p.pops, id, id, x.result);
      PopFactsSnoc(q.pops, id, id, y.result);
    }
  }

  /** A pass over distinct ids moves `id` as a visit of `id` alone does, or not at all. */
  lemma {:induction false} PassIsolated(reg: Registry, p: Pass, q: Pass, ids: seq<InstanceId>, now: Tick, session: Caps, id: InstanceId)
    requires Agree(p.k.instances, q.k.instances, id) && PopFacts(p.pops, id) == PopFacts(q.pops, id)
    requires forall x, y :: 0 <= x < y < |ids| ==> ids[x] != ids[y]
    ensures var p' := VisitAll(reg, p, ids, now, session);
            var q' := if id in ids then Visit(reg, q, id, now, session) else q;
            Agree(p'.k.instances, q'.k.instances, id) && PopFacts(p'.pops, id) == PopFacts(q'.pops, id)
    decreases |ids|
  {
    if ids != [] {
      var init, last := ids[..|ids|-1], ids[|ids|-1];
      assert ids == init + [last];
      PassIsolated(reg, p, q, init, now, session, id);
      var before := VisitAll(reg, p, init, now, session);
      if last == id {
        assert id !in init;
        VisitSelf(reg, before, q, now, session, id);
      } else {
        VisitOther(reg, before, last, now, session, id);
      }
    }
  }

  lemma IdsOfOne(m: Instances, id: InstanceId)
    requires m.Keys == {id}
    ensures Ids(m) == [id]
  {
    var keys: set<nat> := m.Keys;
    assert keys == {id} && Least(keys) == id && keys - {id} == {};
    assert Ascending(keys) == [id] + Ascending(keys - {id});
  }

  lemma StepIsolated(reg: Registry, k: KernelState, a: KernelState, now: Tick, session: Caps, id: InstanceId)
    requires Agree(k.instances, a.instances, id)
    ensures var p, q := StepKernel(reg, k, now, session), StepKernel(reg, a, now, session);
            Agree(p.k.instances, q.k.instances, id) && PopFacts(p.pops, id) == PopFacts(q.pops, id)
  {
    var p, q := Pass(k, StepReport(0, 0, 0, 0), [], []), Pass(a, StepReport(0, 0, 0, 0), [], []);
    IdsDistinct(k.instances);
    IdsOfOne(a.instances, id);
    PassIsolated(reg, p, q, Ids(k.instances), now, session, id);
    assert VisitAll(reg, q, [], now, session) == q;
    assert [id][..0] == [];
    assert VisitAll(reg, q, [id], now, session) == Visit(reg, q, id, now, session);
  }

  lemma SubmitIsolated(k: KernelState, a: KernelState, s: Submission, id: InstanceId)
    requires Agree(k.instances, a.instances, id)
    ensures s.instance == id ==>
              Agree(Submit(k, s).0.instances, Submit(a, s).0.instances, id) && Submit(k, s).1 == Submit(a, s).1
    ensures s.instance != id ==> Agree(Submit(k, s).0.instances, a.instances, id)
  {
  }

  lemma UnloadIsolated(k: KernelState, a: KernelState, route: RouteId, caps: Caps, id: InstanceId)
    requires Agree(k.instances, a.instances, id)
    ensures Agree(ForceUnload(k, route, caps).0.instances, ForceUnload(a, route, caps).0.instances, id)
  {
  }

  lemma ReactStepIsolated(reg: Registry, k: KernelState, a: KernelState, input: Input, id: InstanceId)
    requires Agree(k.instances, a.instances, id) && input.DoStep?
    ensures var x, y := React(reg, k, input), React(reg, a, input);
            && x.k.nextInstanceId == k.nextInstanceId
            && Agree(x.k.instances, y.k.instances, id) && FactsOf(input, x.output, id) == FactsOf(input, y.output, id)
  {
    StepIsolated(reg, k, a, input.now, input.session, id);
    PassKeepsIdCounter(reg, Pass(k, StepReport(0, 0, 0, 0), [], []), Ids(k.instances), input.now, input.session);
  }

  /** One input reaches the instance, or does not concern it. */
  lemma ReactIsolated(reg: Registry, k: KernelState, a: KernelState, input: Input, id: InstanceId)
    requires Agree(k.instances, a.instances, id) && id <= k.nextInstanceId && id < U64_MAX
    ensures var x := React(reg, k, input);
            && id <= x.k.nextInstanceId
            && if Concerns(input, id) then
                 var y := React(reg, a, input);
                 Agree(x.k.instances, y.k.instances, id) && FactsOf(input, x.output, id) == FactsOf(input, y.output, id)
               else
                 Agree(x.k.instances, a.instances, id) && FactsOf(input, x.output, id) == []
  {
    match input
    case DoCreate(_) =>
    case DoSubmit(s) => SubmitIsolated(k, a, s, id);
    case DoStep(now, session) => ReactStepIsolated(reg, k, a, input, id);
    case DoUnload(route, caps) => UnloadIsolated(k, a, route, caps, id);
  }

  /** Isolation: over any run, an instance's popped ids, verdicts, counts, admissions, entities,
      components, scheduler, counters and ledger are those of that instance run alone, on its own
      submissions and the same steps. (The bounds on `id` say it is one this kernel allocated and
      not the saturated last id, which a later creation would overwrite.) */
  lemma {:induction false} RunIsolated(reg: Registry, k: KernelState, alone: KernelState, inputs: seq<Input>, id: InstanceId)
    requires Agree(k.instances, alone.instances, id) && id <= k.nextInstanceId && id < U64_MAX
    ensures Agree(Run(reg, k, inputs).instances, Run(reg, alone, Own(inputs, id)).instances, id)
    ensures History(reg, k, inputs, id) == History(reg, alone, Own(inputs, id), id)
    ensures id <= Run(reg, k, inputs).nextInstanceId
    decreases |inputs|
  {
    if inputs != [] {
      var init, last := inputs[..|inputs|-1], inputs[|inputs|-1];
      RunIsolated(reg, k, alone, init, id);
      ReactIsolated(reg, Run(reg, k, init), Run(reg, alone, Own(init, id)), last, id);
      if Concerns(last, id) {
        var own := Own(inputs, id);
        assert own[..|own|-1] == Own(init, id) && own[|own|-1] == last;
      } else {
        assert Own(inputs, id) == Own(init, id);
      }
    }
  }
}
