/** A restored kernel behaves as the one its snapshot was taken of. */
module Restoring {
  import opened Abi
  import opened Instance
  import opened Step
  import opened Kernel
  import opened Moves
  import opened Isolation
  import opened Invariants
  import S = Scheduler

  /** Equal apart from what a snapshot leaves behind: manifest and log. */
  predicate SameWorld(a: KernelState, b: KernelState) {
    a.instances == b.instances && a.nextInstanceId == b.nextInstanceId
  }

  /** What a caller gets, apart from the digests only a logging kernel measures. */
  function Plain(pops: seq<(InstanceId, InstanceStepResult)>): seq<(InstanceId, InstanceStepResult)> {
    if pops == [] then []
    else Plain(pops[..|pops|-1]) + [(pops[|pops|-1].0, pops[|pops|-1].1.(digest := ZeroDigest))]
  }

  function PlainOutput(o: Output): Output {
    if o.Stepped? then Stepped(o.report, Plain(o.pops)) else o
  }

  function PlainOutputs(os: seq<Output>): seq<Output> {
    if os == [] then [] else PlainOutputs(os[..|os|-1]) + [PlainOutput(os[|os|-1])]
  }

  lemma ProcessIgnoresMeasuring(reg: Registry, m: Instances, id: InstanceId, now: Tick, session: Caps, a: bool, b: bool)
    ensures var x, y := Process(reg, m, id, now, session, a), Process(reg, m, id, now, session, b);
            && x.Ran? == y.Ran?
            && (x.Ran? ==> x.instances == y.instances && x.events == y.events &&
                           x.result.(digest := ZeroDigest) == y.result.(digest := ZeroDigest))
  {
    if id in m && S.Due(m[id].scheduler, now) {
      MeasuringChangesNothing(reg, m[id], id, now, session, a);
      MeasuringChangesNothing(reg, m[id], id, now, session, b);
      StepReadsPrivate(reg, m[id], m[id], id, now, session, a, b);
    }
  }

  ghost predicate SamePass(p: Pass, q: Pass) {
    SameWorld(p.k, q.k) && p.report == q.report && p.events == q.events && Plain(p.pops) == Plain(q.pops)
  }

  lemma PlainSnoc(pops: seq<(InstanceId, InstanceStepResult)>, id: InstanceId, r: InstanceStepResult)
    ensures Plain(pops + [(id, r)]) == Plain(pops) + [(id, r.(digest := ZeroDigest))]
  {
  }

  lemma VisitSame(reg: Registry, p: Pass, q: Pass, id: InstanceId, now: Tick, session: Caps)
    requires SamePass(p, q)
    ensures SamePass(Visit(reg, p, id, now, session), Visit(reg, q, id, now, session))
  {
    ProcessIgnoresMeasuring(reg, p.k.instances, id, now, session, p.k.wal.Some?, q.k.wal.Some?);
    var x := Process(reg, p.k.instances, id, now, session, p.k.wal.Some?);
    var y := Process(reg, q.k.instances, id, now, session, q.k.wal.Some?);
    if x.Ran? {
      PlainSnoc(p.pops, id, x.result);
      PlainSnoc(q.pops, id, y.result);
      assert Tally(p.report, x.result) == Tally(q.report, y.result) by {
        assert x.result.effectsApplied == x.result.(digest := ZeroDigest).effectsApplied;
        assert y.result.effectsApplied == y.result.(digest := ZeroDigest).effectsApplied;
      }
    }
  }

  lemma {:induction false} PassSame(reg: Registry, p: Pass, q: Pass, ids: seq<InstanceId>, now: Tick, session: Caps)
    requires SamePass(p, q)
    ensures SamePass(VisitAll(reg, p, ids, now, session), VisitAll(reg, q, ids, now, session))
    decreases |ids|
  {
    if ids != [] {
      var init := ids[..|ids|-1];
      PassSame(reg, p, q, init, now, session);
      VisitSame(reg, VisitAll(reg, p, init, now, session), VisitAll(reg, q, init, now, session), ids[|ids|-1], now, session);
    }
  }

  lemma ReactSame(reg: Registry, a: KernelState, b: KernelState, input: Input)
    requires SameWorld(a, b)
    ensures var x, y := React(reg, a, input), React(reg, b, input);
            SameWorld(x.k, y.k) && PlainOutput(x.output) == PlainOutput(y.output) && x.events == y.events
  {
    if input.DoStep? {
      PassSame(reg, Pass(a, StepReport(0, 0, 0, 0), [], []), Pass(b, StepReport(0, 0, 0, 0), [], []),
               Ids(a.instances), input.now, input.session);
    }
  }

  lemma {:induction false} RunSame(reg: Registry, a: KernelState, b: KernelState, inputs: seq<Input>)
    requires SameWorld(a, b)
    ensures SameWorld(Run(reg, a, inputs), Run(reg, b, inputs))
    ensures PlainOutputs(Outputs(reg, a, inputs)) == PlainOutputs(Outputs(reg, b, inputs))
    ensures Emitted(reg, a, inputs) == Emitted(reg, b, inputs)
    decreases |inputs|
  {
    if inputs != [] {
      var init, last := inputs[..|inputs|-1], inputs[|inputs|-1];
      RunSame(reg, a, b, init);
      ReactSame(reg, Run(reg, a, init), Run(reg, b, init), last);
      var x, y := Outputs(reg, a, inputs), Outputs(reg, b, inputs);
      assert x[..|x|-1] == Outputs(reg, a, init) && y[..|y|-1] == Outputs(reg, b, init);
    }
  }

  /** Restore is a bisimulation: a kernel restored from a snapshot and given the same registry
      answers every later sequence of inputs with the same ids, verdicts, counts and events, and
      passes through the same instance states, as the kernel the snapshot was taken of. */
  lemma RestoreIsBisimulation(reg: Registry, k: KernelState, inputs: seq<Input>)
    ensures var r := Restore(TakeSnapshot(k));
            && r.wal == None && r.manifest == seq(32, _ => 0)
            && SameWorld(Run(reg, r, inputs), Run(reg, k, inputs))
            && PlainOutputs(Outputs(reg, r, inputs)) == PlainOutputs(Outputs(reg, k, inputs))
            && Emitted(reg, r, inputs) == Emitted(reg, k, inputs)
  {
    RunSame(reg, Restore(TakeSnapshot(k)), k, inputs);
  }

  /** What `validate_structure` accepts. */
  ghost predicate Validates(s: KernelSnapshot) {
    forall id :: id in s.instances ==> S.Consistent(s.instances[id].scheduler)
  }

  /** A snapshot taken anywhere in a run from an empty kernel is accepted on the way back, as long as
      no instance has exhausted its scheduled ids. */
  lemma ReachableSnapshotsValidate(reg: Registry, k: KernelState, inputs: seq<Input>)
    requires k.instances == map[]
    requires forall id :: id in Run(reg, k, inputs).instances ==>
               Run(reg, k, inputs).instances[id].idCounters.nextScheduled < U64_MAX
    ensures Validates(TakeSnapshot(Run(reg, k, inputs)))
  {
    IdsInStepInEveryRun(reg, k, inputs);
  }

  datatype SnapshotError = Inconsistent(instance: InstanceId, reason: S.Fault)

  /** Validates one captured scheduler. */
  method ValidateOne(s: S.SchedulerState) returns (fault: Option<S.Fault>)
    ensures fault == S.FirstFault(s) && (fault.None? <==> S.Consistent(s))
    ensures fault.Some? ==> S.Exhibits(s, fault.value)
  {
    var scheduler := new S.Scheduler.FromState(s);
    var checked := scheduler.Validate();
    fault := if checked.Err? then Some(checked.error) else None;
  }

  /** The first `n` captured instances, in ascending id order, are accepted. */
  ghost predicate ValidatesFirst(s: KernelSnapshot, n: nat)
    requires n <= |Ids(s.instances)|
  {
    forall l :: 0 <= l < n ==> S.Consistent(s.instances[Ids(s.instances)[l]].scheduler)
  }

  ghost predicate ValidatesBelow(s: KernelSnapshot, id: InstanceId) {
    forall x :: x in s.instances && x < id ==> S.Consistent(s.instances[x].scheduler)
  }

  lemma FirstMore(s: KernelSnapshot, n: nat)
    requires n < |Ids(s.instances)| && ValidatesFirst(s, n) && S.Consistent(s.instances[Ids(s.instances)[n]].scheduler)
    ensures ValidatesFirst(s, n + 1)
  {
  }

  lemma FirstAreBelow(s: KernelSnapshot, n: nat)
    requires n < |Ids(s.instances)| && ValidatesFirst(s, n)
    ensures ValidatesBelow(s, Ids(s.instances)[n])
  {
    AscendingOrdered(s.instances.Keys);
    var ids := Ids(s.instances);
    forall x | x in s.instances && x < ids[n] ensures S.Consistent(s.instances[x].scheduler) {
      var l :| 0 <= l < |ids| && ids[l] == x;
    }
  }

  lemma FirstAreAll(s: KernelSnapshot)
    requires ValidatesFirst(s, |Ids(s.instances)|)
    ensures Validates(s)
  {
    var ids := Ids(s.instances);
    forall id | id in s.instances ensures S.Consistent(s.instances[id].scheduler) {
      var l :| 0 <= l < |ids| && ids[l] == id;
    }
  }

  /** Validates every captured instance in ascending id order; a refusal names the first faulty one and
      its first fault, which it really has. */
  method ValidateStructure(s: KernelSnapshot) returns (r: Result<(), SnapshotError>)
    ensures r.Ok? <==> Validates(s)
    ensures r.Err? ==>
              && r.error.instance in s.instances
              && S.FirstFault(s.instances[r.error.instance].scheduler) == Some(r.error.reason)
              && S.Exhibits(s.instances[r.error.instance].scheduler, r.error.reason)
              && ValidatesBelow(s, r.error.instance)
  {
    var ids := Ids(s.instances);
    for n := 0 to |ids|
      invariant ValidatesFirst(s, n)
    {
      var fault := ValidateOne(s.instances[ids[n]].scheduler);
      if fault.Some? {
        FirstAreBelow(s, n);
        return Err(Inconsistent(ids[n], fault.value));
      }
      FirstMore(s, n);
    }
    FirstAreAll(s);
    r := Ok(());
  }

  /** A validated snapshot restores to a kernel none of whose scheduler lookups can fail. */
  lemma ValidatedRestoresSafely(s: KernelSnapshot)
    requires Validates(s)
    ensures forall id :: id in Restore(s).instances ==> S.Anchored(Restore(s).instances[id].scheduler)
  {
  }
}
