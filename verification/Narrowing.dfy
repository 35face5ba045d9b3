/** Authority only narrows along a chain of scheduled actions. */
module Narrowing {
  import opened Abi
  import opened Authz
  import opened Instance
  import opened Stage
  import opened Step
  import opened Kernel
  import opened Isolation
  import opened Moves
  import S = Scheduler

  /** Where a queued entry comes from: a submission, or an action of known lineage that scheduled it
      while running under an operator session. */
  datatype Lineage = Root(submission: Submission) | Child(parent: Lineage, session: Caps)

  function RootOf(l: Lineage): Submission {
    match l
    case Root(s) => s
    case Child(p, _) => RootOf(p)
  }

  /** The session ceilings an entry's ancestors ran under. */
  function Sessions(l: Lineage): set<Caps> {
    match l
    case Root(_) => {}
    case Child(p, session) => Sessions(p) + {session}
  }

  type Lineages = map<S.SchedKey, Lineage>
  type Tags = map<InstanceId, Lineages>

  // ---- lineages, computed along a run ----

  function KeyFor(s: S.SchedulerState, e: S.ScheduledEntry): S.SchedKey {
    S.SchedKey(e.at, s.nextSeq, e.id)
  }

  /** Every child the operations schedule gets the lineage `child`. */
  ghost function TagExec(o: Origin, i: InstanceSnapshot, ops: seq<Op>, tags: Lineages, child: Lineage): Lineages {
    if ops == [] then tags
    else
      var before, op := TagExec(o, i, ops[..|ops|-1], tags, child), ops[|ops|-1];
      var j := ExecAll(o, i, ops[..|ops|-1]);
      if op.ScheduleAction? then
        before[KeyFor(j.scheduler, Stage.Child(o, op, SatAdd(j.idCounters.nextScheduled, 1))) := child]
      else before
  }

  ghost function TagStep(reg: Registry, i: InstanceSnapshot, id: InstanceId, tags: Lineages, now: Tick, session: Caps): Lineages {
    if !S.Due(i.scheduler, now) then tags
    else
      var key := S.Head(i.scheduler.ready.Keys);
      var p, e := AfterPop(i), i.scheduler.ready[key];
      if key in tags && Commits(RunEntry(reg, p, id, e, now, session, true).1.verdict) then
        TagExec(OriginOf(p, id, e, now, session), p, Admitted(reg, p, id, e, now, session), tags, Lineage.Child(tags[key], session))
      else tags
  }

  ghost function TagPass(reg: Registry, p: Pass, tags: Tags, ids: seq<InstanceId>, now: Tick, session: Caps): Tags {
    if ids == [] then tags
    else
      var before, id := TagPass(reg, p, tags, ids[..|ids|-1], now, session), ids[|ids|-1];
      var m := VisitAll(reg, p, ids[..|ids|-1], now, session).k.instances;
      if id in m && id in before then before[id := TagStep(reg, m[id], id, before[id], now, session)] else before
  }

  ghost function TagReact(reg: Registry, k: KernelState, tags: Tags, input: Input): Tags {
    match input
    case DoCreate(config) => tags[CreateInstance(k, config).1 := map[]]
    case DoSubmit(s) =>
      var r := Submit(k, s).1;
      if r.Ok? && s.instance in tags then
        tags[s.instance := tags[s.instance][KeyFor(k.instances[s.instance].scheduler, EntryFor(s, r.value)) := Root(s)]]
      else tags
    case DoStep(now, session) => TagPass(reg, Pass(k, StepReport(0, 0, 0, 0), [], []), tags, Ids(k.instances), now, session)
    case DoUnload(_, _) => tags
  }

  /** The lineage of every entry queued during a run from an empty kernel. */
  ghost function TagRun(reg: Registry, k: KernelState, inputs: seq<Input>): Tags {
    if inputs == [] then map[]
    else
      var init := inputs[..|inputs|-1];
      TagReact(reg, Run(reg, k, init), TagRun(reg, k, init), inputs[|inputs|-1])
  }

  // ---- what a lineage bounds ----

  /** The lineage is made of things the caller really did: its root was submitted to this instance
      and each session was the ceiling of some step. */
  ghost predicate Grounded(l: Lineage, id: InstanceId, inputs: seq<Input>) {
    match l
    case Root(s) => DoSubmit(s) in inputs && s.instance == id
    case Child(p, session) => Grounded(p, id, inputs) && exists now :: DoStep(now, session) in inputs
  }

  /** A principal holding `caps` by this lineage holds what the root was granted or less; if it was
      scheduled from inside, also no more than the instance's defaults and every ancestor's session. */
  ghost predicate Bounded(principal: Principal, caps: Caps, l: Lineage, defaults: Caps) {
    && principal == RootOf(l).principal
    && Narrower(caps, RootOf(l).caps)
    && (l.Child? ==> Narrower(caps, defaults))
    && (forall s :: s in Sessions(l) ==> Narrower(caps, s))
  }

  ghost predicate Traced(i: InstanceSnapshot, tags: Lineages, id: InstanceId, inputs: seq<Input>) {
    forall k :: k in i.scheduler.ready ==>
      && k in tags
      && Grounded(tags[k], id, inputs)
      && Bounded(i.scheduler.ready[k].principal, i.scheduler.ready[k].ceiling, tags[k], i.config.defaultCaps)
  }

  ghost predicate AllTraced(m: Instances, tags: Tags, inputs: seq<Input>) {
    tags.Keys == m.Keys && forall id :: id in m ==> Traced(m[id], tags[id], id, inputs)
  }

  lemma {:induction false} GroundedLater(l: Lineage, id: InstanceId, inputs: seq<Input>, input: Input)
    requires Grounded(l, id, inputs)
    ensures Grounded(l, id, inputs + [input])
    decreases l
  {
    match l
    case Root(_) =>
    case Child(p, session) =>
      GroundedLater(p, id, inputs, input);
      var now :| DoStep(now, session) in inputs;
      assert DoStep(now, session) in inputs + [input];
  }

  lemma AllTracedLater(m: Instances, tags: Tags, inputs: seq<Input>, input: Input)
    requires AllTraced(m, tags, inputs)
    ensures AllTraced(m, tags, inputs + [input])
  {
    forall id, k | id in m && k in m[id].scheduler.ready ensures Grounded(tags[id][k], id, inputs + [input]) {
      GroundedLater(tags[id][k], id, inputs, input);
    }
  }

  /** The caps an action resolves to are below its ceiling, the defaults and the session. */
  lemma ResolvedCapsBelow(defaults: Caps, principal: Principal, ceiling: Caps, session: Caps)
    ensures var caps := EffectiveCaps(defaults, principal, ceiling) * session;
            Narrower(caps, ceiling) && Narrower(caps, defaults) && Narrower(caps, session)
  {
  }

  /** What an action runs under, and therefore hands to its children, is bounded by its own
      lineage extended with this session. */
  lemma BoundedBelow(principal: Principal, caps: Caps, ceiling: Caps, session: Caps, l: Lineage, defaults: Caps)
    requires Bounded(principal, ceiling, l, defaults)
    requires Narrower(caps, ceiling) && Narrower(caps, defaults) && Narrower(caps, session)
    ensures Bounded(principal, caps, Lineage.Child(l, session), defaults)
  {
  }

  lemma {:induction false} ExecTraced(o: Origin, i: InstanceSnapshot, ops: seq<Op>, tags: Lineages, child: Lineage,
                                      id: InstanceId, inputs: seq<Input>)
    requires Traced(i, tags, id, inputs) && Grounded(child, id, inputs)
    requires Bounded(o.principal, o.caps, child, i.config.defaultCaps)
    ensures Traced(ExecAll(o, i, ops), TagExec(o, i, ops, tags, child), id, inputs)
    ensures ExecAll(o, i, ops).config == i.config
    decreases |ops|
  {
    if ops != [] {
      ExecTraced(o, i, ops[..|ops|-1], tags, child, id, inputs);
      ExecOneTraced(o, ExecAll(o, i, ops[..|ops|-1]), ops[|ops|-1], TagExec(o, i, ops[..|ops|-1], tags, child), child, id, inputs);
    }
  }

  lemma ExecOneTraced(o: Origin, j: InstanceSnapshot, op: Op, tags: Lineages, child: Lineage, id: InstanceId, inputs: seq<Input>)
    requires Traced(j, tags, id, inputs) && Grounded(child, id, inputs)
    requires Bounded(o.principal, o.caps, child, j.config.defaultCaps)
    ensures Exec(o, j, op).config == j.config
    ensures op.ScheduleAction? ==>
              Traced(Exec(o, j, op),
                     tags[KeyFor(j.scheduler, Stage.Child(o, op, SatAdd(j.idCounters.nextScheduled, 1))) := child], id, inputs)
    ensures !op.ScheduleAction? ==> Traced(Exec(o, j, op), tags, id, inputs)
  {
  }

  lemma StepTraced(reg: Registry, i: InstanceSnapshot, id: InstanceId, tags: Lineages, now: Tick, session: Caps, inputs: seq<Input>)
    requires Traced(i, tags, id, inputs) && DoStep(now, session) in inputs && S.Due(i.scheduler, now)
    ensures Traced(StepOne(reg, i, id, now, session, true).value.0, TagStep(reg, i, id, tags, now, session), id, inputs)
  {
    var key := S.Head(i.scheduler.ready.Keys);
    var p, e := AfterPop(i), i.scheduler.ready[key];
    assert Traced(p, tags, id, inputs);
    StagingPreservesMeaning(reg, p, id, e, now, session, true);
    var child, o := Lineage.Child(tags[key], session), OriginOf(p, id, e, now, session);
    ResolvedCapsBelow(p.config.defaultCaps, e.principal, e.ceiling, session);
    BoundedBelow(e.principal, o.caps, e.ceiling, session, tags[key], p.config.defaultCaps);
    assert Grounded(child, id, inputs);
    ExecTraced(o, p, Admitted(reg, p, id, e, now, session), tags, child, id, inputs);
  }

  // ---- over kernel runs ----

  lemma TracedIsPrivate(i: InstanceSnapshot, j: InstanceSnapshot, tags: Lineages, id: InstanceId, inputs: seq<Input>)
    requires Private(i) == Private(j) && Traced(i, tags, id, inputs)
    ensures Traced(j, tags, id, inputs)
  {
  }

  lemma ProcessTraced(reg: Registry, m: Instances, id: InstanceId, now: Tick, session: Caps, measure: bool, tags: Tags,
                      own: Lineages, inputs: seq<Input>)
    requires AllTraced(m, tags, inputs) && Process(reg, m, id, now, session, measure).Ran?
    requires Traced(StepOne(reg, m[id], id, now, session, measure).value.0, own, id, inputs)
    ensures AllTraced(Process(reg, m, id, now, session, measure).instances, tags[id := own], inputs)
  {
    ProcessIsPrivate(reg, m, id, now, session, measure);
    var m' := Process(reg, m, id, now, session, measure).instances;
    forall other | other in m' ensures Traced(m'[other], tags[id := own][other], other, inputs) {
      if other == id {
        TracedIsPrivate(StepOne(reg, m[id], id, now, session, measure).value.0, m'[id], own, id, inputs);
      } else {
        TracedIsPrivate(m[other], m'[other], tags[other], other, inputs);
      }
    }
  }

  lemma VisitTraced(reg: Registry, m: Instances, id: InstanceId, now: Tick, session: Caps, measure: bool, tags: Tags, inputs: seq<Input>)
    requires AllTraced(m, tags, inputs) && DoStep(now, session) in inputs && id in m
    ensures var x := Process(reg, m, id, now, session, measure);
            AllTraced(if x.Ran? then x.instances else m, tags[id := TagStep(reg, m[id], id, tags[id], now, session)], inputs)
  {
    if S.Due(m[id].scheduler, now) {
      MeasuringChangesNothing(reg, m[id], id, now, session, measure);
      StepTraced(reg, m[id], id, tags[id], now, session, inputs);
      ProcessTraced(reg, m, id, now, session, measure, tags, TagStep(reg, m[id], id, tags[id], now, session), inputs);
    } else {
      assert tags[id := tags[id]] == tags;
    }
  }

  lemma VisitPassTraced(reg: Registry, q: Pass, id: InstanceId, now: Tick, session: Caps, tags: Tags, inputs: seq<Input>)
    requires AllTraced(q.k.instances, tags, inputs) && DoStep(now, session) in inputs && id in q.k.instances
    ensures var m := Visit(reg, q, id, now, session).k.instances;
            && m.Keys == q.k.instances.Keys
            && AllTraced(m, tags[id := TagStep(reg, q.k.instances[id], id, tags[id], now, session)], inputs)
  {
    VisitTraced(reg, q.k.instances, id, now, session, q.k.wal.Some?, tags, inputs);
  }

  lemma {:induction false} PassTraced(reg: Registry, p: Pass, tags: Tags, ids: seq<InstanceId>, now: Tick, session: Caps, inputs: seq<Input>)
    requires AllTraced(p.k.instances, tags, inputs) && DoStep(now, session) in inputs
    requires forall id :: id in ids ==> id in p.k.instances
    ensures AllTraced(VisitAll(reg, p, ids, now, session).k.instances, TagPass(reg, p, tags, ids, now, session), inputs)
    ensures VisitAll(reg, p, ids, now, session).k.instances.Keys == p.k.instances.Keys
    decreases |ids|
  {
    if ids != [] {
      var init, id := ids[..|ids|-1], ids[|ids|-1];
      PassTraced(reg, p, tags, init, now, session, inputs);
      var q := VisitAll(reg, p, init, now, session);
      assert id in ids && id in q.k.instances;
      VisitPassTraced(reg, q, id, now, session, TagPass(reg, p, tags, init, now, session), inputs);
    }
  }

  lemma ReactTraced(reg: Registry, k: KernelState, tags: Tags, input: Input, inputs: seq<Input>)
    requires AllTraced(k.instances, tags, inputs) && input in inputs
    ensures AllTraced(React(reg, k, input).k.instances, TagReact(reg, k, tags, input), inputs)
  {
    match input
    case DoCreate(_) =>
    case DoSubmit(s) => SubmitTraced(k, tags, s, inputs);
    case DoStep(now, session) =>
      PassTraced(reg, Pass(k, StepReport(0, 0, 0, 0), [], []), tags, Ids(k.instances), now, session, inputs);
    case DoUnload(route, _) =>
      forall id | id in k.instances ensures Traced(DropRoute(k.instances[id], route), tags[id], id, inputs) {
        TracedIsPrivate(k.instances[id], DropRoute(k.instances[id], route), tags[id], id, inputs);
      }
  }

  lemma SubmitTraced(k: KernelState, tags: Tags, s: Submission, inputs: seq<Input>)
    requires AllTraced(k.instances, tags, inputs) && DoSubmit(s) in inputs
    ensures var (k', r) := Submit(k, s);
            AllTraced(k'.instances,
                      if r.Ok? then tags[s.instance := tags[s.instance][KeyFor(k.instances[s.instance].scheduler, EntryFor(s, r.value)) := Root(s)]]
                      else tags, inputs)
  {
    var (k', r) := Submit(k, s);
    if r.Ok? {
      var i := k.instances[s.instance];
      var e := EntryFor(s, r.value);
      var t := tags[s.instance][KeyFor(i.scheduler, e) := Root(s)];
      assert Bounded(e.principal, e.ceiling, Root(s), i.config.defaultCaps);
      assert Traced(k'.instances[s.instance], t, s.instance, inputs);
    }
  }

  /** One more input, which the lineages may now mention. */
  lemma ReactTracedNext(reg: Registry, k: KernelState, tags: Tags, inputs: seq<Input>, input: Input)
    requires AllTraced(k.instances, tags, inputs)
    ensures AllTraced(React(reg, k, input).k.instances, TagReact(reg, k, tags, input), inputs + [input])
  {
    AllTracedLater(k.instances, tags, inputs, input);
    assert input in inputs + [input];
    ReactTraced(reg, k, tags, input, inputs + [input]);
  }

  lemma TagRunLast(reg: Registry, k: KernelState, init: seq<Input>, last: Input)
    ensures Run(reg, k, init + [last]) == React(reg, Run(reg, k, init), last).k
    ensures TagRun(reg, k, init + [last]) == TagReact(reg, Run(reg, k, init), TagRun(reg, k, init), last)
  {
    assert (init + [last])[..|init|] == init;
  }

  lemma RunTracedNext(reg: Registry, k: KernelState, init: seq<Input>, last: Input)
    requires AllTraced(Run(reg, k, init).instances, TagRun(reg, k, init), init)
    ensures AllTraced(Run(reg, k, init + [last]).instances, TagRun(reg, k, init + [last]), init + [last])
  {
    ReactTracedNext(reg, Run(reg, k, init), TagRun(reg, k, init), init, last);
    TagRunLast(reg, k, init, last);
  }

  /** No capability widens across a schedule: in every state of every run from an empty kernel,
      every queued entry carries its root submission's principal and a ceiling within that
      submission's caps; one scheduled from inside is also within the instance's defaults and
      within every session ceiling its ancestors ran under, whatever later sessions grant. */
  lemma {:induction false} CapabilitiesOnlyNarrow(reg: Registry, k: KernelState, inputs: seq<Input>)
    requires k.instances == map[]
    ensures AllTraced(Run(reg, k, inputs).instances, TagRun(reg, k, inputs), inputs)
    decreases |inputs|
  {
    if inputs == [] {
      assert Run(reg, k, inputs) == k && TagRun(reg, k, inputs) == map[];
    } else {
      var init, last := inputs[..|inputs|-1], inputs[|inputs|-1];
      CapabilitiesOnlyNarrow(reg, k, init);
      RunTracedNext(reg, k, init, last);
      assert init + [last] == inputs;
    }
  }
}
