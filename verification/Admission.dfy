/** What is admitted, what is logged, and what that means for an action type nobody registered. */
module Admission {
  import opened Abi
  import opened Instance
  import opened Step
  import opened Wal
  import opened Kernel
  import opened Isolation
  import opened Moves
  import S = Scheduler

  type Pops = seq<(InstanceId, InstanceStepResult)>

  // ---- the log is exactly the accepted submissions and the pops ----

  /** One record per pop, in order. */
  function StepEntries(pops: Pops, now: Tick, session: Caps): seq<LogEntry> {
    if pops == [] then []
    else
      var (id, r) := pops[|pops|-1];
      StepEntries(pops[..|pops|-1], now, session) + [StepEntry(id, r.poppedId, now, session, r.verdict, r.digest)]
  }

  lemma StepEntriesSnoc(pops: Pops, id: InstanceId, r: InstanceStepResult, now: Tick, session: Caps)
    ensures StepEntries(pops + [(id, r)], now, session) == StepEntries(pops, now, session) + [StepEntryFor(id, r, now, session)]
  {
    assert (pops + [(id, r)])[..|pops|] == pops;
  }

  lemma {:induction false} StepEntriesCount(pops: Pops, now: Tick, session: Caps)
    ensures |StepEntries(pops, now, session)| == |pops|
    decreases |pops|
  {
    if pops != [] {
      StepEntriesCount(pops[..|pops|-1], now, session);
    }
  }

  lemma AppendAllSnoc(w: WriterState, entries: seq<LogEntry>, e: LogEntry)
    ensures AppendAll(w, entries + [e]) == Append(AppendAll(w, entries), e)
  {
    assert (entries + [e])[..|entries|] == entries;
  }

  lemma {:induction false} AppendAllConcat(w: WriterState, a: seq<LogEntry>, b: seq<LogEntry>)
    ensures AppendAll(w, a + b) == AppendAll(AppendAll(w, a), b)
    decreases |b|
  {
    if b == [] {
      assert a + b == a;
    } else {
      var init, last := b[..|b|-1], b[|b|-1];
      AppendAllConcat(w, a, init);
      AppendAllSnoc(w, a + init, last);
      assert a + b == (a + init) + [last];
    }
  }

  lemma {:induction false} AppendAllCount(w: WriterState, entries: seq<LogEntry>)
    ensures |AppendAll(w, entries).records| == |w.records| + |entries|
    decreases |entries|
  {
    if entries != [] {
      AppendAllCount(w, entries[..|entries|-1]);
    }
  }

  lemma {:induction false} PassLogs(reg: Registry, k: KernelState, ids: seq<InstanceId>, now: Tick, session: Caps)
    requires k.wal.Some?
    ensures var p := VisitAll(reg, Pass(k, StepReport(0, 0, 0, 0), [], []), ids, now, session);
            p.k.wal == Some(AppendAll(k.wal.value, StepEntries(p.pops, now, session)))
    decreases |ids|
  {
    if ids != [] {
      PassLogs(reg, k, ids[..|ids|-1], now, session);
      var q := VisitAll(reg, Pass(k, StepReport(0, 0, 0, 0), [], []), ids[..|ids|-1], now, session);
      VisitLogs(reg, k, q, ids[|ids|-1], now, session);
    }
  }

  lemma VisitLogs(reg: Registry, k: KernelState, q: Pass, id: InstanceId, now: Tick, session: Caps)
    requires k.wal.Some? && q.k.wal == Some(AppendAll(k.wal.value, StepEntries(q.pops, now, session)))
    ensures var p := Visit(reg, q, id, now, session);
            p.k.wal == Some(AppendAll(k.wal.value, StepEntries(p.pops, now, session)))
  {
    var x := Process(reg, q.k.instances, id, now, session, q.k.wal.Some?);
    if x.Ran? {
      StepEntriesSnoc(q.pops, id, x.result, now, session);
      AppendAllSnoc(k.wal.value, StepEntries(q.pops, now, session), StepEntryFor(id, x.result, now, session));
    }
  }

  lemma SubmitLogs(k: KernelState, s: Submission)
    requires k.wal.Some?
    ensures Submit(k, s).0.wal ==
            Some(AppendAll(k.wal.value, if Submit(k, s).1.Ok? then [SubmitEntryFor(s, Submit(k, s).1.value)] else []))
  {
    if Submit(k, s).1.Ok? {
      var entry := SubmitEntryFor(s, Submit(k, s).1.value);
      AppendAllSnoc(k.wal.value, [], entry);
      assert [] + [entry] == [entry];
    }
  }

  lemma StepLogs(reg: Registry, k: KernelState, now: Tick, session: Caps)
    requires k.wal.Some?
    ensures var p := StepKernel(reg, k, now, session); p.k.wal == Some(AppendAll(k.wal.value, StepEntries(p.pops, now, session)))
  {
    PassLogs(reg, k, Ids(k.instances), now, session);
  }

  // ---- a step pops the instances that were due before it ----

  /** The instances whose head is due. */
  function DueIds(m: Instances, now: Tick): set<InstanceId> {
    set id | id in m && S.Due(m[id].scheduler, now)
  }

  /** Those of `ids` that are in `due`, in the same order. */
  function Among(ids: seq<InstanceId>, due: set<InstanceId>): seq<InstanceId> {
    if ids == [] then [] else Among(ids[..|ids|-1], due) + if ids[|ids|-1] in due then [ids[|ids|-1]] else []
  }

  lemma {:induction false} AmongElements(ids: seq<InstanceId>, due: set<InstanceId>)
    ensures forall id :: id in Among(ids, due) <==> id in ids && id in due
    decreases |ids|
  {
    if ids != [] {
      AmongElements(ids[..|ids|-1], due);
      assert ids == ids[..|ids|-1] + [ids[|ids|-1]];
    }
  }

  lemma {:induction false} AmongAscends(ids: seq<InstanceId>, due: set<InstanceId>)
    requires Ascends(ids)
    ensures Ascends(Among(ids, due))
    decreases |ids|
  {
    if ids != [] {
      var init, last := ids[..|ids|-1], ids[|ids|-1];
      AmongAscends(init, due);
      AmongElements(init, due);
      forall id | id in init ensures id < last {
        BelowLast(ids, id);
      }
      AscendsSnoc(Among(init, due), last);
    }
  }

  /** Who popped, in order. */
  function Poppers(pops: Pops): seq<InstanceId> {
    if pops == [] then [] else Poppers(pops[..|pops|-1]) + [pops[|pops|-1].0]
  }

  lemma {:induction false} PoppersCount(pops: Pops)
    ensures |Poppers(pops)| == |pops|
    decreases |pops|
  {
    if pops != [] {
      PoppersCount(pops[..|pops|-1]);
    }
  }

  lemma PoppersSnoc(pops: Pops, id: InstanceId, r: InstanceStepResult)
    ensures Poppers(pops + [(id, r)]) == Poppers(pops) + [id]
  {
    assert (pops + [(id, r)])[..|pops|] == pops;
  }

  /** No instance outside `done` has had its private state touched. */
  ghost predicate Untouched(m: Instances, m': Instances, done: seq<InstanceId>) {
    m'.Keys == m.Keys && forall id :: id in m && id !in done ==> Private(m'[id]) == Private(m[id])
  }

  /** A visit to an instance nobody has touched pops it if and only if it was due at the start. */
  lemma VisitPopsDue(reg: Registry, m: Instances, q: Pass, done: seq<InstanceId>, id: InstanceId, now: Tick, session: Caps)
    requires Untouched(m, q.k.instances, done) && id in m && id !in done
    ensures var p := Visit(reg, q, id, now, session);
            && Poppers(p.pops) == Poppers(q.pops) + (if id in DueIds(m, now) then [id] else [])
            && Untouched(m, p.k.instances, done + [id])
  {
    assert Private(q.k.instances[id]).scheduler == Private(m[id]).scheduler;
    var x := Process(reg, q.k.instances, id, now, session, q.k.wal.Some?);
    if x.Ran? {
      ProcessIsPrivate(reg, q.k.instances, id, now, session, q.k.wal.Some?);
      PoppersSnoc(q.pops, id, x.result);
    }
  }

  /** However much the visited instances send each other, a pass pops those that were due before it. */
  lemma {:induction false} PassPopsDue(reg: Registry, p: Pass, ids: seq<InstanceId>, now: Tick, session: Caps)
    requires p.pops == [] && (forall id :: id in ids ==> id in p.k.instances)
    requires forall x, y :: 0 <= x < y < |ids| ==> ids[x] != ids[y]
    ensures var q := VisitAll(reg, p, ids, now, session);
            Poppers(q.pops) == Among(ids, DueIds(p.k.instances, now)) && Untouched(p.k.instances, q.k.instances, ids)
    decreases |ids|
  {
    if ids != [] {
      var init, id := ids[..|ids|-1], ids[|ids|-1];
      assert ids == init + [id];
      PassPopsDue(reg, p, init, now, session);
      VisitPopsDue(reg, p.k.instances, VisitAll(reg, p, init, now, session), init, id, now, session);
    }
  }

  /** A step pops exactly the instances whose head was due before it, each once, in ascending order. */
  lemma StepPopsTheDue(reg: Registry, k: KernelState, now: Tick, session: Caps)
    ensures var popped := Poppers(StepKernel(reg, k, now, session).pops);
            && (forall id :: id in popped <==> id in DueIds(k.instances, now))
            && Ascends(popped)
            && |StepKernel(reg, k, now, session).pops| == |popped| == |DueIds(k.instances, now)|
  {
    var ids := Ids(k.instances);
    AscendingOrdered(k.instances.Keys);
    PassPopsDue(reg, Pass(k, StepReport(0, 0, 0, 0), [], []), ids, now, session);
    var due := DueIds(k.instances, now);
    AmongElements(ids, due);
    AmongAscends(ids, due);
    AscendingCount(Among(ids, due), due);
    PoppersCount(StepKernel(reg, k, now, session).pops);
  }

  /** A step appends the records of its pops, in order, and so one for each instance whose head was due
      before it. The writer is documented to add one record per step: it does if and only if exactly one
      instance is due. */
  lemma StepWritesItsPops(reg: Registry, k: KernelState, now: Tick, session: Caps)
    requires k.wal.Some?
    ensures var p := StepKernel(reg, k, now, session);
            && p.k.wal == Some(AppendAll(k.wal.value, StepEntries(p.pops, now, session)))
            && |p.k.wal.value.records| == |k.wal.value.records| + |DueIds(k.instances, now)|
            && (|p.k.wal.value.records| == |k.wal.value.records| + 1 <==> |DueIds(k.instances, now)| == 1)
  {
    StepLogs(reg, k, now, session);
    StepPopsTheDue(reg, k, now, session);
    var p := StepKernel(reg, k, now, session);
    StepEntriesCount(p.pops, now, session);
    AppendAllCount(k.wal.value, StepEntries(p.pops, now, session));
  }

  /** What one input writes: an accepted submission one record, a step one per pop, nothing else any. */
  ghost function WrittenFor(reg: Registry, k: KernelState, input: Input): seq<LogEntry> {
    match input
    case DoSubmit(s) =>
      var r := Submit(k, s).1;
      if r.Ok? then [SubmitEntry(s.instance, s.principal, s.actor, s.caps, s.at, s.typeCode, s.bytes, r.value)] else []
    case DoStep(now, session) => StepEntries(StepKernel(reg, k, now, session).pops, now, session)
    case _ => []
  }

  ghost function Written(reg: Registry, k: KernelState, inputs: seq<Input>): seq<LogEntry> {
    if inputs == [] then []
    else Written(reg, k, inputs[..|inputs|-1]) + WrittenFor(reg, Run(reg, k, inputs[..|inputs|-1]), inputs[|inputs|-1])
  }

  lemma ReactLogs(reg: Registry, k: KernelState, input: Input)
    requires k.wal.Some?
    ensures React(reg, k, input).k.wal == Some(AppendAll(k.wal.value, WrittenFor(reg, k, input)))
  {
    match input
    case DoCreate(_) =>
    case DoSubmit(s) => SubmitLogs(k, s);
    case DoStep(now, session) => StepLogs(reg, k, now, session);
    case DoUnload(_, _) =>
  }

  /** Over any run the log is exactly the accepted submissions and the pops, in order. */
  lemma {:induction false} RunWritesExactly(reg: Registry, k: KernelState, inputs: seq<Input>)
    requires k.wal.Some?
    ensures Run(reg, k, inputs).wal == Some(AppendAll(k.wal.value, Written(reg, k, inputs)))
    decreases |inputs|
  {
    if inputs != [] {
      var init, last := inputs[..|inputs|-1], inputs[|inputs|-1];
      RunWritesExactly(reg, k, init);
      ReactLogs(reg, Run(reg, k, init), last);
      AppendAllConcat(k.wal.value, Written(reg, k, init), WrittenFor(reg, Run(reg, k, init), last));
    }
  }

  // ---- the pops are the occasions of the run ----

  ghost function ResultAt(reg: Registry, o: Occasion, measure: bool): (InstanceId, InstanceStepResult)
    requires S.Due(o.before.scheduler, o.now)
  {
    (o.id, ResultOf(StepOne(reg, o.before, o.id, o.now, o.session, measure).value.1))
  }

  /** Each pop of a pass is the step of one occasion, in order. */
  lemma {:induction false} PassPopsOccasions(reg: Registry, p: Pass, ids: seq<InstanceId>, now: Tick, session: Caps)
    requires p.pops == []
    ensures var (os, pops) := (PassOccasions(reg, p, ids, now, session), VisitAll(reg, p, ids, now, session).pops);
            && |os| == |pops|
            && (forall n :: 0 <= n < |os| ==> S.Due(os[n].before.scheduler, os[n].now) && pops[n] == ResultAt(reg, os[n], p.k.wal.Some?))
    ensures VisitAll(reg, p, ids, now, session).k.wal.Some? == p.k.wal.Some?
    decreases |ids|
  {
    if ids != [] {
      PassPopsOccasions(reg, p, ids[..|ids|-1], now, session);
    }
  }

  // ---- admission ----

  /** A submission is accepted if and only if its instance exists and its queue is below the limit, if
      one is set, whatever action type and bytes it carries and whatever is registered; the errors say
      which, and a refusal changes nothing. */
  lemma SubmitAcceptsExactly(k: KernelState, s: Submission)
    ensures var room := s.instance in k.instances &&
                        var i := k.instances[s.instance]; i.config.maxScheduled == 0 || |i.scheduler.ready| < i.config.maxScheduled;
            var r := Submit(k, s).1;
            && (r.Ok? <==> room)
            && (r == Err(InstanceNotFound) <==> s.instance !in k.instances)
            && (r == Err(QuotaExceeded) <==> s.instance in k.instances && !room)
    ensures Submit(k, s).1.Err? ==> Submit(k, s).0 == k
    ensures forall tc, bytes {:trigger s.(typeCode := tc, bytes := bytes)} :: Submit(k, s.(typeCode := tc, bytes := bytes)).1 == Submit(k, s).1
  {
  }

  /** An unregistered type is found out when its entry runs, and only then: exactly such an entry is
      skipped as unregistered, a registered one whose bytes do not decode is skipped as such, and a skip
      leaves the state after the pop, sends nothing and announces nothing. */
  lemma SkippedExactly(reg: Registry, i: InstanceSnapshot, id: InstanceId, e: S.ScheduledEntry, now: Tick, session: Caps, measure: bool)
    ensures var (j, core) := RunEntry(reg, i, id, e, now, session, measure);
            && (core.verdict == Skipped(Unregistered) <==> e.typeCode !in reg)
            && (core.verdict == Skipped(DeserFailed) <==> e.typeCode in reg && !reg[e.typeCode].decodes(reg[e.typeCode].schemaVersion, e.bytes))
            && (core.verdict.Skipped? ==>
                  j == i && core.pendingSignals == [] && core.events == [] && core.effectsApplied == core.effectsDenied == 0)
  {
  }

  const EVERY_BIT: Caps := set b: CapBit | 0 <= b < 64

  /** The instance with one more entry queued, and nothing else of it touched. */
  ghost predicate QueuedOn(i: InstanceSnapshot, j: InstanceSnapshot, key: S.SchedKey, e: S.ScheduledEntry) {
    && j == i.(scheduler := j.scheduler, idCounters := j.idCounters)
    && j.scheduler.ready == i.scheduler.ready[key := e] && j.scheduler.byId == i.scheduler.byId[e.id := key]
    && j.scheduler.nextSeq == (if i.scheduler.nextSeq < U64_MAX then i.scheduler.nextSeq + 1 else U64_MAX)
    && j.scheduler.nextId == (if e.id > i.scheduler.nextId then e.id else i.scheduler.nextId)
    && j.idCounters == i.idCounters.(nextScheduled := j.idCounters.nextScheduled)
  }

  /** An accepted submission is queued under the next id, with what it was submitted with and exactly the
      caps it was granted, and nothing else is touched. Its ceiling is all-permissive, as a scheduled
      entry's documentation says, if and only if those caps are. */
  lemma SubmitPinsCaps(k: KernelState, s: Submission)
    requires Submit(k, s).1.Ok?
    ensures var (k', r) := Submit(k, s);
            && s.instance in k.instances && s.instance in k'.instances
            && var (i, j) := (k.instances[s.instance], k'.instances[s.instance]);
               var e := S.ScheduledEntry(r.value, s.at, s.actor, s.principal, s.typeCode, s.bytes, s.caps);
               && r.value == (if i.idCounters.nextScheduled < U64_MAX then i.idCounters.nextScheduled + 1 else U64_MAX)
               && QueuedOn(i, j, S.SchedKey(s.at, i.scheduler.nextSeq, r.value), e) && j.idCounters.nextScheduled == r.value
               && k' == k.(instances := k.instances[s.instance := j], wal := k'.wal)
               && (e.ceiling == EVERY_BIT <==> s.caps == EVERY_BIT)
  {
  }

  /** On replay an admission takes the recorded id, is never refused for want of room, and raises the
      counter to that id but never lowers it. */
  lemma ReadmitsExactly(m: Instances, s: Submission, id: ScheduledActionId)
    ensures SubmitWithId(m, s, id).Ok? <==> s.instance in m
    ensures s.instance !in m ==> SubmitWithId(m, s, id) == Err(InstanceNotFound)
    ensures s.instance in m ==>
              var m' := SubmitWithId(m, s, id).value;
              && s.instance in m' && m' == m[s.instance := m'[s.instance]]
              && var (i, j) := (m[s.instance], m'[s.instance]);
                 && QueuedOn(i, j, S.SchedKey(s.at, i.scheduler.nextSeq, id),
                             S.ScheduledEntry(id, s.at, s.actor, s.principal, s.typeCode, s.bytes, s.caps))
                 && j.idCounters.nextScheduled == if id > i.idCounters.nextScheduled then id else i.idCounters.nextScheduled
  {
  }

  /** A created instance has the configuration it was asked for and nothing in it, under the next id; the
      others and the log are as they were. */
  lemma CreatedIsEmpty(k: KernelState, config: InstanceConfig)
    ensures var (k', id) := CreateInstance(k, config);
            && id == (if k.nextInstanceId < U64_MAX then k.nextInstanceId + 1 else U64_MAX) && k'.nextInstanceId == id
            && k'.instances.Keys == k.instances.Keys + {id} && (forall x :: x in k.instances && x != id ==> k'.instances[x] == k.instances[x])
            && k'.wal == k.wal && k'.manifest == k.manifest
            && var i := k'.instances[id];
               && i.id == id && i.config == config && i.entities == map[] && i.components == map[]
               && i.scheduler.ready == map[] && i.scheduler.byId == map[] && i.scheduler.byActor == map[]
               && i.scheduler.nextSeq == i.scheduler.nextId == 0 && i.idCounters == IdCounters(0, 0, 0)
               && i.ledger.entities == {} && i.ledger.sizes == map[] && i.ledger.totalBytes == 0
               && i.inflightRefs == map[] && i.signalInbox == map[] && i.inboxSeq == 0 && i.wallRemainder == 0 && i.localTick == 0
  {
  }
}
