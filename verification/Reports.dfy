/** What the counters handed back count: a step's report, and a replay's. */
module Reports {
  import opened Abi
  import opened Event
  import opened Step
  import opened Wal
  import opened WalTheorems
  import opened Kernel
  import opened Isolation
  import opened Verdicts
  import opened Replay
  import opened ReplayTheorems
  import opened ReplayDrift
  import S = Scheduler

  // ---- totals over pops ----

  type Pops = seq<(InstanceId, InstanceStepResult)>

  function AppliedBy(pops: Pops): nat {
    if pops == [] then 0 else AppliedBy(pops[..|pops|-1]) + pops[|pops|-1].1.effectsApplied
  }

  function DeniedBy(pops: Pops): nat {
    if pops == [] then 0 else DeniedBy(pops[..|pops|-1]) + pops[|pops|-1].1.effectsDenied
  }

  function EmittedBy(pops: Pops): nat {
    if pops == [] then 0 else EmittedBy(pops[..|pops|-1]) + pops[|pops|-1].1.domainEvents
  }

  lemma TotalsNext(pops: Pops, id: InstanceId, r: InstanceStepResult)
    ensures AppliedBy(pops + [(id, r)]) == AppliedBy(pops) + r.effectsApplied
    ensures DeniedBy(pops + [(id, r)]) == DeniedBy(pops) + r.effectsDenied
    ensures EmittedBy(pops + [(id, r)]) == EmittedBy(pops) + r.domainEvents
  {
    assert (pops + [(id, r)])[..|pops|] == pops;
  }

  lemma {:induction false} TotalsConcat(a: Pops, b: Pops)
    ensures AppliedBy(a + b) == AppliedBy(a) + AppliedBy(b) && DeniedBy(a + b) == DeniedBy(a) + DeniedBy(b)
    decreases |b|
  {
    if b == [] {
      assert a + b == a;
    } else {
      var init, last := b[..|b|-1], b[|b|-1];
      TotalsConcat(a, init);
      TotalsNext(a + init, last.0, last.1);
      TotalsNext(init, last.0, last.1);
      assert a + b == (a + init) + [last] && b == init + [last];
    }
  }

  // ---- the report of a step ----

  ghost predicate Reported(p: Pass) {
    p.report == StepReport(Capped(|p.pops|), Capped(AppliedBy(p.pops)), Capped(DeniedBy(p.pops)), Capped(EmittedBy(p.pops)))
  }

  lemma AdvanceReports(p: Pass, x: Processed, id: InstanceId, now: Tick, session: Caps)
    requires Reported(p)
    ensures Reported(Advance(p, x, id, now, session))
  {
    if x.Ran? {
      TotalsNext(p.pops, id, x.result);
    }
  }

  lemma VisitReports(reg: Registry, p: Pass, id: InstanceId, now: Tick, session: Caps)
    requires Reported(p)
    ensures Reported(Visit(reg, p, id, now, session))
  {
    AdvanceReports(p, Process(reg, p.k.instances, id, now, session, p.k.wal.Some?), id, now, session);
  }

  lemma {:induction false} PassReports(reg: Registry, p: Pass, ids: seq<InstanceId>, now: Tick, session: Caps)
    requires Reported(p)
    ensures Reported(VisitAll(reg, p, ids, now, session))
    decreases |ids|
  {
    if ids != [] {
      PassReports(reg, p, ids[..|ids|-1], now, session);
      VisitReports(reg, VisitAll(reg, p, ids[..|ids|-1], now, session), ids[|ids|-1], now, session);
    }
  }

  /** A step's report is the number of its pops and the totals of what they report, each capped at 32 bits. */
  lemma StepReports(reg: Registry, k: KernelState, now: Tick, session: Caps)
    ensures var p := StepKernel(reg, k, now, session);
            p.report == StepReport(Capped(|p.pops|), Capped(AppliedBy(p.pops)), Capped(DeniedBy(p.pops)), Capped(EmittedBy(p.pops)))
  {
    PassReports(reg, Pass(k, StepReport(0, 0, 0, 0), [], []), Ids(k.instances), now, session);
  }

  /** What one pop reports is what its step answered, field for field, and its events are those of the
      step, the announcement of a commit, and those of the router, in that order. */
  lemma PopReports(reg: Registry, m: Instances, id: InstanceId, now: Tick, session: Caps, measure: bool)
    requires id in m && StepOne(reg, m[id], id, now, session, measure).Some?
    ensures Process(reg, m, id, now, session, measure).Ran?
    ensures var (i, core) := StepOne(reg, m[id], id, now, session, measure).value;
            var x := Process(reg, m, id, now, session, measure);
            var committed := core.verdict.Committed? || core.verdict.BudgetPartial?;
            && x.result.poppedId == core.poppedId && x.result.verdict == core.verdict && x.result.digest == core.digest
            && x.result.effectsApplied == core.effectsApplied && x.result.effectsDenied == core.effectsDenied
            && x.result.domainEvents == core.domainEvents
            && x.events == core.events + (if committed then [ActionExecuted(id, core.actionType, now)] else [])
                           + RouteAll(m[id := i], id, core.pendingSignals).1
  {
  }

  /** What a pop of a runnable action reports and shows the observers, in terms of its own operations: the
      admitted are applied, the others denied, failures and domain events come in the order of the
      operations, then the announcement of a commit; a rollback shows nothing. */
  lemma PopAnswers(reg: Registry, m: Instances, id: InstanceId, key: S.SchedKey, now: Tick, session: Caps, measure: bool)
    requires id in m && IsNext(m[id], key, now) && Runs(reg, m[id].scheduler.ready[key])
    ensures Process(reg, m, id, now, session, measure).Ran?
    ensures var (i, e) := (m[id], m[id].scheduler.ready[key]);
            var ops := Computed(reg[e.typeCode], i, id, e, now);
            var (ds, r) := (Decisions(i, e, session, ops), Process(reg, m, id, now, session, measure).result);
            && r.poppedId == e.id && r.effectsDenied == Capped(NotPassed(ds))
            && if Unauthorized in ds then r.verdict == AuthDenied && r.effectsApplied == r.domainEvents == 0
               else
                 && r.verdict == (if NotPassed(ds) == 0 then Committed else BudgetPartial(Capped(NotPassed(ds))))
                 && r.effectsApplied == Capped(|Kept(ops, ds)|) && r.domainEvents == Emits(Kept(ops, ds)) % 0x1_0000_0000
    ensures var (i, e) := (m[id], m[id].scheduler.ready[key]);
            var ops := Computed(reg[e.typeCode], i, id, e, now);
            var ds := Decisions(i, e, session, ops);
            var (j, sent) := (StepOne(reg, i, id, now, session, measure).value.0,
                              if Unauthorized in ds then [] else Outbound(e.principal, Kept(ops, ds)));
            var own := if Unauthorized in ds then [] else Announced(id, ops, ds) + [ActionExecuted(id, e.typeCode, now)];
            Process(reg, m, id, now, session, measure).events == own + RouteAll(m[id := j], id, sent).1
  {
    StepAnswers(reg, m[id], id, key, now, session, measure);
    PopReports(reg, m, id, now, session, measure);
  }

  // ---- the report of a replay ----

  function SubmitsIn(entries: seq<LogEntry>): nat {
    if entries == [] then 0 else SubmitsIn(entries[..|entries|-1]) + if entries[|entries|-1].SubmitEntry? then 1 else 0
  }

  function StepsIn(entries: seq<LogEntry>): nat {
    if entries == [] then 0 else StepsIn(entries[..|entries|-1]) + if entries[|entries|-1].StepEntry? then 1 else 0
  }

  /** What the recorded steps report when they are run again, in order. */
  ghost function Reran(reg: Registry, m: Instances, entries: seq<LogEntry>): Pops {
    if entries == [] then []
    else
      var init, e := entries[..|entries|-1], entries[|entries|-1];
      var at := Rederive(reg, m, init);
      if e.SubmitEntry? || at.None? then Reran(reg, m, init)
      else
        var x := Process(reg, at.value.0, e.steppedInstance, e.now, e.sessionCaps, true);
        Reran(reg, m, init) + if x.Ran? then [(e.steppedInstance, x.result)] else []
  }

  ghost predicate Totals(report: ReplayReport, submits: nat, pops: Pops) {
    report == ReplayReport(Capped(submits), Capped(|pops|), Capped(AppliedBy(pops)), Capped(DeniedBy(pops)))
  }

  /** One more submission on the report of a replay that goes on. */
  lemma SubmitCounted(reg: Registry, st: ReplayState, c: RecordContent, submits: nat, pops: Pops)
    requires st.Replaying? && c.entry.SubmitEntry? && Totals(st.report, submits, pops)
    ensures var st' := ReplayRecord(reg, st, c); st'.Replaying? ==> Totals(st'.report, submits + 1, pops)
  {
  }

  lemma JudgedCounts(st: ReplayState, x: Processed, e: LogEntry, at: U64, submits: nat, pops: Pops)
    requires st.Replaying? && e.StepEntry? && Totals(st.report, submits, pops)
    ensures var st' := Judged(st, x, e, at);
            st'.Replaying? ==> x.Ran? && Totals(st'.report, submits, pops + [(e.steppedInstance, x.result)])
  {
    if x.Ran? {
      TotalsNext(pops, e.steppedInstance, x.result);
    }
  }

  /** One more step. */
  lemma StepCounted(reg: Registry, st: ReplayState, c: RecordContent, submits: nat, pops: Pops, x: Processed)
    requires st.Replaying? && c.entry.StepEntry? && Totals(st.report, submits, pops)
    requires x == Process(reg, st.instances, c.entry.steppedInstance, c.entry.now, c.entry.sessionCaps, true)
    ensures var st' := ReplayRecord(reg, st, c);
            st'.Replaying? ==> x.Ran? && Totals(st'.report, submits, pops + [(c.entry.steppedInstance, x.result)])
  {
    JudgedCounts(st, x, c.entry, c.seqNo, submits, pops);
  }

  lemma KindsNext(es: seq<LogEntry>, e: LogEntry)
    ensures SubmitsIn(es + [e]) == SubmitsIn(es) + (if e.SubmitEntry? then 1 else 0)
    ensures StepsIn(es + [e]) == StepsIn(es) + (if e.StepEntry? then 1 else 0)
  {
    assert (es + [e])[..|es|] == es;
  }

  lemma RanAgain(reg: Registry, m: Instances, es: seq<LogEntry>, e: LogEntry, at: Instances)
    requires Rederive(reg, m, es).Some? && Rederive(reg, m, es).value.0 == at
    ensures Reran(reg, m, es + [e]) ==
            if e.SubmitEntry? then Reran(reg, m, es)
            else
              var x := Process(reg, at, e.steppedInstance, e.now, e.sessionCaps, true);
              Reran(reg, m, es) + if x.Ran? then [(e.steppedInstance, x.result)] else []
  {
    assert (es + [e])[..|es|] == es;
  }

  lemma {:induction false} LoopCounts(reg: Registry, m: Instances, h: WalHeader, rs: seq<WalRecord>)
    ensures var st := ReplayAll(reg, ReplayStart(m, h), rs);
            var es := Entries(rs);
            st.Replaying? ==> Totals(st.report, SubmitsIn(es), Reran(reg, m, es)) && |Reran(reg, m, es)| == StepsIn(es)
    decreases |rs|
  {
    if rs != [] {
      var init, last := rs[..|rs|-1], rs[|rs|-1].content;
      LoopCounts(reg, m, h, init);
      var st := ReplayAll(reg, ReplayStart(m, h), init);
      if st.Replaying? {
        LoopFollowsRederivation(reg, m, h, init);
        LoopCountsNext(reg, m, st, Entries(init), last);
      }
    }
  }

  lemma LoopCountsNext(reg: Registry, m: Instances, st: ReplayState, es: seq<LogEntry>, c: RecordContent)
    requires st.Replaying? && Rederive(reg, m, es).Some? && Rederive(reg, m, es).value.0 == st.instances
    requires Totals(st.report, SubmitsIn(es), Reran(reg, m, es)) && |Reran(reg, m, es)| == StepsIn(es)
    ensures var st' := ReplayRecord(reg, st, c);
            var es' := es + [c.entry];
            st'.Replaying? ==> Totals(st'.report, SubmitsIn(es'), Reran(reg, m, es')) && |Reran(reg, m, es')| == StepsIn(es')
  {
    KindsNext(es, c.entry);
    RanAgain(reg, m, es, c.entry, st.instances);
    if c.entry.SubmitEntry? {
      SubmitCounted(reg, st, c, SubmitsIn(es), Reran(reg, m, es));
    } else {
      StepCounted(reg, st, c, SubmitsIn(es), Reran(reg, m, es),
                  Process(reg, st.instances, c.entry.steppedInstance, c.entry.now, c.entry.sessionCaps, true));
    }
  }

  /** An accepted replay reports as many submissions and steps as the log records, and the totals of what
      those steps applied and denied, each capped at 32 bits. */
  lemma AcceptedReplayCounts(reg: Registry, m: Instances, w: WalState)
    requires ReplayRecords(reg, m, w).1.Ok?
    ensures var es, report := Entries(w.records), ReplayRecords(reg, m, w).1.value.0;
            && report.submits == Capped(SubmitsIn(es)) && report.steps == Capped(StepsIn(es))
            && report.applied == Capped(AppliedBy(Reran(reg, m, es))) && report.denied == Capped(DeniedBy(Reran(reg, m, es)))
            && |Reran(reg, m, es)| == StepsIn(es)
  {
    LoopCounts(reg, m, w.header, w.records);
  }

  // ---- the replay of a live run ----

  /** The same private state applies and denies the same. */
  lemma SameCounts(reg: Registry, a: Instances, m: Instances, id: InstanceId, now: Tick, session: Caps)
    requires id in a && id in m && Private(a[id]) == Private(m[id]) && Process(reg, m, id, now, session, true).Ran?
    ensures var x, y := Process(reg, m, id, now, session, true), Process(reg, a, id, now, session, true);
            y.Ran? && y.result.effectsApplied == x.result.effectsApplied && y.result.effectsDenied == x.result.effectsDenied
  {
    StepReadsPrivate(reg, a[id], m[id], id, now, session, true, true);
    var (c, d) := (StepOne(reg, a[id], id, now, session, true).value.1, StepOne(reg, m[id], id, now, session, true).value.1);
    assert Report(c).effectsApplied == Report(d).effectsApplied && Report(c).effectsDenied == Report(d).effectsDenied;
  }

  lemma TotalsByCounts(report: ReplayReport, submits: nat, pops: Pops, id: InstanceId, y: InstanceStepResult, x: InstanceStepResult)
    requires Totals(report, submits, pops + [(id, y)])
    requires y.effectsApplied == x.effectsApplied && y.effectsDenied == x.effectsDenied
    ensures Totals(report, submits, pops + [(id, x)])
  {
    TotalsNext(pops, id, y);
    TotalsNext(pops, id, x);
  }

  lemma ReplayedAppend(reg: Registry, m0: Instances, w: WriterState, entry: LogEntry)
    ensures Replayed(reg, m0, Append(w, entry)) == ReplayRecord(reg, Replayed(reg, m0, w), RecordContent(SatAdd(w.nextSeq, 1), entry))
  {
    var w' := Append(w, entry);
    assert w'.records[..|w'.records|-1] == w.records;
  }

  /** Wherever the replay of the log still runs, its report totals these submissions and pops. */
  ghost predicate Counted(reg: Registry, m0: Instances, w: WriterState, submits: nat, pops: Pops) {
    var st := Replayed(reg, m0, w);
    st.Replaying? ==> Totals(st.report, submits, pops)
  }

  lemma CountProcess(reg: Registry, m0: Instances, m: Instances, w: WriterState, later: Instances, id: InstanceId, now: Tick, session: Caps,
                     submits: nat, pops: Pops)
    requires later.Keys !! m.Keys && Follows(reg, m0, m + later, w) && Counted(reg, m0, w, submits, pops)
    requires id in m && Process(reg, m, id, now, session, true).Ran?
    ensures var x := Process(reg, m, id, now, session, true);
            Counted(reg, m0, Append(w, StepEntryFor(id, x.result, now, session)), submits, pops + [(id, x.result)])
  {
    var x, st := Process(reg, m, id, now, session, true), Replayed(reg, m0, w);
    var entry := StepEntryFor(id, x.result, now, session);
    ReplayedAppend(reg, m0, w, entry);
    if st.Replaying? {
      CountRerun(reg, st, m, later, id, now, session, submits, pops, RecordContent(SatAdd(w.nextSeq, 1), entry), x);
    }
  }

  lemma CountRerun(reg: Registry, st: ReplayState, m: Instances, later: Instances, id: InstanceId, now: Tick, session: Caps,
                   submits: nat, pops: Pops, c: RecordContent, x: Processed)
    requires st.Replaying? && later.Keys !! m.Keys && Alike(st.instances, m + later) && Totals(st.report, submits, pops)
    requires id in m && x == Process(reg, m, id, now, session, true) && x.Ran? && c.entry == StepEntryFor(id, x.result, now, session)
    ensures var st' := ReplayRecord(reg, st, c); st'.Replaying? ==> Totals(st'.report, submits, pops + [(id, x.result)])
  {
    assert Private(st.instances[id]) == Private((m + later)[id]);
    SameCounts(reg, st.instances, m, id, now, session);
    var y := Process(reg, st.instances, id, now, session, true);
    StepCounted(reg, st, c, submits, pops, y);
    if ReplayRecord(reg, st, c).Replaying? {
      TotalsByCounts(ReplayRecord(reg, st, c).report, submits, pops, id, y.result, x.result);
    }
  }

  lemma CountVisit(reg: Registry, m0: Instances, p: Pass, later: Instances, id: InstanceId, now: Tick, session: Caps, submits: nat, before: Pops)
    requires p.k.wal.Some? && later.Keys !! p.k.instances.Keys && Follows(reg, m0, p.k.instances + later, p.k.wal.value)
    requires Counted(reg, m0, p.k.wal.value, submits, before + p.pops)
    ensures var p' := Visit(reg, p, id, now, session); p'.k.wal.Some? && Counted(reg, m0, p'.k.wal.value, submits, before + p'.pops)
  {
    var x := Process(reg, p.k.instances, id, now, session, true);
    if x.Ran? {
      CountProcess(reg, m0, p.k.instances, p.k.wal.value, later, id, now, session, submits, before + p.pops);
      Rejoined(before, p.pops, [(id, x.result)]);
    }
  }

  lemma {:induction false} CountPass(reg: Registry, m0: Instances, p: Pass, later: Instances, ids: seq<InstanceId>, now: Tick, session: Caps,
                                     submits: nat, before: Pops)
    requires p.k.wal.Some? && later.Keys !! p.k.instances.Keys && Follows(reg, m0, p.k.instances + later, p.k.wal.value)
    requires Counted(reg, m0, p.k.wal.value, submits, before + p.pops)
    ensures var p' := VisitAll(reg, p, ids, now, session); p'.k.wal.Some? && Counted(reg, m0, p'.k.wal.value, submits, before + p'.pops)
    decreases |ids|
  {
    if ids != [] {
      CountPass(reg, m0, p, later, ids[..|ids|-1], now, session, submits, before);
      FollowPass(reg, m0, p, later, ids[..|ids|-1], now, session);
      CountVisit(reg, m0, VisitAll(reg, p, ids[..|ids|-1], now, session), later, ids[|ids|-1], now, session, submits, before);
    }
  }

  lemma CountStep(reg: Registry, m0: Instances, k: KernelState, later: Instances, now: Tick, session: Caps, submits: nat, before: Pops)
    requires k.wal.Some? && later.Keys !! k.instances.Keys && Follows(reg, m0, k.instances + later, k.wal.value)
    requires Counted(reg, m0, k.wal.value, submits, before)
    ensures var p := StepKernel(reg, k, now, session); p.k.wal.Some? && Counted(reg, m0, p.k.wal.value, submits, before + p.pops)
  {
    assert before + [] == before;
    CountPass(reg, m0, Pass(k, StepReport(0, 0, 0, 0), [], []), later, Ids(k.instances), now, session, submits, before);
  }

  lemma CountSubmit(reg: Registry, m0: Instances, k: KernelState, s: Submission, submits: nat, pops: Pops)
    requires k.wal.Some? && Counted(reg, m0, k.wal.value, submits, pops)
    ensures var (k', r) := Submit(k, s);
            k'.wal.Some? && Counted(reg, m0, k'.wal.value, submits + (if r.Ok? then 1 else 0), pops)
  {
    var (k', r) := Submit(k, s);
    if r.Ok? {
      CountAdmitted(reg, m0, k.wal.value, SubmitEntryFor(s, r.value), submits, pops);
    }
  }

  lemma CountAdmitted(reg: Registry, m0: Instances, w: WriterState, entry: LogEntry, submits: nat, pops: Pops)
    requires entry.SubmitEntry? && Counted(reg, m0, w, submits, pops)
    ensures Counted(reg, m0, Append(w, entry), submits + 1, pops)
  {
    ReplayedAppend(reg, m0, w, entry);
    var st := Replayed(reg, m0, w);
    if st.Replaying? {
      SubmitCounted(reg, st, RecordContent(SatAdd(w.nextSeq, 1), entry), submits, pops);
    }
  }

  // ---- what a run answered ----

  function AcceptedIn(outputs: seq<Output>): nat {
    if outputs == [] then 0
    else
      var last := outputs[|outputs|-1];
      AcceptedIn(outputs[..|outputs|-1]) + if last.Submitted? && last.id.Ok? then 1 else 0
  }

  function PopsIn(outputs: seq<Output>): Pops {
    if outputs == [] then []
    else
      var last := outputs[|outputs|-1];
      PopsIn(outputs[..|outputs|-1]) + if last.Stepped? then last.pops else []
  }

  lemma CountReact(reg: Registry, m0: Instances, k: KernelState, rest: seq<Input>, submits: nat, pops: Pops)
    requires rest != [] && FollowedAhead(reg, m0, k, rest) && Counted(reg, m0, k.wal.value, submits, pops)
    ensures var x := React(reg, k, rest[0]);
            && x.k.wal.Some?
            && Counted(reg, m0, x.k.wal.value, submits + (if x.output.Submitted? && x.output.id.Ok? then 1 else 0),
                       pops + if x.output.Stepped? then x.output.pops else [])
  {
    LaterIsDisjoint(k, rest);
    assert pops + [] == pops;
    match rest[0]
    case DoCreate(_) =>
    case DoSubmit(s) => CountSubmit(reg, m0, k, s, submits, pops);
    case DoStep(now, session) => CountStep(reg, m0, k, Later(k.nextInstanceId, rest), now, session, submits, pops);
    case DoUnload(_, _) =>
  }

  lemma OutputsSnoc(reg: Registry, k: KernelState, inputs: seq<Input>, n: nat)
    requires n < |inputs|
    ensures Outputs(reg, k, inputs[..n+1]) == Outputs(reg, k, inputs[..n]) + [React(reg, Run(reg, k, inputs[..n]), inputs[n]).output]
  {
    assert inputs[..n+1][..n] == inputs[..n];
  }

  lemma AnsweredNext(outputs: seq<Output>, last: Output)
    ensures AcceptedIn(outputs + [last]) == AcceptedIn(outputs) + (if last.Submitted? && last.id.Ok? then 1 else 0)
    ensures PopsIn(outputs + [last]) == PopsIn(outputs) + (if last.Stepped? then last.pops else [])
  {
    assert (outputs + [last])[..|outputs|] == outputs;
  }

  lemma CountInput(reg: Registry, m0: Instances, k: KernelState, inputs: seq<Input>, n: nat)
    requires n < |inputs| && FollowedAhead(reg, m0, Run(reg, k, inputs[..n]), inputs[n..])
    requires var o := Outputs(reg, k, inputs[..n]); Counted(reg, m0, Run(reg, k, inputs[..n]).wal.value, AcceptedIn(o), PopsIn(o))
    ensures var end, o := Run(reg, k, inputs[..n+1]), Outputs(reg, k, inputs[..n+1]);
            end.wal.Some? && Counted(reg, m0, end.wal.value, AcceptedIn(o), PopsIn(o))
  {
    var before, o := Run(reg, k, inputs[..n]), Outputs(reg, k, inputs[..n]);
    assert inputs[n..][0] == inputs[n];
    CountReact(reg, m0, before, inputs[n..], AcceptedIn(o), PopsIn(o));
    RunSnoc(reg, k, inputs, n);
    OutputsSnoc(reg, k, inputs, n);
    AnsweredNext(o, React(reg, before, inputs[n]).output);
  }

  lemma {:induction false} CountRun(reg: Registry, m0: Instances, k: KernelState, inputs: seq<Input>, n: nat)
    requires n <= |inputs| && FollowedAhead(reg, m0, k, inputs) && Counted(reg, m0, k.wal.value, 0, [])
    ensures var end, o := Run(reg, k, inputs[..n]), Outputs(reg, k, inputs[..n]);
            end.wal.Some? && Counted(reg, m0, end.wal.value, AcceptedIn(o), PopsIn(o))
    decreases n
  {
    if n == 0 {
      assert inputs[..0] == [];
    } else {
      CountRun(reg, m0, k, inputs, n - 1);
      FollowRun(reg, m0, k, inputs, n - 1);
      CountInput(reg, m0, k, inputs, n - 1);
    }
  }

  lemma CountStart(reg: Registry, m0: Instances, h: WalHeader, w: WriterState)
    requires w.header == h && w.records == []
    ensures Counted(reg, m0, w, 0, [])
  {
  }

  lemma CountedIsReported(reg: Registry, replica: KernelState, end: KernelState, h: WalHeader, submits: nat, pops: Pops)
    requires Logging(end, h) && h.manifest == replica.manifest && h.pins == CURRENT_PINS
    requires Counted(reg, replica.instances, end.wal.value, submits, pops)
    ensures var r := ReplayInto(reg, replica, FromWriter(end.wal.value)).1; r.Ok? ==> Totals(r.value.0, submits, pops)
  {
    AcceptedLog(reg, replica, end, h);
  }

  /** For any run at all, a replay of its log that is accepted reports what the live run answered: as many
      submissions as were accepted, as many steps as there were pops, and the totals the live pops
      applied and denied, each capped at 32 bits. */
  lemma ReplayReportsTheRun(reg: Registry, live: KernelState, replica: KernelState, inputs: seq<Input>, world: WorldId, c: SignatureClass)
    requires live.wal == Some(NewWriter(world, live.manifest, c)) && Room(live, inputs)
    requires replica.manifest == live.manifest && replica.instances == Run(reg, live, Creations(inputs)).instances
    ensures var (end, o) := (Run(reg, live, inputs), Outputs(reg, live, inputs));
            && end.wal.Some?
            && var r := ReplayInto(reg, replica, FromWriter(end.wal.value)).1;
               r.Ok? ==>
                 r.value.0 == ReplayReport(Capped(AcceptedIn(o)), Capped(|PopsIn(o)|), Capped(AppliedBy(PopsIn(o))), Capped(DeniedBy(PopsIn(o))))
  {
    CreatedUpFront(reg, live, inputs);
    NewWriterSound(world, live.manifest, c);
    RunKeepsLogging(reg, live, inputs, live.wal.value.header);
    CountStart(reg, replica.instances, live.wal.value.header, live.wal.value);
    CountRun(reg, replica.instances, live, inputs, |inputs|);
    assert inputs[..|inputs|] == inputs;
    var o := Outputs(reg, live, inputs);
    CountedIsReported(reg, replica, Run(reg, live, inputs), live.wal.value.header, AcceptedIn(o), PopsIn(o));
  }
}
