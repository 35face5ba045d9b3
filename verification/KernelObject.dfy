/** The kernel as an object (`arkhe-kernel/src/runtime/kernel.rs`). It owns its instances by value; an
    instance is borrowed as an object while a step or a delivery works on it. Each method is tied to
    the value-level kernel, and nothing observers do appears in those ties. */
module KernelObject {
  import opened Abi
  import opened Event
  import opened Instance
  import opened Stage
  import opened Step
  import opened Wal
  import K = Kernel
  import O = Observer
  import S = Scheduler

  lemma EnqueueKeepsAnchored(i: InstanceSnapshot, s: K.Submission, id: ScheduledActionId, next: U64)
    requires S.Anchored(i.scheduler)
    ensures S.Anchored(K.Enqueue(i, s, id, next).scheduler)
  {
  }

  class Kernel {
    var instances: K.Instances
    var registry: Registry
    const observers: O.ObserverRegistry
    var nextInstanceId: U64
    const manifest: ManifestDigest
    const wal: Option<WalWriter>
    const scratch: StepStage

    /** The log writer, if one is attached. */
    ghost function Log(): set<object> {
      if wal.Some? then {wal.value} else {}
    }

    ghost function LogView(): Option<WriterState>
      reads Log()
    {
      if wal.Some? then Some(wal.value.View()) else None
    }

    ghost function View(): K.KernelState
      reads this, Log()
    {
      K.KernelState(instances, nextInstanceId, manifest, LogView())
    }

    /** No scheduler lookup can fail. */
    ghost predicate Valid()
      reads this
    {
      forall id :: id in instances ==> S.Anchored(instances[id].scheduler)
    }

    constructor ()
      ensures Valid() && View() == K.KernelState(map[], 0, K.NO_MANIFEST, None) && registry == map[]
      ensures observers.View() == O.RegistryState(map[], {}, 0)
      ensures fresh(observers) && fresh(scratch)
    {
      instances, registry, nextInstanceId, manifest, wal := map[], map[], 0, K.NO_MANIFEST, None;
      observers := new O.ObserverRegistry();
      scratch := new StepStage();
    }

    constructor WithWal(world: WorldId, manifest: ManifestDigest, c: SignatureClass)
      ensures Valid() && View() == K.KernelState(map[], 0, manifest, Some(NewWriter(world, manifest, c))) && registry == map[]
      ensures observers.View() == O.RegistryState(map[], {}, 0)
      ensures fresh(observers) && fresh(scratch) && fresh(Log())
    {
      instances, registry, nextInstanceId, this.manifest := map[], map[], 0, manifest;
      observers := new O.ObserverRegistry();
      scratch := new StepStage();
      var writer := new WalWriter(world, manifest, c);
      wal := Some(writer);
    }

    /** A kernel restored from a snapshot: no observers, no actions, no log. Its lookups are safe exactly
        when the snapshot's are, which a validated snapshot's always are. */
    constructor FromSnapshot(s: K.KernelSnapshot)
      ensures View() == K.Restore(s) && registry == map[]
      ensures Valid() <==> forall id :: id in s.instances ==> S.Anchored(s.instances[id].scheduler)
      ensures observers.View() == O.RegistryState(map[], {}, 0)
      ensures fresh(observers) && fresh(scratch)
    {
      instances, nextInstanceId, registry, manifest, wal := s.instances, s.nextInstanceId, map[], K.NO_MANIFEST, None;
      observers := new O.ObserverRegistry();
      scratch := new StepStage();
    }

    method Snapshot() returns (s: K.KernelSnapshot)
      ensures s == K.TakeSnapshot(View())
    {
      s := K.KernelSnapshot(instances, nextInstanceId);
    }

    method RegisterAction(tc: TypeCode, r: Registration)
      modifies this`registry
      ensures registry == old(registry)[tc := r]
    {
      registry := registry[tc := r];
    }

    method CreateInstance(config: InstanceConfig) returns (id: InstanceId)
      requires Valid()
      modifies this`instances, this`nextInstanceId
      ensures Valid() && (View(), id) == K.CreateInstance(old(View()), config)
    {
      nextInstanceId := SatAdd(nextInstanceId, 1);
      id := nextInstanceId;
      instances := instances[id := Fresh(id, config)];
    }

    // ---- admission ----

    /** Moves the counter of a borrowed instance and queues the submission. */
    method EnqueueOn(inst: Instance, s: K.Submission, id: ScheduledActionId, next: U64)
      modifies inst, inst.scheduler
      ensures inst.View() == K.Enqueue(old(inst.View()), s, id, next)
    {
      inst.idCounters := inst.idCounters.(nextScheduled := next);
      inst.scheduler.ScheduleWithId(id, s.at, s.actor, s.principal, s.caps, s.typeCode, s.bytes);
    }

    /** Borrows the named instance, queues the submission on it, and puts it back. */
    method Admit(s: K.Submission, id: ScheduledActionId, next: U64)
      requires Valid() && s.instance in instances
      modifies this`instances
      ensures Valid() && instances == old(instances)[s.instance := K.Enqueue(old(instances)[s.instance], s, id, next)]
    {
      EnqueueKeepsAnchored(instances[s.instance], s, id, next);
      var inst := new Instance.FromSnapshot(instances[s.instance]);
      EnqueueOn(inst, s, id, next);
      var after := inst.ToSnapshot();
      instances := instances[s.instance := after];
    }

    method Record(entry: LogEntry)
      modifies Log()
      ensures LogView() == K.Log(old(LogView()), entry)
    {
      if wal.Some? {
        wal.value.AppendEntry(entry);
      }
    }

    method Submit(s: K.Submission) returns (r: Result<ScheduledActionId, ArkheError>)
      requires Valid()
      modifies this`instances, Log()
      ensures Valid() && (View(), r) == K.Submit(old(View()), s)
    {
      if s.instance !in instances {
        return Err(InstanceNotFound);
      }
      var i := instances[s.instance];
      if i.config.maxScheduled > 0 && |i.scheduler.ready| >= i.config.maxScheduled {
        return Err(QuotaExceeded);
      }
      var id := SatAdd(i.idCounters.nextScheduled, 1);
      Admit(s, id, id);
      Record(K.SubmitEntryFor(s, id));
      r := Ok(id);
    }

    method SubmitWithId(s: K.Submission, id: ScheduledActionId) returns (r: Result<(), ArkheError>)
      requires Valid()
      modifies this`instances
      ensures Valid()
      ensures match K.SubmitWithId(old(instances), s, id)
              case Err(e) => r == Err(e) && instances == old(instances)
              case Ok(m) => r == Ok(()) && instances == m
    {
      if s.instance !in instances {
        return Err(InstanceNotFound);
      }
      Admit(s, id, Max(instances[s.instance].idCounters.nextScheduled, id));
      r := Ok(());
    }

    // ---- observers ----

    /** Shows one event to the observers and adds the evictions to a running count. */
    method Announce(e: KernelEvent, evicted: U32, ghost start: O.RegistryState, ghost shown: seq<KernelEvent>) returns (total: U32)
      requires observers.View() == O.DeliverAll(start, shown) && evicted == O.Evictions(start, shown)
      modifies observers
      ensures observers.View() == O.DeliverAll(start, shown + [e]) && total == O.Evictions(start, shown + [e])
    {
      var gone := observers.DeliverEvent(e);
      total := SatAdd32(evicted, Truncate32(|gone|));
      O.DeliverOneMore(start, shown, e);
    }

    method AnnounceAll(events: seq<KernelEvent>) returns (evicted: U32)
      modifies observers
      ensures observers.View() == O.DeliverAll(old(observers.View()), events)
      ensures evicted == O.Evictions(old(observers.View()), events)
    {
      evicted := 0;
      ghost var start := observers.View();
      for n := 0 to |events|
        invariant observers.View() == O.DeliverAll(start, events[..n]) && evicted == O.Evictions(start, events[..n])
      {
        ghost var shown := events[..n];
        assert events[..n+1] == shown + [events[n]];
        evicted := Announce(events[n], evicted, start, shown);
      }
      assert events[..|events|] == events;
    }

    // ---- the signal router ----

    method RouteSignal(from: InstanceId, sig: PendingSignal) returns (e: KernelEvent)
      requires Valid()
      modifies this`instances
      ensures Valid() && (instances, e) == K.Route(old(instances), from, sig)
    {
      if sig.target !in instances {
        return SignalDropped(sig.target, sig.route, TargetNotFound);
      }
      var target := new Instance.FromSnapshot(instances[sig.target]);
      var depth := target.InboxLen(sig.route);
      if target.config.maxInboxPerRoute > 0 && depth >= target.config.maxInboxPerRoute {
        return SignalDropped(sig.target, sig.route, QueueFull);
      }
      var _ := target.DeliverSignal(sig.route, InboundSignal(from, sig.principal, sig.payload, 0));
      target.CreditRoute(sig.route);
      var after := target.ToSnapshot();
      instances := instances[sig.target := after];
      e := SignalDelivered(from, sig.target, sig.route);
    }

    /** Routes every outbound signal, announcing what became of each before the next is routed. */
    method RouteSignals(from: InstanceId, sigs: seq<PendingSignal>) returns (evicted: U32, ghost events: seq<KernelEvent>)
      requires Valid()
      modifies this`instances, observers
      ensures Valid() && (instances, events) == K.RouteAll(old(instances), from, sigs)
      ensures observers.View() == O.DeliverAll(old(observers.View()), events)
      ensures evicted == O.Evictions(old(observers.View()), events)
    {
      evicted, events := 0, [];
      ghost var m0, seen := instances, observers.View();
      for n := 0 to |sigs|
        invariant Valid() && (instances, events) == K.RouteAll(m0, from, sigs[..n])
        invariant observers.View() == O.DeliverAll(seen, events) && evicted == O.Evictions(seen, events)
      {
        var e := RouteSignal(from, sigs[n]);
        evicted := Announce(e, evicted, seen, events);
        K.RouteAllSnoc(m0, from, sigs, n);
        events := events + [e];
      }
      assert sigs[..|sigs|] == sigs;
    }

    // ---- stepping ----

    /** Borrows `id`, pops and runs one due action on it, and puts it back. */
    method StepInstance(id: InstanceId, now: Tick, session: Caps, measure: bool)
        returns (core: Option<StepCore>, ghost i: InstanceSnapshot)
      requires Valid() && id in instances
      modifies this`instances, scratch
      ensures Valid() && instances == old(instances)[id := i]
      ensures Outcome(StepOne(registry, old(instances)[id], id, now, session, measure), old(instances)[id], i, core)
    {
      var inst := new Instance.FromSnapshot(instances[id]);
      core := StepOneCore(inst, registry, scratch, id, now, session, measure);
      var after := inst.ToSnapshot();
      i := after;
      instances := instances[id := after];
    }

    /** Announces what a step emitted, then routes its signals. */
    method FinishStep(id: InstanceId, now: Tick, c: StepCore)
        returns (evicted: U32, ghost events: seq<KernelEvent>)
      requires Valid()
      modifies this`instances, observers
      ensures Valid()
      ensures var (m, routed) := K.RouteAll(old(instances), id, c.pendingSignals);
              instances == m && events == K.CommitEvents(c, id, now) + routed
      ensures observers.View() == O.DeliverAll(old(observers.View()), events)
      ensures evicted == O.Evictions(old(observers.View()), events)
    {
      var staged := c.events;
      if c.verdict.Committed? || c.verdict.BudgetPartial? {
        staged := staged + [ActionExecuted(id, c.actionType, now)];
      }
      assert staged == K.CommitEvents(c, id, now);
      var first := AnnounceAll(staged);
      var second, routed := RouteSignals(id, c.pendingSignals);
      evicted := SatAdd32(first, second);
      events := staged + routed;
      O.DeliverInstalments(old(observers.View()), staged, routed);
    }

    /** One due action of `id` end to end. The instances, the result and the events are the
        value-level kernel's, whatever the observers are and do; the observers see those events, all
        of them, in that order. */
    method ProcessInstanceRecord(id: InstanceId, now: Tick, session: Caps, measure: bool,
                                 ghost f: (K.Instances, InstanceId) -> K.Processed)
        returns (result: Option<K.InstanceStepResult>, evicted: U32, ghost events: seq<KernelEvent>)
      requires Valid() && K.Processes(f, registry, now, session, measure)
      modifies this`instances, observers, scratch
      ensures Valid()
      ensures f(old(instances), id) == if result.Some? then K.Ran(instances, result.value, events) else K.Idle
      ensures result.None? ==> instances == old(instances) && events == []
      ensures observers.View() == O.DeliverAll(old(observers.View()), events)
      ensures evicted == O.Evictions(old(observers.View()), events)
    {
      result, evicted, events := None, 0, [];
      ghost var before := instances;
      if id in instances {
        var core, i := StepInstance(id, now, session, measure);
        K.ProcessAssembled(registry, before, id, now, session, measure, i, core);
        if core.Some? {
          evicted, events := FinishStep(id, now, core.value);
          result := Some(K.ResultOf(core.value));
        } else {
          assert before[id := before[id]] == before;
        }
      } else {
        assert K.Process(registry, before, id, now, session, measure) == K.Idle;
      }
    }

    /** One instance of a pass: step it, count it, and log its record if there was a pop. */
    method VisitInstance(id: InstanceId, now: Tick, session: Caps, report: K.StepReport, evicted: U32,
                         ghost f: (K.Instances, InstanceId) -> K.Processed)
        returns (report': K.StepReport, evicted': U32)
      requires Valid() && K.Processes(f, registry, now, session, wal.Some?)
      modifies this`instances, observers, scratch, Log()
      ensures Valid()
      ensures var done := f(old(instances), id);
              if done.Idle? then
                View() == old(View()) && report' == report && evicted' == evicted && observers.View() == old(observers.View())
              else
                && instances == done.instances && LogView() == K.Log(old(LogView()), K.StepEntryFor(id, done.result, now, session))
                && report' == K.Tally(report, done.result)
                && observers.View() == O.DeliverAll(old(observers.View()), done.events)
                && evicted' == SatAdd32(evicted, O.Evictions(old(observers.View()), done.events))
    {
      report', evicted' := report, evicted;
      var result, gone, events := ProcessInstanceRecord(id, now, session, wal.Some?, f);
      if result.Some? {
        report' := K.Tally(report, result.value);
        evicted' := SatAdd32(evicted, gone);
        Record(K.StepEntryFor(id, result.value, now, session));
      }
    }

    method VisitInstances(ids: seq<InstanceId>, now: Tick, session: Caps, ghost f: (K.Instances, InstanceId) -> K.Processed)
        returns (report: K.StepReport, evicted: U32, ghost p: K.Pass)
      requires Valid() && K.Processes(f, registry, now, session, wal.Some?)
      modifies this`instances, observers, scratch, Log()
      ensures Valid() && p == K.Sweep(f, K.Pass(old(View()), K.StepReport(0, 0, 0, 0), [], []), ids, now, session)
      ensures View() == p.k && report == p.report
      ensures observers.View() == O.DeliverAll(old(observers.View()), p.events)
      ensures evicted == O.Evictions(old(observers.View()), p.events)
    {
      report, evicted := K.StepReport(0, 0, 0, 0), 0;
      ghost var start, seen := K.Pass(View(), report, [], []), observers.View();
      p := start;
      for n := 0 to |ids|
        invariant Valid() && p == K.Sweep(f, start, ids[..n], now, session)
        invariant View() == p.k && report == p.report
        invariant observers.View() == O.DeliverAll(seen, p.events) && evicted == O.Evictions(seen, p.events)
      {
        ghost var done := f(instances, ids[n]);
        K.SweepSnoc(f, start, ids, n, now, session);
        report, evicted := VisitInstance(ids[n], now, session, report, evicted, f);
        if done.Ran? {
          O.DeliverInstalments(seen, p.events, done.events);
        }
        p := K.Advance(p, done, ids[n], now, session);
      }
      assert ids[..|ids|] == ids;
    }

    /** `step`: every instance in ascending id order, at most one due action each. */
    method Step(now: Tick, session: Caps) returns (report: K.StepReport, evicted: U32, ghost p: K.Pass)
      requires Valid()
      modifies this`instances, observers, scratch, Log()
      ensures p == K.StepKernel(registry, old(View()), now, session)
      ensures Valid() && View() == p.k && report == p.report
      ensures observers.View() == O.DeliverAll(old(observers.View()), p.events)
      ensures evicted == O.Evictions(old(observers.View()), p.events)
    {
      ghost var reg, measure := registry, wal.Some?;
      ghost var f := (m: K.Instances, id: InstanceId) => K.Process(reg, m, id, now, session, measure);
      ghost var start := K.Pass(View(), K.StepReport(0, 0, 0, 0), [], []);
      var ids := K.Ids(instances);
      report, evicted, p := VisitInstances(ids, now, session, f);
      K.SweepIsVisitAll(f, reg, start, ids, now, session);
    }

    // ---- forced unload ----

    /** Drops the route from every instance, adding up the references that were live. */
    method DropRoutes(route: RouteId) returns (live: U32)
      modifies this`instances
      ensures instances == K.DropRouteAll(old(instances), route)
      ensures live == K.LiveRefs(old(instances), K.Ids(old(instances)), route)
    {
      live := 0;
      ghost var before := instances;
      var ids := K.Ids(instances);
      K.DropFirstIsAll(before, route);
      for n := 0 to |ids|
        invariant instances == K.DropFirst(before, ids[..n], route)
        invariant live == K.LiveRefs(before, ids[..n], route)
      {
        K.DropOneMore(before, n, route);
        var inst := instances[ids[n]];
        live := SatAdd32(live, Refs(inst, route));
        instances := instances[ids[n] := K.DropRoute(inst, route)];
      }
      assert ids[..|ids|] == ids;
    }

    /** With the unload capability, drops the route everywhere and says how many references went. */
    method ForceUnload(route: RouteId, caps: Caps) returns (r: Result<U32, ArkheError>, evicted: U32)
      requires Valid()
      modifies this`instances, observers
      ensures Valid() && (View(), r) == K.ForceUnload(old(View()), route, caps)
      ensures var events := if r.Ok? then [ModuleForceUnloaded(route, r.value)] else [];
              observers.View() == O.DeliverAll(old(observers.View()), events) && evicted == O.Evictions(old(observers.View()), events)
    {
      if !Contains(caps, ADMIN_UNLOAD) {
        return Err(ArkheError.CapabilityDenied), 0;
      }
      var live := DropRoutes(route);
      evicted := Announce(ModuleForceUnloaded(route, live), 0, observers.View(), []);
      r := Ok(live);
    }
  }
}
