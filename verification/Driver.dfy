/** A caller that hands a kernel object one input after another
    (the public methods of `arkhe-kernel/src/runtime/kernel.rs`, in any order). */
module Driver {
  import opened Abi
  import opened Event
  import opened KernelObject
  import opened Step
  import K = Kernel
  import O = Observer

  /** Any one input: the kernel's reaction is the observer-free one, and the observers are shown exactly
      its events. */
  method Perform(k: Kernel, input: K.Input) returns (evicted: U32, ghost x: K.Reaction)
    requires k.Valid()
    modifies k`instances, k`nextInstanceId, k.observers, k.scratch, k.Log()
    ensures k.Valid() && x == K.React(k.registry, old(k.View()), input) && k.View() == x.k
    ensures k.observers.View() == O.DeliverAll(old(k.observers.View()), x.events)
    ensures evicted == O.Evictions(old(k.observers.View()), x.events)
  {
    evicted := 0;
    match input
    case DoCreate(config) =>
      var id := k.CreateInstance(config);
      x := K.Reaction(k.View(), K.Created(id), []);
    case DoSubmit(s) =>
      var r := k.Submit(s);
      x := K.Reaction(k.View(), K.Submitted(r), []);
    case DoStep(now, session) =>
      var report, gone, p := k.Step(now, session);
      evicted := gone;
      x := K.Reaction(p.k, K.Stepped(report, p.pops), p.events);
    case DoUnload(route, caps) =>
      var r, gone := k.ForceUnload(route, caps);
      evicted := gone;
      x := K.Reaction(k.View(), K.Unloaded(r), if r.Ok? then [ModuleForceUnloaded(route, r.value)] else []);
  }

  /** Where a run stands: the kernel and the events so far. */
  ghost predicate Reached(reg: Registry, start: K.KernelState, inputs: seq<K.Input>, k: K.KernelState, events: seq<KernelEvent>) {
    k == K.Run(reg, start, inputs) && events == K.Emitted(reg, start, inputs)
  }

  lemma ReachedNext(reg: Registry, start: K.KernelState, inputs: seq<K.Input>, n: nat, k: K.KernelState, events: seq<KernelEvent>, x: K.Reaction)
    requires n < |inputs| && Reached(reg, start, inputs[..n], k, events) && x == K.React(reg, k, inputs[n])
    ensures Reached(reg, start, inputs[..n+1], x.k, events + x.events)
  {
    assert inputs[..n+1][..n] == inputs[..n];
  }

  /** Observers do not interfere with a run: whatever they are, watch and do, the kernel ends where the
      observer-free run ends, instances and log alike, and each was shown the run's events in order as
      its registry delivers them. */
  method Drive(k: Kernel, inputs: seq<K.Input>) returns (evicted: U32)
    requires k.Valid()
    modifies k`instances, k`nextInstanceId, k.observers, k.scratch, k.Log()
    ensures k.Valid() && k.View() == K.Run(k.registry, old(k.View()), inputs)
    ensures var events := K.Emitted(k.registry, old(k.View()), inputs);
            k.observers.View() == O.DeliverAll(old(k.observers.View()), events) && evicted == O.Evictions(old(k.observers.View()), events)
  {
    evicted := 0;
    ghost var start, seen, reg, events := k.View(), k.observers.View(), k.registry, [];
    for n := 0 to |inputs|
      invariant k.Valid() && k.registry == reg && Reached(reg, start, inputs[..n], k.View(), events)
      invariant k.observers.View() == O.DeliverAll(seen, events) && evicted == O.Evictions(seen, events)
    {
      ghost var before := k.View();
      var gone, x := Perform(k, inputs[n]);
      O.DeliverInstalments(seen, events, x.events);
      ReachedNext(reg, start, inputs, n, before, events, x);
      evicted := SatAdd32(evicted, gone);
      events := events + x.events;
    }
    assert inputs[..|inputs|] == inputs;
  }
}
