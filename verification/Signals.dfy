/** Signals between instances are conserved: staged, then delivered or dropped once, and counted. */
module Signals {
  import opened Abi
  import opened Authz
  import opened Sums
  import opened Event
  import opened Instance
  import opened Stage
  import opened Step
  import opened Kernel
  import opened Moves
  import S = Scheduler

  // ---- the inbox of one instance ----

  function Lengths(i: InstanceSnapshot): map<RouteId, nat> {
    map r | r in i.signalInbox :: |i.signalInbox[r]|
  }

  /** Stamps are below the sequence and increase along every queue. */
  ghost predicate Stamped(i: InstanceSnapshot) {
    && (forall r, n :: r in i.signalInbox && 0 <= n < |i.signalInbox[r]| ==> i.signalInbox[r][n].seqNo < i.inboxSeq)
    && (forall r, n, l :: r in i.signalInbox && 0 <= n < l < |i.signalInbox[r]| ==>
          i.signalInbox[r][n].seqNo < i.signalInbox[r][l].seqNo)
  }

  /** Below saturation the queues hold exactly the deliveries ever made, stamped in increasing
      order; a non-zero depth limit bounds every queue. */
  ghost predicate InboxSound(i: InstanceSnapshot) {
    && (i.inboxSeq < U64_MAX ==> Sum(Lengths(i)) == i.inboxSeq && Stamped(i))
    && (i.config.maxInboxPerRoute > 0 ==> forall r :: r in i.signalInbox ==> |i.signalInbox[r]| <= i.config.maxInboxPerRoute)
  }

  lemma ReceivedLengths(i: InstanceSnapshot, from: InstanceId, sig: PendingSignal)
    ensures Lengths(Received(i, from, sig)) == Lengths(i)[sig.route := |Inbox(i, sig.route)| + 1]
  {
  }

  /** A delivery appends one signal, stamped with the sequence the instance stood at. */
  lemma ReceivedQueue(i: InstanceSnapshot, from: InstanceId, sig: PendingSignal)
    ensures var j := Received(i, from, sig);
            && j.inboxSeq == SatAdd(i.inboxSeq, 1) && j.config == i.config
            && j.signalInbox == i.signalInbox[sig.route := Inbox(j, sig.route)]
            && |Inbox(j, sig.route)| == |Inbox(i, sig.route)| + 1
            && (forall n :: 0 <= n < |Inbox(i, sig.route)| ==> Inbox(j, sig.route)[n] == Inbox(i, sig.route)[n])
            && Inbox(j, sig.route)[|Inbox(i, sig.route)|].seqNo == i.inboxSeq
  {
  }

  lemma ReceiveKeepsStamps(i: InstanceSnapshot, from: InstanceId, sig: PendingSignal)
    requires Stamped(i) && i.inboxSeq < U64_MAX
    ensures Stamped(Received(i, from, sig))
  {
    ReceivedQueue(i, from, sig);
  }

  lemma ReceiveKeepsDepth(i: InstanceSnapshot, from: InstanceId, sig: PendingSignal)
    requires i.config.maxInboxPerRoute > 0 ==> forall r :: r in i.signalInbox ==> |i.signalInbox[r]| <= i.config.maxInboxPerRoute
    requires !InboxFull(i, sig.route)
    ensures var j := Received(i, from, sig);
            j.config.maxInboxPerRoute > 0 ==> forall r :: r in j.signalInbox ==> |j.signalInbox[r]| <= j.config.maxInboxPerRoute
  {
    ReceivedQueue(i, from, sig);
  }

  lemma ReceiveKeepsSum(i: InstanceSnapshot, from: InstanceId, sig: PendingSignal)
    requires Sum(Lengths(i)) == i.inboxSeq < U64_MAX
    ensures var j := Received(i, from, sig); Sum(Lengths(j)) == j.inboxSeq
  {
    SumPut(Lengths(i), sig.route, |Inbox(i, sig.route)| + 1);
    ReceivedLengths(i, from, sig);
  }

  lemma ReceiveKeepsInbox(i: InstanceSnapshot, from: InstanceId, sig: PendingSignal)
    requires InboxSound(i) && !InboxFull(i, sig.route)
    ensures InboxSound(Received(i, from, sig))
  {
    ReceiveKeepsDepth(i, from, sig);
    if i.inboxSeq < U64_MAX {
      ReceiveKeepsSum(i, from, sig);
      ReceiveKeepsStamps(i, from, sig);
    }
  }

  ghost predicate SameMail(i: InstanceSnapshot, j: InstanceSnapshot) {
    j.signalInbox == i.signalInbox && j.inboxSeq == i.inboxSeq && j.inflightRefs == i.inflightRefs && j.config == i.config
  }

  lemma EntryKeepsMail(reg: Registry, i: InstanceSnapshot, id: InstanceId, e: S.ScheduledEntry, now: Tick, session: Caps, measure: bool)
    ensures SameMail(i, RunEntry(reg, i, id, e, now, session, measure).0)
  {
  }

  /** Running an action never touches the inbox or the in-flight counts of the instance it runs on. */
  lemma StepKeepsMail(reg: Registry, i: InstanceSnapshot, id: InstanceId, now: Tick, session: Caps, measure: bool)
    requires S.Due(i.scheduler, now)
    ensures SameMail(i, StepOne(reg, i, id, now, session, measure).value.0)
  {
    EntryKeepsMail(reg, AfterPop(i), id, i.scheduler.ready[S.Head(i.scheduler.ready.Keys)], now, session, measure);
  }

  /** Soundness is about the inbox, its sequence and the depth limit alone. */
  lemma SameInboxSound(i: InstanceSnapshot, j: InstanceSnapshot)
    requires InboxSound(i) && j.signalInbox == i.signalInbox && j.inboxSeq == i.inboxSeq && j.config == i.config
    ensures InboxSound(j)
  {
    assert Lengths(j) == Lengths(i);
  }

  lemma MoveKeepsInbox(reg: Registry, i: InstanceSnapshot, id: InstanceId, move: Move)
    requires InboxSound(i)
    ensures InboxSound(ApplyMove(reg, i, id, move))
  {
    match move
    case Admit(s) => SameInboxSound(i, ApplyMove(reg, i, id, move));
    case PopAt(now, session) =>
      if S.Due(i.scheduler, now) {
        StepKeepsMail(reg, i, id, now, session, true);
        SameInboxSound(i, StepOne(reg, i, id, now, session, true).value.0);
      }
    case Receive(from, sig) =>
      if !InboxFull(i, sig.route) {
        ReceiveKeepsInbox(i, from, sig);
      }
    case Unload(route) => SameInboxSound(i, DropRoute(i, route));
  }

  lemma InboxSoundInEveryRun(reg: Registry, k: KernelState, inputs: seq<Input>)
    requires k.instances == map[]
    ensures forall id :: id in Run(reg, k, inputs).instances ==> InboxSound(Run(reg, k, inputs).instances[id])
  {
    forall id, config ensures InboxSound(Fresh(id, config)) {
      assert Lengths(Fresh(id, config)) == map[];
    }
    forall i, id, move | InboxSound(i) ensures InboxSound(ApplyMove(reg, i, id, move)) {
      MoveKeepsInbox(reg, i, id, move);
    }
    RunKeeps(reg, k, inputs, InboxSound);
  }

  // ---- every staged signal is answered once ----

  /** The event says what became of the signal. */
  predicate Answers(e: KernelEvent, from: InstanceId, sig: PendingSignal) {
    || e == SignalDelivered(from, sig.target, sig.route)
    || e == SignalDropped(sig.target, sig.route, QueueFull)
    || e == SignalDropped(sig.target, sig.route, TargetNotFound)
  }

  lemma {:induction false} RouterKeepsKeys(m: Instances, from: InstanceId, sigs: seq<PendingSignal>)
    ensures RouteAll(m, from, sigs).0.Keys == m.Keys && |RouteAll(m, from, sigs).1| == |sigs|
    decreases |sigs|
  {
    if sigs != [] {
      RouterKeepsKeys(m, from, sigs[..|sigs|-1]);
    }
  }

  /** The event of each signal is that of routing it after the signals before it. */
  lemma {:induction false} RoutedInTurn(m: Instances, from: InstanceId, sigs: seq<PendingSignal>, n: nat)
    requires n < |sigs|
    ensures |RouteAll(m, from, sigs).1| == |sigs|
    ensures RouteAll(m, from, sigs).1[n] == Route(RouteAll(m, from, sigs[..n]).0, from, sigs[n]).1
    decreases |sigs|
  {
    var init := sigs[..|sigs|-1];
    RouterKeepsKeys(m, from, init);
    if n < |init| {
      assert init[..n] == sigs[..n];
      RoutedInTurn(m, from, init, n);
    } else {
      assert sigs[..n] == init;
    }
  }

  /** What became of one signal, routed among `mid`: refused for want of a target exactly when there is
      none, refused for a full queue exactly when the target's queue is full, delivered otherwise. */
  predicate AnsweredBy(e: KernelEvent, mid: Instances, from: InstanceId, sig: PendingSignal) {
    && Answers(e, from, sig)
    && (e == SignalDropped(sig.target, sig.route, TargetNotFound) <==> sig.target !in mid)
    && (e == SignalDropped(sig.target, sig.route, QueueFull) <==>
          && sig.target in mid && mid[sig.target].config.maxInboxPerRoute != 0
          && |Inbox(mid[sig.target], sig.route)| >= mid[sig.target].config.maxInboxPerRoute)
  }

  lemma RouteAnswers(mid: Instances, from: InstanceId, sig: PendingSignal)
    ensures AnsweredBy(Route(mid, from, sig).1, mid, from, sig)
  {
  }

  /** One event per staged signal, in order, each telling exactly what became of the signal at the
      moment it was routed, the signals before it delivered. */
  lemma EachSignalAnsweredOnce(m: Instances, from: InstanceId, sigs: seq<PendingSignal>)
    ensures RouteAll(m, from, sigs).0.Keys == m.Keys && |RouteAll(m, from, sigs).1| == |sigs|
    ensures forall n :: 0 <= n < |sigs| ==>
              && AnsweredBy(RouteAll(m, from, sigs).1[n], RouteAll(m, from, sigs[..n]).0, from, sigs[n])
              && RouteAll(m, from, sigs[..n]).0.Keys == m.Keys
  {
    RouterKeepsKeys(m, from, sigs);
    forall n | 0 <= n < |sigs|
      ensures AnsweredBy(RouteAll(m, from, sigs).1[n], RouteAll(m, from, sigs[..n]).0, from, sigs[n])
      ensures RouteAll(m, from, sigs[..n]).0.Keys == m.Keys
    {
      RouterKeepsKeys(m, from, sigs[..n]);
      RoutedInTurn(m, from, sigs, n);
      RouteAnswers(RouteAll(m, from, sigs[..n]).0, from, sigs[n]);
    }
  }

  // ---- the references a forced unload finds ----

  function RefsByInstance(m: Instances, route: RouteId): map<InstanceId, nat> {
    map id | id in m :: Refs(m[id], route)
  }

  lemma {:induction false} LiveRefsAddUp(m: Instances, ids: seq<InstanceId>, route: RouteId)
    requires forall id :: id in ids ==> id in m
    ensures LiveRefs(m, ids, route) == Min(SumAlong(RefsByInstance(m, route), ids), U32_MAX)
    decreases |ids|
  {
    if ids != [] {
      LiveRefsAddUp(m, ids[..|ids|-1], route);
      assert ids[|ids|-1] in ids;
    }
  }

  /** Whatever the order of the walk, an unload reports the references of all instances together,
      capped at 32 bits, and leaves none. */
  lemma UnloadReportsEveryReference(k: KernelState, route: RouteId, caps: Caps)
    ensures var (k', r) := ForceUnload(k, route, caps);
            && (r.Ok? <==> 1 in caps)
            && (r.Ok? ==> r.value == Min(Sum(RefsByInstance(k.instances, route)), U32_MAX))
            && (r.Ok? ==> forall id :: id in k'.instances ==> Refs(k'.instances[id], route) == 0)
            && (r.Err? ==> k' == k)
  {
    var ids, refs := Ids(k.instances), RefsByInstance(k.instances, route);
    IdsDistinct(k.instances);
    LiveRefsAddUp(k.instances, ids, route);
    SumAlongKeys(refs, ids);
  }

  /** The caller and the observers are told the same number, and the observers nothing of a refusal. */
  lemma UnloadAnnounced(reg: Registry, k: KernelState, route: RouteId, caps: Caps)
    ensures var (x, r) := (React(reg, k, DoUnload(route, caps)), ForceUnload(k, route, caps).1);
            x.output == Unloaded(r) && x.events == if r.Ok? then [ModuleForceUnloaded(route, r.value)] else []
  {
  }

  // ---- counting deliveries from the event stream ----

  /** Deliveries to one route of one instance: all of them, and those since its last forced unload. */
  datatype Count = Count(total: nat, live: nat)

  function CountOne(c: Count, e: KernelEvent, id: InstanceId, route: RouteId): Count {
    if e.SignalDelivered? && e.to == id && e.onRoute == route then Count(c.total + 1, c.live + 1)
    else if e.ModuleForceUnloaded? && e.unloaded == route then Count(c.total, 0)
    else c
  }

  function CountAll(c: Count, events: seq<KernelEvent>, id: InstanceId, route: RouteId): Count {
    if events == [] then c else CountOne(CountAll(c, events[..|events|-1], id, route), events[|events|-1], id, route)
  }

  lemma {:induction false} CountConcat(c: Count, a: seq<KernelEvent>, b: seq<KernelEvent>, id: InstanceId, route: RouteId)
    ensures CountAll(c, a + b, id, route) == CountAll(CountAll(c, a, id, route), b, id, route)
    decreases |b|
  {
    if b == [] {
      assert a + b == a;
    } else {
      var ab := a + b;
      assert ab[..|ab|-1] == a + b[..|b|-1];
      CountConcat(c, a, b[..|b|-1], id, route);
    }
  }

  /** The queue holds `total` signals; the in-flight count is `live`, saturated to 32 bits. */
  ghost predicate Counted(m: Instances, id: InstanceId, route: RouteId, base: nat, c: Count) {
    id in m && |Inbox(m[id], route)| == base + c.total && Refs(m[id], route) == Min(c.live, U32_MAX)
  }

  lemma {:induction false} RouterCounts(m: Instances, from: InstanceId, sigs: seq<PendingSignal>, id: InstanceId, route: RouteId, base: nat, c: Count)
    requires Counted(m, id, route, base, c)
    ensures var (m', events) := RouteAll(m, from, sigs); Counted(m', id, route, base, CountAll(c, events, id, route))
    decreases |sigs|
  {
    if sigs != [] {
      RouterCounts(m, from, sigs[..|sigs|-1], id, route, base, c);
      var (m', before) := RouteAll(m, from, sigs[..|sigs|-1]);
      var (m'', e) := Route(m', from, sigs[|sigs|-1]);
      assert (before + [e])[..|before|] == before;
    }
  }

  /** Events that tell nothing of a signal or an unload. */
  predicate Quiet(events: seq<KernelEvent>) {
    forall e :: e in events ==> !e.SignalDelivered? && !e.SignalDropped? && !e.ModuleForceUnloaded?
  }

  lemma {:induction false} QuietCountsNothing(c: Count, events: seq<KernelEvent>, id: InstanceId, route: RouteId)
    requires Quiet(events)
    ensures CountAll(c, events, id, route) == c
    decreases |events|
  {
    if events != [] {
      assert events[|events|-1] in events;
      QuietCountsNothing(c, events[..|events|-1], id, route);
    }
  }

  lemma {:induction false} GatesAreQuiet(o: Origin, i: InstanceSnapshot, g: GateState, ops: seq<Op>)
    requires Quiet(g.stage.events)
    ensures Quiet(GateAll(o, i, g, ops).stage.events)
    decreases |ops|
  {
    if ops != [] {
      GatesAreQuiet(o, i, Gate(o, i, g, ops[0]), ops[1..]);
    }
  }

  lemma StepIsQuiet(reg: Registry, i: InstanceSnapshot, id: InstanceId, now: Tick, session: Caps, measure: bool)
    requires S.Due(i.scheduler, now)
    ensures Quiet(CommitEvents(StepOne(reg, i, id, now, session, measure).value.1, id, now))
  {
    var p, e := AfterPop(i), i.scheduler.ready[S.Head(i.scheduler.ready.Keys)];
    if e.typeCode in reg {
      GatesAreQuiet(OriginOf(p, id, e, now, session), p, GateStart(p), reg[e.typeCode].compute(e.bytes, Context(p, e.actor, now, id)));
    }
  }

  lemma ProcessCounts(reg: Registry, m: Instances, visited: InstanceId, now: Tick, session: Caps, measure: bool,
                      id: InstanceId, route: RouteId, base: nat, c: Count)
    requires Counted(m, id, route, base, c) && Process(reg, m, visited, now, session, measure).Ran?
    ensures var x := Process(reg, m, visited, now, session, measure);
            Counted(x.instances, id, route, base, CountAll(c, x.events, id, route))
  {
    var (i, core) := StepOne(reg, m[visited], visited, now, session, measure).value;
    StepKeepsMail(reg, m[visited], visited, now, session, measure);
    StepIsQuiet(reg, m[visited], visited, now, session, measure);
    RouterCounts(m[visited := i], visited, core.pendingSignals, id, route, base, c);
    QuietCountsNothing(c, CommitEvents(core, visited, now), id, route);
    CountConcat(c, CommitEvents(core, visited, now), RouteAll(m[visited := i], visited, core.pendingSignals).1, id, route);
  }

  lemma {:induction false} PassCounts(reg: Registry, p: Pass, ids: seq<InstanceId>, now: Tick, session: Caps,
                                      id: InstanceId, route: RouteId, base: nat, c: Count)
    requires Counted(p.k.instances, id, route, base, CountAll(c, p.events, id, route))
    ensures var p' := VisitAll(reg, p, ids, now, session);
            Counted(p'.k.instances, id, route, base, CountAll(c, p'.events, id, route))
    decreases |ids|
  {
    if ids != [] {
      var init, last := ids[..|ids|-1], ids[|ids|-1];
      PassCounts(reg, p, init, now, session, id, route, base, c);
      var q := VisitAll(reg, p, init, now, session);
      var x := Process(reg, q.k.instances, last, now, session, q.k.wal.Some?);
      if x.Ran? {
        ProcessCounts(reg, q.k.instances, last, now, session, q.k.wal.Some?, id, route, base, CountAll(c, q.events, id, route));
        CountConcat(c, q.events, x.events, id, route);
      }
    }
  }

  lemma StepCounts(reg: Registry, k: KernelState, now: Tick, session: Caps, id: InstanceId, route: RouteId, base: nat, c: Count)
    requires Counted(k.instances, id, route, base, c)
    ensures var p := StepKernel(reg, k, now, session);
            Counted(p.k.instances, id, route, base, CountAll(c, p.events, id, route)) && p.k.nextInstanceId == k.nextInstanceId
  {
    var p := Pass(k, StepReport(0, 0, 0, 0), [], []);
    PassCounts(reg, p, Ids(k.instances), now, session, id, route, base, c);
    PassKeepsIdCounter(reg, p, Ids(k.instances), now, session);
  }

  lemma UnloadCounts(k: KernelState, r: RouteId, caps: Caps, id: InstanceId, route: RouteId, base: nat, c: Count)
    requires Counted(k.instances, id, route, base, c)
    ensures var (k', live) := ForceUnload(k, r, caps);
            Counted(k'.instances, id, route, base, CountAll(c, if live.Ok? then [ModuleForceUnloaded(r, live.value)] else [], id, route))
  {
    if Contains(caps, ADMIN_UNLOAD) {
      assert [ModuleForceUnloaded(r, ForceUnload(k, r, caps).1.value)][..0] == [];
    }
  }

  lemma ReactCounts(reg: Registry, k: KernelState, input: Input, id: InstanceId, route: RouteId, base: nat, c: Count)
    requires Counted(k.instances, id, route, base, c) && id <= k.nextInstanceId && id < U64_MAX
    ensures var x := React(reg, k, input);
            Counted(x.k.instances, id, route, base, CountAll(c, x.events, id, route)) && id <= x.k.nextInstanceId
  {
    match input
    case DoCreate(_) =>
    case DoSubmit(_) =>
    case DoStep(now, session) => StepCounts(reg, k, now, session, id, route, base, c);
    case DoUnload(r, caps) => UnloadCounts(k, r, caps, id, route, base, c);
  }

  /** Signal conservation over runs: for every route of an instance that starts with no live
      references, the queue has grown by exactly the deliveries the kernel announced, and the
      in-flight count is the number announced since the last forced unload of that route. */
  lemma {:induction false} SignalsConserved(reg: Registry, k: KernelState, inputs: seq<Input>, id: InstanceId, route: RouteId)
    requires id in k.instances && Refs(k.instances[id], route) == 0 && id <= k.nextInstanceId && id < U64_MAX
    ensures var k' := Run(reg, k, inputs);
            && id <= k'.nextInstanceId
            && Counted(k'.instances, id, route, |Inbox(k.instances[id], route)|,
                       CountAll(Count(0, 0), Emitted(reg, k, inputs), id, route))
    decreases |inputs|
  {
    if inputs != [] {
      var init, last := inputs[..|inputs|-1], inputs[|inputs|-1];
      SignalsConserved(reg, k, init, id, route);
      var c := CountAll(Count(0, 0), Emitted(reg, k, init), id, route);
      ReactCounts(reg, Run(reg, k, init), last, id, route, |Inbox(k.instances[id], route)|, c);
      CountConcat(Count(0, 0), Emitted(reg, k, init), React(reg, Run(reg, k, init), last).events, id, route);
    }
  }
}
