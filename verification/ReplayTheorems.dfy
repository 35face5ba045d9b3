/** Replay reproduces every live run, and accepts exactly the logs that re-execution writes. */
module ReplayTheorems {
  import opened Abi
  import opened Event
  import opened Instance
  import opened Stage
  import opened Step
  import opened Wal
  import opened WalTheorems
  import opened Kernel
  import opened Moves
  import opened Signals
  import opened Replay

  // ---- completeness: a live run and the replay of its log ----

  /** Replaying the log of live writer `w` from `m0` reaches the live instances `m`, with a
      measurement writer that stands where `w` stands. */
  ghost predicate Mirrors(reg: Registry, m0: Instances, m: Instances, w: WriterState) {
    var st := ReplayAll(reg, ReplayStart(m0, w.header), w.records);
    && st.Replaying? && st.instances == m
    && st.writer.chainKey == w.chainKey && st.writer.prevHash == w.prevHash && st.writer.nextSeq == w.nextSeq
  }

  /** Where the replay of `w`'s records stands. */
  ghost function Replayed(reg: Registry, m0: Instances, w: WriterState): ReplayState {
    ReplayAll(reg, ReplayStart(m0, w.header), w.records)
  }

  /** One live record keeps the mirror if re-running its entry takes the replay where the live
      kernel went. */
  lemma MirrorAppend(reg: Registry, m0: Instances, m: Instances, w: WriterState, entry: LogEntry, m': Instances)
    requires Mirrors(reg, m0, m, w)
    requires var st := Replayed(reg, m0, w);
             var st' := ReplayRecord(reg, st, RecordContent(SatAdd(w.nextSeq, 1), entry));
             st'.Replaying? && st'.instances == m' && st'.writer == Append(st.writer, entry)
    ensures Mirrors(reg, m0, m', Append(w, entry))
  {
    var w' := Append(w, entry);
    assert w'.records[..|w'.records|-1] == w.records;
    assert Replayed(reg, m0, w') == ReplayRecord(reg, Replayed(reg, m0, w), RecordContent(w'.nextSeq, entry));
  }

  // ---- instances created later ----

  /** The instances the rest of a run creates, as they are at their creation. */
  function Later(next: U64, rest: seq<Input>): Instances
    decreases |rest|
  {
    if rest == [] then map[]
    else if rest[0].DoCreate? then
      var id := SatAdd(next, 1);
      Later(id, rest[1..])[id := Fresh(id, rest[0].config)]
    else Later(next, rest[1..])
  }

  predicate Creates(inputs: seq<Input>) {
    exists n :: 0 <= n < |inputs| && inputs[n].DoCreate?
  }

  /** If anything is to be created, its ids are still to be allocated. */
  ghost predicate Room(k: KernelState, rest: seq<Input>) {
    Creates(rest) ==> (forall id :: id in k.instances ==> id <= k.nextInstanceId) && k.nextInstanceId + |rest| < U64_MAX
  }

  lemma {:induction false} LaterIds(next: U64, rest: seq<Input>)
    ensures !Creates(rest) ==> Later(next, rest) == map[]
    ensures next + |rest| < U64_MAX ==> forall id :: id in Later(next, rest) ==> next < id <= next + |rest|
    decreases |rest|
  {
    if rest != [] {
      LaterIds(if rest[0].DoCreate? then SatAdd(next, 1) else next, rest[1..]);
      assert Creates(rest[1..]) ==> Creates(rest) by {
        if n :| 0 <= n < |rest[1..]| && rest[1..][n].DoCreate? {
          assert rest[n+1].DoCreate?;
        }
      }
    }
  }

  lemma LaterIsDisjoint(k: KernelState, rest: seq<Input>)
    requires Room(k, rest)
    ensures Later(k.nextInstanceId, rest).Keys !! k.instances.Keys
  {
    LaterIds(k.nextInstanceId, rest);
  }

  /** No event reports a signal lost for want of one of these instances. */
  ghost predicate NoneMissed(events: seq<KernelEvent>, later: Instances) {
    forall e :: e in events && e.SignalDropped? && e.reason.TargetNotFound? ==> e.target !in later
  }

  lemma {:induction false} RouteAllAhead(m: Instances, later: Instances, from: InstanceId, sigs: seq<PendingSignal>)
    requires later.Keys !! m.Keys && forall n :: 0 <= n < |sigs| ==> sigs[n].target !in later
    ensures var (m', events) := RouteAll(m, from, sigs);
            m'.Keys == m.Keys && RouteAll(m + later, from, sigs) == (m' + later, events)
    decreases |sigs|
  {
    if sigs != [] {
      var init, sig := sigs[..|sigs|-1], sigs[|sigs|-1];
      RouteAllAhead(m, later, from, init);
      RouteAhead(RouteAll(m, from, init).0, later, from, sig);
    }
  }

  lemma RouteAhead(m: Instances, later: Instances, from: InstanceId, sig: PendingSignal)
    requires later.Keys !! m.Keys && sig.target !in later
    ensures var (m', e) := Route(m, from, sig); m'.Keys == m.Keys && Route(m + later, from, sig) == (m' + later, e)
  {
    if sig.target in m && !InboxFull(m[sig.target], sig.route) {
      PutAhead(m, later, sig.target, Received(m[sig.target], from, sig));
    }
  }

  lemma PutAhead(m: Instances, later: Instances, id: InstanceId, i: InstanceSnapshot)
    requires id !in later
    ensures m[id := i] + later == (m + later)[id := i]
  {
  }

  /** A step goes the same way among instances that do not exist yet, if it signals none of them. */
  lemma ProcessAhead(reg: Registry, m: Instances, later: Instances, id: InstanceId, now: Tick, session: Caps)
    requires later.Keys !! m.Keys && Process(reg, m, id, now, session, true).Ran?
    requires NoneMissed(Process(reg, m, id, now, session, true).events, later)
    ensures var x := Process(reg, m, id, now, session, true);
            x.instances.Keys == m.Keys && Process(reg, m + later, id, now, session, true) == Ran(x.instances + later, x.result, x.events)
  {
    var (i, core) := StepOne(reg, m[id], id, now, session, true).value;
    var sigs := core.pendingSignals;
    EachSignalAnsweredOnce(m[id := i], id, sigs);
    var routed := RouteAll(m[id := i], id, sigs).1;
    assert Process(reg, m, id, now, session, true).events == CommitEvents(core, id, now) + routed;
    forall n | 0 <= n < |sigs| ensures sigs[n].target !in later {
      assert routed[n] in CommitEvents(core, id, now) + routed;
    }
    RouteAllAhead(m[id := i], later, id, sigs);
    PutAhead(m, later, id, i);
  }

  // ---- the mirror along a run ----

  lemma MirrorSubmit(reg: Registry, m0: Instances, k: KernelState, later: Instances, s: Submission)
    requires k.wal.Some? && later.Keys !! k.instances.Keys && Mirrors(reg, m0, k.instances + later, k.wal.value)
    ensures var k' := Submit(k, s).0;
            k'.wal.Some? && k'.instances.Keys == k.instances.Keys && Mirrors(reg, m0, k'.instances + later, k'.wal.value)
  {
    var (k', r) := Submit(k, s);
    if r.Ok? {
      var st := Replayed(reg, m0, k.wal.value);
      var entry := SubmitEntryFor(s, r.value);
      assert ReplayRecord(reg, st, RecordContent(SatAdd(k.wal.value.nextSeq, 1), entry)) == ReplaySubmit(st, entry);
      PutAhead(k.instances, later, s.instance, Enqueue(k.instances[s.instance], s, r.value, r.value));
      assert SubmitWithId(st.instances, SubmissionOf(entry), r.value) == Ok(k'.instances + later);
      MirrorAppend(reg, m0, k.instances + later, k.wal.value, entry, k'.instances + later);
    }
  }

  lemma MirrorVisit(reg: Registry, m0: Instances, p: Pass, later: Instances, id: InstanceId, now: Tick, session: Caps)
    requires p.k.wal.Some? && later.Keys !! p.k.instances.Keys && Mirrors(reg, m0, p.k.instances + later, p.k.wal.value)
    requires NoneMissed(Visit(reg, p, id, now, session).events, later)
    ensures var p' := Visit(reg, p, id, now, session);
            && p'.k.wal.Some? && p'.k.instances.Keys == p.k.instances.Keys
            && Mirrors(reg, m0, p'.k.instances + later, p'.k.wal.value)
  {
    var x := Process(reg, p.k.instances, id, now, session, true);
    if x.Ran? {
      var entry := StepEntryFor(id, x.result, now, session);
      assert forall e :: e in x.events ==> e in p.events + x.events;
      ProcessAhead(reg, p.k.instances, later, id, now, session);
      RecordFollows(reg, Replayed(reg, m0, p.k.wal.value), RecordContent(SatAdd(p.k.wal.value.nextSeq, 1), entry));
      MirrorAppend(reg, m0, p.k.instances + later, p.k.wal.value, entry, x.instances + later);
    }
  }

  lemma VisitExtendsEvents(reg: Registry, p: Pass, id: InstanceId, now: Tick, session: Caps)
    ensures forall e :: e in p.events ==> e in Visit(reg, p, id, now, session).events
  {
  }

  lemma {:induction false} MirrorPass(reg: Registry, m0: Instances, p: Pass, later: Instances, ids: seq<InstanceId>, now: Tick, session: Caps)
    requires p.k.wal.Some? && later.Keys !! p.k.instances.Keys && Mirrors(reg, m0, p.k.instances + later, p.k.wal.value)
    requires NoneMissed(VisitAll(reg, p, ids, now, session).events, later)
    ensures var p' := VisitAll(reg, p, ids, now, session);
            && p'.k.wal.Some? && p'.k.instances.Keys == p.k.instances.Keys
            && Mirrors(reg, m0, p'.k.instances + later, p'.k.wal.value)
    decreases |ids|
  {
    if ids != [] {
      var before := VisitAll(reg, p, ids[..|ids|-1], now, session);
      VisitExtendsEvents(reg, before, ids[|ids|-1], now, session);
      MirrorPass(reg, m0, p, later, ids[..|ids|-1], now, session);
      MirrorVisit(reg, m0, before, later, ids[|ids|-1], now, session);
    }
  }

  /** What the log can tell of one input: an unload finds no reference to drop, and a step loses no
      signal for want of an instance that the run creates later. */
  ghost predicate Traceable(reg: Registry, k: KernelState, input: Input, later: Instances) {
    match input
    case DoUnload(route, caps) => Contains(caps, ADMIN_UNLOAD) ==> forall id :: id in k.instances ==> route !in k.instances[id].inflightRefs
    case DoStep(now, session) => NoneMissed(StepKernel(reg, k, now, session).events, later)
    case _ => true
  }

  ghost predicate TraceableRun(reg: Registry, k: KernelState, inputs: seq<Input>) {
    forall n :: 0 <= n < |inputs| ==> TraceableAt(reg, k, inputs, n)
  }

  /** The input numbered `n` is traceable where the run has come to by then. */
  ghost predicate TraceableAt(reg: Registry, k: KernelState, inputs: seq<Input>, n: nat)
    requires n < |inputs|
  {
    var before := Run(reg, k, inputs[..n]);
    Traceable(reg, before, inputs[n], Later(before.nextInstanceId, inputs[n..]))
  }

  lemma UnloadOfNothing(m: Instances, route: RouteId)
    requires forall id :: id in m ==> route !in m[id].inflightRefs
    ensures DropRouteAll(m, route) == m
  {
    forall id | id in m ensures DropRoute(m[id], route) == m[id] {
      assert m[id].inflightRefs - {route} == m[id].inflightRefs;
    }
  }

  lemma MirrorStep(reg: Registry, m0: Instances, k: KernelState, later: Instances, now: Tick, session: Caps)
    requires k.wal.Some? && later.Keys !! k.instances.Keys && Mirrors(reg, m0, k.instances + later, k.wal.value)
    requires NoneMissed(StepKernel(reg, k, now, session).events, later)
    ensures var k' := StepKernel(reg, k, now, session).k;
            && k'.wal.Some? && k'.instances.Keys == k.instances.Keys && k'.nextInstanceId == k.nextInstanceId
            && Mirrors(reg, m0, k'.instances + later, k'.wal.value)
  {
    var p := Pass(k, StepReport(0, 0, 0, 0), [], []);
    MirrorPass(reg, m0, p, later, Ids(k.instances), now, session);
    PassKeepsIdCounter(reg, p, Ids(k.instances), now, session);
  }

  /** The replay of the log so far stands where the live kernel does, with the instances that `rest`
      is going to create already there. */
  ghost predicate MirroredAhead(reg: Registry, m0: Instances, k: KernelState, rest: seq<Input>) {
    k.wal.Some? && Room(k, rest) && Mirrors(reg, m0, k.instances + Later(k.nextInstanceId, rest), k.wal.value)
  }

  lemma RoomForTail(rest: seq<Input>)
    requires rest != [] && Creates(rest[1..])
    ensures Creates(rest)
  {
  }

  /** A creation only moves an instance from later to now. */
  lemma CreateMovesLater(k: KernelState, rest: seq<Input>)
    requires rest != [] && rest[0].DoCreate? && Room(k, rest)
    ensures var k' := CreateInstance(k, rest[0].config).0;
            && Room(k', rest[1..])
            && k'.instances + Later(k'.nextInstanceId, rest[1..]) == k.instances + Later(k.nextInstanceId, rest)
  {
    LaterIds(SatAdd(k.nextInstanceId, 1), rest[1..]);
  }

  /** Any other input leaves what is to come as it is. */
  lemma LaterStays(k: KernelState, k': KernelState, rest: seq<Input>)
    requires rest != [] && !rest[0].DoCreate? && Room(k, rest)
    requires k'.instances.Keys == k.instances.Keys && k'.nextInstanceId == k.nextInstanceId
    ensures Room(k', rest[1..])
    ensures var later := Later(k.nextInstanceId, rest); later == Later(k'.nextInstanceId, rest[1..]) && later.Keys !! k.instances.Keys
  {
    if Creates(rest[1..]) {
      RoomForTail(rest);
    }
    LaterIsDisjoint(k, rest);
  }

  lemma MirrorSubmission(reg: Registry, m0: Instances, k: KernelState, rest: seq<Input>)
    requires rest != [] && rest[0].DoSubmit? && MirroredAhead(reg, m0, k, rest)
    ensures MirroredAhead(reg, m0, React(reg, k, rest[0]).k, rest[1..])
  {
    LaterStays(k, k, rest);
    MirrorSubmit(reg, m0, k, Later(k.nextInstanceId, rest), rest[0].submission);
    LaterStays(k, Submit(k, rest[0].submission).0, rest);
  }

  lemma MirrorTick(reg: Registry, m0: Instances, k: KernelState, rest: seq<Input>)
    requires rest != [] && rest[0].DoStep? && MirroredAhead(reg, m0, k, rest)
    requires Traceable(reg, k, rest[0], Later(k.nextInstanceId, rest))
    ensures MirroredAhead(reg, m0, React(reg, k, rest[0]).k, rest[1..])
  {
    LaterStays(k, k, rest);
    MirrorStep(reg, m0, k, Later(k.nextInstanceId, rest), rest[0].now, rest[0].session);
    LaterStays(k, StepKernel(reg, k, rest[0].now, rest[0].session).k, rest);
  }

  lemma MirrorUnload(reg: Registry, m0: Instances, k: KernelState, rest: seq<Input>)
    requires rest != [] && rest[0].DoUnload? && MirroredAhead(reg, m0, k, rest)
    requires Traceable(reg, k, rest[0], Later(k.nextInstanceId, rest))
    ensures MirroredAhead(reg, m0, React(reg, k, rest[0]).k, rest[1..])
  {
    LaterStays(k, ForceUnload(k, rest[0].route, rest[0].caps).0, rest);
    if Contains(rest[0].caps, ADMIN_UNLOAD) {
      UnloadOfNothing(k.instances, rest[0].route);
    }
  }

  /** One traceable input keeps the mirror. */
  lemma MirrorReact(reg: Registry, m0: Instances, k: KernelState, rest: seq<Input>)
    requires rest != [] && MirroredAhead(reg, m0, k, rest)
    requires Traceable(reg, k, rest[0], Later(k.nextInstanceId, rest))
    ensures MirroredAhead(reg, m0, React(reg, k, rest[0]).k, rest[1..])
  {
    match rest[0]
    case DoCreate(_) => CreateMovesLater(k, rest);
    case DoSubmit(_) => MirrorSubmission(reg, m0, k, rest);
    case DoStep(_, _) => MirrorTick(reg, m0, k, rest);
    case DoUnload(_, _) => MirrorUnload(reg, m0, k, rest);
  }

  lemma RunSnoc(reg: Registry, k: KernelState, inputs: seq<Input>, n: nat)
    requires n < |inputs|
    ensures Run(reg, k, inputs[..n+1]) == React(reg, Run(reg, k, inputs[..n]), inputs[n]).k
  {
    assert inputs[..n+1][..n] == inputs[..n];
  }

  lemma {:induction false} MirrorRun(reg: Registry, m0: Instances, k: KernelState, inputs: seq<Input>, n: nat)
    requires n <= |inputs| && MirroredAhead(reg, m0, k, inputs) && TraceableRun(reg, k, inputs)
    ensures MirroredAhead(reg, m0, Run(reg, k, inputs[..n]), inputs[n..])
    decreases n
  {
    if n == 0 {
      assert inputs[..0] == [] && inputs[0..] == inputs;
    } else {
      MirrorRun(reg, m0, k, inputs, n - 1);
      assert TraceableAt(reg, k, inputs, n - 1);
      var before, rest := Run(reg, k, inputs[..n-1]), inputs[n-1..];
      assert rest[0] == inputs[n-1] && rest[1..] == inputs[n..];
      MirrorReact(reg, m0, before, rest);
      RunSnoc(reg, k, inputs, n - 1);
    }
  }

  // ---- creating up front ----

  /** The creations of a run, without the rest. */
  function Creations(inputs: seq<Input>): seq<Input> {
    if inputs == [] then []
    else if inputs[0].DoCreate? then [inputs[0]] + Creations(inputs[1..])
    else Creations(inputs[1..])
  }

  lemma RunLast(reg: Registry, k: KernelState, inputs: seq<Input>, init: seq<Input>, last: Input)
    requires inputs == init + [last]
    ensures Run(reg, k, inputs) == React(reg, Run(reg, k, init), last).k
  {
    assert inputs[..|inputs|-1] == init;
  }

  lemma {:induction false} RunConcat(reg: Registry, k: KernelState, a: seq<Input>, b: seq<Input>)
    ensures Run(reg, k, a + b) == Run(reg, Run(reg, k, a), b)
    decreases |b|
  {
    if b == [] {
      assert a + b == a;
    } else {
      var init, last := b[..|b|-1], b[|b|-1];
      assert b == init + [last] && a + b == (a + init) + [last];
      RunConcat(reg, k, a, init);
      RunLast(reg, k, a + b, a + init, last);
      RunLast(reg, Run(reg, k, a), b, init, last);
    }
  }

  lemma RunOne(reg: Registry, k: KernelState, input: Input)
    ensures Run(reg, k, [input]) == React(reg, k, input).k
  {
  }

  /** Creating everything first gives the starting instances and the later ones side by side. */
  lemma {:induction false} CreatedUpFront(reg: Registry, k: KernelState, inputs: seq<Input>)
    requires Room(k, inputs)
    ensures Run(reg, k, Creations(inputs)).instances == k.instances + Later(k.nextInstanceId, inputs)
    decreases |inputs|
  {
    if inputs != [] {
      var input, rest := inputs[0], inputs[1..];
      if Creates(rest) {
        RoomForTail(inputs);
      }
      if input.DoCreate? {
        CreateMovesLater(k, inputs);
        RunOne(reg, k, input);
        RunConcat(reg, k, [input], Creations(rest));
        CreatedUpFront(reg, React(reg, k, input).k, rest);
      } else {
        CreatedUpFront(reg, k, rest);
      }
    }
  }

  // ---- the live writer stays sound ----

  ghost predicate Logging(k: KernelState, h: WalHeader) {
    k.wal.Some? && Sound(k.wal.value) && k.wal.value.header == h
  }

  lemma VisitKeepsLogging(reg: Registry, p: Pass, id: InstanceId, now: Tick, session: Caps, h: WalHeader)
    requires Logging(p.k, h)
    ensures Logging(Visit(reg, p, id, now, session).k, h)
  {
    var x := Process(reg, p.k.instances, id, now, session, true);
    if x.Ran? {
      AppendKeepsSound(p.k.wal.value, StepEntryFor(id, x.result, now, session));
    }
  }

  lemma {:induction false} PassKeepsLogging(reg: Registry, p: Pass, ids: seq<InstanceId>, now: Tick, session: Caps, h: WalHeader)
    requires Logging(p.k, h)
    ensures Logging(VisitAll(reg, p, ids, now, session).k, h)
    decreases |ids|
  {
    if ids != [] {
      PassKeepsLogging(reg, p, ids[..|ids|-1], now, session, h);
      VisitKeepsLogging(reg, VisitAll(reg, p, ids[..|ids|-1], now, session), ids[|ids|-1], now, session, h);
    }
  }

  lemma {:induction false} RunKeepsLogging(reg: Registry, k: KernelState, inputs: seq<Input>, h: WalHeader)
    requires Logging(k, h)
    ensures Logging(Run(reg, k, inputs), h)
    decreases |inputs|
  {
    if inputs != [] {
      RunKeepsLogging(reg, k, inputs[..|inputs|-1], h);
      var before := Run(reg, k, inputs[..|inputs|-1]);
      match inputs[|inputs|-1]
      case DoCreate(_) =>
      case DoSubmit(s) =>
        var (_, r) := Submit(before, s);
        if r.Ok? {
          AppendKeepsSound(before.wal.value, SubmitEntryFor(s, r.value));
        }
      case DoStep(now, session) =>
        PassKeepsLogging(reg, Pass(before, StepReport(0, 0, 0, 0), [], []), Ids(before.instances), now, session, h);
      case DoUnload(_, _) =>
    }
  }

  /** Replaying the log of `end` into `replica` succeeds, reaches the instances of `end` bit for bit,
      and measures the tip its live writer holds. */
  ghost predicate Reproduces(reg: Registry, replica: KernelState, end: KernelState) {
    && end.wal.Some?
    && var (m, r) := ReplayInto(reg, replica, FromWriter(end.wal.value));
       r.Ok? && m == end.instances && r.value.1 == end.wal.value.prevHash
  }

  lemma AcceptedLog(reg: Registry, replica: KernelState, end: KernelState, h: WalHeader)
    requires Logging(end, h) && h.manifest == replica.manifest && h.pins == CURRENT_PINS
    ensures var w := FromWriter(end.wal.value);
            ReplayInto(reg, replica, w) == ReplayRecords(reg, replica.instances, w) && Tip(w) == end.wal.value.prevHash
  {
  }

  lemma MirroredLog(reg: Registry, m0: Instances, m: Instances, w: WriterState)
    requires Mirrors(reg, m0, m, w) && Tip(FromWriter(w)) == w.prevHash
    ensures var (m', r) := ReplayRecords(reg, m0, FromWriter(w)); r.Ok? && m' == m && r.value.1 == w.prevHash
  {
  }

  /** A mirrored, soundly logging kernel is reproduced. */
  lemma MirrorEnds(reg: Registry, replica: KernelState, end: KernelState, h: WalHeader)
    requires Logging(end, h) && h.manifest == replica.manifest && h.pins == CURRENT_PINS
    requires Mirrors(reg, replica.instances, end.instances, end.wal.value)
    ensures Reproduces(reg, replica, end)
  {
    AcceptedLog(reg, replica, end, h);
    MirroredLog(reg, replica.instances, end.instances, end.wal.value);
  }

  lemma MirrorWhole(reg: Registry, m0: Instances, k: KernelState, inputs: seq<Input>)
    requires MirroredAhead(reg, m0, k, inputs) && TraceableRun(reg, k, inputs)
    ensures var end := Run(reg, k, inputs); end.wal.Some? && Mirrors(reg, m0, end.instances, end.wal.value)
  {
    MirrorRun(reg, m0, k, inputs, |inputs|);
    assert inputs[..|inputs|] == inputs && inputs[|inputs|..] == [];
    var end := Run(reg, k, inputs);
    assert end.instances + Later(end.nextInstanceId, []) == end.instances;
  }

  /** Replay completeness: whatever instances a logging kernel starts from, any run whose unloads and
      signals the log can tell (submissions accepted or refused, steps, creations and unloads in any
      order) is reproduced by a kernel with the same registry and manifest in which the same instances
      were created up front. */
  lemma ReplayReproducesRun(reg: Registry, live: KernelState, replica: KernelState, inputs: seq<Input>,
                            world: WorldId, c: SignatureClass)
    requires live.wal == Some(NewWriter(world, live.manifest, c)) && Room(live, inputs) && TraceableRun(reg, live, inputs)
    requires replica.manifest == live.manifest && replica.instances == Run(reg, live, Creations(inputs)).instances
    ensures Reproduces(reg, replica, Run(reg, live, inputs))
  {
    CreatedUpFront(reg, live, inputs);
    NewWriterSound(world, live.manifest, c);
    RunKeepsLogging(reg, live, inputs, live.wal.value.header);
    MirrorWhole(reg, replica.instances, live, inputs);
    MirrorEnds(reg, replica, Run(reg, live, inputs), live.wal.value.header);
  }

  /** A run of nothing but what the log records: submissions and steps. */
  predicate Recorded(inputs: seq<Input>) {
    forall n :: 0 <= n < |inputs| ==> inputs[n].DoSubmit? || inputs[n].DoStep?
  }

  lemma RecordedIsTraceable(reg: Registry, k: KernelState, inputs: seq<Input>)
    requires Recorded(inputs)
    ensures TraceableRun(reg, k, inputs)
  {
    forall n | 0 <= n < |inputs| ensures TraceableAt(reg, k, inputs, n) {
      LaterIds(Run(reg, k, inputs[..n]).nextInstanceId, inputs[n..]);
    }
  }

  /** With the instances created before logging starts and no unload there is nothing to assume: any
      run of submissions and steps, of any length, is reproduced. */
  lemma ReplayReproducesRecordedRun(reg: Registry, live: KernelState, replica: KernelState, inputs: seq<Input>,
                                    world: WorldId, c: SignatureClass)
    requires live.wal == Some(NewWriter(world, live.manifest, c)) && Recorded(inputs)
    requires replica.manifest == live.manifest && replica.instances == live.instances
    ensures Reproduces(reg, replica, Run(reg, live, inputs))
  {
    RecordedIsTraceable(reg, live, inputs);
    CreatedUpFront(reg, live, inputs);
    LaterIds(live.nextInstanceId, inputs);
    assert live.instances + map[] == live.instances;
    ReplayReproducesRun(reg, live, replica, inputs, world, c);
  }

  // ---- soundness: what an accepted log must say ----

  function Entries(rs: seq<WalRecord>): seq<LogEntry> {
    if rs == [] then [] else Entries(rs[..|rs|-1]) + [rs[|rs|-1].content.entry]
  }

  /** The entries under consecutive sequence numbers from one. */
  function Numbered(entries: seq<LogEntry>): seq<RecordContent> {
    if entries == [] then []
    else Numbered(entries[..|entries|-1]) + [RecordContent(Min(|entries|, U64_MAX), entries[|entries|-1])]
  }

  /** One re-executed entry, taking from it only what came from outside the kernel: an admission,
      or for a step which instance ran, when, and under which session ceiling. `None` when an
      admission names no instance or a step finds nothing due; otherwise the instances reached and
      the entry this execution itself gives rise to. */
  ghost function RederiveOne(reg: Registry, m: Instances, e: LogEntry): Option<(Instances, LogEntry)> {
    if e.SubmitEntry? then
      match SubmitWithId(m, SubmissionOf(e), e.allocatedId)
      case Err(_) => None
      case Ok(m') => Some((m', e))
    else
      match Process(reg, m, e.steppedInstance, e.now, e.sessionCaps, true)
      case Idle => None
      case Ran(m', r, _) => Some((m', StepEntryFor(e.steppedInstance, r, e.now, e.sessionCaps)))
  }

  ghost function Rederive(reg: Registry, m: Instances, entries: seq<LogEntry>): Option<(Instances, seq<LogEntry>)> {
    if entries == [] then Some((m, []))
    else
      match Rederive(reg, m, entries[..|entries|-1])
      case None => None
      case Some((m', derived)) =>
        match RederiveOne(reg, m', entries[|entries|-1])
        case None => None
        case Some((m'', e)) => Some((m'', derived + [e]))
  }

  /** Re-execution of the entries' outside inputs writes those very entries. */
  ghost predicate Rederives(reg: Registry, m: Instances, entries: seq<LogEntry>) {
    var d := Rederive(reg, m, entries);
    d.Some? && d.value.1 == entries
  }

  /** The tripwires of one record stay silent exactly when its entry is the one this execution
      writes. */
  lemma RecordFollows(reg: Registry, st: ReplayState, c: RecordContent)
    requires st.Replaying?
    ensures var st' := ReplayRecord(reg, st, c);
            var d := RederiveOne(reg, st.instances, c.entry);
            && (st'.Replaying? <==> d.Some? && d.value.1 == c.entry)
            && (st'.Replaying? ==> st'.instances == d.value.0 && st'.writer == Append(st.writer, c.entry))
  {
  }

  lemma RederiveSnoc(reg: Registry, m: Instances, es: seq<LogEntry>, e: LogEntry)
    ensures Rederives(reg, m, es + [e]) <==>
            Rederives(reg, m, es) &&
            var d := RederiveOne(reg, Rederive(reg, m, es).value.0, e); d.Some? && d.value.1 == e
    ensures Rederives(reg, m, es + [e]) ==>
            Rederive(reg, m, es + [e]).value.0 == RederiveOne(reg, Rederive(reg, m, es).value.0, e).value.0
  {
  }

  /** The replay loop runs through if and only if re-execution derives the recorded entries. */
  lemma {:induction false} LoopFollowsRederivation(reg: Registry, m: Instances, h: WalHeader, rs: seq<WalRecord>)
    ensures var st := ReplayAll(reg, ReplayStart(m, h), rs);
            && (st.Replaying? <==> Rederives(reg, m, Entries(rs)))
            && (st.Replaying? ==> Rederive(reg, m, Entries(rs)).value.0 == st.instances)
            && (st.Replaying? ==> st.writer == AppendAll(RebuildFromHeader(h), Entries(rs)))
    decreases |rs|
  {
    if rs != [] {
      var init, last := rs[..|rs|-1], rs[|rs|-1].content;
      LoopFollowsRederivation(reg, m, h, init);
      RederiveSnoc(reg, m, Entries(init), last.entry);
      assert Entries(rs)[..|Entries(rs)|-1] == Entries(init);
      var st := ReplayAll(reg, ReplayStart(m, h), init);
      if st.Replaying? {
        RecordFollows(reg, st, last);
      }
    }
  }

  /** What a writer started from a header has recorded after `entries`. */
  lemma {:induction false} WriterContents(h: WalHeader, entries: seq<LogEntry>)
    ensures var w := AppendAll(RebuildFromHeader(h), entries);
            && Contents(w.records) == Numbered(entries)
            && w.nextSeq == Min(|entries|, U64_MAX)
            && w.header == h && w.chainKey == ChainKey(h.worldId)
            && CheckRecords(w.chainKey, VerifyNone, w.records) == Ok(w.prevHash)
    decreases |entries|
  {
    if entries != [] {
      var init := entries[..|entries|-1];
      WriterContents(h, init);
      var w, w' := AppendAll(RebuildFromHeader(h), init), AppendAll(RebuildFromHeader(h), entries);
      assert w'.records[..|w'.records|-1] == w.records;
    }
  }

  lemma {:induction false} ContentsFixChain(key: ChainKey, v: Verifier, rs: seq<WalRecord>, v': Verifier, rs': seq<WalRecord>)
    requires CheckRecords(key, v, rs).Ok? && CheckRecords(key, v', rs').Ok? && Contents(rs) == Contents(rs')
    ensures CheckRecords(key, v, rs) == CheckRecords(key, v', rs')
    decreases |rs|
  {
    if rs != [] && rs' != [] {
      var a, b := Contents(rs), Contents(rs');
      assert a[..|a|-1] == Contents(rs[..|rs|-1]) && b[..|b|-1] == Contents(rs'[..|rs'|-1]);
      ContentsFixChain(key, v, rs[..|rs|-1], v', rs'[..|rs'|-1]);
    }
  }

  /** Replay soundness, exactly: a log that verifies under `world` replays successfully if and only
      if re-execution derives every recorded popped id, verdict and digest, the recorded sequence
      numbers are 1, 2, 3, ... in order (which chain verification never looks at), and a non-empty
      log was written for the world its header names. */
  lemma ReplayAcceptsExactly(reg: Registry, m: Instances, w: WalState, world: WorldId)
    requires VerifyChain(w, world).Ok?
    ensures ReplayRecords(reg, m, w).1.Ok? <==>
            && Rederives(reg, m, Entries(w.records))
            && Contents(w.records) == Numbered(Entries(w.records))
            && (w.records != [] ==> world == w.header.worldId)
    ensures ReplayRecords(reg, m, w).1.Ok? ==>
            ReplayRecords(reg, m, w).0 == Rederive(reg, m, Entries(w.records)).value.0
  {
    var es := Entries(w.records);
    LoopFollowsRederivation(reg, m, w.header, w.records);
    var st := ReplayAll(reg, ReplayStart(m, w.header), w.records);
    if st.Replaying? {
      WriterContents(w.header, es);
      var measured := AppendAll(RebuildFromHeader(w.header), es);
      var v := VerifierOf(w.header).value;
      RunningHashIsTip(ChainKey(world), v, w.records);
      assert CheckRecords(ChainKey(world), v, w.records) == Ok(Tip(w));
      if measured.prevHash == Tip(w) {
        HashDeterminesContents(ChainKey(world), v, w.records, measured.chainKey, VerifyNone, measured.records);
      } else if Contents(w.records) == Numbered(es) && (w.records != [] ==> world == w.header.worldId) {
        if w.records == [] {
          assert false;
        } else {
          ContentsFixChain(ChainKey(world), v, w.records, VerifyNone, measured.records);
        }
      }
    }
  }

  // ---- what a refused replay reports ----

  /** Integrity-only replay touches no instance until the header gates pass, the manifests agree and the
      chain verifies under the header's own world; each refusal has its exact condition, in that order. */
  lemma ReplayGatesExactly(reg: Registry, k: KernelState, w: WalState)
    ensures var (h, (m, r)) := (w.header, ReplayInto(reg, k, w));
            var (gate, chain) := (HeaderGate(h.pins), VerifyChain(w, h.worldId));
            && (gate.Some? || h.manifest != k.manifest || chain.Err? ==> m == k.instances && r.Err?)
            && (gate.Some? ==> r == Err(gate.value))
            && (gate.None? && h.manifest != k.manifest ==> r == Err(ManifestMismatch(h.manifest, k.manifest)))
            && (gate.None? && h.manifest == k.manifest && chain.Err? ==> r == Err(WalCorrupted(chain.error)))
            && (gate.None? && h.manifest == k.manifest && chain.Ok? ==> (m, r) == ReplayRecords(reg, k.instances, w))
  {
  }

  /** Verified replay likewise, with the anchored chain under the caller's world in place of both. */
  lemma VerifiedGatesExactly(reg: Registry, k: KernelState, w: WalState, world: WorldId, anchor: TrustAnchor)
    ensures var (m, r) := ReplayIntoVerified(reg, k, w, world, anchor);
            var (gate, chain) := (HeaderGate(w.header.pins), VerifyChainAnchored(w, world, anchor));
            && (gate.Some? || chain.Err? ==> m == k.instances && r.Err?)
            && (gate.Some? ==> r == Err(gate.value))
            && (gate.None? && chain.Err? ==> r == Err(WalCorrupted(chain.error)))
            && (gate.None? && chain.Ok? ==> (m, r) == ReplayRecords(reg, k.instances, w))
  {
  }

  /** What is wrong with a record re-executed from `m`, and the instances it leaves: a recorded fact is the
      expected one, what re-execution got is the other. */
  ghost predicate Contradicted(reg: Registry, m: Instances, c: RecordContent, error: ReplayError, left: Instances) {
    match c.entry
    case SubmitEntry(instance, _, _, _, _, _, _, _) =>
      instance !in m && error == SubmitFailed(InstanceNotFound) && left == m
    case StepEntry(instance, poppedId, now, session, verdict, digest) =>
      match Process(reg, m, instance, now, session, true)
      case Idle => error == StepUnderflow(instance) && left == m
      case Ran(m', r, _) =>
        && left == m'
        && (r.poppedId != poppedId ==> error == PoppedIdDivergence(c.seqNo))
        && (r.poppedId == poppedId && r.verdict != verdict ==> error == VerdictDivergence(c.seqNo, verdict, r.verdict))
        && (r.poppedId == poppedId && r.verdict == verdict ==> r.digest != digest && error == StateDigestDivergence(c.seqNo))
  }

  lemma StopContradicts(reg: Registry, st: ReplayState, c: RecordContent)
    requires st.Replaying? && ReplayRecord(reg, st, c).Stopped?
    ensures Contradicted(reg, st.instances, c, ReplayRecord(reg, st, c).error, ReplayRecord(reg, st, c).left)
  {
  }

  /** Re-execution derives the first `n` records, and the next one is contradicted. */
  ghost predicate StopsAt(reg: Registry, m: Instances, rs: seq<WalRecord>, n: nat, error: ReplayError, left: Instances) {
    && n < |rs| && Rederives(reg, m, Entries(rs[..n]))
    && Contradicted(reg, Rederive(reg, m, Entries(rs[..n])).value.0, rs[n].content, error, left)
  }

  /** The loop first stops at some record. */
  lemma {:induction false} LoopStops(reg: Registry, st: ReplayState, rs: seq<WalRecord>) returns (n: nat)
    requires st.Replaying? && ReplayAll(reg, st, rs).Stopped?
    ensures n < |rs| && ReplayAll(reg, st, rs[..n]).Replaying?
    ensures ReplayRecord(reg, ReplayAll(reg, st, rs[..n]), rs[n].content) == ReplayAll(reg, st, rs)
    decreases |rs|
  {
    var init := rs[..|rs|-1];
    if ReplayAll(reg, st, init).Stopped? {
      n := LoopStops(reg, st, init);
      assert init[..n] == rs[..n];
    } else {
      n := |init|;
    }
  }

  lemma LoopStopsAtFirst(reg: Registry, m: Instances, h: WalHeader, rs: seq<WalRecord>) returns (n: nat)
    requires ReplayAll(reg, ReplayStart(m, h), rs).Stopped?
    ensures var st := ReplayAll(reg, ReplayStart(m, h), rs); StopsAt(reg, m, rs, n, st.error, st.left)
  {
    n := LoopStops(reg, ReplayStart(m, h), rs);
    LoopFollowsRederivation(reg, m, h, rs[..n]);
    StopContradicts(reg, ReplayAll(reg, ReplayStart(m, h), rs[..n]), rs[n].content);
  }

  /** A replay that fails names the first record that re-execution contradicts, and how, with the recorded
      fact as the expected one; or, if none does, the sealed tip as expected and the measured one. */
  lemma RefusalNamesFirstDivergence(reg: Registry, m: Instances, w: WalState) returns (n: nat)
    requires ReplayRecords(reg, m, w).1.Err?
    ensures var (left, r) := ReplayRecords(reg, m, w);
            if n < |w.records| then StopsAt(reg, m, w.records, n, r.error, left)
            else
              var measured := AppendAll(RebuildFromHeader(w.header), Entries(w.records)).prevHash;
              && Rederives(reg, m, Entries(w.records)) && left == Rederive(reg, m, Entries(w.records)).value.0
              && Tip(w) != measured && r.error == ChainTipDivergence(Tip(w), measured)
  {
    if ReplayAll(reg, ReplayStart(m, w.header), w.records).Stopped? {
      n := LoopStopsAtFirst(reg, m, w.header, w.records);
    } else {
      n := |w.records|;
      LoopFollowsRederivation(reg, m, w.header, w.records);
    }
  }
}
