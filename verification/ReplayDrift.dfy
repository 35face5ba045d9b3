/** What replay can find wrong with an honest log, whatever the live kernel was asked to do. */
module ReplayDrift {
  import opened Abi
  import opened Instance
  import opened Step
  import opened Wal
  import opened WalTheorems
  import opened Kernel
  import opened Moves
  import opened Isolation
  import opened Replay
  import opened ReplayTheorems
  import opened ReplayLimits

  /** Equal keys, and values equal as far as `f` shows. */
  predicate SameUnder<K, V, P(==)>(f: V -> P, a: map<K, V>, b: map<K, V>) {
    a.Keys == b.Keys && forall k :: k in a ==> f(a[k]) == f(b[k])
  }

  /** The same instances, mail aside. */
  ghost predicate Alike(a: Instances, b: Instances) {
    SameUnder(Private, a, b)
  }

  /** If `k` is the same again and nothing else moved, all are the same. */
  lemma OthersSame<K, V, P>(f: V -> P, a: map<K, V>, m: map<K, V>, later: map<K, V>, a': map<K, V>, m': map<K, V>, k: K)
    requires later.Keys !! m.Keys && SameUnder(f, a, m + later) && k in m && k in a
    requires a'.Keys == a.Keys && m'.Keys == m.Keys && f(a'[k]) == f(m'[k])
    requires forall other :: other in a && other != k ==> f(a'[other]) == f(a[other])
    requires forall other :: other in m && other != k ==> f(m'[other]) == f(m[other])
    ensures SameUnder(f, a', m' + later)
  {
    forall other | other in a' ensures f(a'[other]) == f((m' + later)[other]) {
      assert f(a[other]) == f((m + later)[other]);
    }
  }

  lemma ReplacedSame<K, V, P>(f: V -> P, a: map<K, V>, m: map<K, V>, later: map<K, V>, m': map<K, V>)
    requires SameUnder(f, a, m + later) && m'.Keys == m.Keys && forall k :: k in m ==> f(m'[k]) == f(m[k])
    ensures SameUnder(f, a, m' + later)
  {
    forall k | k in a ensures f(a[k]) == f((m' + later)[k]) {
      assert f(a[k]) == f((m + later)[k]);
    }
  }

  lemma PutSame<K, V, P>(f: V -> P, a: map<K, V>, b: map<K, V>, k: K, x: V, y: V)
    requires SameUnder(f, a, b) && f(x) == f(y)
    ensures SameUnder(f, a[k := x], b[k := y])
  {
  }

  /** A replay that has stopped at a digest, or runs on among instances like the live ones with a
      measurement writer that stands where `w` stands. */
  ghost predicate InStep(st: ReplayState, m: Instances, w: WriterState) {
    if st.Stopped? then st.error.StateDigestDivergence?
    else Alike(st.instances, m) && st.writer.chainKey == w.chainKey && st.writer.prevHash == w.prevHash && st.writer.nextSeq == w.nextSeq
  }

  ghost predicate Follows(reg: Registry, m0: Instances, m: Instances, w: WriterState) {
    InStep(Replayed(reg, m0, w), m, w)
  }

  lemma FollowAppend(reg: Registry, m0: Instances, w: WriterState, entry: LogEntry, m': Instances)
    requires var st := ReplayRecord(reg, Replayed(reg, m0, w), RecordContent(SatAdd(w.nextSeq, 1), entry));
             InStep(st, m', Append(w, entry))
    ensures Follows(reg, m0, m', Append(w, entry))
  {
    var w' := Append(w, entry);
    assert w'.records[..|w'.records|-1] == w.records;
  }

  lemma EnqueueKeepsPrivate(i: InstanceSnapshot, j: InstanceSnapshot, s: Submission, id: ScheduledActionId)
    requires Private(i) == Private(j)
    ensures i.idCounters == j.idCounters && Private(Enqueue(i, s, id, id)) == Private(Enqueue(j, s, id, id))
  {
    assert Private(i).scheduler == Private(j).scheduler && Private(i).idCounters == Private(j).idCounters;
  }

  /** Admission under the live id among instances like the live ones. */
  lemma AdmittedAlike(a: Instances, m: Instances, later: Instances, s: Submission, id: ScheduledActionId)
    requires later.Keys !! m.Keys && Alike(a, m + later) && s.instance in m && id == SatAdd(m[s.instance].idCounters.nextScheduled, 1)
    ensures var r := SubmitWithId(a, s, id);
            r.Ok? && Alike(r.value, m[s.instance := Enqueue(m[s.instance], s, id, id)] + later)
  {
    var i, j := m[s.instance], a[s.instance];
    assert (m + later)[s.instance] == i;
    EnqueueKeepsPrivate(i, j, s, id);
    PutAhead(m, later, s.instance, Enqueue(i, s, id, id));
    PutSame(Private, a, m + later, s.instance, Enqueue(j, s, id, id), Enqueue(i, s, id, id));
  }

  /** A replayed admission goes where the live one went. */
  lemma SubmitInStep(reg: Registry, st: ReplayState, k: KernelState, later: Instances, s: Submission)
    requires k.wal.Some? && later.Keys !! k.instances.Keys && InStep(st, k.instances + later, k.wal.value) && Submit(k, s).1.Ok?
    ensures var (k', r) := Submit(k, s);
            var entry := SubmitEntryFor(s, r.value);
            && k'.wal == Some(Append(k.wal.value, entry))
            && InStep(ReplayRecord(reg, st, RecordContent(SatAdd(k.wal.value.nextSeq, 1), entry)), k'.instances + later, k'.wal.value)
  {
    if st.Replaying? {
      AdmittedAlike(st.instances, k.instances, later, s, Submit(k, s).1.value);
      assert SubmissionOf(SubmitEntryFor(s, Submit(k, s).1.value)) == s;
    }
  }

  /** Processing goes the same way on instances with the same private state, digests aside. */
  lemma ResultsAgree(reg: Registry, a: Instances, m: Instances, id: InstanceId, now: Tick, session: Caps)
    requires id in a && id in m && Private(a[id]) == Private(m[id]) && Process(reg, m, id, now, session, true).Ran?
    ensures var x, y := Process(reg, m, id, now, session, true), Process(reg, a, id, now, session, true);
            y.Ran? && y.result.poppedId == x.result.poppedId && y.result.verdict == x.result.verdict
  {
    OnlyTheDigestSeesMail(reg, m[id], a[id], id, now, session);
  }

  /** Nobody's private state moved but that of `id`. */
  ghost predicate Moved(m: Instances, m': Instances, id: InstanceId) {
    id in m && m'.Keys == m.Keys && forall other :: other in m && other != id ==> Private(m'[other]) == Private(m[other])
  }

  lemma ProcessMovesOne(reg: Registry, m: Instances, id: InstanceId, now: Tick, session: Caps)
    requires Process(reg, m, id, now, session, true).Ran?
    ensures Moved(m, Process(reg, m, id, now, session, true).instances, id)
  {
    ProcessIsPrivate(reg, m, id, now, session, true);
  }

  lemma SelfAlike(reg: Registry, a: Instances, m: Instances, id: InstanceId, now: Tick, session: Caps)
    requires id in a && id in m && Private(a[id]) == Private(m[id])
    requires Process(reg, m, id, now, session, true).Ran? && Process(reg, a, id, now, session, true).Ran?
    ensures var x, y := Process(reg, m, id, now, session, true).instances, Process(reg, a, id, now, session, true).instances;
            id in x && id in y && Private(y[id]) == Private(x[id])
  {
    ProcessIsPrivate(reg, m, id, now, session, true);
    ProcessIsPrivate(reg, a, id, now, session, true);
    StepReadsPrivate(reg, a[id], m[id], id, now, session, true, true);
  }

  lemma MovedAlike(a: Instances, m: Instances, later: Instances, a': Instances, m': Instances, id: InstanceId)
    requires later.Keys !! m.Keys && Alike(a, m + later) && Moved(a, a', id) && Moved(m, m', id) && Private(a'[id]) == Private(m'[id])
    ensures Alike(a', m' + later)
  {
    OthersSame(Private, a, m, later, a', m', id);
  }

  /** The live step `x` and its re-execution `y`, among instances like the live ones. */
  lemma BothProcessed(reg: Registry, a: Instances, m: Instances, later: Instances, id: InstanceId, now: Tick, session: Caps)
      returns (x: Processed, y: Processed)
    requires later.Keys !! m.Keys && Alike(a, m + later) && id in m && Process(reg, m, id, now, session, true).Ran?
    ensures x == Process(reg, m, id, now, session, true) && y == Process(reg, a, id, now, session, true)
    ensures x.Ran? && y.Ran? && y.result.poppedId == x.result.poppedId && y.result.verdict == x.result.verdict
    ensures Alike(y.instances, x.instances + later)
  {
    assert Private(a[id]) == Private((m + later)[id]);
    x, y := Process(reg, m, id, now, session, true), Process(reg, a, id, now, session, true);
    ResultsAgree(reg, a, m, id, now, session);
    SelfAlike(reg, a, m, id, now, session);
    ProcessMovesOne(reg, m, id, now, session);
    ProcessMovesOne(reg, a, id, now, session);
    MovedAlike(a, m, later, y.instances, x.instances, id);
  }

  lemma JudgedInStep(st: ReplayState, x: Processed, y: Processed, id: InstanceId, now: Tick, session: Caps, at: U64)
    requires st.Replaying? && x.Ran? && y.Ran? && y.result.poppedId == x.result.poppedId && y.result.verdict == x.result.verdict
    ensures var entry := StepEntryFor(id, x.result, now, session);
            var st' := Judged(st, y, entry, at);
            if st'.Stopped? then st'.error == StateDigestDivergence(at)
            else st'.instances == y.instances && st'.writer == Append(st.writer, entry)
  {
  }

  /** A replayed step pops the live id and reaches the live verdict; only the digest can stop it. */
  lemma StepInStep(reg: Registry, st: ReplayState, m: Instances, later: Instances, id: InstanceId, now: Tick, session: Caps, at: U64)
    requires st.Replaying? && later.Keys !! m.Keys && Alike(st.instances, m + later)
    requires id in m && Process(reg, m, id, now, session, true).Ran?
    ensures var x := Process(reg, m, id, now, session, true);
            var st' := ReplayStep(reg, st, StepEntryFor(id, x.result, now, session), at);
            if st'.Stopped? then st'.error == StateDigestDivergence(at)
            else Alike(st'.instances, x.instances + later) && st'.writer == Append(st.writer, StepEntryFor(id, x.result, now, session))
  {
    var x, y := BothProcessed(reg, st.instances, m, later, id, now, session);
    JudgedInStep(st, x, y, id, now, session, at);
  }

  lemma FollowProcess(reg: Registry, m0: Instances, m: Instances, w: WriterState, later: Instances, id: InstanceId, now: Tick, session: Caps)
    requires later.Keys !! m.Keys && Follows(reg, m0, m + later, w) && Process(reg, m, id, now, session, true).Ran?
    ensures var x := Process(reg, m, id, now, session, true);
            x.instances.Keys == m.Keys && Follows(reg, m0, x.instances + later, Append(w, StepEntryFor(id, x.result, now, session)))
  {
    var x, st := Process(reg, m, id, now, session, true), Replayed(reg, m0, w);
    ProcessIsPrivate(reg, m, id, now, session, true);
    if st.Replaying? {
      StepInStep(reg, st, m, later, id, now, session, SatAdd(w.nextSeq, 1));
    }
    FollowAppend(reg, m0, w, StepEntryFor(id, x.result, now, session), x.instances + later);
  }

  lemma FollowVisit(reg: Registry, m0: Instances, p: Pass, later: Instances, id: InstanceId, now: Tick, session: Caps)
    requires p.k.wal.Some? && later.Keys !! p.k.instances.Keys && Follows(reg, m0, p.k.instances + later, p.k.wal.value)
    ensures var k' := Visit(reg, p, id, now, session).k;
            k'.wal.Some? && k'.instances.Keys == p.k.instances.Keys && Follows(reg, m0, k'.instances + later, k'.wal.value)
  {
    if Process(reg, p.k.instances, id, now, session, true).Ran? {
      FollowProcess(reg, m0, p.k.instances, p.k.wal.value, later, id, now, session);
    }
  }

  lemma {:induction false} FollowPass(reg: Registry, m0: Instances, p: Pass, later: Instances, ids: seq<InstanceId>, now: Tick, session: Caps)
    requires p.k.wal.Some? && later.Keys !! p.k.instances.Keys && Follows(reg, m0, p.k.instances + later, p.k.wal.value)
    ensures var k' := VisitAll(reg, p, ids, now, session).k;
            k'.wal.Some? && k'.instances.Keys == p.k.instances.Keys && Follows(reg, m0, k'.instances + later, k'.wal.value)
    decreases |ids|
  {
    if ids != [] {
      FollowPass(reg, m0, p, later, ids[..|ids|-1], now, session);
      FollowVisit(reg, m0, VisitAll(reg, p, ids[..|ids|-1], now, session), later, ids[|ids|-1], now, session);
    }
  }

  ghost predicate FollowedAhead(reg: Registry, m0: Instances, k: KernelState, rest: seq<Input>) {
    k.wal.Some? && Room(k, rest) && Follows(reg, m0, k.instances + Later(k.nextInstanceId, rest), k.wal.value)
  }

  lemma FollowStep(reg: Registry, m0: Instances, k: KernelState, later: Instances, now: Tick, session: Caps)
    requires k.wal.Some? && later.Keys !! k.instances.Keys && Follows(reg, m0, k.instances + later, k.wal.value)
    ensures var k' := StepKernel(reg, k, now, session).k;
            && k'.wal.Some? && k'.instances.Keys == k.instances.Keys && k'.nextInstanceId == k.nextInstanceId
            && Follows(reg, m0, k'.instances + later, k'.wal.value)
  {
    var p := Pass(k, StepReport(0, 0, 0, 0), [], []);
    FollowPass(reg, m0, p, later, Ids(k.instances), now, session);
    PassKeepsIdCounter(reg, p, Ids(k.instances), now, session);
  }

  /** An admission among instances like the live ones, recorded and replayed. */
  lemma FollowAdmitted(reg: Registry, m0: Instances, k: KernelState, later: Instances, s: Submission)
    requires k.wal.Some? && later.Keys !! k.instances.Keys && Follows(reg, m0, k.instances + later, k.wal.value) && Submit(k, s).1.Ok?
    ensures var (k', r) := Submit(k, s); k'.wal.Some? && Follows(reg, m0, k'.instances + later, k'.wal.value)
  {
    SubmitInStep(reg, Replayed(reg, m0, k.wal.value), k, later, s);
    FollowAppend(reg, m0, k.wal.value, SubmitEntryFor(s, Submit(k, s).1.value), Submit(k, s).0.instances + later);
  }

  lemma SubmitFrame(k: KernelState, s: Submission)
    ensures var (k', r) := Submit(k, s);
            && k'.wal.Some? == k.wal.Some? && k'.instances.Keys == k.instances.Keys && k'.nextInstanceId == k.nextInstanceId
            && (r.Err? ==> k' == k)
  {
  }

  lemma FollowSubmit(reg: Registry, m0: Instances, k: KernelState, later: Instances, s: Submission)
    requires k.wal.Some? && later.Keys !! k.instances.Keys && Follows(reg, m0, k.instances + later, k.wal.value)
    ensures var k' := Submit(k, s).0;
            && k'.wal.Some? && k'.instances.Keys == k.instances.Keys && k'.nextInstanceId == k.nextInstanceId
            && Follows(reg, m0, k'.instances + later, k'.wal.value)
  {
    SubmitFrame(k, s);
    if Submit(k, s).1.Ok? {
      FollowAdmitted(reg, m0, k, later, s);
    }
  }

  lemma FollowUnload(reg: Registry, m0: Instances, k: KernelState, later: Instances, route: RouteId)
    requires k.wal.Some? && Follows(reg, m0, k.instances + later, k.wal.value)
    ensures Follows(reg, m0, DropRouteAll(k.instances, route) + later, k.wal.value)
  {
    var st := Replayed(reg, m0, k.wal.value);
    if st.Replaying? {
      UnloadedAlike(st.instances, k.instances, later, route);
    }
  }

  lemma UnloadedAlike(a: Instances, m: Instances, later: Instances, route: RouteId)
    requires Alike(a, m + later)
    ensures Alike(a, DropRouteAll(m, route) + later)
  {
    forall id | id in m ensures Private(DropRouteAll(m, route)[id]) == Private(m[id]) {
    }
    ReplacedSame(Private, a, m, later, DropRouteAll(m, route));
  }

  lemma FollowUnloaded(reg: Registry, m0: Instances, k: KernelState, rest: seq<Input>)
    requires rest != [] && rest[0].DoUnload? && FollowedAhead(reg, m0, k, rest)
    ensures FollowedAhead(reg, m0, React(reg, k, rest[0]).k, rest[1..])
  {
    LaterStays(k, ForceUnload(k, rest[0].route, rest[0].caps).0, rest);
    FollowUnload(reg, m0, k, Later(k.nextInstanceId, rest), rest[0].route);
  }

  lemma FollowSubmission(reg: Registry, m0: Instances, k: KernelState, rest: seq<Input>)
    requires rest != [] && rest[0].DoSubmit? && FollowedAhead(reg, m0, k, rest)
    ensures FollowedAhead(reg, m0, React(reg, k, rest[0]).k, rest[1..])
  {
    LaterStays(k, k, rest);
    FollowSubmit(reg, m0, k, Later(k.nextInstanceId, rest), rest[0].submission);
    LaterStays(k, Submit(k, rest[0].submission).0, rest);
  }

  lemma FollowTick(reg: Registry, m0: Instances, k: KernelState, rest: seq<Input>)
    requires rest != [] && rest[0].DoStep? && FollowedAhead(reg, m0, k, rest)
    ensures FollowedAhead(reg, m0, React(reg, k, rest[0]).k, rest[1..])
  {
    LaterStays(k, k, rest);
    FollowStep(reg, m0, k, Later(k.nextInstanceId, rest), rest[0].now, rest[0].session);
    LaterStays(k, StepKernel(reg, k, rest[0].now, rest[0].session).k, rest);
  }

  lemma FollowReact(reg: Registry, m0: Instances, k: KernelState, rest: seq<Input>)
    requires rest != [] && FollowedAhead(reg, m0, k, rest)
    ensures FollowedAhead(reg, m0, React(reg, k, rest[0]).k, rest[1..])
  {
    match rest[0]
    case DoCreate(_) => CreateMovesLater(k, rest);
    case DoSubmit(_) => FollowSubmission(reg, m0, k, rest);
    case DoStep(_, _) => FollowTick(reg, m0, k, rest);
    case DoUnload(_, _) => FollowUnloaded(reg, m0, k, rest);
  }

  lemma {:induction false} FollowRun(reg: Registry, m0: Instances, k: KernelState, inputs: seq<Input>, n: nat)
    requires n <= |inputs| && FollowedAhead(reg, m0, k, inputs)
    ensures FollowedAhead(reg, m0, Run(reg, k, inputs[..n]), inputs[n..])
    decreases n
  {
    if n == 0 {
      assert inputs[..0] == [] && inputs[0..] == inputs;
    } else {
      FollowRun(reg, m0, k, inputs, n - 1);
      var before, rest := Run(reg, k, inputs[..n-1]), inputs[n-1..];
      assert rest[0] == inputs[n-1] && rest[1..] == inputs[n..];
      FollowReact(reg, m0, before, rest);
      RunSnoc(reg, k, inputs, n - 1);
    }
  }

  lemma FollowWhole(reg: Registry, m0: Instances, k: KernelState, inputs: seq<Input>)
    requires FollowedAhead(reg, m0, k, inputs)
    ensures var end := Run(reg, k, inputs); end.wal.Some? && Follows(reg, m0, end.instances, end.wal.value)
  {
    FollowRun(reg, m0, k, inputs, |inputs|);
    assert inputs[..|inputs|] == inputs && inputs[|inputs|..] == [];
    var end := Run(reg, k, inputs);
    assert end.instances + Later(end.nextInstanceId, []) == end.instances;
  }

  /** Replay of the log of `end` is accepted with instances like those of `end`, or stopped by a state
      digest. */
  ghost predicate StopsAtDigestsOnly(reg: Registry, replica: KernelState, end: KernelState) {
    && end.wal.Some?
    && var (m, r) := ReplayInto(reg, replica, FromWriter(end.wal.value));
       if r.Ok? then Alike(m, end.instances) && r.value.1 == end.wal.value.prevHash else r.error.StateDigestDivergence?
  }

  lemma FollowEnds(reg: Registry, m0: Instances, m: Instances, w: WriterState)
    requires Follows(reg, m0, m, w) && Tip(FromWriter(w)) == w.prevHash
    ensures var (m', r) := ReplayRecords(reg, m0, FromWriter(w));
            if r.Ok? then Alike(m', m) && r.value.1 == w.prevHash else r.error.StateDigestDivergence?
  {
  }

  /** For any run at all, unloads and late creations included, replay of the live log into a kernel
      with the same instances created up front re-admits every submission and pops every recorded id
      with its recorded verdict: it is accepted, or a state digest stops it, and it never runs out of
      due work, meets another id or verdict, or measures another tip. What it reaches differs from the
      live instances in their mail at most. */
  lemma OnlyDigestsDiverge(reg: Registry, live: KernelState, replica: KernelState, inputs: seq<Input>, world: WorldId, c: SignatureClass)
    requires live.wal == Some(NewWriter(world, live.manifest, c)) && Room(live, inputs)
    requires replica.manifest == live.manifest && replica.instances == Run(reg, live, Creations(inputs)).instances
    ensures StopsAtDigestsOnly(reg, replica, Run(reg, live, inputs))
  {
    CreatedUpFront(reg, live, inputs);
    NewWriterSound(world, live.manifest, c);
    RunKeepsLogging(reg, live, inputs, live.wal.value.header);
    FollowWhole(reg, replica.instances, live, inputs);
    var end := Run(reg, live, inputs);
    AcceptedLog(reg, replica, end, live.wal.value.header);
    FollowEnds(reg, replica.instances, end.instances, end.wal.value);
  }
}
