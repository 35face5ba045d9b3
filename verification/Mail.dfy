/** What lies in an inbox: over any run, every delivered signal, in order, with its sender, the principal it
    was sent under, its payload and the receiver's own stamp. */
module Mail {
  import opened Abi
  import opened Authz
  import opened Event
  import opened Instance
  import opened Stage
  import opened Step
  import opened Kernel
  import opened Moves
  import opened Signals
  import opened Verdicts
  import opened Effects
  import S = Scheduler

  /** One signal that was routed, and what became of it. */
  datatype Post = Post(from: InstanceId, signal: PendingSignal, outcome: KernelEvent)

  /** How many of the posts were delivered to `to`, on whatever route. */
  function DeliveredTo(posts: seq<Post>, to: InstanceId): nat {
    if posts == [] then 0
    else
      var last := posts[|posts|-1];
      DeliveredTo(posts[..|posts|-1], to) + if last.outcome.SignalDelivered? && last.signal.target == to then 1 else 0
  }

  /** What one post appends to one queue of `to`, whose next stamp is `stamp`. */
  function Arrival(post: Post, to: InstanceId, route: RouteId, stamp: U64): seq<InboundSignal> {
    if post.outcome.SignalDelivered? && post.signal.target == to && post.signal.route == route then
      [InboundSignal(post.from, post.signal.principal, post.signal.payload, stamp)]
    else []
  }

  /** What the posts append, the stamps standing at `stamp`. */
  function Arrived(posts: seq<Post>, to: InstanceId, route: RouteId, stamp: U64): seq<InboundSignal> {
    if posts == [] then []
    else
      var init := posts[..|posts|-1];
      Arrived(init, to, route, stamp) + Arrival(posts[|posts|-1], to, route, Min(stamp + DeliveredTo(init, to), U64_MAX))
  }

  function Outcomes(posts: seq<Post>): seq<KernelEvent> {
    if posts == [] then [] else Outcomes(posts[..|posts|-1]) + [posts[|posts|-1].outcome]
  }

  /** `j` is `i` with the posts addressed to it delivered, on every route. */
  ghost predicate Holds(i: InstanceSnapshot, j: InstanceSnapshot, posts: seq<Post>, to: InstanceId) {
    && j.inboxSeq == Min(i.inboxSeq + DeliveredTo(posts, to), U64_MAX)
    && j.config == i.config
    && forall route: RouteId :: Inbox(j, route) == Inbox(i, route) + Arrived(posts, to, route, i.inboxSeq)
  }

  lemma HoldsNothing(i: InstanceSnapshot, j: InstanceSnapshot, to: InstanceId)
    requires j.signalInbox == i.signalInbox && j.inboxSeq == i.inboxSeq && j.config == i.config
    ensures Holds(i, j, [], to)
  {
    forall route: RouteId ensures Inbox(j, route) == Inbox(i, route) + Arrived([], to, route, i.inboxSeq) {
    }
  }

  lemma ArrivedNext(posts: seq<Post>, post: Post, to: InstanceId, route: RouteId, stamp: U64)
    ensures DeliveredTo(posts + [post], to) ==
            DeliveredTo(posts, to) + if post.outcome.SignalDelivered? && post.signal.target == to then 1 else 0
    ensures Arrived(posts + [post], to, route, stamp) ==
            Arrived(posts, to, route, stamp) + Arrival(post, to, route, Min(stamp + DeliveredTo(posts, to), U64_MAX))
  {
    assert (posts + [post])[..|posts|] == posts;
  }

  lemma {:induction false} DeliveredConcat(a: seq<Post>, b: seq<Post>, to: InstanceId)
    ensures DeliveredTo(a + b, to) == DeliveredTo(a, to) + DeliveredTo(b, to)
    decreases |b|
  {
    if b == [] {
      assert a + b == a;
    } else {
      assert (a + b)[..|a + b|-1] == a + b[..|b|-1];
      DeliveredConcat(a, b[..|b|-1], to);
    }
  }

  lemma StampOn(stamp: U64, a: nat, b: nat)
    ensures Min(Min(stamp + a, U64_MAX) + b, U64_MAX) == Min(stamp + (a + b), U64_MAX)
  {
  }

  lemma {:induction false} ArrivedConcat(a: seq<Post>, b: seq<Post>, to: InstanceId, route: RouteId, stamp: U64)
    ensures Arrived(a + b, to, route, stamp) ==
            Arrived(a, to, route, stamp) + Arrived(b, to, route, Min(stamp + DeliveredTo(a, to), U64_MAX))
    decreases |b|
  {
    if b == [] {
      assert a + b == a;
    } else {
      var init, last := b[..|b|-1], b[|b|-1];
      ArrivedConcat(a, init, to, route, stamp);
      ArrivedLast(a, init, last, to, route, stamp);
      LastApart(b);
      Rejoined(a, init, [last]);
    }
  }

  lemma ArrivedLast(a: seq<Post>, b: seq<Post>, last: Post, to: InstanceId, route: RouteId, stamp: U64)
    requires var stamp' := Min(stamp + DeliveredTo(a, to), U64_MAX);
             Arrived(a + b, to, route, stamp) == Arrived(a, to, route, stamp) + Arrived(b, to, route, stamp')
    ensures var stamp' := Min(stamp + DeliveredTo(a, to), U64_MAX);
            Arrived((a + b) + [last], to, route, stamp) == Arrived(a, to, route, stamp) + Arrived(b + [last], to, route, stamp')
  {
    var stamp' := Min(stamp + DeliveredTo(a, to), U64_MAX);
    ArrivedNext(a + b, last, to, route, stamp);
    ArrivedNext(b, last, to, route, stamp');
    DeliveredConcat(a, b, to);
    StampOn(stamp, DeliveredTo(a, to), DeliveredTo(b, to));
    Rejoined(Arrived(a, to, route, stamp), Arrived(b, to, route, stamp'), Arrival(last, to, route, Min(stamp' + DeliveredTo(b, to), U64_MAX)));
  }

  lemma QueueThen(i: InstanceSnapshot, j: InstanceSnapshot, l: InstanceSnapshot, a: seq<Post>, b: seq<Post>, to: InstanceId, route: RouteId)
    requires Holds(i, j, a, to) && Holds(j, l, b, to)
    ensures Inbox(l, route) == Inbox(i, route) + Arrived(a + b, to, route, i.inboxSeq)
  {
    assert Inbox(l, route) == Inbox(j, route) + Arrived(b, to, route, j.inboxSeq);
    ArrivedConcat(a, b, to, route, i.inboxSeq);
    Rejoined(Inbox(i, route), Arrived(a, to, route, i.inboxSeq), Arrived(b, to, route, j.inboxSeq));
  }

  lemma HoldsThen(i: InstanceSnapshot, j: InstanceSnapshot, l: InstanceSnapshot, a: seq<Post>, b: seq<Post>, to: InstanceId)
    requires Holds(i, j, a, to) && Holds(j, l, b, to)
    ensures Holds(i, l, a + b, to)
  {
    forall route: RouteId ensures Inbox(l, route) == Inbox(i, route) + Arrived(a + b, to, route, i.inboxSeq) {
      QueueThen(i, j, l, a, b, to, route);
    }
    DeliveredConcat(a, b, to);
    StampOn(i.inboxSeq, DeliveredTo(a, to), DeliveredTo(b, to));
  }

  // ---- one signal ----

  /** A signal lands exactly when its target exists and has room on the route. */
  lemma LandsExactly(m: Instances, from: InstanceId, sig: PendingSignal)
    ensures Route(m, from, sig).1.SignalDelivered? <==>
            && sig.target in m
            && var c := m[sig.target].config.maxInboxPerRoute; c == 0 || |Inbox(m[sig.target], sig.route)| < c
  {
  }

  lemma RouteHolds(m: Instances, from: InstanceId, sig: PendingSignal, to: InstanceId)
    requires to in m
    ensures var (m', e) := Route(m, from, sig); to in m' && Holds(m[to], m'[to], [Post(from, sig, e)], to)
  {
    var (m', e) := Route(m, from, sig);
    forall route: RouteId ensures Inbox(m'[to], route) == Inbox(m[to], route) + Arrived([Post(from, sig, e)], to, route, m[to].inboxSeq) {
      ArrivedNext([], Post(from, sig, e), to, route, m[to].inboxSeq);
      assert [] + [Post(from, sig, e)] == [Post(from, sig, e)];
    }
    ArrivedNext([], Post(from, sig, e), to, 0, m[to].inboxSeq);
    assert [] + [Post(from, sig, e)] == [Post(from, sig, e)];
  }

  // ---- a batch ----

  function Posted(m: Instances, from: InstanceId, sigs: seq<PendingSignal>): seq<Post> {
    if sigs == [] then []
    else
      var init, last := sigs[..|sigs|-1], sigs[|sigs|-1];
      Posted(m, from, init) + [Post(from, last, Route(RouteAll(m, from, init).0, from, last).1)]
  }

  /** A routed batch appends to each queue exactly what was delivered to it, in order. */
  lemma {:induction false} BatchHolds(m: Instances, from: InstanceId, sigs: seq<PendingSignal>, to: InstanceId)
    requires to in m
    ensures to in RouteAll(m, from, sigs).0 && Holds(m[to], RouteAll(m, from, sigs).0[to], Posted(m, from, sigs), to)
    decreases |sigs|
  {
    if sigs == [] {
      HoldsNothing(m[to], m[to], to);
    } else {
      var init, last := sigs[..|sigs|-1], sigs[|sigs|-1];
      BatchHolds(m, from, init, to);
      var mid := RouteAll(m, from, init).0;
      RouteHolds(mid, from, last, to);
      HoldsThen(m[to], mid[to], Route(mid, from, last).0[to], Posted(m, from, init), [Post(from, last, Route(mid, from, last).1)], to);
    }
  }

  lemma {:induction false} BatchOutcomes(m: Instances, from: InstanceId, sigs: seq<PendingSignal>)
    ensures Outcomes(Posted(m, from, sigs)) == RouteAll(m, from, sigs).1
    decreases |sigs|
  {
    if sigs != [] {
      BatchOutcomes(m, from, sigs[..|sigs|-1]);
    }
  }

  /** Room decides: a signal of the batch lands if and only if its target exists and what the queue held,
      with what the batch has already put there, leaves room. */
  lemma BatchLandsExactly(m: Instances, from: InstanceId, sigs: seq<PendingSignal>, n: nat)
    requires n < |sigs|
    ensures |RouteAll(m, from, sigs).1| == |sigs|
    ensures var (to, route, e) := (sigs[n].target, sigs[n].route, RouteAll(m, from, sigs).1[n]);
            && e == (if to !in m then SignalDropped(to, route, TargetNotFound)
                     else if m[to].config.maxInboxPerRoute != 0 &&
                             |Inbox(m[to], route)| + |Arrived(Posted(m, from, sigs[..n]), to, route, m[to].inboxSeq)| >= m[to].config.maxInboxPerRoute
                     then SignalDropped(to, route, QueueFull)
                     else SignalDelivered(from, to, route))
  {
    RoutedInTurn(m, from, sigs, n);
    RouterKeepsKeys(m, from, sigs[..n]);
    if sigs[n].target in m {
      BatchHolds(m, from, sigs[..n], sigs[n].target);
    }
  }

  // ---- one popped action ----

  /** What the step of `id` sends, and what becomes of each signal. */
  ghost function PostedBy(reg: Registry, m: Instances, id: InstanceId, now: Tick, session: Caps, measure: bool): seq<Post> {
    if id !in m then []
    else
      match StepOne(reg, m[id], id, now, session, measure)
      case None => []
      case Some((i, core)) => Posted(m[id := i], id, core.pendingSignals)
  }

  lemma ProcessHolds(reg: Registry, m: Instances, id: InstanceId, now: Tick, session: Caps, measure: bool, to: InstanceId)
    requires to in m && Process(reg, m, id, now, session, measure).Ran?
    ensures var m' := Process(reg, m, id, now, session, measure).instances;
            to in m' && Holds(m[to], m'[to], PostedBy(reg, m, id, now, session, measure), to)
  {
    var (i, core) := StepOne(reg, m[id], id, now, session, measure).value;
    StepKeepsMail(reg, m[id], id, now, session, measure);
    BatchHolds(m[id := i], id, core.pendingSignals, to);
    HoldsNothing(m[to], m[id := i][to], to);
    var posts := Posted(m[id := i], id, core.pendingSignals);
    HoldsThen(m[to], m[id := i][to], RouteAll(m[id := i], id, core.pendingSignals).0[to], [], posts, to);
    assert [] + posts == posts;
  }

  // ---- a pass ----

  ghost function PassPosts(reg: Registry, p: Pass, ids: seq<InstanceId>, now: Tick, session: Caps): seq<Post> {
    if ids == [] then []
    else
      var q := VisitAll(reg, p, ids[..|ids|-1], now, session);
      PassPosts(reg, p, ids[..|ids|-1], now, session) + PostedBy(reg, q.k.instances, ids[|ids|-1], now, session, q.k.wal.Some?)
  }

  lemma VisitHolds(reg: Registry, q: Pass, id: InstanceId, now: Tick, session: Caps, to: InstanceId)
    requires to in q.k.instances
    ensures var m := Visit(reg, q, id, now, session).k.instances;
            to in m && Holds(q.k.instances[to], m[to], PostedBy(reg, q.k.instances, id, now, session, q.k.wal.Some?), to)
  {
    if Process(reg, q.k.instances, id, now, session, q.k.wal.Some?).Ran? {
      ProcessHolds(reg, q.k.instances, id, now, session, q.k.wal.Some?, to);
    } else {
      HoldsNothing(q.k.instances[to], q.k.instances[to], to);
    }
  }

  lemma {:induction false} PassHolds(reg: Registry, p: Pass, ids: seq<InstanceId>, now: Tick, session: Caps, to: InstanceId)
    requires to in p.k.instances
    ensures var m := VisitAll(reg, p, ids, now, session).k.instances;
            to in m && Holds(p.k.instances[to], m[to], PassPosts(reg, p, ids, now, session), to)
    decreases |ids|
  {
    if ids == [] {
      HoldsNothing(p.k.instances[to], p.k.instances[to], to);
    } else {
      var init, last := ids[..|ids|-1], ids[|ids|-1];
      PassHolds(reg, p, init, now, session, to);
      var q := VisitAll(reg, p, init, now, session);
      VisitHolds(reg, q, last, now, session, to);
      HoldsThen(p.k.instances[to], q.k.instances[to], Visit(reg, q, last, now, session).k.instances[to],
                PassPosts(reg, p, init, now, session), PostedBy(reg, q.k.instances, last, now, session, q.k.wal.Some?), to);
    }
  }

  // ---- a run ----

  ghost function InputPosts(reg: Registry, k: KernelState, input: Input): seq<Post> {
    if input.DoStep? then PassPosts(reg, Pass(k, StepReport(0, 0, 0, 0), [], []), Ids(k.instances), input.now, input.session) else []
  }

  /** Every signal a run routed, in order, and what became of it. */
  ghost function RunPosts(reg: Registry, k: KernelState, inputs: seq<Input>): seq<Post> {
    if inputs == [] then []
    else RunPosts(reg, k, inputs[..|inputs|-1]) + InputPosts(reg, Run(reg, k, inputs[..|inputs|-1]), inputs[|inputs|-1])
  }

  lemma UnloadHolds(k: KernelState, route: RouteId, caps: Caps, to: InstanceId)
    requires to in k.instances
    ensures var m := ForceUnload(k, route, caps).0.instances; to in m && Holds(k.instances[to], m[to], [], to)
  {
    HoldsNothing(k.instances[to], ForceUnload(k, route, caps).0.instances[to], to);
  }

  lemma SubmitHolds(k: KernelState, s: Submission, to: InstanceId)
    requires to in k.instances
    ensures var k' := Submit(k, s).0;
            to in k'.instances && Holds(k.instances[to], k'.instances[to], [], to) && k'.nextInstanceId == k.nextInstanceId
  {
    HoldsNothing(k.instances[to], Submit(k, s).0.instances[to], to);
  }

  lemma CreateHolds(k: KernelState, config: InstanceConfig, to: InstanceId)
    requires to in k.instances && to <= k.nextInstanceId && to < U64_MAX
    ensures var k' := CreateInstance(k, config).0;
            to in k'.instances && Holds(k.instances[to], k'.instances[to], [], to) && to <= k'.nextInstanceId
  {
    HoldsNothing(k.instances[to], k.instances[to], to);
  }

  lemma ReactHolds(reg: Registry, k: KernelState, input: Input, to: InstanceId)
    requires to in k.instances && to <= k.nextInstanceId && to < U64_MAX
    ensures var k' := React(reg, k, input).k;
            to in k'.instances && to <= k'.nextInstanceId && Holds(k.instances[to], k'.instances[to], InputPosts(reg, k, input), to)
  {
    match input
    case DoCreate(config) => CreateHolds(k, config, to);
    case DoSubmit(s) => SubmitHolds(k, s, to);
    case DoStep(now, session) =>
      var p := Pass(k, StepReport(0, 0, 0, 0), [], []);
      PassHolds(reg, p, Ids(k.instances), now, session, to);
      PassKeepsIdCounter(reg, p, Ids(k.instances), now, session);
    case DoUnload(route, caps) => UnloadHolds(k, route, caps, to);
  }

  /** Over any run, each queue of an instance is what it held, followed by one entry for each signal
      delivered to it on that route, in order: sent by whom, under which principal, with which payload,
      stamped with the receiver's next number; nothing is lost, altered or reordered. */
  lemma {:induction false} RunHolds(reg: Registry, k: KernelState, inputs: seq<Input>, to: InstanceId)
    requires to in k.instances && to <= k.nextInstanceId && to < U64_MAX
    ensures var k' := Run(reg, k, inputs);
            to in k'.instances && to <= k'.nextInstanceId && Holds(k.instances[to], k'.instances[to], RunPosts(reg, k, inputs), to)
    decreases |inputs|
  {
    if inputs == [] {
      HoldsNothing(k.instances[to], k.instances[to], to);
    } else {
      var init, last := inputs[..|inputs|-1], inputs[|inputs|-1];
      RunHolds(reg, k, init, to);
      var mid := Run(reg, k, init);
      ReactHolds(reg, mid, last, to);
      HoldsThen(k.instances[to], mid.instances[to], React(reg, mid, last).k.instances[to], RunPosts(reg, k, init), InputPosts(reg, mid, last), to);
    }
  }

  // ---- who sends what ----

  lemma {:induction false} PostedInOrder(m: Instances, from: InstanceId, sigs: seq<PendingSignal>)
    ensures |Posted(m, from, sigs)| == |sigs|
    ensures forall n :: 0 <= n < |sigs| ==> Posted(m, from, sigs)[n].from == from && Posted(m, from, sigs)[n].signal == sigs[n]
    decreases |sigs|
  {
    if sigs != [] {
      PostedInOrder(m, from, sigs[..|sigs|-1]);
    }
  }

  /** What a committed action posts is what its admitted operations ask to send, in order, from its own
      instance and under its own principal. */
  lemma ActionPosts(reg: Registry, m: Instances, id: InstanceId, key: S.SchedKey, now: Tick, session: Caps, measure: bool, kept: seq<Op>)
    requires id in m && Goes(reg, m[id], id, key, now, session, kept)
    ensures var (posts, sent) := (PostedBy(reg, m, id, now, session, measure), Outbound(m[id].scheduler.ready[key].principal, kept));
            |posts| == |sent| && forall n :: 0 <= n < |sent| ==> posts[n].from == id && posts[n].signal == sent[n]
  {
    StepAnswers(reg, m[id], id, key, now, session, measure);
    var (i, core) := StepOne(reg, m[id], id, now, session, measure).value;
    PostedInOrder(m[id := i], id, core.pendingSignals);
  }

  // ---- what the observers are told ----

  /** The events that tell of a signal. */
  function Postal(events: seq<KernelEvent>): seq<KernelEvent> {
    if events == [] then []
    else
      var last := events[|events|-1];
      Postal(events[..|events|-1]) + if last.SignalDelivered? || last.SignalDropped? then [last] else []
  }

  lemma {:induction false} PostalConcat(a: seq<KernelEvent>, b: seq<KernelEvent>)
    ensures Postal(a + b) == Postal(a) + Postal(b)
    decreases |b|
  {
    if b == [] {
      assert a + b == a;
    } else {
      assert (a + b)[..|a + b|-1] == a + b[..|b|-1];
      PostalConcat(a, b[..|b|-1]);
    }
  }

  lemma {:induction false} OutcomesConcat(a: seq<Post>, b: seq<Post>)
    ensures Outcomes(a + b) == Outcomes(a) + Outcomes(b)
    decreases |b|
  {
    if b == [] {
      assert a + b == a;
    } else {
      assert (a + b)[..|a + b|-1] == a + b[..|b|-1];
      OutcomesConcat(a, b[..|b|-1]);
    }
  }

  lemma {:induction false} QuietIsNotPostal(events: seq<KernelEvent>)
    requires Quiet(events)
    ensures Postal(events) == []
    decreases |events|
  {
    if events != [] {
      assert events[|events|-1] in events;
      QuietIsNotPostal(events[..|events|-1]);
    }
  }

  lemma {:induction false} RoutedIsPostal(m: Instances, from: InstanceId, sigs: seq<PendingSignal>)
    ensures Postal(RouteAll(m, from, sigs).1) == Outcomes(Posted(m, from, sigs))
    decreases |sigs|
  {
    if sigs != [] {
      var init, last := sigs[..|sigs|-1], sigs[|sigs|-1];
      RoutedIsPostal(m, from, init);
      var (mid, events) := RouteAll(m, from, init);
      assert (events + [Route(mid, from, last).1])[..|events|] == events;
      assert (Posted(m, from, init) + [Post(from, last, Route(mid, from, last).1)])[..|Posted(m, from, init)|] == Posted(m, from, init);
    }
  }

  lemma QuietThenRouted(quiet: seq<KernelEvent>, m: Instances, from: InstanceId, sigs: seq<PendingSignal>)
    requires Quiet(quiet)
    ensures Postal(quiet + RouteAll(m, from, sigs).1) == Outcomes(Posted(m, from, sigs))
  {
    QuietIsNotPostal(quiet);
    PostalConcat(quiet, RouteAll(m, from, sigs).1);
    RoutedIsPostal(m, from, sigs);
  }

  lemma ProcessAnnounces(reg: Registry, m: Instances, id: InstanceId, now: Tick, session: Caps, measure: bool)
    requires Process(reg, m, id, now, session, measure).Ran?
    ensures Postal(Process(reg, m, id, now, session, measure).events) == Outcomes(PostedBy(reg, m, id, now, session, measure))
  {
    var (i, core) := StepOne(reg, m[id], id, now, session, measure).value;
    StepIsQuiet(reg, m[id], id, now, session, measure);
    QuietThenRouted(CommitEvents(core, id, now), m[id := i], id, core.pendingSignals);
  }

  lemma VisitAnnounces(reg: Registry, q: Pass, id: InstanceId, now: Tick, session: Caps)
    ensures Postal(Visit(reg, q, id, now, session).events) ==
            Postal(q.events) + Outcomes(PostedBy(reg, q.k.instances, id, now, session, q.k.wal.Some?))
  {
    var x := Process(reg, q.k.instances, id, now, session, q.k.wal.Some?);
    if x.Ran? {
      ProcessAnnounces(reg, q.k.instances, id, now, session, q.k.wal.Some?);
      PostalConcat(q.events, x.events);
    }
  }

  lemma VisitAnnouncesNext(reg: Registry, q: Pass, id: InstanceId, now: Tick, session: Caps, before: seq<KernelEvent>, posts: seq<Post>)
    requires Postal(q.events) == before + Outcomes(posts)
    ensures Postal(Visit(reg, q, id, now, session).events) ==
            before + Outcomes(posts + PostedBy(reg, q.k.instances, id, now, session, q.k.wal.Some?))
  {
    var more := PostedBy(reg, q.k.instances, id, now, session, q.k.wal.Some?);
    VisitAnnounces(reg, q, id, now, session);
    OutcomesConcat(posts, more);
    Rejoined(before, Outcomes(posts), Outcomes(more));
  }

  lemma {:induction false} PassAnnounces(reg: Registry, p: Pass, ids: seq<InstanceId>, now: Tick, session: Caps)
    ensures Postal(VisitAll(reg, p, ids, now, session).events) == Postal(p.events) + Outcomes(PassPosts(reg, p, ids, now, session))
    decreases |ids|
  {
    if ids != [] {
      var init, last := ids[..|ids|-1], ids[|ids|-1];
      PassAnnounces(reg, p, init, now, session);
      VisitAnnouncesNext(reg, VisitAll(reg, p, init, now, session), last, now, session, Postal(p.events), PassPosts(reg, p, init, now, session));
    }
  }

  lemma ReactAnnounces(reg: Registry, k: KernelState, input: Input)
    ensures Postal(React(reg, k, input).events) == Outcomes(InputPosts(reg, k, input))
  {
    match input
    case DoStep(now, session) => PassAnnounces(reg, Pass(k, StepReport(0, 0, 0, 0), [], []), Ids(k.instances), now, session);
    case _ => QuietOrUnload(React(reg, k, input).events);
  }

  lemma QuietOrUnload(events: seq<KernelEvent>)
    requires events == [] || (|events| == 1 && events[0].ModuleForceUnloaded?)
    ensures Postal(events) == []
  {
  }

  /** Observers are told of every routed signal of a run, once and in order, and of nothing else routed. */
  lemma {:induction false} RunAnnounces(reg: Registry, k: KernelState, inputs: seq<Input>)
    ensures Postal(Emitted(reg, k, inputs)) == Outcomes(RunPosts(reg, k, inputs))
    decreases |inputs|
  {
    if inputs != [] {
      var init, last := inputs[..|inputs|-1], inputs[|inputs|-1];
      RunAnnounces(reg, k, init);
      ReactAnnounces(reg, Run(reg, k, init), last);
      PostalConcat(Emitted(reg, k, init), React(reg, Run(reg, k, init), last).events);
      OutcomesConcat(RunPosts(reg, k, init), InputPosts(reg, Run(reg, k, init), last));
    }
  }
}
