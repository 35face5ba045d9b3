/** Exactly which runs replay reproduces: where nothing caps a late inbox and no count has saturated,
    those whose unloads drop nothing and whose signals all find their instance. */
module ReplayExact {
  import opened Abi
  import opened Event
  import opened Instance
  import opened Stage
  import opened Step
  import opened Wal
  import opened WalTheorems
  import opened Kernel
  import opened Moves
  import opened Isolation
  import opened Signals
  import opened Replay
  import opened ReplayTheorems
  import opened ReplayDrift
  import S = Scheduler

  // ---- the replica's mail never falls behind ----

  /** The replica's instance `j` against the live `i`: the same but for mail, no fewer references, and
      either the same inbox or, where inboxes are uncapped, more deliveries. */
  ghost predicate Leads(j: InstanceSnapshot, i: InstanceSnapshot) {
    && Private(j) == Private(i)
    && (forall r :: r in i.inflightRefs ==> i.inflightRefs[r] > 0)
    && (forall r :: Refs(j, r) >= Refs(i, r))
    && ((j.signalInbox == i.signalInbox && j.inboxSeq == i.inboxSeq) || (i.config.maxInboxPerRoute == 0 && MoreMail(j, i)))
  }

  /** More deliveries than the live count, unless that is saturated. */
  predicate MoreMail(j: InstanceSnapshot, i: InstanceSnapshot) {
    j.inboxSeq > i.inboxSeq || i.inboxSeq == U64_MAX
  }

  predicate MoreRefs(j: InstanceSnapshot, i: InstanceSnapshot, route: RouteId) {
    Refs(j, route) > Refs(i, route) || Refs(i, route) == U32_MAX
  }

  /** What the log failed to tell, if anything yet. */
  datatype Trace = Told | LostRefs(unloaded: InstanceId, route: RouteId) | LostSignal(missed: InstanceId)

  /** A replica instance in the lead that still shows the difference, if it is the one to show it. */
  ghost predicate Ahead(t: Trace, id: InstanceId, j: InstanceSnapshot, i: InstanceSnapshot) {
    && Leads(j, i)
    && (t.LostRefs? && t.unloaded == id ==> MoreRefs(j, i, t.route))
    && (t.LostSignal? && t.missed == id ==> MoreMail(j, i))
  }

  ghost function Lead(t: Trace): (InstanceId, InstanceSnapshot, InstanceSnapshot) -> bool {
    (id: InstanceId, j: InstanceSnapshot, i: InstanceSnapshot) => Ahead(t, id, j, i)
  }

  ghost predicate Pairwise<K, V>(rel: (K, V, V) -> bool, a: map<K, V>, m: map<K, V>) {
    a.Keys == m.Keys && forall k :: k in a ==> rel(k, a[k], m[k])
  }

  lemma PairAt<K, V>(rel: (K, V, V) -> bool, a: map<K, V>, m: map<K, V>, later: map<K, V>, k: K)
    requires Pairwise(rel, a, m + later) && later.Keys !! m.Keys && (k in m || k in later)
    ensures k in a && rel(k, a[k], if k in m then m[k] else later[k])
  {
    assert (m + later)[k] == if k in m then m[k] else later[k];
  }

  lemma PutPair<K, V>(rel: (K, V, V) -> bool, a: map<K, V>, m: map<K, V>, later: map<K, V>, k: K, x: V, y: V)
    requires Pairwise(rel, a, m + later) && later.Keys !! m.Keys && k in m && rel(k, x, y)
    ensures m[k := y].Keys == m.Keys && Pairwise(rel, a[k := x], m[k := y] + later)
  {
    forall l | l in a ensures rel(l, a[k := x][l], (m[k := y] + later)[l]) {
      assert rel(l, a[l], (m + later)[l]);
    }
  }

  lemma PutLater<K, V>(rel: (K, V, V) -> bool, a: map<K, V>, m: map<K, V>, later: map<K, V>, k: K, x: V)
    requires Pairwise(rel, a, m + later) && later.Keys !! m.Keys && k in later && rel(k, x, later[k])
    ensures Pairwise(rel, a[k := x], m + later)
  {
  }

  /** A put at the only key where the relation need not hold yet. */
  lemma PutOver<K, V>(rel: (K, V, V) -> bool, a: map<K, V>, m: map<K, V>, later: map<K, V>, k: K, x: V)
    requires a.Keys == (m + later).Keys && later.Keys !! m.Keys && k in later && rel(k, x, later[k])
    requires forall l :: l in a && l != k ==> rel(l, a[l], (m + later)[l])
    ensures Pairwise(rel, a[k := x], m + later)
  {
  }

  // ---- the router ----

  lemma ReceivedRefs(i: InstanceSnapshot, from: InstanceId, sig: PendingSignal, r: RouteId)
    ensures Refs(Received(i, from, sig), r) == if r == sig.route then SatAdd32(Refs(i, r), 1) else Refs(i, r)
  {
  }

  lemma ReceivedPrivate(i: InstanceSnapshot, from: InstanceId, sig: PendingSignal)
    ensures Private(Received(i, from, sig)) == Private(i) && Received(i, from, sig).inboxSeq == SatAdd(i.inboxSeq, 1)
    ensures Received(i, from, sig).config == i.config
  {
  }

  lemma ReceivedPositive(i: InstanceSnapshot, from: InstanceId, sig: PendingSignal)
    requires forall r :: r in i.inflightRefs ==> i.inflightRefs[r] > 0
    ensures forall r :: r in Received(i, from, sig).inflightRefs ==> Received(i, from, sig).inflightRefs[r] > 0
  {
  }

  lemma ReceivedInbox(j: InstanceSnapshot, i: InstanceSnapshot, from: InstanceId, sig: PendingSignal)
    requires j.signalInbox == i.signalInbox && j.inboxSeq == i.inboxSeq
    ensures Received(j, from, sig).signalInbox == Received(i, from, sig).signalInbox
  {
  }

  /** A delivery on both sides keeps the lead, and whatever difference there was. */
  lemma ReceivedLeads(j: InstanceSnapshot, i: InstanceSnapshot, from: InstanceId, sig: PendingSignal)
    requires Leads(j, i)
    ensures Leads(Received(j, from, sig), Received(i, from, sig))
    ensures MoreMail(j, i) ==> MoreMail(Received(j, from, sig), Received(i, from, sig))
    ensures forall r :: MoreRefs(j, i, r) ==> MoreRefs(Received(j, from, sig), Received(i, from, sig), r)
  {
    ReceivedPrivate(j, from, sig);
    ReceivedPrivate(i, from, sig);
    ReceivedPositive(i, from, sig);
    forall r
      ensures Refs(Received(j, from, sig), r) >= Refs(Received(i, from, sig), r)
      ensures MoreRefs(j, i, r) ==> MoreRefs(Received(j, from, sig), Received(i, from, sig), r)
    {
      ReceivedRefs(j, from, sig, r);
      ReceivedRefs(i, from, sig, r);
    }
    if j.signalInbox == i.signalInbox && j.inboxSeq == i.inboxSeq {
      ReceivedInbox(j, i, from, sig);
    }
  }

  /** A delivery to an uncapped instance on the replica alone widens the lead. */
  lemma ReceivedAlone(j: InstanceSnapshot, i: InstanceSnapshot, from: InstanceId, sig: PendingSignal)
    requires Leads(j, i) && i.config.maxInboxPerRoute == 0
    ensures Leads(Received(j, from, sig), i) && MoreMail(Received(j, from, sig), i)
    ensures forall r :: MoreRefs(j, i, r) ==> MoreRefs(Received(j, from, sig), i, r)
  {
    ReceivedPrivate(j, from, sig);
    forall r
      ensures Refs(Received(j, from, sig), r) >= Refs(i, r)
      ensures MoreRefs(j, i, r) ==> MoreRefs(Received(j, from, sig), i, r)
    {
      ReceivedRefs(j, from, sig, r);
    }
  }

  /** Both inboxes are full or neither is. */
  lemma SameRoom(j: InstanceSnapshot, i: InstanceSnapshot, route: RouteId)
    requires Leads(j, i)
    ensures InboxFull(j, route) == InboxFull(i, route)
  {
    assert Private(j).config == Private(i).config;
  }

  lemma BothReceive(t: Trace, id: InstanceId, j: InstanceSnapshot, i: InstanceSnapshot, from: InstanceId, sig: PendingSignal)
    requires Ahead(t, id, j, i)
    ensures Ahead(t, id, Received(j, from, sig), Received(i, from, sig))
  {
    ReceivedLeads(j, i, from, sig);
  }

  lemma ReplicaReceives(t: Trace, id: InstanceId, j: InstanceSnapshot, i: InstanceSnapshot, from: InstanceId, sig: PendingSignal)
    requires Ahead(t, id, j, i) && i.config.maxInboxPerRoute == 0
    ensures Ahead(t, id, Received(j, from, sig), i) && Ahead(LostSignal(id), id, Received(j, from, sig), i)
  {
    ReceivedAlone(j, i, from, sig);
  }

  ghost predicate Uncapped(later: Instances) {
    forall id :: id in later ==> later[id].config.maxInboxPerRoute == 0
  }

  lemma ReceivedByBoth(a: Instances, m: Instances, later: Instances, id: InstanceId, from: InstanceId, sig: PendingSignal, t: Trace)
    requires later.Keys !! m.Keys && Pairwise(Lead(t), a, m + later) && id in m && id in a && Ahead(t, id, a[id], m[id])
    ensures var m' := m[id := Received(m[id], from, sig)];
            m'.Keys == m.Keys && Pairwise(Lead(t), a[id := Received(a[id], from, sig)], m' + later)
  {
    BothReceive(t, id, a[id], m[id], from, sig);
    PutPair(Lead(t), a, m, later, id, Received(a[id], from, sig), Received(m[id], from, sig));
  }

  lemma RouteToBoth(a: Instances, m: Instances, later: Instances, from: InstanceId, sig: PendingSignal, t: Trace)
    requires later.Keys !! m.Keys && Pairwise(Lead(t), a, m + later) && sig.target in m
    ensures Route(m, from, sig).0.Keys == m.Keys && Pairwise(Lead(t), Route(a, from, sig).0, Route(m, from, sig).0 + later)
  {
    var id := sig.target;
    PairAt(Lead(t), a, m, later, id);
    SameRoom(a[id], m[id], sig.route);
    if !InboxFull(m[id], sig.route) {
      ReceivedByBoth(a, m, later, id, from, sig, t);
    }
  }

  lemma RouteToReplica(a: Instances, m: Instances, later: Instances, from: InstanceId, sig: PendingSignal, t: Trace)
    requires later.Keys !! m.Keys && Uncapped(later) && Pairwise(Lead(t), a, m + later) && sig.target in later
    ensures Route(m, from, sig).0 == m && Pairwise(Lead(t), Route(a, from, sig).0, m + later)
  {
    var id := sig.target;
    PairAt(Lead(t), a, m, later, id);
    SameRoom(a[id], later[id], sig.route);
    ReplicaReceives(t, id, a[id], later[id], from, sig);
    PutLater(Lead(t), a, m, later, id, Received(a[id], from, sig));
  }

  lemma AheadOtherwise(t: Trace, id: InstanceId, l: InstanceId, j: InstanceSnapshot, i: InstanceSnapshot)
    requires l != id && Ahead(t, l, j, i)
    ensures Ahead(LostSignal(id), l, j, i)
  {
  }

  lemma RouteToReplicaShows(a: Instances, m: Instances, later: Instances, from: InstanceId, sig: PendingSignal, t: Trace)
    requires later.Keys !! m.Keys && Uncapped(later) && Pairwise(Lead(t), a, m + later) && sig.target in later
    ensures Pairwise(Lead(LostSignal(sig.target)), Route(a, from, sig).0, m + later)
  {
    var id := sig.target;
    PairAt(Lead(t), a, m, later, id);
    SameRoom(a[id], later[id], sig.route);
    ReplicaReceives(t, id, a[id], later[id], from, sig);
    forall l | l in a && l != id ensures Lead(LostSignal(id))(l, a[l], (m + later)[l]) {
      assert Lead(t)(l, a[l], (m + later)[l]);
      AheadOtherwise(t, id, l, a[l], (m + later)[l]);
    }
    PutOver(Lead(LostSignal(id)), a, m, later, id, Received(a[id], from, sig));
  }

  /** One signal on both sides; one that names an instance only the replica has shows from now on. */
  lemma RouteLeads(a: Instances, m: Instances, later: Instances, from: InstanceId, sig: PendingSignal, t: Trace)
    requires later.Keys !! m.Keys && Uncapped(later) && Pairwise(Lead(t), a, m + later)
    ensures var (a', m') := (Route(a, from, sig).0, Route(m, from, sig).0);
            && m'.Keys == m.Keys && Pairwise(Lead(t), a', m' + later)
            && (sig.target in later ==> Pairwise(Lead(LostSignal(sig.target)), a', m' + later))
  {
    if sig.target in m {
      RouteToBoth(a, m, later, from, sig, t);
    } else if sig.target in later {
      RouteToReplica(a, m, later, from, sig, t);
      RouteToReplicaShows(a, m, later, from, sig, t);
    }
  }

  lemma {:induction false} RouteAllLeads(a: Instances, m: Instances, later: Instances, from: InstanceId, sigs: seq<PendingSignal>, t: Trace)
    requires later.Keys !! m.Keys && Uncapped(later) && Pairwise(Lead(t), a, m + later)
    ensures var (a', m') := (RouteAll(a, from, sigs).0, RouteAll(m, from, sigs).0);
            m'.Keys == m.Keys && Pairwise(Lead(t), a', m' + later)
    decreases |sigs|
  {
    if sigs != [] {
      RouteAllLeads(a, m, later, from, sigs[..|sigs|-1], t);
      RouteLeads(RouteAll(a, from, sigs[..|sigs|-1]).0, RouteAll(m, from, sigs[..|sigs|-1]).0, later, from, sigs[|sigs|-1], t);
    }
  }

  /** A signal anywhere in the list that names an instance only the replica has. */
  lemma {:induction false} MissedShows(a: Instances, m: Instances, later: Instances, from: InstanceId, sigs: seq<PendingSignal>, n: nat)
    requires n < |sigs| && sigs[n].target in later
    requires later.Keys !! m.Keys && Uncapped(later) && Pairwise(Lead(Told), a, m + later)
    ensures var (a', m') := (RouteAll(a, from, sigs).0, RouteAll(m, from, sigs).0);
            m'.Keys == m.Keys && Pairwise(Lead(LostSignal(sigs[n].target)), a', m' + later)
    decreases |sigs|
  {
    var init, last := sigs[..|sigs|-1], sigs[|sigs|-1];
    if n == |init| {
      RouteAllLeads(a, m, later, from, init, Told);
      RouteLeads(RouteAll(a, from, init).0, RouteAll(m, from, init).0, later, from, last, Told);
    } else {
      MissedShows(a, m, later, from, init, n);
      RouteLeads(RouteAll(a, from, init).0, RouteAll(m, from, init).0, later, from, last, LostSignal(sigs[n].target));
    }
  }

  // ---- one processed step ----

  lemma SameMailLeads(j: InstanceSnapshot, i: InstanceSnapshot, y: InstanceSnapshot, x: InstanceSnapshot)
    requires Leads(j, i) && SameMail(j, y) && SameMail(i, x) && Private(y) == Private(x)
    ensures Leads(y, x) && (MoreMail(j, i) ==> MoreMail(y, x)) && (forall r :: MoreRefs(j, i, r) ==> MoreRefs(y, x, r))
  {
    forall r ensures Refs(y, r) == Refs(j, r) && Refs(x, r) == Refs(i, r) {
    }
  }

  /** A step keeps the lead of the instance it runs on: it reads and writes private state only. */
  lemma StepLeads(reg: Registry, j: InstanceSnapshot, i: InstanceSnapshot, id: InstanceId, now: Tick, session: Caps, t: Trace)
    requires Ahead(t, id, j, i) && S.Due(i.scheduler, now)
    ensures S.Due(j.scheduler, now)
    ensures var (y, b) := StepOne(reg, j, id, now, session, true).value;
            var (x, a) := StepOne(reg, i, id, now, session, true).value;
            Ahead(t, id, y, x) && b.pendingSignals == a.pendingSignals
  {
    assert Private(j).scheduler == Private(i).scheduler;
    StepReadsPrivate(reg, j, i, id, now, session, true, true);
    StepKeepsMail(reg, i, id, now, session, true);
    StepKeepsMail(reg, j, id, now, session, true);
    var (y, b) := StepOne(reg, j, id, now, session, true).value;
    var (x, a) := StepOne(reg, i, id, now, session, true).value;
    assert Report(b).pendingSignals == Report(a).pendingSignals;
    SameMailLeads(j, i, y, x);
  }

  /** Processing `id` comes down to putting `i` in its place and routing `sigs`. */
  ghost predicate Via(reg: Registry, m: Instances, id: InstanceId, now: Tick, session: Caps, i: InstanceSnapshot, sigs: seq<PendingSignal>) {
    && id in m && Process(reg, m, id, now, session, true).Ran?
    && Process(reg, m, id, now, session, true).instances == RouteAll(m[id := i], id, sigs).0
  }

  lemma ProcessVia(reg: Registry, m: Instances, id: InstanceId, now: Tick, session: Caps)
    requires id in m && S.Due(m[id].scheduler, now)
    ensures var (i, core) := StepOne(reg, m[id], id, now, session, true).value;
            Via(reg, m, id, now, session, i, core.pendingSignals)
  {
  }

  lemma StepPair(reg: Registry, a: Instances, m: Instances, id: InstanceId, now: Tick, session: Caps, t: Trace)
      returns (j: InstanceSnapshot, i: InstanceSnapshot, sigs: seq<PendingSignal>)
    requires id in m && id in a && Ahead(t, id, a[id], m[id]) && S.Due(m[id].scheduler, now)
    ensures Ahead(t, id, j, i) && sigs == StepOne(reg, m[id], id, now, session, true).value.1.pendingSignals
    ensures Via(reg, m, id, now, session, i, sigs) && Via(reg, a, id, now, session, j, sigs)
  {
    StepLeads(reg, a[id], m[id], id, now, session, t);
    ProcessVia(reg, m, id, now, session);
    ProcessVia(reg, a, id, now, session);
    i, sigs := StepOne(reg, m[id], id, now, session, true).value.0, StepOne(reg, m[id], id, now, session, true).value.1.pendingSignals;
    j := StepOne(reg, a[id], id, now, session, true).value.0;
  }

  /** The instances after the step of `id` alone, before its signals are routed, and those signals. */
  lemma SteppedLeads(reg: Registry, a: Instances, m: Instances, later: Instances, id: InstanceId, now: Tick, session: Caps, t: Trace)
      returns (j: InstanceSnapshot, i: InstanceSnapshot, sigs: seq<PendingSignal>)
    requires later.Keys !! m.Keys && Pairwise(Lead(t), a, m + later) && id in m && S.Due(m[id].scheduler, now)
    ensures Pairwise(Lead(t), a[id := j], m[id := i] + later)
    ensures sigs == StepOne(reg, m[id], id, now, session, true).value.1.pendingSignals
    ensures Via(reg, m, id, now, session, i, sigs) && Via(reg, a, id, now, session, j, sigs)
  {
    PairAt(Lead(t), a, m, later, id);
    j, i, sigs := StepPair(reg, a, m, id, now, session, t);
    PutPair(Lead(t), a, m, later, id, j, i);
  }

  lemma ProcessLeads(reg: Registry, a: Instances, m: Instances, later: Instances, id: InstanceId, now: Tick, session: Caps, t: Trace)
    requires later.Keys !! m.Keys && Uncapped(later) && Pairwise(Lead(t), a, m + later)
    requires id in m && S.Due(m[id].scheduler, now)
    ensures var x, y := Process(reg, m, id, now, session, true), Process(reg, a, id, now, session, true);
            x.Ran? && y.Ran? && Pairwise(Lead(t), y.instances, x.instances + later)
  {
    var j, i, sigs := SteppedLeads(reg, a, m, later, id, now, session, t);
    RouteAllLeads(a[id := j], m[id := i], later, id, sigs, t);
  }

  /** A signal lost for want of a later instance shows on the replica. */
  lemma ProcessMisses(reg: Registry, a: Instances, m: Instances, later: Instances, id: InstanceId, now: Tick, session: Caps) returns (t: Trace)
    requires later.Keys !! m.Keys && Uncapped(later) && Pairwise(Lead(Told), a, m + later)
    requires id in m && Process(reg, m, id, now, session, true).Ran?
    requires !NoneMissed(Process(reg, m, id, now, session, true).events, later)
    ensures t.LostSignal? && t.missed in later
    ensures var x, y := Process(reg, m, id, now, session, true), Process(reg, a, id, now, session, true);
            y.Ran? && Pairwise(Lead(t), y.instances, x.instances + later)
  {
    var j, i, sigs := SteppedLeads(reg, a, m, later, id, now, session, Told);
    var n := MissedSignal(reg, m, later, id, now, session);
    MissedShows(a[id := j], m[id := i], later, id, sigs, n);
    t := LostSignal(sigs[n].target);
  }

  lemma MissedSignal(reg: Registry, m: Instances, later: Instances, id: InstanceId, now: Tick, session: Caps) returns (n: nat)
    requires id in m && Process(reg, m, id, now, session, true).Ran?
    requires !NoneMissed(Process(reg, m, id, now, session, true).events, later)
    ensures var sigs := StepOne(reg, m[id], id, now, session, true).value.1.pendingSignals;
            n < |sigs| && sigs[n].target in later
  {
    var (i, c) := StepOne(reg, m[id], id, now, session, true).value;
    StepIsQuiet(reg, m[id], id, now, session, true);
    n := MissedAmong(CommitEvents(c, id, now), m[id := i], later, id, c.pendingSignals);
  }

  lemma MissedAmong(quiet: seq<KernelEvent>, m: Instances, later: Instances, from: InstanceId, sigs: seq<PendingSignal>) returns (n: nat)
    requires Quiet(quiet) && !NoneMissed(quiet + RouteAll(m, from, sigs).1, later)
    ensures n < |sigs| && sigs[n].target in later
  {
    var routed := RouteAll(m, from, sigs).1;
    EachSignalAnsweredOnce(m, from, sigs);
    var e: KernelEvent :| e in quiet + routed && e.SignalDropped? && e.reason.TargetNotFound? && e.target in later;
    assert e !in quiet;
    n :| 0 <= n < |routed| && routed[n] == e;
    assert Answers(routed[n], from, sigs[n]);
  }

  // ---- records ----

  /** The instance a trace speaks of exists. */
  predicate Known(t: Trace, m: Instances) {
    match t
    case Told => true
    case LostRefs(id, _) => id in m
    case LostSignal(id) => id in m
  }

  /** Wherever the replay still runs, its instances lead the live ones and show the trace. */
  ghost predicate Leading(st: ReplayState, m: Instances, t: Trace) {
    Known(t, m) && (st.Replaying? ==> Pairwise(Lead(t), st.instances, m))
  }

  lemma LeadAppend(reg: Registry, m0: Instances, w: WriterState, entry: LogEntry)
    ensures Replayed(reg, m0, Append(w, entry)) == ReplayRecord(reg, Replayed(reg, m0, w), RecordContent(SatAdd(w.nextSeq, 1), entry))
  {
    var w' := Append(w, entry);
    assert w'.records[..|w'.records|-1] == w.records;
  }

  lemma EnqueueAhead(t: Trace, x: InstanceId, j: InstanceSnapshot, i: InstanceSnapshot, s: Submission, id: ScheduledActionId)
    requires Ahead(t, x, j, i)
    ensures j.idCounters == i.idCounters && Ahead(t, x, Enqueue(j, s, id, id), Enqueue(i, s, id, id))
  {
    EnqueueKeepsPrivate(i, j, s, id);
    SameMailLeads(j, i, Enqueue(j, s, id, id), Enqueue(i, s, id, id));
  }

  lemma AdmittedLeads(a: Instances, m: Instances, later: Instances, s: Submission, id: ScheduledActionId, t: Trace)
    requires later.Keys !! m.Keys && Pairwise(Lead(t), a, m + later) && s.instance in m
    requires id == SatAdd(m[s.instance].idCounters.nextScheduled, 1)
    ensures var r := SubmitWithId(a, s, id);
            r.Ok? && Pairwise(Lead(t), r.value, m[s.instance := Enqueue(m[s.instance], s, id, id)] + later)
  {
    var x := s.instance;
    PairAt(Lead(t), a, m, later, x);
    EnqueueAhead(t, x, a[x], m[x], s, id);
    PutPair(Lead(t), a, m, later, x, Enqueue(a[x], s, id, id), Enqueue(m[x], s, id, id));
  }

  lemma ReplayedSubmit(reg: Registry, st: ReplayState, s: Submission, id: ScheduledActionId, at: U64)
    requires st.Replaying? && SubmitWithId(st.instances, s, id).Ok?
    ensures var st' := ReplayRecord(reg, st, RecordContent(at, SubmitEntryFor(s, id)));
            st'.Replaying? && st'.instances == SubmitWithId(st.instances, s, id).value
  {
    assert SubmissionOf(SubmitEntryFor(s, id)) == s;
  }

  lemma KnownStill(t: Trace, m: Instances, m': Instances, later: Instances)
    requires m.Keys == m'.Keys && Known(t, m + later)
    ensures Known(t, m' + later)
  {
  }

  lemma LeadRecorded(reg: Registry, st: ReplayState, m: Instances, later: Instances, s: Submission, id: ScheduledActionId, at: U64, t: Trace)
    requires st.Replaying? && later.Keys !! m.Keys && Pairwise(Lead(t), st.instances, m + later)
    requires s.instance in m && id == SatAdd(m[s.instance].idCounters.nextScheduled, 1)
    ensures var st' := ReplayRecord(reg, st, RecordContent(at, SubmitEntryFor(s, id)));
            Pairwise(Lead(t), st'.instances, m[s.instance := Enqueue(m[s.instance], s, id, id)] + later)
  {
    AdmittedLeads(st.instances, m, later, s, id, t);
    ReplayedSubmit(reg, st, s, id, at);
  }

  /** Whatever one more record does, the trace stands if the lead does. */
  lemma LeadNext(reg: Registry, m0: Instances, w: WriterState, entry: LogEntry, m: Instances, m': Instances, later: Instances, t: Trace)
    requires Leading(Replayed(reg, m0, w), m + later, t) && m'.Keys == m.Keys
    requires var st := Replayed(reg, m0, w);
             var st' := ReplayRecord(reg, st, RecordContent(SatAdd(w.nextSeq, 1), entry));
             st.Replaying? && st'.Replaying? ==> Pairwise(Lead(t), st'.instances, m' + later)
    ensures Leading(Replayed(reg, m0, Append(w, entry)), m' + later, t)
  {
    LeadAppend(reg, m0, w, entry);
    KnownStill(t, m, m', later);
  }

  lemma LeadAdmitted(reg: Registry, m0: Instances, w: WriterState, m: Instances, later: Instances, s: Submission, id: ScheduledActionId,
                     m': Instances, t: Trace)
    requires later.Keys !! m.Keys && Leading(Replayed(reg, m0, w), m + later, t)
    requires s.instance in m && id == SatAdd(m[s.instance].idCounters.nextScheduled, 1)
    requires m' == m[s.instance := Enqueue(m[s.instance], s, id, id)]
    ensures m'.Keys == m.Keys && Leading(Replayed(reg, m0, Append(w, SubmitEntryFor(s, id))), m' + later, t)
  {
    var st := Replayed(reg, m0, w);
    if st.Replaying? {
      LeadRecorded(reg, st, m, later, s, id, SatAdd(w.nextSeq, 1), t);
    }
    assert m'.Keys == m.Keys;
    LeadNext(reg, m0, w, SubmitEntryFor(s, id), m, m', later, t);
  }

  lemma LeadSubmit(reg: Registry, m0: Instances, k: KernelState, later: Instances, s: Submission, t: Trace)
    requires k.wal.Some? && later.Keys !! k.instances.Keys && Leading(Replayed(reg, m0, k.wal.value), k.instances + later, t)
    ensures var k' := Submit(k, s).0;
            && k'.wal.Some? && k'.instances.Keys == k.instances.Keys && k'.nextInstanceId == k.nextInstanceId
            && Leading(Replayed(reg, m0, k'.wal.value), k'.instances + later, t)
  {
    var r := Submit(k, s).1;
    if r.Ok? {
      LeadAdmitted(reg, m0, k.wal.value, k.instances, later, s, r.value, Submit(k, s).0.instances, t);
    }
  }

  lemma JudgedInstances(st: ReplayState, done: Processed, e: LogEntry, at: U64)
    requires st.Replaying? && e.StepEntry? && done.Ran?
    ensures var st' := Judged(st, done, e, at); st'.Replaying? ==> st'.instances == done.instances
  {
  }

  lemma ReplayedStep(reg: Registry, st: ReplayState, id: InstanceId, r: InstanceStepResult, now: Tick, session: Caps, at: U64, y: Processed)
    requires st.Replaying? && y == Process(reg, st.instances, id, now, session, true) && y.Ran?
    ensures var st' := ReplayRecord(reg, st, RecordContent(at, StepEntryFor(id, r, now, session)));
            st'.Replaying? ==> st'.instances == y.instances
  {
    JudgedInstances(st, y, StepEntryFor(id, r, now, session), at);
  }

  /** One visit of a pass: the trace stands, or the first signal missed becomes it. */
  lemma LeadVisit(reg: Registry, m0: Instances, p: Pass, later: Instances, id: InstanceId, now: Tick, session: Caps, t: Trace)
      returns (t': Trace)
    requires p.k.wal.Some? && later.Keys !! p.k.instances.Keys && Uncapped(later)
    requires Leading(Replayed(reg, m0, p.k.wal.value), p.k.instances + later, t)
    requires t.Told? ==> NoneMissed(p.events, later)
    ensures var p' := Visit(reg, p, id, now, session);
            && p'.k.wal.Some? && p'.k.instances.Keys == p.k.instances.Keys
            && Leading(Replayed(reg, m0, p'.k.wal.value), p'.k.instances + later, t')
            && (t'.Told? ==> t.Told? && NoneMissed(p'.events, later))
  {
    t' := t;
    var x := Process(reg, p.k.instances, id, now, session, true);
    if x.Ran? {
      ProcessIsPrivate(reg, p.k.instances, id, now, session, true);
      if t.Told? && !NoneMissed(x.events, later) {
        t' := LeadRan(reg, m0, p.k, later, id, now, session);
      } else {
        LeadOn(reg, m0, p.k, later, id, now, session, t);
      }
    }
  }

  lemma LeadOn(reg: Registry, m0: Instances, k: KernelState, later: Instances, id: InstanceId, now: Tick, session: Caps, t: Trace)
    requires k.wal.Some? && later.Keys !! k.instances.Keys && Uncapped(later) && Leading(Replayed(reg, m0, k.wal.value), k.instances + later, t)
    requires id in k.instances && Process(reg, k.instances, id, now, session, true).Ran?
    ensures var x := Process(reg, k.instances, id, now, session, true);
            && x.instances.Keys == k.instances.Keys
            && Leading(Replayed(reg, m0, Append(k.wal.value, StepEntryFor(id, x.result, now, session))), x.instances + later, t)
  {
    var w, st := k.wal.value, Replayed(reg, m0, k.wal.value);
    var x := Process(reg, k.instances, id, now, session, true);
    ProcessIsPrivate(reg, k.instances, id, now, session, true);
    LeadAppend(reg, m0, w, StepEntryFor(id, x.result, now, session));
    if st.Replaying? {
      ProcessLeads(reg, st.instances, k.instances, later, id, now, session, t);
      ReplayedStep(reg, st, id, x.result, now, session, SatAdd(w.nextSeq, 1), Process(reg, st.instances, id, now, session, true));
    }
  }

  lemma LeadRan(reg: Registry, m0: Instances, k: KernelState, later: Instances, id: InstanceId, now: Tick, session: Caps) returns (t: Trace)
    requires k.wal.Some? && later.Keys !! k.instances.Keys && Uncapped(later) && Leading(Replayed(reg, m0, k.wal.value), k.instances + later, Told)
    requires id in k.instances && Process(reg, k.instances, id, now, session, true).Ran?
    requires !NoneMissed(Process(reg, k.instances, id, now, session, true).events, later)
    ensures t != Told
    ensures var x := Process(reg, k.instances, id, now, session, true);
            && x.instances.Keys == k.instances.Keys
            && Leading(Replayed(reg, m0, Append(k.wal.value, StepEntryFor(id, x.result, now, session))), x.instances + later, t)
  {
    var w, st := k.wal.value, Replayed(reg, m0, k.wal.value);
    var x := Process(reg, k.instances, id, now, session, true);
    ProcessIsPrivate(reg, k.instances, id, now, session, true);
    LeadAppend(reg, m0, w, StepEntryFor(id, x.result, now, session));
    if st.Replaying? {
      t := ProcessMisses(reg, st.instances, k.instances, later, id, now, session);
      ReplayedStep(reg, st, id, x.result, now, session, SatAdd(w.nextSeq, 1), Process(reg, st.instances, id, now, session, true));
    } else {
      var n := MissedSignal(reg, k.instances, later, id, now, session);
      t := LostSignal(StepOne(reg, k.instances[id], id, now, session, true).value.1.pendingSignals[n].target);
    }
  }

  lemma {:induction false} LeadPass(reg: Registry, m0: Instances, p: Pass, later: Instances, ids: seq<InstanceId>, now: Tick, session: Caps, t: Trace)
      returns (t': Trace)
    requires p.k.wal.Some? && later.Keys !! p.k.instances.Keys && Uncapped(later)
    requires Leading(Replayed(reg, m0, p.k.wal.value), p.k.instances + later, t)
    requires t.Told? ==> NoneMissed(p.events, later)
    ensures var p' := VisitAll(reg, p, ids, now, session);
            && p'.k.wal.Some? && p'.k.instances.Keys == p.k.instances.Keys
            && Leading(Replayed(reg, m0, p'.k.wal.value), p'.k.instances + later, t')
            && (t'.Told? ==> t.Told? && NoneMissed(p'.events, later))
    decreases |ids|
  {
    t' := t;
    if ids != [] {
      t' := LeadPass(reg, m0, p, later, ids[..|ids|-1], now, session, t);
      t' := LeadVisit(reg, m0, VisitAll(reg, p, ids[..|ids|-1], now, session), later, ids[|ids|-1], now, session, t');
    }
  }

  // ---- unloads ----

  lemma DroppedRefs(i: InstanceSnapshot, route: RouteId, r: RouteId)
    ensures Refs(DropRoute(i, route), r) == if r == route then 0 else Refs(i, r)
  {
  }

  /** An unload on the live side alone keeps the lead, and shows wherever it dropped something. */
  lemma UnloadAhead(t: Trace, id: InstanceId, j: InstanceSnapshot, i: InstanceSnapshot, route: RouteId)
    requires Ahead(t, id, j, i)
    ensures Ahead(t, id, j, DropRoute(i, route))
    ensures route in i.inflightRefs ==> Ahead(LostRefs(id, route), id, j, DropRoute(i, route))
  {
    var d := DropRoute(i, route);
    assert Private(d) == Private(i) && d.config == i.config;
    forall r ensures Refs(d, r) == if r == route then 0 else Refs(i, r) {
      DroppedRefs(i, route, r);
    }
  }

  lemma ReplacePairs<K, V>(rel: (K, V, V) -> bool, a: map<K, V>, m: map<K, V>, later: map<K, V>, m': map<K, V>)
    requires later.Keys !! m.Keys && Pairwise(rel, a, m + later) && m'.Keys == m.Keys
    requires forall k :: k in m ==> k in a && rel(k, a[k], m'[k])
    ensures Pairwise(rel, a, m' + later)
  {
    forall k | k in a ensures rel(k, a[k], (m' + later)[k]) {
      assert rel(k, a[k], (m + later)[k]);
    }
  }

  /** Replaces one relation by another on the way. */
  lemma SwapPairs<K, V>(rel: (K, V, V) -> bool, rel': (K, V, V) -> bool, a: map<K, V>, m: map<K, V>, later: map<K, V>, m': map<K, V>)
    requires later.Keys !! m.Keys && Pairwise(rel, a, m + later) && m'.Keys == m.Keys
    requires forall k :: k in m ==> k in a && rel'(k, a[k], m'[k])
    requires forall k :: k in later ==> k in a && rel'(k, a[k], later[k])
    ensures Pairwise(rel', a, m' + later)
  {
  }

  lemma UnloadOne(a: Instances, m: Instances, later: Instances, route: RouteId, t: Trace, id: InstanceId)
    requires later.Keys !! m.Keys && Pairwise(Lead(t), a, m + later) && id in m
    ensures id in a && Lead(t)(id, a[id], DropRouteAll(m, route)[id])
  {
    PairAt(Lead(t), a, m, later, id);
    UnloadAhead(t, id, a[id], m[id], route);
  }

  ghost predicate EachLeads(a: Instances, m: Instances, m': Instances, t: Trace) {
    m'.Keys == m.Keys && forall id :: id in m' ==> id in a && Lead(t)(id, a[id], m'[id])
  }

  lemma UnloadEach(a: Instances, m: Instances, later: Instances, route: RouteId, t: Trace)
    requires later.Keys !! m.Keys && Pairwise(Lead(t), a, m + later)
    ensures EachLeads(a, m, DropRouteAll(m, route), t)
  {
    forall id | id in m ensures id in a && Lead(t)(id, a[id], DropRouteAll(m, route)[id]) {
      UnloadOne(a, m, later, route, t, id);
    }
  }

  lemma ReplaceLeads(a: Instances, m: Instances, later: Instances, t: Trace, m': Instances)
    requires later.Keys !! m.Keys && Pairwise(Lead(t), a, m + later)
    requires EachLeads(a, m, m', t)
    ensures Pairwise(Lead(t), a, m' + later)
  {
    ReplacePairs(Lead(t), a, m, later, m');
  }

  lemma UnloadLeads(a: Instances, m: Instances, later: Instances, route: RouteId, t: Trace)
    requires later.Keys !! m.Keys && Pairwise(Lead(t), a, m + later)
    ensures Pairwise(Lead(t), a, DropRouteAll(m, route) + later)
  {
    UnloadEach(a, m, later, route, t);
    ReplaceLeads(a, m, later, t, DropRouteAll(m, route));
  }

  lemma Retraced(t: Trace, id: InstanceId, j: InstanceSnapshot, i: InstanceSnapshot)
    requires Ahead(Told, id, j, i) && (t.LostRefs? ==> t.unloaded != id) && (t.LostSignal? ==> t.missed != id)
    ensures Ahead(t, id, j, i)
  {
  }

  lemma UnloadShowsAt(a: Instances, m: Instances, later: Instances, route: RouteId, held: InstanceId, id: InstanceId)
    requires later.Keys !! m.Keys && Pairwise(Lead(Told), a, m + later)
    requires held in m && route in m[held].inflightRefs && id in m
    ensures id in a && Lead(LostRefs(held, route))(id, a[id], DropRouteAll(m, route)[id])
  {
    PairAt(Lead(Told), a, m, later, id);
    UnloadAhead(Told, id, a[id], m[id], route);
    if id != held {
      Retraced(LostRefs(held, route), id, a[id], DropRoute(m[id], route));
    }
  }

  lemma RetracedLater(a: Instances, m: Instances, later: Instances, t: Trace, id: InstanceId)
    requires later.Keys !! m.Keys && Pairwise(Lead(Told), a, m + later) && id in later
    requires t.LostRefs? && t.unloaded in m
    ensures id in a && Lead(t)(id, a[id], later[id])
  {
    PairAt(Lead(Told), a, m, later, id);
    Retraced(t, id, a[id], later[id]);
  }

  lemma UnloadShowsEach(a: Instances, m: Instances, later: Instances, route: RouteId, t: Trace)
    requires later.Keys !! m.Keys && Pairwise(Lead(Told), a, m + later)
    requires t.LostRefs? && t.route == route && t.unloaded in m && route in m[t.unloaded].inflightRefs
    ensures EachLeads(a, m, DropRouteAll(m, route), t)
  {
    forall id | id in m ensures id in a && Lead(t)(id, a[id], DropRouteAll(m, route)[id]) {
      UnloadShowsAt(a, m, later, route, t.unloaded, id);
    }
  }

  lemma SwapLeads(a: Instances, m: Instances, later: Instances, t: Trace, m': Instances)
    requires later.Keys !! m.Keys && Pairwise(Lead(Told), a, m + later) && t.LostRefs? && t.unloaded in m
    requires EachLeads(a, m, m', t)
    ensures Pairwise(Lead(t), a, m' + later)
  {
    forall id | id in later ensures id in a && Lead(t)(id, a[id], later[id]) {
      RetracedLater(a, m, later, t, id);
    }
    SwapPairs(Lead(Told), Lead(t), a, m, later, m');
  }

  lemma UnloadShows(a: Instances, m: Instances, later: Instances, route: RouteId, t: Trace)
    requires later.Keys !! m.Keys && Pairwise(Lead(Told), a, m + later)
    requires t.LostRefs? && t.route == route && t.unloaded in m && route in m[t.unloaded].inflightRefs
    ensures Pairwise(Lead(t), a, DropRouteAll(m, route) + later)
  {
    UnloadShowsEach(a, m, later, route, t);
    SwapLeads(a, m, later, t, DropRouteAll(m, route));
  }

  lemma LeadUnload(st: ReplayState, m: Instances, later: Instances, route: RouteId, t: Trace) returns (t': Trace)
    requires later.Keys !! m.Keys && Leading(st, m + later, t)
    ensures Leading(st, DropRouteAll(m, route) + later, t')
    ensures t'.Told? ==> t.Told? && forall id :: id in m ==> route !in m[id].inflightRefs
  {
    t' := t;
    if t.Told? && exists id :: id in m && route in m[id].inflightRefs {
      var held :| held in m && route in m[held].inflightRefs;
      t' := LostRefs(held, route);
      if st.Replaying? {
        UnloadShows(st.instances, m, later, route, t');
      }
    } else if st.Replaying? {
      UnloadLeads(st.instances, m, later, route, t);
    }
  }

  // ---- the whole run ----

  /** The run creates no instance that caps its inboxes. */
  predicate UncappedCreations(inputs: seq<Input>) {
    forall n :: 0 <= n < |inputs| && inputs[n].DoCreate? ==> inputs[n].config.maxInboxPerRoute == 0
  }

  lemma {:induction false} LaterUncapped(next: U64, rest: seq<Input>)
    requires UncappedCreations(rest)
    ensures Uncapped(Later(next, rest))
    decreases |rest|
  {
    if rest != [] {
      assert forall n :: 0 <= n < |rest| - 1 ==> rest[1..][n] == rest[n+1];
      LaterUncapped(if rest[0].DoCreate? then SatAdd(next, 1) else next, rest[1..]);
    }
  }

  ghost predicate LeadingAhead(reg: Registry, m0: Instances, k: KernelState, rest: seq<Input>, t: Trace) {
    && k.wal.Some? && Room(k, rest) && UncappedCreations(rest)
    && Leading(Replayed(reg, m0, k.wal.value), k.instances + Later(k.nextInstanceId, rest), t)
  }

  lemma LeadStep(reg: Registry, m0: Instances, k: KernelState, later: Instances, now: Tick, session: Caps, t: Trace) returns (t': Trace)
    requires k.wal.Some? && later.Keys !! k.instances.Keys && Uncapped(later) && Leading(Replayed(reg, m0, k.wal.value), k.instances + later, t)
    ensures var p' := StepKernel(reg, k, now, session);
            && p'.k.wal.Some? && p'.k.instances.Keys == k.instances.Keys && p'.k.nextInstanceId == k.nextInstanceId
            && Leading(Replayed(reg, m0, p'.k.wal.value), p'.k.instances + later, t')
            && (t'.Told? ==> t.Told? && NoneMissed(p'.events, later))
  {
    var p := Pass(k, StepReport(0, 0, 0, 0), [], []);
    t' := LeadPass(reg, m0, p, later, Ids(k.instances), now, session, t);
    PassKeepsIdCounter(reg, p, Ids(k.instances), now, session);
  }

  lemma TailUncapped(rest: seq<Input>)
    requires rest != [] && UncappedCreations(rest)
    ensures UncappedCreations(rest[1..])
  {
    assert forall n :: 0 <= n < |rest| - 1 ==> rest[1..][n] == rest[n+1];
  }

  lemma UncappedStays(k: KernelState, k': KernelState, rest: seq<Input>)
    requires rest != [] && !rest[0].DoCreate? && Room(k, rest) && UncappedCreations(rest)
    requires k'.instances.Keys == k.instances.Keys && k'.nextInstanceId == k.nextInstanceId
    ensures Room(k', rest[1..]) && UncappedCreations(rest[1..])
    ensures var later := Later(k.nextInstanceId, rest);
            later == Later(k'.nextInstanceId, rest[1..]) && later.Keys !! k.instances.Keys && Uncapped(later)
  {
    LaterStays(k, k', rest);
    TailUncapped(rest);
    LaterUncapped(k.nextInstanceId, rest);
  }

  lemma LeadCreate(reg: Registry, m0: Instances, k: KernelState, rest: seq<Input>, t: Trace)
    requires rest != [] && rest[0].DoCreate? && LeadingAhead(reg, m0, k, rest, t)
    ensures LeadingAhead(reg, m0, React(reg, k, rest[0]).k, rest[1..], t)
  {
    CreateMovesLater(k, rest);
    TailUncapped(rest);
  }

  lemma LeadSubmission(reg: Registry, m0: Instances, k: KernelState, rest: seq<Input>, t: Trace)
    requires rest != [] && rest[0].DoSubmit? && LeadingAhead(reg, m0, k, rest, t)
    ensures LeadingAhead(reg, m0, React(reg, k, rest[0]).k, rest[1..], t)
  {
    UncappedStays(k, k, rest);
    LeadSubmit(reg, m0, k, Later(k.nextInstanceId, rest), rest[0].submission, t);
    UncappedStays(k, Submit(k, rest[0].submission).0, rest);
  }

  lemma LeadTick(reg: Registry, m0: Instances, k: KernelState, rest: seq<Input>, t: Trace) returns (t': Trace)
    requires rest != [] && rest[0].DoStep? && LeadingAhead(reg, m0, k, rest, t)
    ensures LeadingAhead(reg, m0, React(reg, k, rest[0]).k, rest[1..], t')
    ensures t'.Told? ==> t.Told? && Traceable(reg, k, rest[0], Later(k.nextInstanceId, rest))
  {
    UncappedStays(k, k, rest);
    t' := LeadStep(reg, m0, k, Later(k.nextInstanceId, rest), rest[0].now, rest[0].session, t);
    UncappedStays(k, StepKernel(reg, k, rest[0].now, rest[0].session).k, rest);
  }

  lemma LeadDrop(reg: Registry, m0: Instances, k: KernelState, rest: seq<Input>, t: Trace) returns (t': Trace)
    requires rest != [] && rest[0].DoUnload? && LeadingAhead(reg, m0, k, rest, t)
    ensures LeadingAhead(reg, m0, React(reg, k, rest[0]).k, rest[1..], t')
    ensures t'.Told? ==> t.Told? && Traceable(reg, k, rest[0], Later(k.nextInstanceId, rest))
  {
    t' := t;
    UncappedStays(k, ForceUnload(k, rest[0].route, rest[0].caps).0, rest);
    if Contains(rest[0].caps, ADMIN_UNLOAD) {
      t' := LeadUnload(Replayed(reg, m0, k.wal.value), k.instances, Later(k.nextInstanceId, rest), rest[0].route, t);
    }
  }

  /** One input: an untraceable one leaves a trace, and a trace stays. */
  lemma LeadReact(reg: Registry, m0: Instances, k: KernelState, rest: seq<Input>, t: Trace) returns (t': Trace)
    requires rest != [] && LeadingAhead(reg, m0, k, rest, t)
    ensures LeadingAhead(reg, m0, React(reg, k, rest[0]).k, rest[1..], t')
    ensures t'.Told? ==> t.Told? && Traceable(reg, k, rest[0], Later(k.nextInstanceId, rest))
  {
    t' := t;
    match rest[0]
    case DoCreate(_) => LeadCreate(reg, m0, k, rest, t);
    case DoSubmit(_) => LeadSubmission(reg, m0, k, rest, t);
    case DoStep(_, _) => t' := LeadTick(reg, m0, k, rest, t);
    case DoUnload(_, _) => t' := LeadDrop(reg, m0, k, rest, t);
  }

  lemma LeadInput(reg: Registry, m0: Instances, k: KernelState, inputs: seq<Input>, n: nat, t: Trace) returns (t': Trace)
    requires n < |inputs| && LeadingAhead(reg, m0, Run(reg, k, inputs[..n]), inputs[n..], t)
    ensures LeadingAhead(reg, m0, Run(reg, k, inputs[..n+1]), inputs[n+1..], t')
    ensures t'.Told? ==> t.Told? && TraceableAt(reg, k, inputs, n)
  {
    var before, rest := Run(reg, k, inputs[..n]), inputs[n..];
    assert rest[0] == inputs[n] && rest[1..] == inputs[n+1..];
    t' := LeadReact(reg, m0, before, rest, t);
    RunSnoc(reg, k, inputs, n);
  }

  lemma {:induction false} LeadRun(reg: Registry, m0: Instances, k: KernelState, inputs: seq<Input>, n: nat) returns (t: Trace)
    requires n <= |inputs| && LeadingAhead(reg, m0, k, inputs, Told)
    ensures LeadingAhead(reg, m0, Run(reg, k, inputs[..n]), inputs[n..], t)
    ensures t.Told? ==> forall l :: 0 <= l < n ==> TraceableAt(reg, k, inputs, l)
    decreases n
  {
    t := Told;
    if n == 0 {
      assert inputs[..0] == [] && inputs[0..] == inputs;
    } else {
      t := LeadRun(reg, m0, k, inputs, n - 1);
      t := LeadInput(reg, m0, k, inputs, n - 1, t);
    }
  }

  /** No reference entry is empty. */
  ghost predicate CountsPositive(m: Instances) {
    forall id, r :: id in m && r in m[id].inflightRefs ==> m[id].inflightRefs[r] > 0
  }

  /** No delivery or reference count has reached its cap. */
  ghost predicate CountsUnsaturated(m: Instances) {
    forall id :: id in m ==> m[id].inboxSeq < U64_MAX && forall r :: Refs(m[id], r) < U32_MAX
  }

  lemma LeadsItself(i: InstanceSnapshot)
    requires forall r :: r in i.inflightRefs ==> i.inflightRefs[r] > 0
    ensures Leads(i, i)
  {
  }

  lemma {:induction false} LaterLeads(next: U64, rest: seq<Input>)
    ensures forall id :: id in Later(next, rest) ==> Leads(Later(next, rest)[id], Later(next, rest)[id])
    decreases |rest|
  {
    if rest != [] {
      LaterLeads(if rest[0].DoCreate? then SatAdd(next, 1) else next, rest[1..]);
      if rest[0].DoCreate? {
        LeadsItself(Fresh(SatAdd(next, 1), rest[0].config));
      }
    }
  }

  lemma LeadStart(reg: Registry, k: KernelState, inputs: seq<Input>, world: WorldId, c: SignatureClass)
    requires k.wal == Some(NewWriter(world, k.manifest, c)) && Room(k, inputs) && CountsPositive(k.instances) && UncappedCreations(inputs)
    ensures LeadingAhead(reg, k.instances + Later(k.nextInstanceId, inputs), k, inputs, Told)
  {
    var m0 := k.instances + Later(k.nextInstanceId, inputs);
    LaterLeads(k.nextInstanceId, inputs);
    forall id | id in m0 ensures Lead(Told)(id, m0[id], m0[id]) {
      if id in k.instances && id !in Later(k.nextInstanceId, inputs) {
        LeadsItself(k.instances[id]);
      }
    }
  }

  lemma ShowsElsewhere(t: Trace, id: InstanceId, i: InstanceSnapshot)
    requires Ahead(t, id, i, i) && i.inboxSeq < U64_MAX && forall r :: Refs(i, r) < U32_MAX
    ensures (t.LostRefs? ==> t.unloaded != id) && (t.LostSignal? ==> t.missed != id)
  {
  }

  lemma UnsaturatedShowsNothing(m: Instances, t: Trace)
    requires CountsUnsaturated(m) && Pairwise(Lead(t), m, m) && Known(t, m)
    ensures t.Told?
  {
    forall id | id in m ensures (t.LostRefs? ==> t.unloaded != id) && (t.LostSignal? ==> t.missed != id) {
      ShowsElsewhere(t, id, m[id]);
    }
  }

  lemma ReplayEndsWhereItStands(reg: Registry, m0: Instances, w: WriterState)
    requires ReplayRecords(reg, m0, FromWriter(w)).1.Ok?
    ensures Replayed(reg, m0, w).Replaying? && Replayed(reg, m0, w).instances == ReplayRecords(reg, m0, FromWriter(w)).0
  {
  }

  lemma ReproducedIsReplayed(reg: Registry, replica: KernelState, end: KernelState, h: WalHeader)
    requires Logging(end, h) && h.manifest == replica.manifest && h.pins == CURRENT_PINS && Reproduces(reg, replica, end)
    ensures var st := Replayed(reg, replica.instances, end.wal.value); st.Replaying? && st.instances == end.instances
  {
    AcceptedLog(reg, replica, end, h);
    ReplayEndsWhereItStands(reg, replica.instances, end.wal.value);
  }

  lemma LeadWhole(reg: Registry, m0: Instances, k: KernelState, inputs: seq<Input>) returns (t: Trace)
    requires LeadingAhead(reg, m0, k, inputs, Told)
    ensures var end := Run(reg, k, inputs); end.wal.Some? && Leading(Replayed(reg, m0, end.wal.value), end.instances, t)
    ensures t.Told? ==> TraceableRun(reg, k, inputs)
  {
    t := LeadRun(reg, m0, k, inputs, |inputs|);
    assert inputs[..|inputs|] == inputs && inputs[|inputs|..] == [];
    var end := Run(reg, k, inputs);
    assert end.instances + Later(end.nextInstanceId, []) == end.instances;
  }

  /** Replay is documented as bit-identical. It is so for a run of submissions, steps, creations and
      unloads in any order if and only if no unload found a reference to drop and no signal was lost for
      want of an instance created later. (What could hide a difference is left out: references already
      counted as none, inboxes of late instances that refuse signals, and counts at their caps.) */
  lemma ReplayReproducesExactly(reg: Registry, live: KernelState, replica: KernelState, inputs: seq<Input>,
                                world: WorldId, c: SignatureClass)
    requires live.wal == Some(NewWriter(world, live.manifest, c)) && Room(live, inputs)
    requires replica.manifest == live.manifest && replica.instances == Run(reg, live, Creations(inputs)).instances
    requires CountsPositive(live.instances) && UncappedCreations(inputs) && CountsUnsaturated(Run(reg, live, inputs).instances)
    ensures Reproduces(reg, replica, Run(reg, live, inputs)) <==> TraceableRun(reg, live, inputs)
  {
    if TraceableRun(reg, live, inputs) {
      ReplayReproducesRun(reg, live, replica, inputs, world, c);
    }
    if Reproduces(reg, replica, Run(reg, live, inputs)) {
      ReproducedIsTraceable(reg, live, replica, inputs, world, c);
    }
  }

  lemma ReproducedIsTraceable(reg: Registry, live: KernelState, replica: KernelState, inputs: seq<Input>, world: WorldId, c: SignatureClass)
    requires live.wal == Some(NewWriter(world, live.manifest, c)) && Room(live, inputs)
    requires replica.manifest == live.manifest && replica.instances == Run(reg, live, Creations(inputs)).instances
    requires CountsPositive(live.instances) && UncappedCreations(inputs) && CountsUnsaturated(Run(reg, live, inputs).instances)
    requires Reproduces(reg, replica, Run(reg, live, inputs))
    ensures TraceableRun(reg, live, inputs)
  {
    var end := Run(reg, live, inputs);
    NewWriterSound(world, live.manifest, c);
    RunKeepsLogging(reg, live, inputs, live.wal.value.header);
    CreatedUpFront(reg, live, inputs);
    LeadStart(reg, live, inputs, world, c);
    var t := LeadWhole(reg, replica.instances, live, inputs);
    ReproducedIsReplayed(reg, replica, end, live.wal.value.header);
    UnsaturatedShowsNothing(end.instances, t);
  }
}
