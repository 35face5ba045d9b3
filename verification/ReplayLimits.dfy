/** What the log leaves out: forced unloads, and when an instance was created. */
module ReplayLimits {
  import opened Abi
  import opened Instance
  import opened Stage
  import opened Step
  import opened Wal
  import opened Kernel
  import opened Replay
  import opened Isolation
  import opened Signals
  import S = Scheduler

  // ---- two instances that differ in their mail at most ----

  lemma SameWithSameMail(i: InstanceSnapshot, j: InstanceSnapshot)
    requires Private(i) == Private(j)
    ensures i == j <==> i.signalInbox == j.signalInbox && i.inboxSeq == j.inboxSeq && i.inflightRefs == j.inflightRefs
  {
  }

  lemma DigestIsOfResult(reg: Registry, i: InstanceSnapshot, id: InstanceId, now: Tick, session: Caps)
    requires S.Due(i.scheduler, now)
    ensures var (j, core) := StepOne(reg, i, id, now, session, true).value; core.digest == StateDigest(j)
  {
  }

  /** Steps of two instances with the same private state pop the same id and reach the same verdict;
      their digests agree if and only if the instances were the same, mail included. */
  lemma OnlyTheDigestSeesMail(reg: Registry, i: InstanceSnapshot, j: InstanceSnapshot, id: InstanceId, now: Tick, session: Caps)
    requires Private(i) == Private(j) && S.Due(i.scheduler, now)
    ensures S.Due(j.scheduler, now)
    ensures var a, b := StepOne(reg, i, id, now, session, true).value.1, StepOne(reg, j, id, now, session, true).value.1;
            && a.poppedId == b.poppedId && a.verdict == b.verdict
            && (a.digest == b.digest <==> i == j)
  {
    assert Private(i).scheduler == Private(j).scheduler;
    StepReadsPrivate(reg, i, j, id, now, session, true, true);
    StepKeepsMail(reg, i, id, now, session, true);
    StepKeepsMail(reg, j, id, now, session, true);
    var (x, a) := StepOne(reg, i, id, now, session, true).value;
    var (y, b) := StepOne(reg, j, id, now, session, true).value;
    assert a.poppedId == Report(a).poppedId && b.poppedId == Report(b).poppedId;
    assert a.verdict == Report(a).verdict && b.verdict == Report(b).verdict;
    DigestIsOfResult(reg, i, id, now, session);
    DigestIsOfResult(reg, j, id, now, session);
    SameWithSameMail(i, j);
    SameWithSameMail(x, y);
  }

  /** What a live step of `i` writes to the log. */
  ghost function WrittenBy(reg: Registry, i: InstanceSnapshot, id: InstanceId, now: Tick, session: Caps): LogEntry
    requires S.Due(i.scheduler, now)
  {
    var core := StepOne(reg, i, id, now, session, true).value.1;
    StepEntry(id, core.poppedId, now, session, core.verdict, core.digest)
  }

  /** When the replica's instance has the live one's private state, replaying the live step stops if
      and only if the two differ in inbox, inbox sequence or in-flight counts, and the tripwire that
      stops it is the state digest. */
  lemma MailDivergesExactly(reg: Registry, st: ReplayState, i: InstanceSnapshot, id: InstanceId, now: Tick, session: Caps, at: U64)
    requires st.Replaying? && id in st.instances && Private(i) == Private(st.instances[id]) && S.Due(i.scheduler, now)
    ensures var replayed := ReplayStep(reg, st, WrittenBy(reg, i, id, now, session), at);
            && (replayed.Stopped? <==> i != st.instances[id])
            && (replayed.Stopped? ==> replayed.error == StateDigestDivergence(at))
  {
    OnlyTheDigestSeesMail(reg, i, st.instances[id], id, now, session);
  }

  // ---- forced unloads ----

  /** An unload leaves no record. When the live kernel unloads `route` and then steps `id`, replaying
      that step from the state before the unload diverges if and only if `id` held references on it. */
  lemma UnloadDivergesExactly(reg: Registry, st: ReplayState, id: InstanceId, route: RouteId, now: Tick, session: Caps, at: U64)
    requires st.Replaying? && id in st.instances && S.Due(st.instances[id].scheduler, now)
    ensures var live := DropRouteAll(st.instances, route)[id];
            var replayed := ReplayStep(reg, st, WrittenBy(reg, live, id, now, session), at);
            && (replayed.Stopped? <==> route in st.instances[id].inflightRefs)
            && (replayed.Stopped? ==> replayed.error == StateDigestDivergence(at))
  {
    var i := st.instances[id];
    var live := DropRoute(i, route);
    assert Private(live) == Private(i);
    SameWithSameMail(live, i);
    if route !in i.inflightRefs {
      assert i.inflightRefs - {route} == i.inflightRefs;
    }
    MailDivergesExactly(reg, st, live, id, now, session, at);
  }

  // ---- signals to an instance that is yet to be created ----

  predicate Addressed(sigs: seq<PendingSignal>, id: InstanceId) {
    exists n :: 0 <= n < |sigs| && sigs[n].target == id
  }

  lemma AddressedSnoc(sigs: seq<PendingSignal>, id: InstanceId)
    requires sigs != []
    ensures Addressed(sigs, id) <==> Addressed(sigs[..|sigs|-1], id) || sigs[|sigs|-1].target == id
  {
  }

  /** Had the instance been created before these signals were routed, it would not be fresh now if
      and only if one of them names it: a new inbox is never full. */
  lemma {:induction false} EarlyCreationShowsExactly(m: Instances, id: InstanceId, config: InstanceConfig, from: InstanceId, sigs: seq<PendingSignal>)
    ensures var m' := RouteAll(m[id := Fresh(id, config)], from, sigs).0;
            && id in m' && Private(m'[id]) == Private(Fresh(id, config))
            && (m'[id] == Fresh(id, config) <==> !Addressed(sigs, id))
            && (Addressed(sigs, id) ==> m'[id].inboxSeq > 0)
    decreases |sigs|
  {
    if sigs != [] {
      EarlyCreationShowsExactly(m, id, config, from, sigs[..|sigs|-1]);
      AddressedSnoc(sigs, id);
    }
  }

  /** Replay needs its instances created up front, but the live kernel may have created `id` only after
      routing `sigs`, losing those that name it. Replaying the first step of `id` then diverges if and
      only if there was such a signal. */
  lemma EarlySignalDivergesExactly(reg: Registry, st: ReplayState, m: Instances, id: InstanceId, config: InstanceConfig,
                                   from: InstanceId, sigs: seq<PendingSignal>, s: Submission, now: Tick, session: Caps, at: U64)
    requires st.Replaying? && id in st.instances && s.at <= now
    requires EarlyCreated(st.instances[id], m, id, config, from, sigs, s)
    ensures var live := Enqueue(Fresh(id, config), s, 1, 1);
            && S.Due(live.scheduler, now)
            && var replayed := ReplayStep(reg, st, WrittenBy(reg, live, id, now, session), at);
               && (replayed.Stopped? <==> Addressed(sigs, id))
               && (replayed.Stopped? ==> replayed.error == StateDigestDivergence(at))
  {
    EarlyCreationShowsExactly(m, id, config, from, sigs);
    var live := Enqueue(Fresh(id, config), s, 1, 1);
    var early := RouteAll(m[id := Fresh(id, config)], from, sigs).0[id];
    EnqueueKeepsDifference(Fresh(id, config), early, s);
    assert live.scheduler.ready == map[S.SchedKey(s.at, 0, 1) := EntryFor(s, 1)];
    assert live.scheduler.ready.Keys == {S.SchedKey(s.at, 0, 1)};
    MailDivergesExactly(reg, st, live, id, now, session, at);
  }

  /** `j` is the instance as it would be had it been created before `sigs` were routed, with its first
      submission queued. */
  ghost predicate EarlyCreated(j: InstanceSnapshot, m: Instances, id: InstanceId, config: InstanceConfig, from: InstanceId,
                               sigs: seq<PendingSignal>, s: Submission) {
    var m' := RouteAll(m[id := Fresh(id, config)], from, sigs).0;
    id in m' && j == Enqueue(m'[id], s, 1, 1)
  }

  lemma EnqueueKeepsDifference(i: InstanceSnapshot, j: InstanceSnapshot, s: Submission)
    requires Private(i) == Private(j)
    ensures Private(Enqueue(i, s, 1, 1)) == Private(Enqueue(j, s, 1, 1))
    ensures Enqueue(i, s, 1, 1) == Enqueue(j, s, 1, 1) <==> i == j
  {
  }
}
