/** What a committed action leaves behind, place by place: each queued child, each entity, each component,
    each counter, as the action's own operations say. */
module Effects {
  import opened Abi
  import opened Authz
  import opened Instance
  import opened Stage
  import opened Step
  import opened Verdicts
  import L = Ledger
  import S = Scheduler

  // ---- children ----

  /** The queue once the operations' children are filed, in order, under ids and sequence numbers that
      count on from where they stand. */
  function Filed(ready: map<S.SchedKey, S.ScheduledEntry>, nextSeq: U64, nextId: U64, principal: Principal, caps: Caps, ops: seq<Op>)
      : map<S.SchedKey, S.ScheduledEntry> {
    if ops == [] then ready
    else
      var init, op := ops[..|ops|-1], ops[|ops|-1];
      var before := Filed(ready, nextSeq, nextId, principal, caps, init);
      if !op.ScheduleAction? then before
      else
        var id := Min(nextId + Schedules(init) + 1, U64_MAX);
        before[S.SchedKey(op.at, Min(nextSeq + Schedules(init), U64_MAX), id) :=
               S.ScheduledEntry(id, op.at, op.actor, principal, op.actionType, op.actionBytes, caps)]
  }

  function FiledIds(byId: map<ScheduledActionId, S.SchedKey>, nextSeq: U64, nextId: U64, ops: seq<Op>): map<ScheduledActionId, S.SchedKey> {
    if ops == [] then byId
    else
      var init, op := ops[..|ops|-1], ops[|ops|-1];
      var before := FiledIds(byId, nextSeq, nextId, init);
      if !op.ScheduleAction? then before
      else
        var id := Min(nextId + Schedules(init) + 1, U64_MAX);
        before[id := S.SchedKey(op.at, Min(nextSeq + Schedules(init), U64_MAX), id)]
  }

  /** The queue and the counters of `j` are those of `p` with the children of `ops` filed. */
  ghost predicate Schedule(p: InstanceSnapshot, j: InstanceSnapshot, principal: Principal, caps: Caps, ops: seq<Op>) {
    var (s, t) := (p.scheduler, j.scheduler);
    && t.ready == Filed(s.ready, s.nextSeq, p.idCounters.nextScheduled, principal, caps, ops)
    && t.byId == FiledIds(s.byId, s.nextSeq, p.idCounters.nextScheduled, ops)
    && t.nextSeq == Min(s.nextSeq + Schedules(ops), U64_MAX)
    && j.idCounters == IdCounters(Min(p.idCounters.nextEntity + Spawns(ops), U64_MAX),
                                  Min(p.idCounters.nextScheduled + Schedules(ops), U64_MAX), p.idCounters.nextSourceSeq)
  }

  lemma {:induction false} ExecSchedules(o: Origin, p: InstanceSnapshot, ops: seq<Op>)
    ensures Schedule(p, ExecAll(o, p, ops), o.principal, o.caps, ops)
    decreases |ops|
  {
    if ops != [] {
      var init, op := ops[..|ops|-1], ops[|ops|-1];
      ExecSchedules(o, p, init);
      ExecSchedulesNext(o, p, ExecAll(o, p, init), init, op);
      assert ops == init + [op];
    }
  }

  lemma ExecSchedulesNext(o: Origin, p: InstanceSnapshot, j: InstanceSnapshot, init: seq<Op>, op: Op)
    requires Schedule(p, j, o.principal, o.caps, init)
    ensures Schedule(p, Exec(o, j, op), o.principal, o.caps, init + [op])
  {
    assert (init + [op])[..|init|] == init;
    CountsNext(init, op);
  }

  // ---- entities and components ----

  /** What is known of one entity after `ops`: the last spawn or despawn that names it decides. */
  function EntityAfter(i: InstanceSnapshot, now: Tick, ops: seq<Op>, entity: EntityId): Option<EntityMeta> {
    if ops == [] then (if entity in i.entities then Some(i.entities[entity]) else None)
    else
      match ops[|ops|-1]
      case SpawnEntity(e, owner) =>
        if e == entity then Some(EntityMeta(owner, now)) else EntityAfter(i, now, ops[..|ops|-1], entity)
      case DespawnEntity(e) => if e == entity then None else EntityAfter(i, now, ops[..|ops|-1], entity)
      case _ => EntityAfter(i, now, ops[..|ops|-1], entity)
  }

  /** The bytes of one component after `ops`: a set takes hold only while its entity lives, a removal or
      the end of the entity clears it. */
  function BytesAfter(i: InstanceSnapshot, now: Tick, ops: seq<Op>, entity: EntityId, tc: TypeCode): Option<Bytes> {
    if ops == [] then (if (entity, tc) in i.components then Some(i.components[(entity, tc)]) else None)
    else
      var init := ops[..|ops|-1];
      match ops[|ops|-1]
      case SetComponent(e, t, bytes, _) =>
        if e == entity && t == tc && EntityAfter(i, now, init, entity).Some? then Some(bytes) else BytesAfter(i, now, init, entity, tc)
      case RemoveComponent(e, t, _) => if e == entity && t == tc then None else BytesAfter(i, now, init, entity, tc)
      case DespawnEntity(e) => if e == entity then None else BytesAfter(i, now, init, entity, tc)
      case _ => BytesAfter(i, now, init, entity, tc)
  }

  /** The two stores of `j` are what `ops` make of those of `i`. */
  ghost predicate Stored(i: InstanceSnapshot, j: InstanceSnapshot, now: Tick, ops: seq<Op>) {
    && (forall e: EntityId :: (e in j.entities <==> EntityAfter(i, now, ops, e).Some?) &&
                              (e in j.entities ==> j.entities[e] == EntityAfter(i, now, ops, e).value))
    && (forall k: L.ComponentKey :: (k in j.components <==> BytesAfter(i, now, ops, k.0, k.1).Some?) &&
                                    (k in j.components ==> j.components[k] == BytesAfter(i, now, ops, k.0, k.1).value))
  }

  lemma EntityNext(i: InstanceSnapshot, now: Tick, ops: seq<Op>, op: Op, entity: EntityId)
    ensures EntityAfter(i, now, ops + [op], entity) ==
            if op.SpawnEntity? && op.spawned == entity then Some(EntityMeta(op.owner, now))
            else if op.DespawnEntity? && op.despawned == entity then None
            else EntityAfter(i, now, ops, entity)
  {
    assert (ops + [op])[..|ops|] == ops;
  }

  lemma BytesNext(i: InstanceSnapshot, now: Tick, ops: seq<Op>, op: Op, entity: EntityId, tc: TypeCode)
    ensures BytesAfter(i, now, ops + [op], entity, tc) ==
            if op.SetComponent? && op.entity == entity && op.typeCode == tc && EntityAfter(i, now, ops, entity).Some? then Some(op.bytes)
            else if op.RemoveComponent? && op.removedFrom == entity && op.removedType == tc then None
            else if op.DespawnEntity? && op.despawned == entity then None
            else BytesAfter(i, now, ops, entity, tc)
  {
    assert (ops + [op])[..|ops|] == ops;
  }

  lemma ExecStoresNext(o: Origin, i: InstanceSnapshot, j: InstanceSnapshot, ops: seq<Op>, op: Op)
    requires Stored(i, j, o.now, ops)
    ensures Stored(i, Exec(o, j, op), o.now, ops + [op])
  {
    forall e ensures EntityAfter(i, o.now, ops + [op], e) ==
                     if op.SpawnEntity? && op.spawned == e then Some(EntityMeta(op.owner, o.now))
                     else if op.DespawnEntity? && op.despawned == e then None
                     else EntityAfter(i, o.now, ops, e)
    {
      EntityNext(i, o.now, ops, op, e);
    }
    forall e, tc ensures BytesAfter(i, o.now, ops + [op], e, tc) ==
                         if op.SetComponent? && op.entity == e && op.typeCode == tc && EntityAfter(i, o.now, ops, e).Some? then Some(op.bytes)
                         else if op.RemoveComponent? && op.removedFrom == e && op.removedType == tc then None
                         else if op.DespawnEntity? && op.despawned == e then None
                         else BytesAfter(i, o.now, ops, e, tc)
    {
      BytesNext(i, o.now, ops, op, e, tc);
    }
  }

  lemma {:induction false} ExecStores(o: Origin, i: InstanceSnapshot, ops: seq<Op>)
    ensures Stored(i, ExecAll(o, i, ops), o.now, ops)
    decreases |ops|
  {
    if ops != [] {
      var init, op := ops[..|ops|-1], ops[|ops|-1];
      ExecStores(o, i, init);
      ExecStoresNext(o, i, ExecAll(o, i, init), init, op);
      assert ops == init + [op];
    }
  }

  // ---- the accounts ----

  /** Whether the accounts know the entity after `ops`. */
  function KnownAfter(l: L.LedgerState, ops: seq<Op>, entity: EntityId): bool {
    if ops == [] then entity in l.entities
    else
      match ops[|ops|-1]
      case SpawnEntity(e, _) => e == entity || KnownAfter(l, ops[..|ops|-1], entity)
      case DespawnEntity(e) => e != entity && KnownAfter(l, ops[..|ops|-1], entity)
      case _ => KnownAfter(l, ops[..|ops|-1], entity)
  }

  /** The size accounted for one component after `ops`. */
  function SizeAfter(l: L.LedgerState, ops: seq<Op>, entity: EntityId, tc: TypeCode): Option<U64> {
    if ops == [] then (if (entity, tc) in l.sizes then Some(l.sizes[(entity, tc)]) else None)
    else
      var init := ops[..|ops|-1];
      if !KnownAfter(l, init, entity) then SizeAfter(l, init, entity, tc)
      else
        match ops[|ops|-1]
        case SetComponent(e, t, _, size) => if e == entity && t == tc then Some(size) else SizeAfter(l, init, entity, tc)
        case RemoveComponent(e, t, _) => if e == entity && t == tc then None else SizeAfter(l, init, entity, tc)
        case DespawnEntity(e) => if e == entity then None else SizeAfter(l, init, entity, tc)
        case _ => SizeAfter(l, init, entity, tc)
  }

  ghost predicate Accounted(l: L.LedgerState, l': L.LedgerState, ops: seq<Op>) {
    && (forall e: EntityId :: e in l'.entities <==> KnownAfter(l, ops, e))
    && (forall k: L.ComponentKey :: (k in l'.sizes <==> SizeAfter(l, ops, k.0, k.1).Some?) &&
                                    (k in l'.sizes ==> l'.sizes[k] == SizeAfter(l, ops, k.0, k.1).value))
  }

  lemma KnownNext(l: L.LedgerState, ops: seq<Op>, op: Op, entity: EntityId)
    ensures KnownAfter(l, ops + [op], entity) <==>
            (op.SpawnEntity? && op.spawned == entity) || (KnownAfter(l, ops, entity) && !(op.DespawnEntity? && op.despawned == entity))
  {
    assert (ops + [op])[..|ops|] == ops;
  }

  lemma SizeNext(l: L.LedgerState, ops: seq<Op>, op: Op, entity: EntityId, tc: TypeCode)
    ensures SizeAfter(l, ops + [op], entity, tc) ==
            if !KnownAfter(l, ops, entity) then SizeAfter(l, ops, entity, tc)
            else if op.SetComponent? && op.entity == entity && op.typeCode == tc then Some(op.size)
            else if op.RemoveComponent? && op.removedFrom == entity && op.removedType == tc then None
            else if op.DespawnEntity? && op.despawned == entity then None
            else SizeAfter(l, ops, entity, tc)
  {
    assert (ops + [op])[..|ops|] == ops;
  }

  lemma ExecKnownNext(o: Origin, l: L.LedgerState, j: InstanceSnapshot, ops: seq<Op>, op: Op)
    requires forall e: EntityId :: e in j.ledger.entities <==> KnownAfter(l, ops, e)
    ensures forall e: EntityId :: e in Exec(o, j, op).ledger.entities <==> KnownAfter(l, ops + [op], e)
  {
    forall e: EntityId ensures e in Exec(o, j, op).ledger.entities <==> KnownAfter(l, ops + [op], e) {
      KnownNext(l, ops, op, e);
    }
  }

  /** What one operation does to one accounted size. */
  lemma ExecSize(o: Origin, j: InstanceSnapshot, op: Op, k: L.ComponentKey)
    ensures var (l, l') := (j.ledger, Exec(o, j, op).ledger);
            var set' := k.0 in l.entities && op.SetComponent? && (op.entity, op.typeCode) == k;
            var gone := k.0 in l.entities && ((op.RemoveComponent? && (op.removedFrom, op.removedType) == k) || (op.DespawnEntity? && op.despawned == k.0));
            && (k in l'.sizes <==> set' || (k in l.sizes && !gone))
            && (k in l'.sizes ==> l'.sizes[k] == if set' then op.size else l.sizes[k])
  {
  }

  lemma ExecSizesNext(o: Origin, l: L.LedgerState, j: InstanceSnapshot, ops: seq<Op>, op: Op)
    requires Accounted(l, j.ledger, ops)
    ensures forall k: L.ComponentKey :: (k in Exec(o, j, op).ledger.sizes <==> SizeAfter(l, ops + [op], k.0, k.1).Some?) &&
                                        (k in Exec(o, j, op).ledger.sizes ==> Exec(o, j, op).ledger.sizes[k] == SizeAfter(l, ops + [op], k.0, k.1).value)
  {
    forall k: L.ComponentKey
      ensures (k in Exec(o, j, op).ledger.sizes <==> SizeAfter(l, ops + [op], k.0, k.1).Some?) &&
              (k in Exec(o, j, op).ledger.sizes ==> Exec(o, j, op).ledger.sizes[k] == SizeAfter(l, ops + [op], k.0, k.1).value)
    {
      ExecSize(o, j, op, k);
      SizeNext(l, ops, op, k.0, k.1);
    }
  }

  lemma ExecAccountsNext(o: Origin, l: L.LedgerState, j: InstanceSnapshot, ops: seq<Op>, op: Op)
    requires Accounted(l, j.ledger, ops)
    ensures Accounted(l, Exec(o, j, op).ledger, ops + [op])
  {
    ExecKnownNext(o, l, j, ops, op);
    ExecSizesNext(o, l, j, ops, op);
  }

  lemma {:induction false} ExecAccounts(o: Origin, i: InstanceSnapshot, ops: seq<Op>)
    ensures Accounted(i.ledger, ExecAll(o, i, ops).ledger, ops)
    decreases |ops|
  {
    if ops != [] {
      var init, op := ops[..|ops|-1], ops[|ops|-1];
      ExecAccounts(o, i, init);
      ExecAccountsNext(o, i.ledger, ExecAll(o, i, init), init, op);
      assert ops == init + [op];
    }
  }

  // ---- what a step leaves ----

  /** The places no operation reaches. */
  ghost predicate Elsewhere(i: InstanceSnapshot, j: InstanceSnapshot) {
    j == i.(entities := j.entities, components := j.components, ledger := j.ledger, scheduler := j.scheduler, idCounters := j.idCounters)
  }

  lemma {:induction false} ExecElsewhere(o: Origin, i: InstanceSnapshot, ops: seq<Op>)
    ensures Elsewhere(i, ExecAll(o, i, ops))
    decreases |ops|
  {
    if ops != [] {
      ExecElsewhere(o, i, ops[..|ops|-1]);
      ExecOneElsewhere(o, ExecAll(o, i, ops[..|ops|-1]), ops[|ops|-1]);
    }
  }

  lemma ExecOneElsewhere(o: Origin, i: InstanceSnapshot, op: Op)
    ensures Elsewhere(i, Exec(o, i, op))
  {
  }

  /** Everything a committed step leaves on its instance `i`, given the admitted operations: `j` is `i`
      without the popped entry, changed as they say. */
  ghost predicate Left(i: InstanceSnapshot, j: InstanceSnapshot, key: S.SchedKey, now: Tick, caps: Caps, kept: seq<Op>)
    requires key in i.scheduler.ready
  {
    var (e, s) := (i.scheduler.ready[key], i.scheduler);
    && Elsewhere(i, j) && Stored(i, j, now, kept) && Accounted(i.ledger, j.ledger, kept)
    && j.scheduler.ready == Filed(s.ready - {key}, s.nextSeq, i.idCounters.nextScheduled, e.principal, caps, kept)
    && j.scheduler.byId == FiledIds(s.byId - {e.id}, s.nextSeq, i.idCounters.nextScheduled, kept)
    && j.scheduler.nextSeq == Min(s.nextSeq + Schedules(kept), U64_MAX)
    && j.idCounters == IdCounters(Min(i.idCounters.nextEntity + Spawns(kept), U64_MAX),
                                  Min(i.idCounters.nextScheduled + Schedules(kept), U64_MAX), i.idCounters.nextSourceSeq)
  }

  lemma {:induction false} SameStores(i: InstanceSnapshot, p: InstanceSnapshot, now: Tick, ops: seq<Op>, entity: EntityId, tc: TypeCode)
    requires p.entities == i.entities && p.components == i.components
    ensures EntityAfter(p, now, ops, entity) == EntityAfter(i, now, ops, entity)
    ensures BytesAfter(p, now, ops, entity, tc) == BytesAfter(i, now, ops, entity, tc)
    decreases |ops|
  {
    if ops != [] {
      SameStores(i, p, now, ops[..|ops|-1], entity, tc);
    }
  }

  lemma StoredFrom(i: InstanceSnapshot, p: InstanceSnapshot, j: InstanceSnapshot, now: Tick, ops: seq<Op>)
    requires p.entities == i.entities && p.components == i.components && Stored(p, j, now, ops)
    ensures Stored(i, j, now, ops)
  {
    forall e: EntityId ensures EntityAfter(p, now, ops, e) == EntityAfter(i, now, ops, e) {
      SameStores(i, p, now, ops, e, 0);
    }
    forall e: EntityId, tc: TypeCode ensures BytesAfter(p, now, ops, e, tc) == BytesAfter(i, now, ops, e, tc) {
      SameStores(i, p, now, ops, e, tc);
    }
  }

  lemma ExecLeaves(i: InstanceSnapshot, key: S.SchedKey, now: Tick, o: Origin, kept: seq<Op>)
    requires IsNext(i, key, now) && o.now == now && o.principal == i.scheduler.ready[key].principal
    ensures S.Head(i.scheduler.ready.Keys) == key && Left(i, ExecAll(o, AfterPop(i), kept), key, now, o.caps, kept)
  {
    PopLeaves(i, key, now);
    var p := AfterPop(i);
    ExecElsewhere(o, p, kept);
    ExecStores(o, p, kept);
    StoredFrom(i, p, ExecAll(o, p, kept), now, kept);
    ExecAccounts(o, p, kept);
    ExecSchedules(o, p, kept);
  }

  lemma {:induction false} NobodyKeepsNothing(i: InstanceSnapshot, e: S.ScheduledEntry, session: Caps, ops: seq<Op>)
    requires e.principal.Unauthenticated?
    ensures Kept(ops, Decisions(i, e, session, ops)) == []
    decreases |ops|
  {
    if ops != [] {
      var init := ops[..|ops|-1];
      NobodyKeepsNothing(i, e, session, init);
      DecidedAt(i, e, session, ops, |ops| - 1);
    }
  }

  lemma CapsIntersect(p: InstanceSnapshot, id: InstanceId, e: S.ScheduledEntry, now: Tick, session: Caps)
    requires !e.principal.Unauthenticated?
    ensures OriginOf(p, id, e, now, session).caps == p.config.defaultCaps * e.ceiling * session
  {
  }

  lemma CommitExecutes(reg: Registry, i: InstanceSnapshot, id: InstanceId, key: S.SchedKey, now: Tick, session: Caps, measure: bool,
                       ops: seq<Op>, ds: seq<Decision>)
    requires IsNext(i, key, now) && Runs(reg, i.scheduler.ready[key])
    requires ops == Computed(reg[i.scheduler.ready[key].typeCode], i, id, i.scheduler.ready[key], now)
    requires ds == Decisions(i, i.scheduler.ready[key], session, ops) && Unauthorized !in ds
    ensures S.Due(i.scheduler, now)
    ensures StepOne(reg, i, id, now, session, measure).value.0 ==
            ExecAll(OriginOf(AfterPop(i), id, i.scheduler.ready[key], now, session), AfterPop(i), Kept(ops, ds))
  {
    NextIsHead(i, key, now);
    RanAnswers(reg, i, id, key, now, session, measure, ops, ds);
    StagingPreservesMeaning(reg, AfterPop(i), id, i.scheduler.ready[key], now, session, measure);
  }

  lemma OriginLeaves(i: InstanceSnapshot, id: InstanceId, key: S.SchedKey, now: Tick, session: Caps, kept: seq<Op>)
    requires IsNext(i, key, now) && (i.scheduler.ready[key].principal.Unauthenticated? ==> kept == [])
    ensures S.Due(i.scheduler, now)
    ensures var e := i.scheduler.ready[key];
            var o := OriginOf(AfterPop(i), id, e, now, session);
            Left(i, ExecAll(o, AfterPop(i), kept), key, now, i.config.defaultCaps * e.ceiling * session, kept)
  {
    NextIsHead(i, key, now);
    var e, p := i.scheduler.ready[key], AfterPop(i);
    ExecLeaves(i, key, now, OriginOf(p, id, e, now, session), kept);
    if !e.principal.Unauthenticated? {
      CapsIntersect(p, id, e, now, session);
    }
  }

  /** What a committed step leaves on its instance: each admitted operation's own effect, in order. A child
      takes the action's principal and exactly the bits the defaults, the action's ceiling and the
      session have in common. */
  lemma CommitLeaves(reg: Registry, i: InstanceSnapshot, id: InstanceId, key: S.SchedKey, now: Tick, session: Caps, measure: bool)
    requires IsNext(i, key, now) && Runs(reg, i.scheduler.ready[key])
    ensures StepOne(reg, i, id, now, session, measure).Some?
    ensures var e := i.scheduler.ready[key];
            var ops := Computed(reg[e.typeCode], i, id, e, now);
            var ds := Decisions(i, e, session, ops);
            Unauthorized !in ds ==>
              Left(i, StepOne(reg, i, id, now, session, measure).value.0, key, now, i.config.defaultCaps * e.ceiling * session, Kept(ops, ds))
  {
    NextIsHead(i, key, now);
    var e := i.scheduler.ready[key];
    var ops := Computed(reg[e.typeCode], i, id, e, now);
    var ds := Decisions(i, e, session, ops);
    if Unauthorized !in ds {
      CommitExecutes(reg, i, id, key, now, session, measure, ops, ds);
      if e.principal.Unauthenticated? {
        NobodyKeepsNothing(i, e, session, ops);
      }
      OriginLeaves(i, id, key, now, session, Kept(ops, ds));
    }
  }

  /** A denied step leaves the instance as it was, without the popped entry. */
  lemma RollbackLeaves(reg: Registry, i: InstanceSnapshot, id: InstanceId, key: S.SchedKey, now: Tick, session: Caps, measure: bool)
    requires IsNext(i, key, now) && Runs(reg, i.scheduler.ready[key])
    ensures StepOne(reg, i, id, now, session, measure).Some?
    ensures var e := i.scheduler.ready[key];
            var j := StepOne(reg, i, id, now, session, measure).value.0;
            Unauthorized in Decisions(i, e, session, Computed(reg[e.typeCode], i, id, e, now)) ==>
              j == i.(scheduler := j.scheduler) && j.scheduler.ready == i.scheduler.ready - {key}
  {
    StepAnswers(reg, i, id, key, now, session, measure);
    PopLeaves(i, key, now);
    StagingPreservesMeaning(reg, AfterPop(i), id, i.scheduler.ready[key], now, session, measure);
  }

  // ---- one child at a time ----

  lemma {:induction false} CountsGrow(ops: seq<Op>, n: nat)
    requires n <= |ops|
    ensures Schedules(ops[..n]) <= Schedules(ops)
    ensures n < |ops| && ops[n].ScheduleAction? ==> Schedules(ops[..n]) < Schedules(ops)
    decreases |ops|
  {
    if n == |ops| {
      assert ops[..n] == ops;
    } else {
      var init := ops[..|ops|-1];
      CountsGrow(init, if n < |init| then n else |init|);
      assert init[..if n < |init| then n else |init|] == ops[..if n < |init| then n else |init|];
    }
  }

  /** Short of the last id, no child overwrites another: each is found under its own key and id. */
  lemma {:induction false} FiledAt(ready: map<S.SchedKey, S.ScheduledEntry>, byId: map<ScheduledActionId, S.SchedKey>, nextSeq: U64, nextId: U64,
                                   principal: Principal, caps: Caps, ops: seq<Op>, n: nat)
    requires n < |ops| && ops[n].ScheduleAction? && nextId + Schedules(ops) <= U64_MAX
    ensures nextId + Schedules(ops[..n]) + 1 <= U64_MAX
    ensures var (op, id) := (ops[n], nextId + Schedules(ops[..n]) + 1);
            var key := S.SchedKey(op.at, Min(nextSeq + Schedules(ops[..n]), U64_MAX), id);
            var (filed, ids) := (Filed(ready, nextSeq, nextId, principal, caps, ops), FiledIds(byId, nextSeq, nextId, ops));
            && key in filed && filed[key] == S.ScheduledEntry(id, op.at, op.actor, principal, op.actionType, op.actionBytes, caps)
            && id in ids && ids[id] == key
    decreases |ops|
  {
    CountsGrow(ops, n);
    var init := ops[..|ops|-1];
    if n < |init| {
      assert init[..n] == ops[..n];
      CountsGrow(ops, |init|);
      CountsGrow(init, n);
      FiledAt(ready, byId, nextSeq, nextId, principal, caps, init, n);
    } else {
      assert ops[..n] == init;
    }
  }

  /** The child of one operation: queued under `child`, with the operation's own tick, actor, type and bytes. */
  ghost predicate QueuedFor(t: S.SchedulerState, child: nat, op: Op, principal: Principal, caps: Caps)
    requires op.ScheduleAction?
  {
    && 1 <= child <= U64_MAX && child in t.byId && t.byId[child] in t.ready
    && t.byId[child].at == op.at && t.byId[child].id == child
    && t.ready[t.byId[child]] == S.ScheduledEntry(child, op.at, op.actor, principal, op.actionType, op.actionBytes, caps)
  }

  lemma LeftQueues(i: InstanceSnapshot, j: InstanceSnapshot, key: S.SchedKey, now: Tick, caps: Caps, kept: seq<Op>, n: nat)
    requires key in i.scheduler.ready && Left(i, j, key, now, caps, kept)
    requires n < |kept| && kept[n].ScheduleAction? && i.idCounters.nextScheduled + Schedules(kept) <= U64_MAX
    ensures QueuedFor(j.scheduler, i.idCounters.nextScheduled + Schedules(kept[..n]) + 1, kept[n], i.scheduler.ready[key].principal, caps)
  {
    var (e, s) := (i.scheduler.ready[key], i.scheduler);
    FiledAt(s.ready - {key}, s.byId - {e.id}, s.nextSeq, i.idCounters.nextScheduled, e.principal, caps, kept, n);
  }

  /** The entry at `key` runs, nothing it asks for is denied, and `kept` is what the limits let through. */
  ghost predicate Goes(reg: Registry, i: InstanceSnapshot, id: InstanceId, key: S.SchedKey, now: Tick, session: Caps, kept: seq<Op>) {
    && IsNext(i, key, now) && Runs(reg, i.scheduler.ready[key])
    && var e := i.scheduler.ready[key];
       var ops := Computed(reg[e.typeCode], i, id, e, now);
       var ds := Decisions(i, e, session, ops);
       Unauthorized !in ds && kept == Kept(ops, ds)
  }

  /** After a committed step each admitted `ScheduleAction` has its child: under the next id in order, filed
      at the operation's own tick, with its own actor, type and bytes, the action's principal, and the
      bits common to the instance's defaults, the action's ceiling and the session. */
  lemma ChildFollowsOperation(reg: Registry, i: InstanceSnapshot, id: InstanceId, key: S.SchedKey, now: Tick, session: Caps, measure: bool,
                              kept: seq<Op>, n: nat)
    requires Goes(reg, i, id, key, now, session, kept)
    requires n < |kept| && kept[n].ScheduleAction? && i.idCounters.nextScheduled + Schedules(kept) <= U64_MAX
    ensures StepOne(reg, i, id, now, session, measure).Some?
    ensures var e := i.scheduler.ready[key];
            QueuedFor(StepOne(reg, i, id, now, session, measure).value.0.scheduler,
                      i.idCounters.nextScheduled + Schedules(kept[..n]) + 1, kept[n], e.principal, i.config.defaultCaps * e.ceiling * session)
  {
    CommitLeaves(reg, i, id, key, now, session, measure);
    var e := i.scheduler.ready[key];
    LeftQueues(i, StepOne(reg, i, id, now, session, measure).value.0, key, now, i.config.defaultCaps * e.ceiling * session, kept, n);
  }
}
