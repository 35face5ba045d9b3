/** Which fault the scheduler's validator names: the first one on its way through the tables. */
module Validation {
  import opened Abi
  import opened Scheduler

  // ---- what can be wrong at one place ----

  predicate Mapped(s: SchedulerState, k: SchedKey)
    requires k in s.ready
  {
    s.ready[k].id == k.id && k.id in s.byId && s.byId[k.id] == k
  }

  predicate Owns(s: SchedulerState, actor: EntityId, id: nat) {
    id in s.byId && s.byId[id] in s.ready && s.ready[s.byId[id]].actor == Some(actor)
  }

  predicate ActorSound(s: SchedulerState, actor: EntityId)
    requires actor in s.byActor
  {
    s.byActor[actor] != {} && forall id :: id in s.byActor[actor] ==> Owns(s, actor, id)
  }

  predicate Indexed(s: SchedulerState, k: SchedKey)
    requires k in s.ready
  {
    s.ready[k].actor.Some? ==> s.ready[k].actor.value in s.byActor && s.ready[k].id in s.byActor[s.ready[k].actor.value]
  }

  predicate Counted(s: SchedulerState, k: SchedKey) {
    k.seqNo < s.nextSeq && k.id <= s.nextId
  }

  // ---- one walk at a time ----

  /** The walk over the queue stops at the least key that is not mapped both ways. */
  lemma {:induction false} InverseWalk(s: SchedulerState, todo: set<SchedKey>) returns (key: SchedKey)
    requires todo <= s.ready.Keys
    ensures InverseFault(s, todo).None? <==> forall k :: k in todo ==> Mapped(s, k)
    ensures InverseFault(s, todo).Some? ==>
              && key in todo && !Mapped(s, key) && (forall k :: k in todo && KeyLess(k, key) ==> Mapped(s, k))
              && InverseFault(s, todo).value == if s.ready[key].id != key.id then IdMismatch else NotMappedBack
    decreases todo
  {
    if todo == {} {
      key := SchedKey(0, 0, 1);
    } else {
      var head := Head(todo);
      key := head;
      if Mapped(s, head) {
        key := InverseWalk(s, todo - {head});
        assert forall k :: k in todo ==> k == head || k in todo - {head};
      }
    }
  }

  lemma {:induction false} ActorSetWalk(s: SchedulerState, actor: EntityId, todo: set<nat>) returns (id: nat)
    ensures ActorSetFault(s, actor, todo).None? <==> forall x :: x in todo ==> Owns(s, actor, x)
    ensures ActorSetFault(s, actor, todo).Some? ==>
              && id in todo && !Owns(s, actor, id) && (forall x :: x in todo && x < id ==> Owns(s, actor, x))
              && ActorSetFault(s, actor, todo).value == if id !in s.byId then UnknownActorId else ActorMismatch
    decreases todo
  {
    if todo == {} {
      id := 0;
    } else {
      var least := Least(todo);
      id := least;
      if Owns(s, actor, least) {
        id := ActorSetWalk(s, actor, todo - {least});
        assert forall x :: x in todo ==> x == least || x in todo - {least};
      }
    }
  }

  /** What is reported of an unsound actor: an empty set, or its least id that is not the actor's own. */
  ghost predicate ActorReport(s: SchedulerState, actor: EntityId, fault: Fault)
    requires actor in s.byActor
  {
    if s.byActor[actor] == {} then fault == EmptyActorSet
    else
      exists id :: && id in s.byActor[actor] && !Owns(s, actor, id) && (forall x :: x in s.byActor[actor] && x < id ==> Owns(s, actor, x))
                   && fault == if id !in s.byId then UnknownActorId else ActorMismatch
  }

  lemma {:induction false} ActorsWalk(s: SchedulerState, todo: set<nat>) returns (actor: nat)
    requires forall a :: a in todo ==> a in s.byActor
    ensures ActorsFault(s, todo).None? <==> forall a :: a in todo ==> ActorSound(s, a)
    ensures ActorsFault(s, todo).Some? ==>
              && actor in todo && !ActorSound(s, actor) && (forall a :: a in todo && a < actor ==> ActorSound(s, a))
              && ActorReport(s, actor, ActorsFault(s, todo).value)
    decreases todo
  {
    if todo == {} {
      actor := 0;
    } else {
      var least := Least(todo);
      actor := least;
      var id := ActorSetWalk(s, least, s.byActor[least]);
      if ActorSound(s, least) {
        actor := ActorsWalk(s, todo - {least});
        assert forall a :: a in todo ==> a == least || a in todo - {least};
      }
    }
  }

  lemma {:induction false} IndexWalk(s: SchedulerState, todo: set<SchedKey>)
    requires todo <= s.ready.Keys
    ensures IndexFault(s, todo) == if (forall k :: k in todo ==> Indexed(s, k)) then None else Some(MissingFromActorIndex)
    decreases todo
  {
    if todo != {} {
      var head := Head(todo);
      IndexWalk(s, todo - {head});
      assert forall k :: k in todo ==> k == head || k in todo - {head};
    }
  }

  lemma {:induction false} CounterWalk(s: SchedulerState, todo: set<SchedKey>) returns (key: SchedKey)
    ensures CounterFault(s, todo).None? <==> forall k :: k in todo ==> Counted(s, k)
    ensures CounterFault(s, todo).Some? ==>
              && key in todo && !Counted(s, key) && (forall k :: k in todo && KeyLess(k, key) ==> Counted(s, k))
              && CounterFault(s, todo).value == if key.seqNo >= s.nextSeq then SeqNotMonotonic else IdNotMonotonic
    decreases todo
  {
    if todo == {} {
      key := SchedKey(0, 0, 1);
    } else {
      var head := Head(todo);
      key := head;
      if Counted(s, head) {
        key := CounterWalk(s, todo - {head});
        assert forall k :: k in todo ==> k == head || k in todo - {head};
      }
    }
  }

  // ---- the whole validation ----

  ghost predicate AllMapped(s: SchedulerState) {
    forall k :: k in s.ready ==> Mapped(s, k)
  }

  ghost predicate AllActorsSound(s: SchedulerState) {
    forall a :: a in s.byActor ==> ActorSound(s, a)
  }

  ghost predicate AllIndexed(s: SchedulerState) {
    forall k :: k in s.ready ==> Indexed(s, k)
  }

  /** The fault the validator names is the first on its way: the sizes, then the queue in key order, then
      the actors and their ids in ascending order, then the queue against the actors, then the counters. */
  lemma FirstFaultIsFirst(s: SchedulerState) returns (key: SchedKey, actor: nat)
    ensures |s.ready| != |s.byId| <==> FirstFault(s) == Some(SizeMismatch)
    ensures |s.ready| == |s.byId| && !AllMapped(s) ==>
              && key in s.ready && !Mapped(s, key) && (forall k :: k in s.ready && KeyLess(k, key) ==> Mapped(s, k))
              && FirstFault(s) == Some(if s.ready[key].id != key.id then IdMismatch else NotMappedBack)
    ensures |s.ready| == |s.byId| && AllMapped(s) && !AllActorsSound(s) ==>
              && actor in s.byActor && !ActorSound(s, actor) && (forall a :: a in s.byActor && a < actor ==> ActorSound(s, a))
              && FirstFault(s).Some? && ActorReport(s, actor, FirstFault(s).value)
    ensures |s.ready| == |s.byId| && AllMapped(s) && AllActorsSound(s) && !AllIndexed(s) ==> FirstFault(s) == Some(MissingFromActorIndex)
    ensures |s.ready| == |s.byId| && AllMapped(s) && AllActorsSound(s) && AllIndexed(s) ==>
              if forall k :: k in s.ready ==> Counted(s, k) then FirstFault(s) == None
              else
                && key in s.ready && !Counted(s, key) && (forall k :: k in s.ready && KeyLess(k, key) ==> Counted(s, k))
                && FirstFault(s) == Some(if key.seqNo >= s.nextSeq then SeqNotMonotonic else IdNotMonotonic)
  {
    key := InverseWalk(s, s.ready.Keys);
    actor := ActorsWalk(s, s.byActor.Keys);
    IndexWalk(s, s.ready.Keys);
    var counter := CounterWalk(s, s.ready.Keys);
    if AllMapped(s) {
      key := counter;
    }
  }
}
