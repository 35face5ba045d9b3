/** The three-table scheduler (`arkhe-kernel/src/state/scheduler.rs`). */
module Scheduler {
  import opened Abi

  datatype SchedKey = SchedKey(at: Tick, seqNo: U64, id: ScheduledActionId)

  datatype ScheduledEntry = ScheduledEntry(
    id: ScheduledActionId, at: Tick, actor: Option<EntityId>, principal: Principal,
    typeCode: TypeCode, bytes: Bytes, ceiling: Caps)

  /** The value of a scheduler: what a snapshot captures and a digest witnesses. */
  datatype SchedulerState = SchedulerState(
    ready: map<SchedKey, ScheduledEntry>,
    byId: map<ScheduledActionId, SchedKey>,
    byActor: map<EntityId, set<ScheduledActionId>>,
    nextSeq: U64,
    nextId: U64)

  const EMPTY := SchedulerState(map[], map[], map[], 0, 0)

  // ---- key order: tick, then sequence, then id ----

  predicate KeyLess(a: SchedKey, b: SchedKey) {
    a.at < b.at || (a.at == b.at && (a.seqNo < b.seqNo || (a.seqNo == b.seqNo && a.id < b.id)))
  }

  predicate IsLeastKey(k: SchedKey, keys: set<SchedKey>) {
    k in keys && forall other :: other in keys && other != k ==> KeyLess(k, other)
  }

  lemma LeastKeyExists(keys: set<SchedKey>)
    requires keys != {}
    ensures exists k :: IsLeastKey(k, keys)
  {
    var x :| x in keys;
    var rest := keys - {x};
    if rest == {} {
      assert keys == {x};
      assert IsLeastKey(x, keys);
    } else {
      LeastKeyExists(rest);
      var m :| IsLeastKey(m, rest);
      var least := if KeyLess(x, m) then x else m;
      assert forall y :: y in keys ==> y == x || y in rest;
      assert IsLeastKey(least, keys);
    }
  }

  /** The key `first_key_value` returns. */
  function Head(keys: set<SchedKey>): (k: SchedKey)
    requires keys != {}
    ensures IsLeastKey(k, keys)
  {
    LeastKeyExists(keys);
    var k :| k in keys && IsLeastKey(k, keys);
    k
  }

  // ---- the operations on values ----

  function IndexActor(byActor: map<EntityId, set<ScheduledActionId>>, actor: Option<EntityId>,
                      id: ScheduledActionId): map<EntityId, set<ScheduledActionId>> {
    match actor
    case None => byActor
    case Some(a) => byActor[a := (if a in byActor then byActor[a] else {}) + {id}]
  }

  function UnindexActor(byActor: map<EntityId, set<ScheduledActionId>>, actor: Option<EntityId>,
                        id: ScheduledActionId): map<EntityId, set<ScheduledActionId>> {
    match actor
    case None => byActor
    case Some(a) =>
      if a !in byActor then byActor
      else if byActor[a] - {id} == {} then byActor - {a}
      else byActor[a := byActor[a] - {id}]
  }

  /** `schedule_with_id`: the entry enters all three tables under the next sequence number. */
  function Insert(s: SchedulerState, e: ScheduledEntry): SchedulerState {
    var key := SchedKey(e.at, s.nextSeq, e.id);
    SchedulerState(s.ready[key := e], s.byId[e.id := key], IndexActor(s.byActor, e.actor, e.id),
                   SatAdd(s.nextSeq, 1), Max(s.nextId, e.id))
  }

  /** `cancel` of a known id. */
  function Cancelled(s: SchedulerState, id: ScheduledActionId): SchedulerState
    requires id in s.byId && s.byId[id] in s.ready
  {
    var e := s.ready[s.byId[id]];
    s.(ready := s.ready - {s.byId[id]}, byId := s.byId - {id}, byActor := UnindexActor(s.byActor, e.actor, id))
  }

  /** Removal of the entry at `key` as `pop_due` does it. */
  function Popped(s: SchedulerState, key: SchedKey): SchedulerState
    requires key in s.ready
  {
    var e := s.ready[key];
    s.(ready := s.ready - {key}, byId := s.byId - {e.id}, byActor := UnindexActor(s.byActor, e.actor, e.id))
  }

  predicate Due(s: SchedulerState, now: Tick) {
    s.ready != map[] && Head(s.ready.Keys).at <= now
  }

  /** The keys `cancel_by_actor` takes out of `ready`. */
  function ActorKeys(s: SchedulerState, actor: EntityId): set<SchedKey> {
    if actor !in s.byActor then {} else set id | id in s.byActor[actor] && id in s.byId :: s.byId[id]
  }

  function ActorCancelled(s: SchedulerState, actor: EntityId): SchedulerState {
    if actor !in s.byActor then s
    else s.(ready := s.ready - ActorKeys(s, actor), byId := s.byId - s.byActor[actor], byActor := s.byActor - {actor})
  }

  // ---- consistency ----

  ghost predicate InverseTables(s: SchedulerState) {
    && (forall k :: k in s.ready ==> s.ready[k].id == k.id && k.id in s.byId && s.byId[k.id] == k)
    && (forall id :: id in s.byId ==> s.byId[id] in s.ready && s.byId[id].id == id)
  }

  ghost predicate ActorIndexed(s: SchedulerState) {
    && (forall a :: a in s.byActor ==> s.byActor[a] != {})
    && (forall a, id :: a in s.byActor && id in s.byActor[a] ==>
          id in s.byId && s.byId[id] in s.ready && s.ready[s.byId[id]].actor == Some(a))
    && (forall k :: k in s.ready && s.ready[k].actor.Some? ==>
          s.ready[k].actor.value in s.byActor && s.ready[k].id in s.byActor[s.ready[k].actor.value])
  }

  ghost predicate CountersDominate(s: SchedulerState) {
    forall k :: k in s.ready ==> k.seqNo < s.nextSeq && k.id <= s.nextId
  }

  /** What `validate` accepts. */
  ghost predicate Consistent(s: SchedulerState) {
    InverseTables(s) && ActorIndexed(s) && CountersDominate(s)
  }

  /** What every scheduler built by its own operations also has: a key repeats its entry's
      tick, and no two entries share a sequence number. */
  ghost predicate WellKeyed(s: SchedulerState) {
    && (forall k :: k in s.ready ==> s.ready[k].at == k.at)
    && (forall k, l :: k in s.ready && l in s.ready && k.seqNo == l.seqNo ==> k == l)
  }

  lemma InsertKeepsInverse(s: SchedulerState, e: ScheduledEntry)
    requires InverseTables(s) && CountersDominate(s) && WellKeyed(s) && e.id !in s.byId && s.nextSeq < U64_MAX
    ensures InverseTables(Insert(s, e)) && CountersDominate(Insert(s, e)) && WellKeyed(Insert(s, e))
  {
    var t := Insert(s, e);
    var key := SchedKey(e.at, s.nextSeq, e.id);
    assert t.ready == s.ready[key := e] && t.byId == s.byId[e.id := key];
    forall k | k in t.ready
      ensures t.ready[k].id == k.id && k.id in t.byId && t.byId[k.id] == k && t.ready[k].at == k.at
      ensures k.seqNo < t.nextSeq && k.id <= t.nextId
      ensures k.seqNo == key.seqNo ==> k == key
    {
      assert k == key || k in s.ready;
    }
    forall id | id in t.byId ensures t.byId[id] in t.ready && t.byId[id].id == id {
      assert id == e.id || id in s.byId;
    }
    forall k, l | k in t.ready && l in t.ready && k.seqNo == l.seqNo ensures k == l {
      assert k == key || k in s.ready;
      assert l == key || l in s.ready;
    }
  }

  lemma InsertKeepsActorIndex(s: SchedulerState, e: ScheduledEntry)
    requires InverseTables(s) && CountersDominate(s) && ActorIndexed(s) && e.id !in s.byId
    ensures ActorIndexed(Insert(s, e))
  {
  }

  /** Three tables stay in lockstep under a fresh id. */
  lemma InsertKeepsConsistent(s: SchedulerState, e: ScheduledEntry)
    requires Consistent(s) && WellKeyed(s) && e.id !in s.byId && s.nextSeq < U64_MAX
    ensures Consistent(Insert(s, e)) && WellKeyed(Insert(s, e))
  {
    InsertKeepsInverse(s, e);
    InsertKeepsActorIndex(s, e);
  }

  lemma CancelKeepsActorIndex(s: SchedulerState, id: ScheduledActionId)
    requires Consistent(s) && id in s.byId
    ensures ActorIndexed(Cancelled(s, id))
  {
    var t := Cancelled(s, id);
    var gone := s.byId[id];
    forall a, other | a in t.byActor && other in t.byActor[a]
      ensures other in t.byId && t.byId[other] in t.ready && t.ready[t.byId[other]].actor == Some(a)
    {
      assert a in s.byActor && other in s.byActor[a];
      assert other != id;
    }
    forall k | k in t.ready && t.ready[k].actor.Some?
      ensures t.ready[k].actor.value in t.byActor && t.ready[k].id in t.byActor[t.ready[k].actor.value]
    {
      assert k in s.ready && k != gone && k.id != id;
      var a := s.ready[k].actor.value;
      assert a in s.byActor && k.id in s.byActor[a] - {id};
    }
  }

  lemma CancelKeepsConsistent(s: SchedulerState, id: ScheduledActionId)
    requires Consistent(s) && id in s.byId
    ensures Consistent(Cancelled(s, id))
    ensures WellKeyed(s) ==> WellKeyed(Cancelled(s, id))
  {
    CancelKeepsActorIndex(s, id);
  }

  /** Popping an entry is cancelling its id. */
  lemma PopIsCancel(s: SchedulerState, key: SchedKey)
    requires Consistent(s) && key in s.ready
    ensures key.id in s.byId && s.byId[key.id] == key && Popped(s, key) == Cancelled(s, key.id)
  {
  }

  lemma ActorCancelKeepsConsistent(s: SchedulerState, actor: EntityId)
    requires Consistent(s)
    ensures Consistent(ActorCancelled(s, actor))
    ensures WellKeyed(s) ==> WellKeyed(ActorCancelled(s, actor))
  {
    if actor in s.byActor {
      var t := ActorCancelled(s, actor);
      forall k | k in s.ready ensures k in ActorKeys(s, actor) <==> s.ready[k].actor == Some(actor) {
        if k in ActorKeys(s, actor) {
          var id :| id in s.byActor[actor] && id in s.byId && s.byId[id] == k;
        }
        if s.ready[k].actor == Some(actor) {
          assert k.id in s.byActor[actor] && s.byId[k.id] == k;
        }
      }
      assert InverseTables(t) by {
        forall k | k in t.ready ensures t.ready[k].id == k.id && k.id in t.byId && t.byId[k.id] == k {
          assert k in s.ready;
        }
        forall id | id in t.byId ensures t.byId[id] in t.ready && t.byId[id].id == id {
          assert id in s.byId && s.byId[id] in s.ready;
        }
      }
      assert ActorIndexed(t) by {
        forall a, id | a in t.byActor && id in t.byActor[a]
          ensures id in t.byId && t.byId[id] in t.ready && t.ready[t.byId[id]].actor == Some(a)
        {
          assert a in s.byActor && id in s.byActor[a];
        }
        forall k | k in t.ready && t.ready[k].actor.Some?
          ensures t.ready[k].actor.value in t.byActor && t.ready[k].id in t.byActor[t.ready[k].actor.value]
        {
          assert k in s.ready;
        }
      }
    }
  }

  // ---- what holds even when ids saturate ----

  /** Every indexed id leads to an entry filed under that id: enough for no lookup to fail. */
  ghost predicate Anchored(s: SchedulerState) {
    && (forall k :: k in s.ready ==> s.ready[k].id == k.id)
    && (forall id :: id in s.byId ==> s.byId[id] in s.ready && s.byId[id].id == id)
  }

  /** No freshness, no bound on the counters: every operation keeps every lookup safe. */
  lemma OperationsKeepAnchored(s: SchedulerState, e: ScheduledEntry, id: ScheduledActionId, key: SchedKey)
    requires Anchored(s)
    ensures Anchored(Insert(s, e))
    ensures id in s.byId ==> Anchored(Cancelled(s, id))
    ensures key in s.ready ==> Anchored(Popped(s, key))
  {
  }

  // ---- counting: equal sizes close the missing direction ----

  lemma {:induction false} SubsetOfEqualSize<T>(a: set<T>, b: set<T>)
    requires a <= b && |a| == |b|
    ensures a == b
  {
    if a != {} {
      var x :| x in a;
      SubsetOfEqualSize(a - {x}, b - {x});
    }
  }

  lemma {:induction false} DistinctIdsCount(keys: set<SchedKey>)
    requires forall k, l :: k in keys && l in keys && k.id == l.id ==> k == l
    ensures |set k | k in keys :: k.id| == |keys|
  {
    if keys != {} {
      var x :| x in keys;
      var rest := keys - {x};
      DistinctIdsCount(rest);
      assert (set k | k in keys :: k.id) == (set k | k in rest :: k.id) + {x.id};
    }
  }

  /** `ready` maps into `by_id` and back; with equal sizes nothing in `by_id` is left over. */
  lemma CountingClosesInverse(s: SchedulerState)
    requires |s.ready| == |s.byId|
    requires forall k :: k in s.ready ==> s.ready[k].id == k.id && k.id in s.byId && s.byId[k.id] == k
    ensures InverseTables(s)
  {
    var ids := set k | k in s.ready.Keys :: k.id;
    DistinctIdsCount(s.ready.Keys);
    assert ids <= s.byId.Keys;
    SubsetOfEqualSize(ids, s.byId.Keys);
    forall id | id in s.byId ensures s.byId[id] in s.ready && s.byId[id].id == id {
      assert id in ids;
      var k :| k in s.ready.Keys && k.id == id;
    }
  }

  lemma InverseSizes(s: SchedulerState)
    requires InverseTables(s)
    ensures |s.ready| == |s.byId|
  {
    var ids := set k | k in s.ready.Keys :: k.id;
    DistinctIdsCount(s.ready.Keys);
    assert ids == s.byId.Keys by {
      forall id | id in s.byId ensures id in ids {
        assert s.byId[id] in s.ready.Keys;
      }
    }
  }

  // ---- the scheduler object ----

  datatype Fault = SizeMismatch | IdMismatch | NotMappedBack | EmptyActorSet | UnknownActorId | ActorMismatch
                 | MissingFromActorIndex | SeqNotMonotonic | IdNotMonotonic

  /** What each fault of the validator means. */
  ghost predicate Exhibits(s: SchedulerState, f: Fault) {
    match f
    case SizeMismatch => |s.ready| != |s.byId|
    case IdMismatch => exists k :: k in s.ready && s.ready[k].id != k.id
    case NotMappedBack => exists k :: k in s.ready && (k.id !in s.byId || s.byId[k.id] != k)
    case EmptyActorSet => exists a :: a in s.byActor && s.byActor[a] == {}
    case UnknownActorId => exists a, id :: a in s.byActor && id in s.byActor[a] && id !in s.byId
    case ActorMismatch => exists a, id :: a in s.byActor && id in s.byActor[a] && id in s.byId &&
                                          (s.byId[id] !in s.ready || s.ready[s.byId[id]].actor != Some(a))
    case MissingFromActorIndex => exists k :: k in s.ready && s.ready[k].actor.Some? &&
                                              (s.ready[k].actor.value !in s.byActor || s.ready[k].id !in s.byActor[s.ready[k].actor.value])
    case SeqNotMonotonic => exists k :: k in s.ready && k.seqNo >= s.nextSeq
    case IdNotMonotonic => exists k :: k in s.ready && k.id > s.nextId
  }

  // ---- the first fault, in the order the validator walks the tables ----

  function InverseFault(s: SchedulerState, todo: set<SchedKey>): Option<Fault>
    requires todo <= s.ready.Keys
  {
    if todo == {} then None
    else
      var key := Head(todo);
      if s.ready[key].id != key.id then Some(IdMismatch)
      else if key.id !in s.byId || s.byId[key.id] != key then Some(NotMappedBack)
      else InverseFault(s, todo - {key})
  }

  function ActorSetFault(s: SchedulerState, actor: EntityId, todo: set<nat>): Option<Fault> {
    if todo == {} then None
    else
      var id := Least(todo);
      if id !in s.byId then Some(UnknownActorId)
      else if s.byId[id] !in s.ready || s.ready[s.byId[id]].actor != Some(actor) then Some(ActorMismatch)
      else ActorSetFault(s, actor, todo - {id})
  }

  function ActorsFault(s: SchedulerState, todo: set<nat>): Option<Fault>
    requires forall actor :: actor in todo ==> actor in s.byActor
  {
    if todo == {} then None
    else
      var actor := Least(todo);
      if s.byActor[actor] == {} then Some(EmptyActorSet)
      else if ActorSetFault(s, actor, s.byActor[actor]).Some? then ActorSetFault(s, actor, s.byActor[actor])
      else ActorsFault(s, todo - {actor})
  }

  function IndexFault(s: SchedulerState, todo: set<SchedKey>): Option<Fault>
    requires todo <= s.ready.Keys
  {
    if todo == {} then None
    else
      var e := s.ready[Head(todo)];
      if e.actor.Some? && (e.actor.value !in s.byActor || e.id !in s.byActor[e.actor.value]) then Some(MissingFromActorIndex)
      else IndexFault(s, todo - {Head(todo)})
  }

  function CounterFault(s: SchedulerState, todo: set<SchedKey>): Option<Fault> {
    if todo == {} then None
    else
      var key := Head(todo);
      if key.seqNo >= s.nextSeq then Some(SeqNotMonotonic)
      else if key.id > s.nextId then Some(IdNotMonotonic)
      else CounterFault(s, todo - {key})
  }

  function FirstFault(s: SchedulerState): Option<Fault> {
    if |s.ready| != |s.byId| then Some(SizeMismatch)
    else if InverseFault(s, s.ready.Keys).Some? then InverseFault(s, s.ready.Keys)
    else if ActorsFault(s, s.byActor.Keys).Some? then ActorsFault(s, s.byActor.Keys)
    else if IndexFault(s, s.ready.Keys).Some? then IndexFault(s, s.ready.Keys)
    else CounterFault(s, s.ready.Keys)
  }

  /** The entries `cancel_by_actor` returns for these ids, in this order. */
  function EntriesOf(s: SchedulerState, ids: seq<nat>): seq<ScheduledEntry> {
    if ids == [] then []
    else
      var id := ids[|ids|-1];
      EntriesOf(s, ids[..|ids|-1]) + if id in s.byId && s.byId[id] in s.ready then [s.ready[s.byId[id]]] else []
  }

  /** Taking ids out of `by_id` and `ready` one after another. */
  function DropIds(s: SchedulerState, ids: seq<nat>): SchedulerState {
    if ids == [] then s
    else
      var t, id := DropIds(s, ids[..|ids|-1]), ids[|ids|-1];
      if id !in t.byId then t
      else t.(byId := t.byId - {id}, ready := t.ready - {t.byId[id]})
  }

  function KeysAt(s: SchedulerState, ids: seq<nat>): set<SchedKey> {
    set id | id in ids && id in s.byId :: s.byId[id]
  }

  lemma {:induction false} DropIdsAtOnce(s: SchedulerState, ids: seq<nat>)
    requires Anchored(s)
    ensures var t := DropIds(s, ids);
            && t.byId == s.byId - (set id | id in ids && id in s.byId)
            && t.ready == s.ready - KeysAt(s, ids)
            && t.byActor == s.byActor && t.nextSeq == s.nextSeq && t.nextId == s.nextId
    decreases |ids|
  {
    if ids != [] {
      var init, id := ids[..|ids|-1], ids[|ids|-1];
      DropIdsAtOnce(s, init);
      assert forall x :: x in ids <==> x in init || x == id;
      if id in s.byId {
        assert KeysAt(s, ids) == KeysAt(s, init) + {s.byId[id]};
      } else {
        assert KeysAt(s, ids) == KeysAt(s, init);
      }
    }
  }

  /** What is still indexed after some removals is still filed. */
  lemma StillFiled(s: SchedulerState, ids: seq<nat>, id: nat)
    requires Anchored(s) && id in DropIds(s, ids).byId
    ensures var t := DropIds(s, ids); id in s.byId && t.byId[id] == s.byId[id] && t.byId[id] in t.ready && t.ready[t.byId[id]] == s.ready[s.byId[id]]
  {
    DropIdsAtOnce(s, ids);
    forall other | other in ids && other in s.byId ensures s.byId[other] != s.byId[id] {
      assert s.byId[other].id == other && s.byId[id].id == id;
    }
  }

  /** An id not dropped yet is still where it was, or was never known. */
  lemma NotYetDropped(s: SchedulerState, ids: seq<nat>, id: nat)
    requires Anchored(s) && id !in ids
    ensures id in DropIds(s, ids).byId <==> id in s.byId
  {
  }

  /** What leaves `ready` as the ids are taken out one after another. */
  function TakenAlong(s: SchedulerState, ids: seq<nat>): seq<ScheduledEntry> {
    if ids == [] then []
    else
      var t, id := DropIds(s, ids[..|ids|-1]), ids[|ids|-1];
      TakenAlong(s, ids[..|ids|-1]) + if id in t.byId && t.byId[id] in t.ready then [t.ready[t.byId[id]]] else []
  }

  /** Where lookups are safe, what leaves is what was filed under each id. */
  lemma {:induction false} TakenAsFiled(s: SchedulerState, ids: seq<nat>)
    requires Anchored(s) && forall n, l :: 0 <= n < l < |ids| ==> ids[n] != ids[l]
    ensures TakenAlong(s, ids) == EntriesOf(s, ids)
    decreases |ids|
  {
    if ids != [] {
      var init, id := ids[..|ids|-1], ids[|ids|-1];
      TakenAsFiled(s, init);
      NotYetDropped(s, init, id);
      if id in s.byId {
        StillFiled(s, init, id);
      }
    }
  }

  lemma DropActorIds(s: SchedulerState, actor: EntityId)
    requires Anchored(s) && actor in s.byActor
    ensures DropIds(s, Ascending(s.byActor[actor])).(byActor := s.byActor - {actor}) == ActorCancelled(s, actor)
  {
    var ids := Ascending(s.byActor[actor]);
    AscendingElements(s.byActor[actor]);
    DropIdsAtOnce(s, ids);
    assert KeysAt(s, ids) == ActorKeys(s, actor);
  }

  class Scheduler {
    var ready: map<SchedKey, ScheduledEntry>
    var byId: map<ScheduledActionId, SchedKey>
    var byActor: map<EntityId, set<ScheduledActionId>>
    var nextSeq: U64
    var nextId: U64

    ghost function View(): SchedulerState
      reads this
    {
      SchedulerState(ready, byId, byActor, nextSeq, nextId)
    }

    constructor ()
      ensures View() == EMPTY
    {
      ready, byId, byActor, nextSeq, nextId := map[], map[], map[], 0, 0;
    }

    constructor FromState(s: SchedulerState)
      ensures View() == s
    {
      ready, byId, byActor, nextSeq, nextId := s.ready, s.byId, s.byActor, s.nextSeq, s.nextId;
    }

    method Capture() returns (s: SchedulerState)
      ensures s == View()
    {
      s := SchedulerState(ready, byId, byActor, nextSeq, nextId);
    }

    method IndexUnderActor(actor: Option<EntityId>, id: ScheduledActionId)
      modifies this`byActor
      ensures byActor == IndexActor(old(byActor), actor, id)
    {
      if actor.Some? {
        var ids := if actor.value in byActor then byActor[actor.value] else {};
        byActor := byActor[actor.value := ids + {id}];
      }
    }

    method DropFromActor(actor: Option<EntityId>, id: ScheduledActionId)
      modifies this`byActor
      ensures byActor == UnindexActor(old(byActor), actor, id)
    {
      if actor.Some? && actor.value in byActor {
        var ids := byActor[actor.value] - {id};
        byActor := byActor[actor.value := ids];
        if ids == {} {
          byActor := byActor - {actor.value};
        }
      }
    }

    /** Auto-allocating form: the id is one above every id seen, unless the counter is exhausted. */
    method Schedule(at: Tick, actor: Option<EntityId>, principal: Principal, ceiling: Caps, typeCode: TypeCode, bytes: Bytes)
        returns (id: ScheduledActionId)
      modifies this
      ensures id == SatAdd(old(nextId), 1)
      ensures View() == Insert(old(View()), ScheduledEntry(id, at, actor, principal, typeCode, bytes, ceiling))
    {
      nextId := SatAdd(nextId, 1);
      id := nextId;
      var key := SchedKey(at, nextSeq, id);
      nextSeq := SatAdd(nextSeq, 1);
      ready := ready[key := ScheduledEntry(id, at, actor, principal, typeCode, bytes, ceiling)];
      byId := byId[id := key];
      IndexUnderActor(actor, id);
    }

    method ScheduleWithId(id: ScheduledActionId, at: Tick, actor: Option<EntityId>, principal: Principal,
                          ceiling: Caps, typeCode: TypeCode, bytes: Bytes)
      modifies this
      ensures View() == Insert(old(View()), ScheduledEntry(id, at, actor, principal, typeCode, bytes, ceiling))
    {
      if id > nextId {
        nextId := id;
      }
      var key := SchedKey(at, nextSeq, id);
      nextSeq := SatAdd(nextSeq, 1);
      ready := ready[key := ScheduledEntry(id, at, actor, principal, typeCode, bytes, ceiling)];
      byId := byId[id := key];
      IndexUnderActor(actor, id);
    }

    /** The two table lookups cannot disagree, so the removal cannot fail half-way. */
    method Cancel(id: ScheduledActionId) returns (removed: Option<ScheduledEntry>)
      requires Anchored(View())
      modifies this
      ensures Anchored(View())
      ensures id in old(byId) ==> removed == Some(old(ready)[old(byId)[id]]) && View() == Cancelled(old(View()), id)
      ensures id !in old(byId) ==> removed == None && View() == old(View())
    {
      OperationsKeepAnchored(View(), ScheduledEntry(1, 0, None, System, 0, [], {}), id, SchedKey(0, 0, 1));
      if id !in byId {
        return None;
      }
      var key := byId[id];
      byId := byId - {id};
      var entry := ready[key];
      ready := ready - {key};
      DropFromActor(entry.actor, id);
      removed := Some(entry);
    }

    /** Takes the actor's ids out of the tables in ascending order, whatever they lead to; where lookups
        are safe that removes every entry of `actor` and returns them in id order. */
    method CancelByActor(actor: EntityId) returns (cancelled: seq<ScheduledEntry>)
      modifies this
      ensures actor !in old(byActor) ==> View() == old(View()) && cancelled == []
      ensures actor in old(byActor) ==>
                var ids := Ascending(old(byActor)[actor]);
                && View() == DropIds(old(View()), ids).(byActor := old(byActor) - {actor})
                && cancelled == TakenAlong(old(View()), ids)
                && (Anchored(old(View())) ==> View() == ActorCancelled(old(View()), actor) && cancelled == EntriesOf(old(View()), ids))
    {
      cancelled := [];
      if actor !in byActor {
        return;
      }
      var ids := Ascending(byActor[actor]);
      AscendingOrdered(byActor[actor]);
      byActor := byActor - {actor};
      ghost var before := old(View());
      for n := 0 to |ids|
        invariant View() == DropIds(before, ids[..n]).(byActor := before.byActor - {actor})
        invariant cancelled == TakenAlong(before, ids[..n])
      {
        var id := ids[n];
        assert ids[..n+1][..n] == ids[..n] && ids[..n+1][n] == id;
        if id in byId {
          var key := byId[id];
          byId := byId - {id};
          if key in ready {
            cancelled := cancelled + [ready[key]];
            ready := ready - {key};
          } else {
            assert ready - {key} == ready;
          }
        }
      }
      assert ids[..|ids|] == ids;
      if Anchored(before) {
        DropActorIds(before, actor);
        TakenAsFiled(before, ids);
      }
    }

    method PopDue(now: Tick) returns (popped: Option<ScheduledEntry>)
      modifies this
      ensures Due(old(View()), now) ==>
                var key := Head(old(ready).Keys);
                popped == Some(old(ready)[key]) && View() == Popped(old(View()), key)
      ensures !Due(old(View()), now) ==> popped == None && View() == old(View())
    {
      if ready == map[] {
        return None;
      }
      var key := Head(ready.Keys);
      if key.at > now {
        return None;
      }
      var entry := ready[key];
      ready := ready - {key};
      byId := byId - {entry.id};
      DropFromActor(entry.actor, entry.id);
      popped := Some(entry);
    }

    // ---- the validator, one loop per check ----

    method CheckInverse() returns (fault: Option<Fault>)
      requires |ready| == |byId|
      ensures fault == InverseFault(View(), ready.Keys)
      ensures fault.None? <==> InverseTables(View())
      ensures fault.Some? ==> Exhibits(View(), fault.value) && (fault.value.IdMismatch? || fault.value.NotMappedBack?)
    {
      var todo := ready.Keys;
      while todo != {}
        invariant todo <= ready.Keys && InverseFault(View(), todo) == InverseFault(View(), ready.Keys)
        invariant forall k :: k in ready && k !in todo ==> ready[k].id == k.id && k.id in byId && byId[k.id] == k
        decreases todo
      {
        var key := Head(todo);
        var entry := ready[key];
        if entry.id != key.id {
          return Some(IdMismatch);
        }
        if entry.id !in byId || byId[entry.id] != key {
          return Some(NotMappedBack);
        }
        todo := todo - {key};
      }
      CountingClosesInverse(View());
      fault := None;
    }

    method CheckActorSet(actor: EntityId) returns (fault: Option<Fault>)
      requires actor in byActor
      ensures fault == ActorSetFault(View(), actor, byActor[actor])
      ensures fault.None? <==>
              forall id :: id in byActor[actor] ==> id in byId && byId[id] in ready && ready[byId[id]].actor == Some(actor)
      ensures fault.Some? ==> Exhibits(View(), fault.value) && (fault.value.UnknownActorId? || fault.value.ActorMismatch?)
    {
      var ids := byActor[actor];
      while ids != {}
        invariant ids <= byActor[actor] && ActorSetFault(View(), actor, ids) == ActorSetFault(View(), actor, byActor[actor])
        invariant forall id :: id in byActor[actor] && id !in ids ==>
                    id in byId && byId[id] in ready && ready[byId[id]].actor == Some(actor)
        decreases ids
      {
        var id := Least(ids);
        if id !in byId {
          return Some(UnknownActorId);
        }
        if byId[id] !in ready || ready[byId[id]].actor != Some(actor) {
          return Some(ActorMismatch);
        }
        ids := ids - {id};
      }
      fault := None;
    }

    ghost predicate ActorFine(actor: EntityId)
      requires actor in byActor
      reads this
    {
      byActor[actor] != {} &&
      forall id :: id in byActor[actor] ==> id in byId && byId[id] in ready && ready[byId[id]].actor == Some(actor)
    }

    method CheckActorsForward() returns (fault: Option<Fault>)
      ensures fault == ActorsFault(View(), byActor.Keys)
      ensures fault.None? <==> forall a :: a in byActor ==> ActorFine(a)
      ensures fault.Some? ==> Exhibits(View(), fault.value) && fault.value != SizeMismatch
    {
      var todo := byActor.Keys;
      while todo != {}
        invariant todo <= byActor.Keys && ActorsFault(View(), todo) == ActorsFault(View(), byActor.Keys)
        invariant forall a :: a in byActor && a !in todo ==> ActorFine(a)
        decreases todo
      {
        var actor := Least(todo);
        if byActor[actor] == {} {
          return Some(EmptyActorSet);
        }
        fault := CheckActorSet(actor);
        if fault.Some? {
          return;
        }
        todo := todo - {actor};
      }
      fault := None;
    }

    ghost predicate EntryIndexed(k: SchedKey)
      requires k in ready
      reads this
    {
      ready[k].actor.Some? ==> ready[k].actor.value in byActor && ready[k].id in byActor[ready[k].actor.value]
    }

    method CheckActorsReverse() returns (fault: Option<Fault>)
      ensures fault == IndexFault(View(), ready.Keys)
      ensures fault.None? <==> forall k :: k in ready ==> EntryIndexed(k)
      ensures fault.Some? ==> Exhibits(View(), fault.value) && fault.value != SizeMismatch
    {
      var todo := ready.Keys;
      while todo != {}
        invariant todo <= ready.Keys && IndexFault(View(), todo) == IndexFault(View(), ready.Keys)
        invariant forall k :: k in ready && k !in todo ==> EntryIndexed(k)
        decreases todo
      {
        var key := Head(todo);
        var entry := ready[key];
        if entry.actor.Some? && (entry.actor.value !in byActor || entry.id !in byActor[entry.actor.value]) {
          return Some(MissingFromActorIndex);
        }
        todo := todo - {key};
      }
      fault := None;
    }

    method CheckCounters() returns (fault: Option<Fault>)
      ensures fault == CounterFault(View(), ready.Keys)
      ensures fault.None? <==> CountersDominate(View())
      ensures fault.Some? ==> Exhibits(View(), fault.value) && fault.value != SizeMismatch
    {
      var todo := ready.Keys;
      while todo != {}
        invariant todo <= ready.Keys && CounterFault(View(), todo) == CounterFault(View(), ready.Keys)
        invariant forall k :: k in ready && k !in todo ==> k.seqNo < nextSeq && k.id <= nextId
        decreases todo
      {
        var key := Head(todo);
        if key.seqNo >= nextSeq {
          return Some(SeqNotMonotonic);
        }
        if key.id > nextId {
          return Some(IdNotMonotonic);
        }
        todo := todo - {key};
      }
      fault := None;
    }

    /** The validator accepts exactly the consistent tables; otherwise it names the first fault on its way
        through them, and that fault is really there. */
    method Validate() returns (r: Result<(), Fault>)
      ensures r == match FirstFault(View()) case None => Ok(()) case Some(fault) => Err(fault)
      ensures r.Ok? <==> Consistent(View())
      ensures r.Err? ==> Exhibits(View(), r.error)
      ensures r == Err(SizeMismatch) <==> |ready| != |byId|
    {
      if |ready| != |byId| {
        if InverseTables(View()) {
          InverseSizes(View());
        }
        return Err(SizeMismatch);
      }
      var fault := CheckInverse();
      if fault.Some? {
        return Err(fault.value);
      }
      fault := CheckActorsForward();
      if fault.Some? {
        ActorIndexParts();
        return Err(fault.value);
      }
      fault := CheckActorsReverse();
      ActorIndexParts();
      if fault.Some? {
        return Err(fault.value);
      }
      fault := CheckCounters();
      if fault.Some? {
        return Err(fault.value);
      }
      r := Ok(());
    }

    lemma ActorIndexParts()
      ensures ActorIndexed(View()) <==>
              (forall a :: a in byActor ==> ActorFine(a)) && (forall k :: k in ready ==> EntryIndexed(k))
    {
    }
  }

  /** After the validator has accepted, no table lookup of a cancel or a pop can fail. */
  lemma AcceptedTablesNeverPanic(s: SchedulerState)
    requires Consistent(s)
    ensures Anchored(s)
    ensures forall id :: id in s.byId ==> s.byId[id] in s.ready
    ensures forall k :: k in s.ready ==> Popped(s, k).byId == s.byId - {k.id} && k.id in s.byId
  {
  }
}
