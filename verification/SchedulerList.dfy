/** The three tables behave as one list in insertion order. */
module SchedulerList {
  import opened Abi
  import opened Scheduler

  type Queue = seq<ScheduledEntry>

  // ---- the reference: a plain list ----

  /** The first entry of least tick. */
  function FirstMin(q: Queue): (n: nat)
    requires q != []
    ensures n < |q|
    ensures forall l :: 0 <= l < |q| ==> q[n].at <= q[l].at
    ensures forall l :: 0 <= l < n ==> q[n].at < q[l].at
  {
    if |q| == 1 then 0
    else
      var n := FirstMin(q[1..]);
      assert forall l :: 1 <= l < |q| ==> q[l] == q[1..][l-1];
      if q[0].at <= q[1 + n].at then 0 else 1 + n
  }

  function Without<A>(q: seq<A>, n: nat): seq<A>
    requires n < |q|
  {
    q[..n] + q[n+1..]
  }

  function FindId(q: Queue, id: ScheduledActionId): Option<nat> {
    if q == [] then None
    else if q[|q|-1].id == id then Some(|q|-1)
    else FindId(q[..|q|-1], id)
  }

  lemma {:induction false} FindIdFinds(q: Queue, id: ScheduledActionId)
    ensures match FindId(q, id)
            case None => forall n :: 0 <= n < |q| ==> q[n].id != id
            case Some(n) => n < |q| && q[n].id == id
    decreases |q|
  {
    if q != [] {
      FindIdFinds(q[..|q|-1], id);
    }
  }

  datatype Command =
    | Schedule(entry: ScheduledEntry)
    | Cancel(id: ScheduledActionId)
    | CancelByActor(actor: EntityId)
    | PopDue(now: Tick)

  function OfActor(q: Queue, actor: EntityId): Queue {
    if q == [] then []
    else OfActor(q[..|q|-1], actor) + if q[|q|-1].actor == Some(actor) then [q[|q|-1]] else []
  }

  function NotOfActor(q: Queue, actor: EntityId): Queue {
    if q == [] then []
    else NotOfActor(q[..|q|-1], actor) + if q[|q|-1].actor == Some(actor) then [] else [q[|q|-1]]
  }

  /** A command on the list: the list afterwards and the entries taken out. */
  function OnList(q: Queue, c: Command): (Queue, set<ScheduledEntry>) {
    match c
    case Schedule(e) => (q + [e], {})
    case Cancel(id) =>
      FindIdFinds(q, id);
      if FindId(q, id).Some? then (Without(q, FindId(q, id).value), {q[FindId(q, id).value]}) else (q, {})
    case CancelByActor(actor) => (NotOfActor(q, actor), set e | e in OfActor(q, actor))
    case PopDue(now) =>
      if q != [] && q[FirstMin(q)].at <= now then (Without(q, FirstMin(q)), {q[FirstMin(q)]}) else (q, {})
  }

  // ---- the tables ----

  function OnTables(s: SchedulerState, c: Command): (SchedulerState, set<ScheduledEntry>) {
    match c
    case Schedule(e) => (Insert(s, e), {})
    case Cancel(id) => if id in s.byId && s.byId[id] in s.ready then (Cancelled(s, id), {s.ready[s.byId[id]]}) else (s, {})
    case CancelByActor(actor) => (ActorCancelled(s, actor), set k | k in ActorKeys(s, actor) && k in s.ready :: s.ready[k])
    case PopDue(now) =>
      if Due(s, now) then (Popped(s, Head(s.ready.Keys)), {s.ready[Head(s.ready.Keys)]}) else (s, {})
  }

  /** What the callers of `schedule_with_id` guarantee: a fresh id, the sequence below saturation. */
  predicate Admissible(s: SchedulerState, c: Command) {
    c.Schedule? ==> c.entry.id !in s.byId && s.nextSeq < U64_MAX
  }

  /** `ks` are keys of the table, in insertion order, and `q` their entries. */
  ghost predicate Listed(ready: map<SchedKey, ScheduledEntry>, q: Queue, ks: seq<SchedKey>) {
    && |ks| == |q|
    && (forall n :: 0 <= n < |ks| ==> ks[n] in ready && ready[ks[n]] == q[n])
    && (forall n, l :: 0 <= n < l < |ks| ==> ks[n].seqNo < ks[l].seqNo)
  }

  /** `q` is the whole content of the table in insertion order; `ks` are its keys. */
  ghost predicate Content(ready: map<SchedKey, ScheduledEntry>, q: Queue, ks: seq<SchedKey>) {
    Listed(ready, q, ks) && forall k :: k in ready ==> k in ks
  }

  ghost predicate Holds(s: SchedulerState, q: Queue, ks: seq<SchedKey>) {
    Consistent(s) && WellKeyed(s) && Content(s.ready, q, ks)
  }

  lemma NewSchedulerHoldsNothing()
    ensures Holds(EMPTY, [], [])
  {
  }

  lemma ContentAppend(ready: map<SchedKey, ScheduledEntry>, q: Queue, ks: seq<SchedKey>, key: SchedKey, e: ScheduledEntry)
    requires Content(ready, q, ks) && forall k :: k in ready ==> k.seqNo < key.seqNo
    ensures Content(ready[key := e], q + [e], ks + [key])
  {
  }

  function Skip(n: nat, l: nat): nat {
    if l < n then l else l + 1
  }

  lemma WithoutAt<A>(q: seq<A>, n: nat)
    requires n < |q|
    ensures |Without(q, n)| == |q| - 1
    ensures forall l :: 0 <= l < |q| - 1 ==> Without(q, n)[l] == q[Skip(n, l)]
  {
  }

  /** A key other than the removed one is still there. */
  lemma StillThere(ks: seq<SchedKey>, n: nat, k: SchedKey)
    requires n < |ks| && k in ks && k != ks[n]
    ensures k in Without(ks, n)
  {
  }

  lemma ContentRemove(ready: map<SchedKey, ScheduledEntry>, q: Queue, ks: seq<SchedKey>, n: nat)
    requires Content(ready, q, ks) && n < |q|
    ensures Content(ready - {ks[n]}, Without(q, n), Without(ks, n))
  {
    var ready', q', ks' := ready - {ks[n]}, Without(q, n), Without(ks, n);
    WithoutAt(q, n);
    WithoutAt(ks, n);
    forall l | 0 <= l < |ks'| ensures ks'[l] in ready' && ready'[ks'[l]] == q'[l] {
      var o := Skip(n, l);
      assert ks'[l] == ks[o] && q'[l] == q[o];
      assert ks[o].seqNo != ks[n].seqNo;
    }
    forall l, m | 0 <= l < m < |ks'| ensures ks'[l].seqNo < ks'[m].seqNo {
      assert ks'[l] == ks[Skip(n, l)] && ks'[m] == ks[Skip(n, m)];
    }
    forall k | k in ready' ensures k in ks' {
      StillThere(ks, n, k);
    }
  }

  lemma ListedSnoc(ready: map<SchedKey, ScheduledEntry>, q: Queue, ks: seq<SchedKey>, key: SchedKey)
    requires Listed(ready, q, ks) && key in ready && forall k :: k in ks ==> k.seqNo < key.seqNo
    ensures Listed(ready, q + [ready[key]], ks + [key])
  {
  }

  lemma ListedInit(ready: map<SchedKey, ScheduledEntry>, q: Queue, ks: seq<SchedKey>)
    requires Listed(ready, q, ks) && q != []
    ensures Listed(ready, q[..|q|-1], ks[..|ks|-1])
    ensures var key := ks[|ks|-1]; key in ready && ready[key] == q[|q|-1] && forall k :: k in ks[..|ks|-1] ==> k.seqNo < key.seqNo
  {
  }

  /** Bulk removal, one list position at a time: what stays keeps its order. */
  lemma {:induction false} FilterKeys(ready: map<SchedKey, ScheduledEntry>, q: Queue, ks: seq<SchedKey>, actor: EntityId)
      returns (ks': seq<SchedKey>)
    requires Listed(ready, q, ks)
    ensures Listed(ready, NotOfActor(q, actor), ks')
    ensures forall k :: k in ks' ==> k in ks
    ensures forall k :: k in ks && k in ready && ready[k].actor != Some(actor) ==> k in ks'
    decreases |q|
  {
    ks' := [];
    if q != [] {
      var init, key := ks[..|ks|-1], ks[|ks|-1];
      assert forall k :: k in ks <==> k in init || k == key;
      ListedInit(ready, q, ks);
      ks' := FilterKeys(ready, q[..|q|-1], init, actor);
      if q[|q|-1].actor != Some(actor) {
        ListedSnoc(ready, NotOfActor(q[..|q|-1], actor), ks', key);
        ks' := ks' + [key];
      }
    }
  }

  lemma {:induction false} NotOfActorElements(q: Queue, actor: EntityId)
    ensures forall e :: e in NotOfActor(q, actor) ==> e.actor != Some(actor)
    decreases |q|
  {
    if q != [] {
      NotOfActorElements(q[..|q|-1], actor);
    }
  }

  /** The head of the tables is the first entry of least tick. */
  lemma HeadIsFirstMin(s: SchedulerState, q: Queue, ks: seq<SchedKey>)
    requires WellKeyed(s) && Content(s.ready, q, ks) && q != []
    ensures s.ready != map[] && Head(s.ready.Keys) == ks[FirstMin(q)]
  {
  }

  lemma InsertHolds(s: SchedulerState, q: Queue, ks: seq<SchedKey>, e: ScheduledEntry)
    requires Holds(s, q, ks) && e.id !in s.byId && s.nextSeq < U64_MAX
    ensures Holds(Insert(s, e), q + [e], ks + [SchedKey(e.at, s.nextSeq, e.id)])
  {
    InsertKeepsConsistent(s, e);
    ContentAppend(s.ready, q, ks, SchedKey(e.at, s.nextSeq, e.id), e);
  }

  lemma RemovalHolds(s: SchedulerState, q: Queue, ks: seq<SchedKey>, n: nat)
    requires Holds(s, q, ks) && n < |q|
    ensures var id := q[n].id; id in s.byId && s.byId[id] == ks[n] && Holds(Cancelled(s, id), Without(q, n), Without(ks, n))
  {
    assert ks[n] in s.ready && ks[n].id == q[n].id && s.byId[q[n].id] == ks[n];
    CancelKeepsConsistent(s, q[n].id);
    ContentRemove(s.ready, q, ks, n);
  }

  /** An id the tables know is in the list. */
  lemma KnownId(s: SchedulerState, q: Queue, ks: seq<SchedKey>, id: ScheduledActionId)
    requires Holds(s, q, ks) && id in s.byId
    ensures exists n :: 0 <= n < |q| && q[n].id == id
  {
  }

  lemma CancelHolds(s: SchedulerState, q: Queue, ks: seq<SchedKey>, id: ScheduledActionId) returns (ks': seq<SchedKey>)
    requires Holds(s, q, ks)
    ensures var (s', out) := OnTables(s, Cancel(id)); var (q', out') := OnList(q, Cancel(id)); Holds(s', q', ks') && out == out'
  {
    FindIdFinds(q, id);
    ks' := ks;
    match FindId(q, id)
    case Some(n) =>
      RemovalHolds(s, q, ks, n);
      ks' := Without(ks, n);
    case None =>
      if id in s.byId {
        KnownId(s, q, ks, id);
      }
  }

  /** The tables are due exactly when the list's first least entry is, and popping removes it. */
  lemma PopRemovesFirstMin(s: SchedulerState, q: Queue, ks: seq<SchedKey>, now: Tick)
    requires Holds(s, q, ks) && q != []
    ensures var n := FirstMin(q);
            && (Due(s, now) <==> q[n].at <= now)
            && s.ready != map[] && Head(s.ready.Keys) == ks[n] && s.ready[ks[n]] == q[n]
            && Holds(Popped(s, ks[n]), Without(q, n), Without(ks, n))
  {
    HeadIsFirstMin(s, q, ks);
    var n := FirstMin(q);
    assert ks[n] in s.ready && s.ready[ks[n]] == q[n] && ks[n].at == q[n].at && ks[n].id == q[n].id;
    PopIsCancel(s, ks[n]);
    RemovalHolds(s, q, ks, n);
  }

  lemma EmptyTables(s: SchedulerState, q: Queue, ks: seq<SchedKey>)
    requires Holds(s, q, ks) && q == []
    ensures s.ready == map[]
  {
  }

  /** Both sides pop, or neither does. */
  lemma PopOnBoth(s: SchedulerState, q: Queue, key: SchedKey, now: Tick)
    requires q != [] && s.ready != map[] && Head(s.ready.Keys) == key && s.ready[key] == q[FirstMin(q)]
    requires Due(s, now) <==> q[FirstMin(q)].at <= now
    ensures Due(s, now) ==>
              OnTables(s, PopDue(now)) == (Popped(s, key), {s.ready[key]}) &&
              OnList(q, PopDue(now)) == (Without(q, FirstMin(q)), {s.ready[key]})
    ensures !Due(s, now) ==> OnTables(s, PopDue(now)) == (s, {}) && OnList(q, PopDue(now)) == (q, {})
  {
  }

  lemma PopHolds(s: SchedulerState, q: Queue, ks: seq<SchedKey>, now: Tick) returns (ks': seq<SchedKey>)
    requires Holds(s, q, ks)
    ensures Holds(OnTables(s, PopDue(now)).0, OnList(q, PopDue(now)).0, ks')
    ensures OnTables(s, PopDue(now)).1 == OnList(q, PopDue(now)).1
  {
    if q == [] {
      EmptyTables(s, q, ks);
      ks' := ks;
    } else {
      PopRemovesFirstMin(s, q, ks, now);
      PopOnBoth(s, q, ks[FirstMin(q)], now);
      ks' := if Due(s, now) then Without(ks, FirstMin(q)) else ks;
    }
  }

  lemma {:induction false} OfActorElements(q: Queue, actor: EntityId)
    ensures forall e :: e in OfActor(q, actor) <==> e in q && e.actor == Some(actor)
    decreases |q|
  {
    if q != [] {
      OfActorElements(q[..|q|-1], actor);
      assert q == q[..|q|-1] + [q[|q|-1]];
    }
  }

  /** In consistent tables the actor index finds exactly the actor's keys. */
  lemma ActorKeysExact(s: SchedulerState, actor: EntityId)
    requires Consistent(s)
    ensures forall k :: k in ActorKeys(s, actor) <==> k in s.ready && s.ready[k].actor == Some(actor)
    ensures ActorCancelled(s, actor).ready == s.ready - ActorKeys(s, actor)
  {
  }

  lemma ContentFilter(ready: map<SchedKey, ScheduledEntry>, q: Queue, ks: seq<SchedKey>, actor: EntityId, gone: set<SchedKey>)
      returns (ks': seq<SchedKey>)
    requires Content(ready, q, ks)
    requires forall k :: k in gone <==> k in ready && ready[k].actor == Some(actor)
    ensures Content(ready - gone, NotOfActor(q, actor), ks')
  {
    ks' := FilterKeys(ready, q, ks, actor);
    NotOfActorElements(q, actor);
    forall n | 0 <= n < |ks'| ensures ks'[n] !in gone {
      assert NotOfActor(q, actor)[n] in NotOfActor(q, actor);
    }
  }

  lemma TakenOut(ready: map<SchedKey, ScheduledEntry>, q: Queue, ks: seq<SchedKey>, actor: EntityId, gone: set<SchedKey>)
    requires Content(ready, q, ks)
    requires forall k :: k in gone <==> k in ready && ready[k].actor == Some(actor)
    ensures (set k | k in gone && k in ready :: ready[k]) == (set e | e in OfActor(q, actor))
  {
    OfActorElements(q, actor);
    var out := set k | k in gone && k in ready :: ready[k];
    forall e ensures e in out <==> e in OfActor(q, actor) {
      if e in out {
        var k :| k in gone && k in ready && ready[k] == e;
        var n :| 0 <= n < |ks| && ks[n] == k;
        assert q[n] == e;
      }
      if e in OfActor(q, actor) {
        var n :| 0 <= n < |q| && q[n] == e;
        assert ks[n] in gone;
      }
    }
  }

  lemma ActorCancelHolds(s: SchedulerState, q: Queue, ks: seq<SchedKey>, actor: EntityId) returns (ks': seq<SchedKey>)
    requires Holds(s, q, ks)
    ensures var (s', out) := OnTables(s, CancelByActor(actor)); var (q', out') := OnList(q, CancelByActor(actor));
            Holds(s', q', ks') && out == out'
  {
    ActorKeysExact(s, actor);
    ActorCancelKeepsConsistent(s, actor);
    ks' := ContentFilter(s.ready, q, ks, actor, ActorKeys(s, actor));
    TakenOut(s.ready, q, ks, actor, ActorKeys(s, actor));
  }

  // ---- any interleaving of commands ----

  function RunTables(s: SchedulerState, cs: seq<Command>): (SchedulerState, seq<set<ScheduledEntry>>) {
    if cs == [] then (s, [])
    else
      var (s', outs) := RunTables(s, cs[..|cs|-1]);
      var (s'', out) := OnTables(s', cs[|cs|-1]);
      (s'', outs + [out])
  }

  function RunList(q: Queue, cs: seq<Command>): (Queue, seq<set<ScheduledEntry>>) {
    if cs == [] then (q, [])
    else
      var (q', outs) := RunList(q, cs[..|cs|-1]);
      var (q'', out) := OnList(q', cs[|cs|-1]);
      (q'', outs + [out])
  }

  ghost predicate AllAdmissible(s: SchedulerState, cs: seq<Command>) {
    forall n :: 0 <= n < |cs| ==> Admissible(RunTables(s, cs[..n]).0, cs[n])
  }

  /** Refinement: from tables holding a list, any interleaving of scheduling under fresh ids,
      cancellation, cancellation by actor and popping takes out the same entries as the list and
      leaves tables holding the list's new content. */
  lemma {:induction false} TablesRefineList(s: SchedulerState, q: Queue, ks: seq<SchedKey>, cs: seq<Command>)
      returns (ks': seq<SchedKey>)
    requires Holds(s, q, ks) && AllAdmissible(s, cs)
    ensures Holds(RunTables(s, cs).0, RunList(q, cs).0, ks')
    ensures RunTables(s, cs).1 == RunList(q, cs).1
    decreases |cs|
  {
    ks' := ks;
    if cs != [] {
      var init, c := cs[..|cs|-1], cs[|cs|-1];
      forall n | 0 <= n < |init| ensures Admissible(RunTables(s, init[..n]).0, init[n]) {
        assert init[..n] == cs[..n] && init[n] == cs[n];
      }
      var mid := TablesRefineList(s, q, ks, init);
      var t, p := RunTables(s, init).0, RunList(q, init).0;
      assert cs[..|init|] == init;
      match c
      case Schedule(e) =>
        InsertHolds(t, p, mid, e);
        ks' := mid + [SchedKey(e.at, t.nextSeq, e.id)];
      case Cancel(id) => ks' := CancelHolds(t, p, mid, id);
      case CancelByActor(actor) => ks' := ActorCancelHolds(t, p, mid, actor);
      case PopDue(now) => ks' := PopHolds(t, p, mid, now);
    }
  }

  // ---- draining is a stable sort by tick ----

  /** Popping everything, however far in the future it lies. */
  function Drain(s: SchedulerState): seq<ScheduledEntry>
    decreases |s.ready|
  {
    if s.ready == map[] then []
    else
      var key := Head(s.ready.Keys);
      assert key in s.ready && (s.ready - {key}).Keys == s.ready.Keys - {key};
      [s.ready[key]] + Drain(Popped(s, key))
  }

  /** Insertion sort by tick, equal ticks in their given order. */
  function InsertByTick(e: ScheduledEntry, q: Queue): Queue {
    if q == [] || e.at <= q[0].at then [e] + q else [q[0]] + InsertByTick(e, q[1..])
  }

  function SortByTick(q: Queue): Queue {
    if q == [] then [] else InsertByTick(q[0], SortByTick(q[1..]))
  }

  function AtTick(q: Queue, at: Tick): Queue {
    if q == [] then [] else (if q[0].at == at then [q[0]] else []) + AtTick(q[1..], at)
  }

  lemma {:induction false} InsertByTickElements(e: ScheduledEntry, q: Queue)
    ensures forall x :: x in InsertByTick(e, q) <==> x == e || x in q
    decreases |q|
  {
    if q != [] && e.at > q[0].at {
      var rest := q[1..];
      InsertByTickElements(e, rest);
      assert q == [q[0]] + rest;
    }
  }

  predicate TicksAscend(q: Queue) {
    forall n, l :: 0 <= n < l < |q| ==> q[n].at <= q[l].at
  }

  lemma {:induction false} InsertByTickAscends(e: ScheduledEntry, q: Queue)
    requires TicksAscend(q)
    ensures TicksAscend(InsertByTick(e, q))
    decreases |q|
  {
    var r := InsertByTick(e, q);
    if q != [] && e.at > q[0].at {
      var rest := q[1..];
      InsertByTickAscends(e, rest);
      InsertByTickElements(e, rest);
      assert r[1..] == InsertByTick(e, rest);
      forall n, l | 0 <= n < l < |r| ensures r[n].at <= r[l].at {
        assert r[l] in r[1..];
      }
    }
  }

  lemma {:induction false} InsertByTickSound(e: ScheduledEntry, q: Queue, at: Tick)
    requires TicksAscend(q)
    ensures var r := InsertByTick(e, q); AtTick(r, at) == (if e.at == at then [e] else []) + AtTick(q, at)
    decreases |q|
  {
    var r := InsertByTick(e, q);
    if q == [] || e.at <= q[0].at {
      assert r[1..] == q;
    } else {
      var rest := q[1..];
      InsertByTickSound(e, rest, at);
      assert r[1..] == InsertByTick(e, rest);
      NoneAtTick(e, q, at);
    }
  }

  lemma {:induction false} NoneAtTick(e: ScheduledEntry, q: Queue, at: Tick)
    requires q != [] && q[0].at < e.at
    ensures (if q[0].at == at then [q[0]] else []) + ((if e.at == at then [e] else []) + AtTick(q[1..], at)) ==
            (if e.at == at then [e] else []) + AtTick(q, at)
  {
  }

  /** The reference really is a stable sort: ticks ascend, and the entries of each tick keep
      exactly their order and number. */
  lemma {:induction false} SortByTickIsStable(q: Queue, at: Tick)
    ensures var r := SortByTick(q);
            && TicksAscend(r)
            && (forall x :: x in r <==> x in q)
            && AtTick(r, at) == AtTick(q, at)
    decreases |q|
  {
    if q != [] {
      SortByTickIsStable(q[1..], at);
      InsertByTickElements(q[0], SortByTick(q[1..]));
      InsertByTickAscends(q[0], SortByTick(q[1..]));
      InsertByTickSound(q[0], SortByTick(q[1..]), at);
      assert forall x :: x in q <==> x == q[0] || x in q[1..];
    }
  }

  lemma TakeHead(q: Queue)
    requires |q| > 1 && FirstMin(q) == 0
    requires SortByTick(q[1..]) != [] && SortByTick(q[1..])[0] == q[1..][FirstMin(q[1..])]
    ensures SortByTick(q) == [q[0]] + SortByTick(Without(q, 0))
  {
    assert Without(q, 0) == q[1..];
    assert q[1..][FirstMin(q[1..])] == q[1 + FirstMin(q[1..])];
  }

  lemma WithoutLater(q: Queue, n: nat)
    requires 0 < n < |q|
    ensures Without(q, n) != [] && Without(q, n)[0] == q[0] && Without(q, n)[1..] == Without(q[1..], n - 1)
  {
  }

  lemma TakeLater(q: Queue, n: nat, tail: Queue)
    requires 0 < n < |q| && q[n].at < q[0].at && n == 1 + FirstMin(q[1..])
    requires SortByTick(q[1..]) == [q[n]] + tail && tail == SortByTick(Without(q[1..], n - 1))
    ensures SortByTick(q) == [q[n]] + SortByTick(Without(q, n))
  {
    WithoutLater(q, n);
    assert ([q[n]] + tail)[1..] == tail;
    assert SortByTick(Without(q, n)) == InsertByTick(q[0], tail);
  }

  /** Sorting a list is taking out its first least entry and sorting the rest. */
  lemma {:induction false} SortTakesFirstMin(q: Queue)
    requires q != []
    ensures SortByTick(q) == [q[FirstMin(q)]] + SortByTick(Without(q, FirstMin(q)))
    decreases |q|
  {
    var n := FirstMin(q);
    if |q| == 1 {
      assert Without(q, 0) == [] && q[1..] == [];
    } else {
      SortTakesFirstMin(q[1..]);
      if n == 0 {
        TakeHead(q);
      } else {
        assert q[1..][n-1] == q[n];
        TakeLater(q, n, SortByTick(Without(q[1..], n - 1)));
      }
    }
  }

  /** Draining a scheduler that holds `q` yields `q` stably sorted by tick. */
  lemma {:induction false} DrainIsStableSort(s: SchedulerState, q: Queue, ks: seq<SchedKey>)
    requires Holds(s, q, ks)
    ensures Drain(s) == SortByTick(q)
    decreases |q|
  {
    if q == [] {
      assert s.ready == map[];
    } else {
      var n := FirstMin(q);
      PopRemovesFirstMin(s, q, ks, U64_MAX);
      DrainIsStableSort(Popped(s, ks[n]), Without(q, n), Without(ks, n));
      SortTakesFirstMin(q);
    }
  }

  // ---- the order of a bulk cancellation ----

  /** Later ids were scheduled later. */
  ghost predicate SeqFollowsIds(s: SchedulerState) {
    forall k, l :: k in s.ready && l in s.ready && k.id < l.id ==> k.seqNo < l.seqNo
  }

  ghost predicate InSchedulerOrder(s: SchedulerState, out: seq<ScheduledEntry>) {
    && (forall n :: 0 <= n < |out| ==> out[n].id in s.byId)
    && (forall n, l :: 0 <= n < l < |out| ==> KeyLess(s.byId[out[n].id], s.byId[out[l].id]))
  }

  lemma {:induction false} EntriesInIdOrder(s: SchedulerState, ids: seq<nat>)
    requires Consistent(s) && forall id :: id in ids ==> id in s.byId
    ensures var out := EntriesOf(s, ids);
            |out| == |ids| && forall n :: 0 <= n < |ids| ==> ids[n] in s.byId && out[n].id == ids[n] && out[n] == s.ready[s.byId[ids[n]]]
    decreases |ids|
  {
    if ids != [] {
      EntriesInIdOrder(s, ids[..|ids|-1]);
      assert ids[|ids|-1] in ids;
    }
  }

  /** No entry of the actor is due before one scheduled earlier. */
  ghost predicate TicksFollowIds(s: SchedulerState, ids: set<ScheduledActionId>) {
    forall x, y :: x in ids && y in ids && x < y ==> x in s.byId && y in s.byId && s.byId[x].at <= s.byId[y].at
  }

  ghost predicate KeysAscend(s: SchedulerState, walk: seq<nat>) {
    && (forall n :: 0 <= n < |walk| ==> walk[n] in s.byId)
    && (forall n, l :: 0 <= n < l < |walk| ==> KeyLess(s.byId[walk[n]], s.byId[walk[l]]))
  }

  lemma EntriesAscendWithKeys(s: SchedulerState, walk: seq<nat>)
    requires Consistent(s) && forall id :: id in walk ==> id in s.byId
    ensures InSchedulerOrder(s, EntriesOf(s, walk)) <==> KeysAscend(s, walk)
  {
    EntriesInIdOrder(s, walk);
  }

  lemma KeysAscendWithTicks(s: SchedulerState, ids: set<ScheduledActionId>, walk: seq<nat>)
    requires Consistent(s) && SeqFollowsIds(s)
    requires forall n, l :: 0 <= n < l < |walk| ==> walk[n] < walk[l]
    requires forall id :: id in walk <==> id in ids
    requires forall id :: id in ids ==> id in s.byId
    ensures KeysAscend(s, walk) <==> TicksFollowIds(s, ids)
  {
  }

  /** A bulk cancellation is documented to return its entries in scheduler order, but walks them in id
      order. The two agree if and only if no entry of the actor is due before one scheduled earlier. */
  lemma CancelledInSchedulerOrderExactly(s: SchedulerState, actor: EntityId)
    requires Consistent(s) && SeqFollowsIds(s) && actor in s.byActor
    ensures InSchedulerOrder(s, EntriesOf(s, Ascending(s.byActor[actor]))) <==> TicksFollowIds(s, s.byActor[actor])
  {
    var walk := Ascending(s.byActor[actor]);
    AscendingElements(s.byActor[actor]);
    AscendingOrdered(s.byActor[actor]);
    EntriesAscendWithKeys(s, walk);
    KeysAscendWithTicks(s, s.byActor[actor], walk);
  }

  lemma ReturnedIsGone(s: SchedulerState, actor: EntityId, e: ScheduledEntry)
    requires Consistent(s) && actor in s.byActor && e in EntriesOf(s, Ascending(s.byActor[actor]))
    ensures e in OnTables(s, CancelByActor(actor)).1
  {
    var walk := Ascending(s.byActor[actor]);
    AscendingElements(s.byActor[actor]);
    EntriesInIdOrder(s, walk);
    ActorKeysExact(s, actor);
    var n :| 0 <= n < |walk| && EntriesOf(s, walk)[n] == e;
    assert walk[n] in walk && s.byId[walk[n]] in ActorKeys(s, actor);
  }

  lemma EntryReturned(s: SchedulerState, walk: seq<nat>, id: nat)
    requires Consistent(s) && id in walk && forall x :: x in walk ==> x in s.byId
    ensures s.byId[id] in s.ready && s.ready[s.byId[id]] in EntriesOf(s, walk)
  {
    EntriesInIdOrder(s, walk);
    var n :| 0 <= n < |walk| && walk[n] == id;
    assert EntriesOf(s, walk)[n] == s.ready[s.byId[id]];
  }

  lemma GoneHasId(s: SchedulerState, actor: EntityId, e: ScheduledEntry) returns (id: ScheduledActionId)
    requires actor in s.byActor && e in OnTables(s, CancelByActor(actor)).1
    ensures id in s.byActor[actor] && id in s.byId && s.byId[id] in s.ready && s.ready[s.byId[id]] == e
  {
    var k :| k in ActorKeys(s, actor) && k in s.ready && s.ready[k] == e;
    id :| id in s.byActor[actor] && id in s.byId && s.byId[id] == k;
  }

  lemma WalkIsKnown(s: SchedulerState, actor: EntityId)
    requires ActorIndexed(s) && actor in s.byActor
    ensures forall id :: id in Ascending(s.byActor[actor]) <==> id in s.byActor[actor]
    ensures forall id :: id in Ascending(s.byActor[actor]) ==> id in s.byId
  {
    AscendingElements(s.byActor[actor]);
  }

  lemma GoneIsReturned(s: SchedulerState, actor: EntityId, e: ScheduledEntry)
    requires Consistent(s) && actor in s.byActor && e in OnTables(s, CancelByActor(actor)).1
    ensures e in EntriesOf(s, Ascending(s.byActor[actor]))
  {
    WalkIsKnown(s, actor);
    var id := GoneHasId(s, actor, e);
    EntryReturned(s, Ascending(s.byActor[actor]), id);
  }

  /** The sequence a bulk cancellation returns holds exactly the entries the list loses, each once. */
  lemma CancelledIsWhatGoes(s: SchedulerState, actor: EntityId)
    requires Consistent(s) && actor in s.byActor
    ensures var out := EntriesOf(s, Ascending(s.byActor[actor]));
            && (set e | e in out) == OnTables(s, CancelByActor(actor)).1
            && forall n, l :: 0 <= n < l < |out| ==> out[n].id < out[l].id
  {
    var walk := Ascending(s.byActor[actor]);
    AscendingElements(s.byActor[actor]);
    AscendingOrdered(s.byActor[actor]);
    EntriesInIdOrder(s, walk);
    ActorKeysExact(s, actor);
    var out, gone := EntriesOf(s, walk), OnTables(s, CancelByActor(actor)).1;
    forall e ensures e in out <==> e in gone {
      if e in out {
        ReturnedIsGone(s, actor, e);
      }
      if e in gone {
        GoneIsReturned(s, actor, e);
      }
    }
  }

  /** Two entries of one actor, the later id due first: they come back in the opposite of scheduler order. */
  lemma CancelledOutOfOrder(first: ScheduledEntry, second: ScheduledEntry)
    requires first.id == 1 && second.id == 2 && second.at < first.at && first.actor == second.actor == Some(7)
    ensures var s := Insert(Insert(EMPTY, first), second);
            Consistent(s) && SeqFollowsIds(s) && 7 in s.byActor && !InSchedulerOrder(s, EntriesOf(s, Ascending(s.byActor[7])))
  {
    var one := Insert(EMPTY, first);
    InsertKeepsConsistent(EMPTY, first);
    InsertKeepsConsistent(one, second);
    var s := Insert(one, second);
    assert 1 in s.byActor[7] && 2 in s.byActor[7] && s.byId[1].at > s.byId[2].at;
    CancelledInSchedulerOrderExactly(s, 7);
  }
}
