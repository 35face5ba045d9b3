/** What can happen to one instance, and how a kernel run is made of nothing else. */
module Moves {
  import opened Abi
  import opened Instance
  import opened Stage
  import opened Step
  import opened Kernel
  import S = Scheduler

  datatype Move =
    | Admit(submission: Submission)
    | PopAt(now: Tick, session: Caps)
    | Receive(from: InstanceId, signal: PendingSignal)
    | Unload(route: RouteId)

  ghost function ApplyMove(reg: Registry, i: InstanceSnapshot, id: InstanceId, move: Move): InstanceSnapshot {
    match move
    case Admit(s) =>
      var next := SatAdd(i.idCounters.nextScheduled, 1);
      if BackPressured(i) then i else Enqueue(i, s, next, next)
    case PopAt(now, session) =>
      if S.Due(i.scheduler, now) then StepOne(reg, i, id, now, session, true).value.0 else i
    case Receive(from, sig) => if InboxFull(i, sig.route) then i else Received(i, from, sig)
    case Unload(route) => DropRoute(i, route)
  }

  /** An action about to be popped: the instance as it then stands, and the step that pops it. */
  datatype Occasion = Occasion(before: InstanceSnapshot, id: InstanceId, now: Tick, session: Caps)

  /** A property of one instance that holds at creation and survives every move; a pop need not keep it
      where `ok` fails. */
  ghost predicate InductiveWhere(reg: Registry, inv: InstanceSnapshot -> bool, ok: Occasion -> bool) {
    && (forall id, config :: inv(Fresh(id, config)))
    && (forall i, id, move: Move ::
          inv(i) && (move.PopAt? && S.Due(i.scheduler, move.now) ==> ok(Occasion(i, id, move.now, move.session)))
          ==> inv(ApplyMove(reg, i, id, move)))
  }

  ghost predicate Inductive(reg: Registry, inv: InstanceSnapshot -> bool) {
    && (forall id, config :: inv(Fresh(id, config)))
    && (forall i, id, move :: inv(i) ==> inv(ApplyMove(reg, i, id, move)))
  }

  ghost predicate Everywhere(m: Instances, inv: InstanceSnapshot -> bool) {
    forall id :: id in m ==> inv(m[id])
  }

  lemma MeasuringChangesNothing(reg: Registry, i: InstanceSnapshot, id: InstanceId, now: Tick, session: Caps, measure: bool)
    requires S.Due(i.scheduler, now)
    ensures StepOne(reg, i, id, now, session, measure).value.0 == ApplyMove(reg, i, id, PopAt(now, session))
  {
  }

  // ---- every pop of a run ----

  ghost function PassOccasions(reg: Registry, p: Pass, ids: seq<InstanceId>, now: Tick, session: Caps): seq<Occasion> {
    if ids == [] then []
    else
      var init, id := ids[..|ids|-1], ids[|ids|-1];
      var m := VisitAll(reg, p, init, now, session).k.instances;
      PassOccasions(reg, p, init, now, session) +
      if id in m && S.Due(m[id].scheduler, now) then [Occasion(m[id], id, now, session)] else []
  }

  ghost function OccasionsOf(reg: Registry, k: KernelState, input: Input): seq<Occasion> {
    match input
    case DoStep(now, session) => PassOccasions(reg, Pass(k, StepReport(0, 0, 0, 0), [], []), Ids(k.instances), now, session)
    case _ => []
  }

  /** Every pop of a run, in order. */
  ghost function Occasions(reg: Registry, k: KernelState, inputs: seq<Input>): seq<Occasion> {
    if inputs == [] then []
    else Occasions(reg, k, inputs[..|inputs|-1]) + OccasionsOf(reg, Run(reg, k, inputs[..|inputs|-1]), inputs[|inputs|-1])
  }

  ghost predicate All(os: seq<Occasion>, ok: Occasion -> bool) {
    forall o :: o in os ==> ok(o)
  }

  /** The property holds of every instance about to pop. */
  ghost predicate Before(os: seq<Occasion>, inv: InstanceSnapshot -> bool) {
    forall o :: o in os ==> inv(o.before)
  }

  lemma AllConcat(a: seq<Occasion>, b: seq<Occasion>, ok: Occasion -> bool)
    ensures All(a + b, ok) <==> All(a, ok) && All(b, ok)
  {
    assert forall o :: o in a + b <==> o in a || o in b;
  }

  // ---- properties kept along a run ----

  lemma {:induction false} RouterKeeps(reg: Registry, m: Instances, from: InstanceId, sigs: seq<PendingSignal>,
                                       inv: InstanceSnapshot -> bool, ok: Occasion -> bool)
    requires InductiveWhere(reg, inv, ok) && Everywhere(m, inv)
    ensures Everywhere(RouteAll(m, from, sigs).0, inv)
    decreases |sigs|
  {
    if sigs != [] {
      var sig := sigs[|sigs|-1];
      RouterKeeps(reg, m, from, sigs[..|sigs|-1], inv, ok);
      var m' := RouteAll(m, from, sigs[..|sigs|-1]).0;
      if sig.target in m' {
        assert inv(ApplyMove(reg, m'[sig.target], sig.target, Receive(from, sig)));
      }
    }
  }

  lemma ProcessKeeps(reg: Registry, m: Instances, id: InstanceId, now: Tick, session: Caps, measure: bool,
                     inv: InstanceSnapshot -> bool, ok: Occasion -> bool)
    requires InductiveWhere(reg, inv, ok) && Everywhere(m, inv)
    requires Process(reg, m, id, now, session, measure).Ran? && ok(Occasion(m[id], id, now, session))
    ensures Everywhere(Process(reg, m, id, now, session, measure).instances, inv)
  {
    var (i, core) := StepOne(reg, m[id], id, now, session, measure).value;
    MeasuringChangesNothing(reg, m[id], id, now, session, measure);
    assert inv(ApplyMove(reg, m[id], id, PopAt(now, session)));
    RouterKeeps(reg, m[id := i], id, core.pendingSignals, inv, ok);
  }

  lemma VisitKeeps(reg: Registry, p: Pass, id: InstanceId, now: Tick, session: Caps, inv: InstanceSnapshot -> bool, ok: Occasion -> bool)
    requires InductiveWhere(reg, inv, ok) && Everywhere(p.k.instances, inv)
    requires id in p.k.instances && S.Due(p.k.instances[id].scheduler, now) ==> ok(Occasion(p.k.instances[id], id, now, session))
    ensures Everywhere(Visit(reg, p, id, now, session).k.instances, inv)
  {
    if Process(reg, p.k.instances, id, now, session, p.k.wal.Some?).Ran? {
      ProcessKeeps(reg, p.k.instances, id, now, session, p.k.wal.Some?, inv, ok);
    }
  }

  lemma {:induction false} PassKeeps(reg: Registry, p: Pass, ids: seq<InstanceId>, now: Tick, session: Caps,
                                     inv: InstanceSnapshot -> bool, ok: Occasion -> bool)
    requires InductiveWhere(reg, inv, ok) && Everywhere(p.k.instances, inv) && All(PassOccasions(reg, p, ids, now, session), ok)
    ensures Everywhere(VisitAll(reg, p, ids, now, session).k.instances, inv)
    ensures Before(PassOccasions(reg, p, ids, now, session), inv)
    decreases |ids|
  {
    if ids != [] {
      var init, id := ids[..|ids|-1], ids[|ids|-1];
      var os, all := PassOccasions(reg, p, init, now, session), PassOccasions(reg, p, ids, now, session);
      assert forall o :: o in os ==> o in all;
      PassKeeps(reg, p, init, now, session, inv, ok);
      var q := VisitAll(reg, p, init, now, session);
      if id in q.k.instances && S.Due(q.k.instances[id].scheduler, now) {
        assert Occasion(q.k.instances[id], id, now, session) in all;
      }
      VisitKeeps(reg, q, id, now, session, inv, ok);
    }
  }

  lemma ReactKeeps(reg: Registry, k: KernelState, input: Input, inv: InstanceSnapshot -> bool, ok: Occasion -> bool)
    requires InductiveWhere(reg, inv, ok) && Everywhere(k.instances, inv) && All(OccasionsOf(reg, k, input), ok)
    ensures Everywhere(React(reg, k, input).k.instances, inv)
    ensures Before(OccasionsOf(reg, k, input), inv)
  {
    match input
    case DoCreate(_) =>
    case DoSubmit(s) =>
      if s.instance in k.instances {
        assert inv(ApplyMove(reg, k.instances[s.instance], s.instance, Admit(s)));
      }
    case DoStep(now, session) =>
      PassKeeps(reg, Pass(k, StepReport(0, 0, 0, 0), [], []), Ids(k.instances), now, session, inv, ok);
    case DoUnload(route, _) =>
      forall id | id in k.instances ensures inv(DropRoute(k.instances[id], route)) {
        assert inv(ApplyMove(reg, k.instances[id], id, Unload(route)));
      }
  }

  /** A property that survives every move, pops where `ok` holds among them, holds of every instance in
      every state of every run whose pops are all such, and of every instance about to pop. */
  lemma {:induction false} RunKeepsWhere(reg: Registry, k: KernelState, inputs: seq<Input>, inv: InstanceSnapshot -> bool, ok: Occasion -> bool)
    requires InductiveWhere(reg, inv, ok) && Everywhere(k.instances, inv) && All(Occasions(reg, k, inputs), ok)
    ensures Everywhere(Run(reg, k, inputs).instances, inv)
    ensures Before(Occasions(reg, k, inputs), inv)
    decreases |inputs|
  {
    if inputs != [] {
      var init, last := inputs[..|inputs|-1], inputs[|inputs|-1];
      AllConcat(Occasions(reg, k, init), OccasionsOf(reg, Run(reg, k, init), last), ok);
      RunKeepsWhere(reg, k, init, inv, ok);
      ReactKeeps(reg, Run(reg, k, init), last, inv, ok);
    }
  }

  /** An inductive property holds of every instance in every state of every run. */
  lemma RunKeeps(reg: Registry, k: KernelState, inputs: seq<Input>, inv: InstanceSnapshot -> bool)
    requires Inductive(reg, inv) && Everywhere(k.instances, inv)
    ensures Everywhere(Run(reg, k, inputs).instances, inv)
  {
    RunKeepsWhere(reg, k, inputs, inv, o => true);
  }

  // ---- a run, seen from one instance, is a list of moves ----

  ghost function Mover(reg: Registry, id: InstanceId): (InstanceSnapshot, Move) -> InstanceSnapshot {
    (i, move) => ApplyMove(reg, i, id, move)
  }

  ghost function ApplyMoves(reg: Registry, i: InstanceSnapshot, id: InstanceId, moves: seq<Move>): InstanceSnapshot {
    Fold(Mover(reg, id), i, moves)
  }

  lemma MovesSnoc(reg: Registry, i: InstanceSnapshot, id: InstanceId, moves: seq<Move>, move: Move)
    ensures ApplyMoves(reg, i, id, moves + [move]) == ApplyMove(reg, ApplyMoves(reg, i, id, moves), id, move)
  {
  }

  lemma ApplyMovesConcat(reg: Registry, i: InstanceSnapshot, id: InstanceId, a: seq<Move>, b: seq<Move>)
    ensures ApplyMoves(reg, i, id, a + b) == ApplyMoves(reg, ApplyMoves(reg, i, id, a), id, b)
  {
    FoldConcat(Mover(reg, id), i, a, b);
  }

  lemma OneMove(reg: Registry, i: InstanceSnapshot, id: InstanceId, move: Move)
    ensures ApplyMoves(reg, i, id, [move]) == ApplyMove(reg, i, id, move)
  {
    MovesSnoc(reg, i, id, [], move);
    assert [] + [move] == [move];
  }

  lemma {:induction false} RouterIsMoves(reg: Registry, m: Instances, from: InstanceId, sigs: seq<PendingSignal>, id: InstanceId)
      returns (moves: seq<Move>)
    requires id in m
    ensures id in RouteAll(m, from, sigs).0 && RouteAll(m, from, sigs).0[id] == ApplyMoves(reg, m[id], id, moves)
    decreases |sigs|
  {
    moves := [];
    if sigs != [] {
      var sig := sigs[|sigs|-1];
      var before := RouterIsMoves(reg, m, from, sigs[..|sigs|-1], id);
      moves := before;
      if sig.target == id {
        moves := before + [Receive(from, sig)];
        MovesSnoc(reg, m[id], id, before, Receive(from, sig));
      }
    }
  }

  lemma ProcessIsMoves(reg: Registry, m: Instances, visited: InstanceId, now: Tick, session: Caps, measure: bool, id: InstanceId)
      returns (moves: seq<Move>)
    requires id in m && Process(reg, m, visited, now, session, measure).Ran?
    ensures var m' := Process(reg, m, visited, now, session, measure).instances;
            id in m' && m'[id] == ApplyMoves(reg, m[id], id, moves)
  {
    var (i, core) := StepOne(reg, m[visited], visited, now, session, measure).value;
    var received := RouterIsMoves(reg, m[visited := i], visited, core.pendingSignals, id);
    if visited == id {
      MeasuringChangesNothing(reg, m[id], id, now, session, measure);
      moves := [PopAt(now, session)] + received;
      OneMove(reg, m[id], id, PopAt(now, session));
      ApplyMovesConcat(reg, m[id], id, [PopAt(now, session)], received);
    } else {
      moves := received;
    }
  }

  lemma {:induction false} PassIsMoves(reg: Registry, p: Pass, ids: seq<InstanceId>, now: Tick, session: Caps, id: InstanceId)
      returns (moves: seq<Move>)
    requires id in p.k.instances
    ensures var m' := VisitAll(reg, p, ids, now, session).k.instances;
            id in m' && m'[id] == ApplyMoves(reg, p.k.instances[id], id, moves)
    decreases |ids|
  {
    moves := [];
    if ids != [] {
      var init, last := ids[..|ids|-1], ids[|ids|-1];
      moves := PassIsMoves(reg, p, init, now, session, id);
      var k := VisitAll(reg, p, init, now, session).k;
      if Process(reg, k.instances, last, now, session, k.wal.Some?).Ran? {
        var more := ProcessIsMoves(reg, k.instances, last, now, session, k.wal.Some?, id);
        ApplyMovesConcat(reg, p.k.instances[id], id, moves, more);
        moves := moves + more;
      }
    }
  }

  lemma ReactIsMoves(reg: Registry, k: KernelState, input: Input, id: InstanceId) returns (moves: seq<Move>)
    requires id in k.instances && id <= k.nextInstanceId && id < U64_MAX
    ensures var k' := React(reg, k, input).k;
            id in k'.instances && k'.instances[id] == ApplyMoves(reg, k.instances[id], id, moves) && id <= k'.nextInstanceId
  {
    moves := [];
    match input
    case DoCreate(_) =>
    case DoSubmit(s) =>
      if s.instance == id {
        moves := [Admit(s)];
        OneMove(reg, k.instances[id], id, Admit(s));
      }
    case DoStep(now, session) =>
      var p := Pass(k, StepReport(0, 0, 0, 0), [], []);
      moves := PassIsMoves(reg, p, Ids(k.instances), now, session, id);
      PassKeepsIdCounter(reg, p, Ids(k.instances), now, session);
    case DoUnload(route, caps) =>
      if Contains(caps, ADMIN_UNLOAD) {
        moves := [Unload(route)];
        OneMove(reg, k.instances[id], id, Unload(route));
      }
  }

  lemma {:induction false} PassKeepsIdCounter(reg: Registry, p: Pass, ids: seq<InstanceId>, now: Tick, session: Caps)
    ensures VisitAll(reg, p, ids, now, session).k.nextInstanceId == p.k.nextInstanceId
    decreases |ids|
  {
    if ids != [] {
      PassKeepsIdCounter(reg, p, ids[..|ids|-1], now, session);
    }
  }

  /** An instance that exists (and whose id the kernel cannot hand out again) lives through a run
      by moves alone. */
  lemma {:induction false} RunIsMoves(reg: Registry, k: KernelState, inputs: seq<Input>, id: InstanceId) returns (moves: seq<Move>)
    requires id in k.instances && id <= k.nextInstanceId && id < U64_MAX
    ensures var k' := Run(reg, k, inputs);
            id in k'.instances && k'.instances[id] == ApplyMoves(reg, k.instances[id], id, moves) && id <= k'.nextInstanceId
    decreases |inputs|
  {
    moves := [];
    if inputs != [] {
      var init, last := inputs[..|inputs|-1], inputs[|inputs|-1];
      moves := RunIsMoves(reg, k, init, id);
      var more := ReactIsMoves(reg, Run(reg, k, init), last, id);
      ApplyMovesConcat(reg, k.instances[id], id, moves, more);
      moves := moves + more;
    }
  }
}
