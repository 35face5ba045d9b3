/** What every reachable instance satisfies, whatever runs on it. */
module Invariants {
  import opened Abi
  import opened Authz
  import opened Instance
  import opened Stage
  import opened Step
  import opened Kernel
  import opened Moves
  import L = Ledger
  import S = Scheduler
  import SL = SchedulerList

  // ---- the two stores agree ----

  /** The entity map and the ledger's entities are equal, components and their accounted sizes have
      the same keys, and no component outlives its entity. */
  ghost predicate KeysAgree(i: InstanceSnapshot) {
    && i.entities.Keys == i.ledger.entities
    && i.components.Keys == i.ledger.sizes.Keys
    && (forall k :: k in i.components ==> k.0 in i.entities)
  }

  /** Both stores agree, and the cached total never overstates. */
  ghost predicate StoresAgree(i: InstanceSnapshot) {
    && KeysAgree(i)
    && i.ledger.totalBytes <= L.TrueTotal(i.ledger)
  }

  /** The ledger's view of an operation. */
  function LedgerView(op: Op): Option<L.LedgerOp> {
    match op
    case SpawnEntity(e, _) => Some(L.AddEntityOp(e))
    case DespawnEntity(e) => Some(L.RemoveEntityOp(e))
    case SetComponent(e, tc, _, size) => Some(L.AddComponentOp((e, tc), size))
    case RemoveComponent(e, tc, size) => Some(L.RemoveComponentOp((e, tc), size))
    case _ => None
  }

  lemma ExecOnLedger(o: Origin, i: InstanceSnapshot, op: Op)
    ensures Exec(o, i, op).ledger == if LedgerView(op).Some? then L.ApplyLedgerOp(i.ledger, LedgerView(op).value) else i.ledger
  {
  }

  lemma ExecKeepsCache(o: Origin, i: InstanceSnapshot, op: Op)
    requires i.ledger.totalBytes <= L.TrueTotal(i.ledger)
    ensures Exec(o, i, op).ledger.totalBytes <= L.TrueTotal(Exec(o, i, op).ledger)
  {
    ExecOnLedger(o, i, op);
    if LedgerView(op).Some? {
      L.CacheNeverOverstates(i.ledger, LedgerView(op).value);
    }
  }

  lemma ExecKeepsKeys(o: Origin, i: InstanceSnapshot, op: Op)
    requires KeysAgree(i)
    ensures KeysAgree(Exec(o, i, op))
  {
  }

  lemma ExecKeepsStores(o: Origin, i: InstanceSnapshot, op: Op)
    requires StoresAgree(i)
    ensures StoresAgree(Exec(o, i, op))
  {
    ExecKeepsKeys(o, i, op);
    ExecKeepsCache(o, i, op);
  }

  lemma {:induction false} ExecAllKeepsStores(o: Origin, i: InstanceSnapshot, ops: seq<Op>)
    requires StoresAgree(i)
    ensures StoresAgree(ExecAll(o, i, ops))
    decreases |ops|
  {
    if ops != [] {
      ExecAllKeepsStores(o, i, ops[..|ops|-1]);
      ExecKeepsStores(o, ExecAll(o, i, ops[..|ops|-1]), ops[|ops|-1]);
    }
  }

  lemma PopKeepsStores(reg: Registry, i: InstanceSnapshot, id: InstanceId, now: Tick, session: Caps)
    requires StoresAgree(i) && S.Due(i.scheduler, now)
    ensures StoresAgree(StepOne(reg, i, id, now, session, true).value.0)
  {
    var p, e := AfterPop(i), i.scheduler.ready[S.Head(i.scheduler.ready.Keys)];
    assert StoresAgree(p);
    StagingPreservesMeaning(reg, p, id, e, now, session, true);
    ExecAllKeepsStores(OriginOf(p, id, e, now, session), p, Admitted(reg, p, id, e, now, session));
  }

  lemma MoveKeepsStores(reg: Registry, i: InstanceSnapshot, id: InstanceId, move: Move)
    requires StoresAgree(i)
    ensures StoresAgree(ApplyMove(reg, i, id, move))
  {
    if move.PopAt? && S.Due(i.scheduler, move.now) {
      PopKeepsStores(reg, i, id, move.now, move.session);
    }
  }

  lemma StoresInductive(reg: Registry)
    ensures Inductive(reg, StoresAgree)
  {
    forall i, id, move | StoresAgree(i) ensures StoresAgree(ApplyMove(reg, i, id, move)) {
      MoveKeepsStores(reg, i, id, move);
    }
  }

  /** Store and ledger agree in every reachable state, though separate loops with different guards
      update them. */
  lemma StoresAgreeInEveryRun(reg: Registry, k: KernelState, inputs: seq<Input>)
    requires k.instances == map[]
    ensures forall id :: id in Run(reg, k, inputs).instances ==> StoresAgree(Run(reg, k, inputs).instances[id])
  {
    StoresInductive(reg);
    RunKeeps(reg, k, inputs, StoresAgree);
  }

  // ---- the cached total ----

  ghost predicate TotalExact(i: InstanceSnapshot) {
    i.ledger.totalBytes == L.TrueTotal(i.ledger)
  }

  ghost predicate TotalFits(i: InstanceSnapshot) {
    L.TrueTotal(i.ledger) <= U64_MAX
  }

  /** Through any list of operations the cached total is the sum of the stored sizes at every
      point if and only if that sum fits 64 bits at every point. */
  lemma {:induction false} TotalExactWhileItFits(o: Origin, i: InstanceSnapshot, ops: seq<Op>)
    requires TotalExact(i)
    ensures (forall n :: 0 <= n <= |ops| ==> TotalExact(ExecAll(o, i, ops[..n]))) <==>
            (forall n :: 0 <= n <= |ops| ==> TotalFits(ExecAll(o, i, ops[..n])))
    decreases |ops|
  {
    if ops != [] {
      var init := ops[..|ops|-1];
      TotalExactWhileItFits(o, i, init);
      assert forall n :: 0 <= n <= |init| ==> init[..n] == ops[..n];
      assert ops[..|ops|] == ops && ops[..|init|] == init;
      var j, op := ExecAll(o, i, init), ops[|ops|-1];
      ExecOnLedger(o, j, op);
      if TotalExact(j) && LedgerView(op).Some? {
        L.CacheExactWhenItFits(j.ledger, LedgerView(op).value);
      }
      assert forall n :: 0 <= n <= |ops| ==> n <= |init| || ops[..n] == ops;
    }
  }

  /** The property holds after the pop and, if the step commits, after every operation it commits. */
  ghost predicate Throughout(reg: Registry, o: Occasion, good: InstanceSnapshot -> bool) {
    S.Due(o.before.scheduler, o.now) ==>
      var p, e := AfterPop(o.before), o.before.scheduler.ready[S.Head(o.before.scheduler.ready.Keys)];
      var ops := Admitted(reg, p, o.id, e, o.now, o.session);
      && good(p)
      && (Commits(RunEntry(reg, p, o.id, e, o.now, o.session, true).1.verdict) ==>
            forall n :: 0 <= n <= |ops| ==> good(ExecAll(OriginOf(p, o.id, e, o.now, o.session), p, ops[..n])))
  }

  lemma ThroughoutFits(reg: Registry, o: Occasion)
    requires TotalExact(o.before)
    ensures Throughout(reg, o, TotalFits) <==> Throughout(reg, o, TotalExact)
  {
    if S.Due(o.before.scheduler, o.now) {
      var p, e := AfterPop(o.before), o.before.scheduler.ready[S.Head(o.before.scheduler.ready.Keys)];
      assert TotalExact(p);
      TotalExactWhileItFits(OriginOf(p, o.id, e, o.now, o.session), p, Admitted(reg, p, o.id, e, o.now, o.session));
    }
  }

  /** What holds throughout a pop holds after it. */
  lemma ThroughoutEnds(reg: Registry, o: Occasion)
    requires S.Due(o.before.scheduler, o.now) && Throughout(reg, o, TotalExact)
    ensures TotalExact(StepOne(reg, o.before, o.id, o.now, o.session, true).value.0)
  {
    var p, e := AfterPop(o.before), o.before.scheduler.ready[S.Head(o.before.scheduler.ready.Keys)];
    var ops := Admitted(reg, p, o.id, e, o.now, o.session);
    StagingPreservesMeaning(reg, p, o.id, e, o.now, o.session, true);
    assert ops[..|ops|] == ops;
  }

  /** One pop from an exact total. */
  lemma PopExactWhileItFits(reg: Registry, o: Occasion)
    requires TotalExact(o.before)
    ensures Throughout(reg, o, TotalFits) <==> Throughout(reg, o, TotalExact)
    ensures S.Due(o.before.scheduler, o.now) && Throughout(reg, o, TotalFits) ==>
              TotalExact(StepOne(reg, o.before, o.id, o.now, o.session, true).value.0)
  {
    ThroughoutFits(reg, o);
    if S.Due(o.before.scheduler, o.now) && Throughout(reg, o, TotalExact) {
      ThroughoutEnds(reg, o);
    }
  }

  lemma ExactExceptPops(reg: Registry, i: InstanceSnapshot, id: InstanceId, move: Move)
    requires TotalExact(i) && !move.PopAt?
    ensures TotalExact(ApplyMove(reg, i, id, move))
  {
  }

  lemma ExactInductive(reg: Registry)
    ensures InductiveWhere(reg, TotalExact, o => Throughout(reg, o, TotalFits))
  {
    var ok := o => Throughout(reg, o, TotalFits);
    forall id, config ensures TotalExact(Fresh(id, config)) {
      assert L.TrueTotal(L.EMPTY) == 0;
    }
    forall i, id, move: Move | TotalExact(i) && (move.PopAt? && S.Due(i.scheduler, move.now) ==> ok(Occasion(i, id, move.now, move.session)))
      ensures TotalExact(ApplyMove(reg, i, id, move))
    {
      if !move.PopAt? {
        ExactExceptPops(reg, i, id, move);
      } else {
        PopExactWhileItFits(reg, Occasion(i, id, move.now, move.session));
      }
    }
  }

  lemma ExactWhereAllFit(reg: Registry, k: KernelState, inputs: seq<Input>)
    requires Everywhere(k.instances, TotalExact)
    requires forall o :: o in Occasions(reg, k, inputs) ==> Throughout(reg, o, TotalFits)
    ensures Everywhere(Run(reg, k, inputs).instances, TotalExact) && Before(Occasions(reg, k, inputs), TotalExact)
  {
    ExactInductive(reg);
    RunKeepsWhere(reg, k, inputs, TotalExact, o => Throughout(reg, o, TotalFits));
  }

  /** Through any run from exact totals, the cached total of every instance is the sum of its stored
      sizes at every point of every step if and only if that sum fits 64 bits at every such point; every
      state of such a run then has exact totals, whatever the budgets. */
  lemma TotalsExactInEveryRun(reg: Registry, k: KernelState, inputs: seq<Input>)
    requires Everywhere(k.instances, TotalExact)
    ensures (forall o :: o in Occasions(reg, k, inputs) ==> Throughout(reg, o, TotalExact)) <==>
            (forall o :: o in Occasions(reg, k, inputs) ==> Throughout(reg, o, TotalFits))
    ensures (forall o :: o in Occasions(reg, k, inputs) ==> Throughout(reg, o, TotalFits)) ==>
              Everywhere(Run(reg, k, inputs).instances, TotalExact)
  {
    if forall o :: o in Occasions(reg, k, inputs) ==> Throughout(reg, o, TotalFits) {
      ExactWhereAllFit(reg, k, inputs);
      forall o | o in Occasions(reg, k, inputs) ensures Throughout(reg, o, TotalExact) {
        PopExactWhileItFits(reg, o);
      }
    } else {
      var o :| o in Occasions(reg, k, inputs) && !Throughout(reg, o, TotalFits);
      ExactThroughoutFits(reg, o);
    }
  }

  lemma ExactThroughoutFits(reg: Registry, o: Occasion)
    ensures Throughout(reg, o, TotalExact) ==> Throughout(reg, o, TotalFits)
  {
  }

  // ---- ids ----

  /** The three counters move together, and below saturation the three tables are in lockstep. */
  ghost predicate IdsInStep(i: InstanceSnapshot) {
    && i.scheduler.nextId == i.idCounters.nextScheduled == i.scheduler.nextSeq
    && (i.idCounters.nextScheduled < U64_MAX ==> S.Consistent(i.scheduler) && S.WellKeyed(i.scheduler))
  }

  /** From `i` to `j` the counter only grows, and below saturation whatever is newly queued carries
      an id above every id `i` ever handed out. */
  ghost predicate Fresher(i: InstanceSnapshot, j: InstanceSnapshot) {
    && i.idCounters.nextScheduled <= j.idCounters.nextScheduled
    && (j.idCounters.nextScheduled < U64_MAX ==>
          forall k :: k in j.scheduler.ready ==> k in i.scheduler.ready || k.id > i.idCounters.nextScheduled)
  }

  lemma FresherTransitive(a: InstanceSnapshot, b: InstanceSnapshot, c: InstanceSnapshot)
    requires Fresher(a, b) && Fresher(b, c)
    ensures Fresher(a, c)
  {
  }

  /** Allocating the next id and queueing an entry under it: what a submission and a scheduled child share. */
  lemma AllocateKeepsIds(i: InstanceSnapshot, e: S.ScheduledEntry)
    requires IdsInStep(i) && e.id == SatAdd(i.idCounters.nextScheduled, 1)
    ensures var j := i.(idCounters := i.idCounters.(nextScheduled := e.id), scheduler := S.Insert(i.scheduler, e));
            IdsInStep(j) && Fresher(i, j)
  {
    if i.idCounters.nextScheduled < U64_MAX {
      assert e.id !in i.scheduler.byId;
      S.InsertKeepsConsistent(i.scheduler, e);
    }
  }

  lemma ExecKeepsIds(o: Origin, i: InstanceSnapshot, op: Op)
    requires IdsInStep(i)
    ensures IdsInStep(Exec(o, i, op)) && Fresher(i, Exec(o, i, op))
  {
    if op.ScheduleAction? {
      AllocateKeepsIds(i, Child(o, op, SatAdd(i.idCounters.nextScheduled, 1)));
    }
  }

  lemma {:induction false} ExecAllKeepsIds(o: Origin, i: InstanceSnapshot, ops: seq<Op>)
    requires IdsInStep(i)
    ensures IdsInStep(ExecAll(o, i, ops)) && Fresher(i, ExecAll(o, i, ops))
    decreases |ops|
  {
    if ops != [] {
      ExecAllKeepsIds(o, i, ops[..|ops|-1]);
      var j, op := ExecAll(o, i, ops[..|ops|-1]), ops[|ops|-1];
      ExecKeepsIds(o, j, op);
      FresherTransitive(i, j, Exec(o, j, op));
    }
  }

  lemma AfterPopKeepsIds(i: InstanceSnapshot)
    requires IdsInStep(i) && i.scheduler.ready != map[]
    ensures IdsInStep(AfterPop(i)) && Fresher(i, AfterPop(i))
  {
    var key := S.Head(i.scheduler.ready.Keys);
    if i.idCounters.nextScheduled < U64_MAX {
      S.PopIsCancel(i.scheduler, key);
      S.CancelKeepsConsistent(i.scheduler, key.id);
    }
  }

  lemma PopKeepsIds(reg: Registry, i: InstanceSnapshot, id: InstanceId, now: Tick, session: Caps)
    requires IdsInStep(i) && S.Due(i.scheduler, now)
    ensures var j := StepOne(reg, i, id, now, session, true).value.0; IdsInStep(j) && Fresher(i, j)
  {
    var p, e := AfterPop(i), i.scheduler.ready[S.Head(i.scheduler.ready.Keys)];
    AfterPopKeepsIds(i);
    StagingPreservesMeaning(reg, p, id, e, now, session, true);
    ExecAllKeepsIds(OriginOf(p, id, e, now, session), p, Admitted(reg, p, id, e, now, session));
    FresherTransitive(i, p, StepOne(reg, i, id, now, session, true).value.0);
  }

  lemma SameIdsInStep(i: InstanceSnapshot, j: InstanceSnapshot)
    requires IdsInStep(i) && j.scheduler == i.scheduler && j.idCounters == i.idCounters
    ensures IdsInStep(j) && Fresher(i, j)
  {
  }

  lemma MoveKeepsIds(reg: Registry, i: InstanceSnapshot, id: InstanceId, move: Move)
    requires IdsInStep(i)
    ensures IdsInStep(ApplyMove(reg, i, id, move)) && Fresher(i, ApplyMove(reg, i, id, move))
  {
    if move.Admit? && !BackPressured(i) {
      AllocateKeepsIds(i, EntryFor(move.submission, SatAdd(i.idCounters.nextScheduled, 1)));
    } else if move.PopAt? && S.Due(i.scheduler, move.now) {
      PopKeepsIds(reg, i, id, move.now, move.session);
    } else {
      SameIdsInStep(i, ApplyMove(reg, i, id, move));
    }
  }

  lemma IdsInductive(reg: Registry)
    ensures Inductive(reg, IdsInStep)
  {
    forall i, id, move | IdsInStep(i) ensures IdsInStep(ApplyMove(reg, i, id, move)) {
      MoveKeepsIds(reg, i, id, move);
    }
  }

  /** In every state of every run from an empty kernel the scheduler's and the instance's counters
      are equal and, below saturation, the scheduler passes its own validator: submits, steps,
      rollbacks and skips never break the tables. */
  lemma IdsInStepInEveryRun(reg: Registry, k: KernelState, inputs: seq<Input>)
    requires k.instances == map[]
    ensures forall id :: id in Run(reg, k, inputs).instances ==> IdsInStep(Run(reg, k, inputs).instances[id])
  {
    IdsInductive(reg);
    RunKeeps(reg, k, inputs, IdsInStep);
  }

  lemma {:induction false} MovesKeepIds(reg: Registry, i: InstanceSnapshot, id: InstanceId, moves: seq<Move>)
    requires IdsInStep(i)
    ensures IdsInStep(ApplyMoves(reg, i, id, moves)) && Fresher(i, ApplyMoves(reg, i, id, moves))
    decreases |moves|
  {
    if moves != [] {
      MovesKeepIds(reg, i, id, moves[..|moves|-1]);
      var j := ApplyMoves(reg, i, id, moves[..|moves|-1]);
      MoveKeepsIds(reg, j, id, moves[|moves|-1]);
      MovesSnoc(reg, i, id, moves[..|moves|-1], moves[|moves|-1]);
      assert moves[..|moves|-1] + [moves[|moves|-1]] == moves;
      FresherTransitive(i, j, ApplyMoves(reg, i, id, moves));
    }
  }

  /** Ids are handed out in increasing order along a run: what an instance queues during `inputs`
      carries, below saturation, an id above its counter before them, which itself bounds every id
      queued until then. */
  lemma NewIdsExceedOldOnes(reg: Registry, k: KernelState, inputs: seq<Input>, id: InstanceId)
    requires id in k.instances && id <= k.nextInstanceId && id < U64_MAX && IdsInStep(k.instances[id])
    ensures var k' := Run(reg, k, inputs);
            && id in k'.instances && Fresher(k.instances[id], k'.instances[id])
            && (k'.instances[id].idCounters.nextScheduled < U64_MAX ==>
                  forall prior, later |
                    prior in k.instances[id].scheduler.ready && later in k'.instances[id].scheduler.ready &&
                    later !in k.instances[id].scheduler.ready
                    :: prior.id < later.id)
  {
    var moves := RunIsMoves(reg, k, inputs, id);
    MovesKeepIds(reg, k.instances[id], id, moves);
  }

  // ---- keys are numbered with ids ----

  /** Below saturation every queued entry's sequence number is one less than its id. */
  ghost predicate Numbered(i: InstanceSnapshot) {
    IdsInStep(i) && (i.idCounters.nextScheduled < U64_MAX ==> forall k :: k in i.scheduler.ready ==> k.id == k.seqNo + 1)
  }

  lemma AllocateKeepsNumbered(i: InstanceSnapshot, e: S.ScheduledEntry)
    requires Numbered(i) && e.id == SatAdd(i.idCounters.nextScheduled, 1)
    ensures Numbered(i.(idCounters := i.idCounters.(nextScheduled := e.id), scheduler := S.Insert(i.scheduler, e)))
  {
    AllocateKeepsIds(i, e);
  }

  lemma ExecKeepsNumbered(o: Origin, i: InstanceSnapshot, op: Op)
    requires Numbered(i)
    ensures Numbered(Exec(o, i, op))
  {
    if op.ScheduleAction? {
      AllocateKeepsNumbered(i, Child(o, op, SatAdd(i.idCounters.nextScheduled, 1)));
    }
  }

  lemma {:induction false} ExecAllKeepsNumbered(o: Origin, i: InstanceSnapshot, ops: seq<Op>)
    requires Numbered(i)
    ensures Numbered(ExecAll(o, i, ops))
    decreases |ops|
  {
    if ops != [] {
      ExecAllKeepsNumbered(o, i, ops[..|ops|-1]);
      ExecKeepsNumbered(o, ExecAll(o, i, ops[..|ops|-1]), ops[|ops|-1]);
    }
  }

  lemma PopKeepsNumbered(reg: Registry, i: InstanceSnapshot, id: InstanceId, now: Tick, session: Caps)
    requires Numbered(i) && S.Due(i.scheduler, now)
    ensures Numbered(StepOne(reg, i, id, now, session, true).value.0)
  {
    var p, e := AfterPop(i), i.scheduler.ready[S.Head(i.scheduler.ready.Keys)];
    AfterPopKeepsIds(i);
    assert Numbered(p);
    StagingPreservesMeaning(reg, p, id, e, now, session, true);
    ExecAllKeepsNumbered(OriginOf(p, id, e, now, session), p, Admitted(reg, p, id, e, now, session));
  }

  lemma SameIdsNumbered(i: InstanceSnapshot, j: InstanceSnapshot)
    requires Numbered(i) && j.scheduler == i.scheduler && j.idCounters == i.idCounters
    ensures Numbered(j)
  {
  }

  lemma MoveKeepsNumbered(reg: Registry, i: InstanceSnapshot, id: InstanceId, move: Move)
    requires Numbered(i)
    ensures Numbered(ApplyMove(reg, i, id, move))
  {
    if move.Admit? && !BackPressured(i) {
      AllocateKeepsNumbered(i, EntryFor(move.submission, SatAdd(i.idCounters.nextScheduled, 1)));
    } else if move.PopAt? && S.Due(i.scheduler, move.now) {
      PopKeepsNumbered(reg, i, id, move.now, move.session);
    } else {
      SameIdsNumbered(i, ApplyMove(reg, i, id, move));
    }
  }

  lemma NumberedInEveryRun(reg: Registry, k: KernelState, inputs: seq<Input>)
    requires k.instances == map[]
    ensures Everywhere(Run(reg, k, inputs).instances, Numbered)
  {
    forall i, id, move | Numbered(i) ensures Numbered(ApplyMove(reg, i, id, move)) {
      MoveKeepsNumbered(reg, i, id, move);
    }
    RunKeeps(reg, k, inputs, Numbered);
  }

  /** In every reachable state whose ids are not exhausted, cancelling an actor's entries returns them in
      scheduler order, as documented, if and only if none of them is due before one scheduled earlier. */
  lemma CancelledInSchedulerOrderInEveryRun(reg: Registry, k: KernelState, inputs: seq<Input>, id: InstanceId, actor: EntityId)
    requires k.instances == map[] && id in Run(reg, k, inputs).instances
    requires var i := Run(reg, k, inputs).instances[id]; i.idCounters.nextScheduled < U64_MAX && actor in i.scheduler.byActor
    ensures var s := Run(reg, k, inputs).instances[id].scheduler;
            SL.InSchedulerOrder(s, S.EntriesOf(s, Ascending(s.byActor[actor]))) <==> SL.TicksFollowIds(s, s.byActor[actor])
  {
    NumberedInEveryRun(reg, k, inputs);
    var i := Run(reg, k, inputs).instances[id];
    assert Numbered(i);
    SL.CancelledInSchedulerOrderExactly(i.scheduler, actor);
  }
}
