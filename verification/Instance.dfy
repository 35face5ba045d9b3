/** One instance's state (`arkhe-kernel/src/state/instance.rs`, `arkhe-kernel/src/state/config.rs`). */
module Instance {
  import opened Abi
  import L = Ledger
  import S = Scheduler

  datatype QuotaReductionPolicy = Reject | GrandfatherExisting | ThrottleProportional

  datatype InstanceConfig = InstanceConfig(
    defaultCaps: Caps,
    maxEntities: U32,
    maxScheduled: U32,
    maxInboxPerRoute: U32,
    memoryBudgetBytes: U64,
    parent: Option<InstanceId>,
    quotaReduction: QuotaReductionPolicy)

  datatype EntityMeta = EntityMeta(owner: Principal, created: Tick)

  datatype InboundSignal = InboundSignal(from: InstanceId, principal: Principal, payload: Bytes, seqNo: U64)

  datatype IdCounters = IdCounters(nextEntity: U64, nextScheduled: U64, nextSourceSeq: U64)

  /** Every field of an instance, in declaration order: what `to_snapshot` captures. */
  datatype InstanceSnapshot = InstanceSnapshot(
    id: InstanceId,
    config: InstanceConfig,
    entities: map<EntityId, EntityMeta>,
    components: map<L.ComponentKey, Bytes>,
    scheduler: S.SchedulerState,
    idCounters: IdCounters,
    ledger: L.LedgerState,
    inflightRefs: map<RouteId, U32>,
    signalInbox: map<RouteId, seq<InboundSignal>>,
    inboxSeq: U64,
    wallRemainder: U128,
    localTick: U64)

  function Fresh(id: InstanceId, config: InstanceConfig): InstanceSnapshot {
    InstanceSnapshot(id, config, map[], map[], S.EMPTY, IdCounters(0, 0, 0), L.EMPTY, map[], map[], 0, 0, 0)
  }

  /** The state digest, kept symbolic: a hash that names exactly the snapshot it was taken of.
      `ZeroDigest` is what an unmeasured step carries. */
  datatype Digest = ZeroDigest | StateDigest(state: InstanceSnapshot)

  // ---- the entity and component stores ----

  datatype Store = Store(entities: map<EntityId, EntityMeta>, components: map<L.ComponentKey, Bytes>)

  /** Removal of an entity cascades over its components. */
  function RemoveEntity(st: Store, e: EntityId): Store {
    Store(st.entities - {e}, st.components - L.KeysOf(st.components, e))
  }

  // ---- the inbox ----

  function Inbox(i: InstanceSnapshot, route: RouteId): seq<InboundSignal> {
    if route in i.signalInbox then i.signalInbox[route] else []
  }

  function Refs(i: InstanceSnapshot, route: RouteId): U32 {
    if route in i.inflightRefs then i.inflightRefs[route] else 0
  }

  /** `deliver_signal`: the receiver stamps the signal with its own sequence. */
  function Deliver(i: InstanceSnapshot, route: RouteId, signal: InboundSignal): InstanceSnapshot {
    i.(signalInbox := i.signalInbox[route := Inbox(i, route) + [signal.(seqNo := i.inboxSeq)]],
       inboxSeq := SatAdd(i.inboxSeq, 1))
  }

  /** The in-flight count the router credits for each delivery. */
  function CreditRef(i: InstanceSnapshot, route: RouteId): InstanceSnapshot {
    i.(inflightRefs := i.inflightRefs[route := SatAdd32(Refs(i, route), 1)])
  }

  // ---- the instance object ----

  class Instance {
    const id: InstanceId
    const config: InstanceConfig
    var entities: map<EntityId, EntityMeta>
    var components: map<L.ComponentKey, Bytes>
    const scheduler: S.Scheduler
    var idCounters: IdCounters
    const ledger: L.ResourceLedger
    var inflightRefs: map<RouteId, U32>
    var signalInbox: map<RouteId, seq<InboundSignal>>
    var inboxSeq: U64
    var wallRemainder: U128
    var localTick: U64

    ghost function View(): InstanceSnapshot
      reads this, scheduler, ledger
    {
      InstanceSnapshot(id, config, entities, components, scheduler.View(), idCounters, ledger.View(), inflightRefs,
                       signalInbox, inboxSeq, wallRemainder, localTick)
    }

    /** No scheduler lookup can fail. */
    ghost predicate Valid()
      reads this, scheduler
    {
      S.Anchored(scheduler.View())
    }

    constructor (id: InstanceId, config: InstanceConfig)
      ensures View() == Fresh(id, config) && Valid()
      ensures fresh(scheduler) && fresh(ledger)
    {
      this.id, this.config := id, config;
      entities, components := map[], map[];
      scheduler := new S.Scheduler();
      idCounters := IdCounters(0, 0, 0);
      ledger := new L.ResourceLedger();
      inflightRefs, signalInbox, inboxSeq, wallRemainder, localTick := map[], map[], 0, 0, 0;
    }

    /** Inverse of `ToSnapshot`. */
    constructor FromSnapshot(s: InstanceSnapshot)
      ensures View() == s && (Valid() <==> S.Anchored(s.scheduler))
      ensures fresh(scheduler) && fresh(ledger)
    {
      id, config, entities, components := s.id, s.config, s.entities, s.components;
      scheduler := new S.Scheduler.FromState(s.scheduler);
      idCounters := s.idCounters;
      ledger := new L.ResourceLedger.FromState(s.ledger);
      inflightRefs, signalInbox, inboxSeq := s.inflightRefs, s.signalInbox, s.inboxSeq;
      wallRemainder, localTick := s.wallRemainder, s.localTick;
    }

    method ToSnapshot() returns (s: InstanceSnapshot)
      ensures s == View()
    {
      var scheduled := scheduler.Capture();
      var accounted := ledger.Capture();
      s := InstanceSnapshot(id, config, entities, components, scheduled, idCounters, accounted, inflightRefs,
                            signalInbox, inboxSeq, wallRemainder, localTick);
    }

    method Digested(measure: bool) returns (d: Digest)
      ensures d == if measure then StateDigest(View()) else ZeroDigest
    {
      d := ZeroDigest;
      if measure {
        var s := ToSnapshot();
        d := StateDigest(s);
      }
    }

    method InsertEntity(e: EntityId, meta: EntityMeta)
      modifies this`entities
      ensures entities == old(entities)[e := meta]
    {
      entities := entities[e := meta];
    }

    /** Removes the entity after dropping, one by one, the components it still holds. */
    method DespawnEntity(e: EntityId)
      modifies this`entities, this`components
      ensures Store(entities, components) == RemoveEntity(Store(old(entities), old(components)), e)
    {
      var keys := L.KeysOf(components, e);
      var todo := keys;
      while todo != {}
        invariant todo <= keys == L.KeysOf(old(components), e)
        invariant entities == old(entities)
        invariant components == old(components) - (keys - todo)
        decreases todo
      {
        var k :| k in todo;
        components := components - {k};
        todo := todo - {k};
      }
      assert keys - todo == keys;
      entities := entities - {e};
    }

    method InsertComponent(k: L.ComponentKey, bytes: Bytes)
      modifies this`components
      ensures components == old(components)[k := bytes]
    {
      components := components[k := bytes];
    }

    method DropComponent(k: L.ComponentKey)
      modifies this`components
      ensures components == old(components) - {k}
    {
      components := components - {k};
    }

    method InboxLen(route: RouteId) returns (n: nat)
      ensures n == |Inbox(View(), route)|
    {
      n := if route in signalInbox then |signalInbox[route]| else 0;
    }

    /** Appends under the receiver's own sequence number, which is returned. */
    method DeliverSignal(route: RouteId, signal: InboundSignal) returns (seqNo: U64)
      modifies this`signalInbox, this`inboxSeq
      ensures View() == Deliver(old(View()), route, signal) && seqNo == old(inboxSeq)
    {
      seqNo := inboxSeq;
      inboxSeq := SatAdd(inboxSeq, 1);
      var queue := if route in signalInbox then signalInbox[route] else [];
      signalInbox := signalInbox[route := queue + [signal.(seqNo := seqNo)]];
    }

    method CreditRoute(route: RouteId)
      modifies this`inflightRefs
      ensures View() == CreditRef(old(View()), route)
    {
      var refs := if route in inflightRefs then inflightRefs[route] else 0;
      inflightRefs := inflightRefs[route := SatAdd32(refs, 1)];
    }

  }
}
