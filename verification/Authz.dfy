/** Operations and the single authorization gate they pass
    (`arkhe-kernel/src/state/op.rs`, `arkhe-kernel/src/state/authz.rs`). */
module Authz {
  import opened Abi

  datatype Op =
    | SpawnEntity(spawned: EntityId, owner: Principal)
    | DespawnEntity(despawned: EntityId)
    | SetComponent(entity: EntityId, typeCode: TypeCode, bytes: Bytes, size: U64)
    | RemoveComponent(removedFrom: EntityId, removedType: TypeCode, declaredSize: U64)
    | EmitEvent(emitter: Option<EntityId>, eventType: TypeCode, eventBytes: Bytes)
    | ScheduleAction(at: Tick, actor: Option<EntityId>, actionType: TypeCode, actionBytes: Bytes)
    | SendSignal(target: InstanceId, route: RouteId, payload: Bytes)

  /** What an action runs under before the session ceiling is applied. */
  function EffectiveCaps(defaultCaps: Caps, principal: Principal, ceiling: Caps): (caps: Caps)
    ensures Narrower(caps, defaultCaps) && Narrower(caps, ceiling)
    ensures forall b: CapBit :: b in caps <==> !principal.Unauthenticated? && b in defaultCaps && b in ceiling
  {
    match principal
    case System => defaultCaps * ceiling
    case External(_) => defaultCaps * ceiling
    case Unauthenticated => {}
  }

  predicate MatchOpCap(op: Op, caps: Caps) {
    match op
    case ScheduleAction(_, _, _, _) => Contains(caps, SYSTEM)
    case SendSignal(_, _, _) => Contains(caps, SYSTEM)
    case _ => true
  }

  predicate Authorized(caps: Caps, principal: Principal, op: Op) {
    match principal
    case Unauthenticated => false
    case System => Contains(caps, SYSTEM) || MatchOpCap(op, caps)
    case External(_) => Contains(caps, SYSTEM) || MatchOpCap(op, caps)
  }

  /** There is no blanket bypass: who passes the gate is decided by authentication and,
      for scheduling and signalling alone, by the SYSTEM bit of the effective mask. */
  lemma AuthorizedExactly(caps: Caps, principal: Principal, op: Op)
    ensures Authorized(caps, principal, op) <==>
            !principal.Unauthenticated? &&
            ((op.ScheduleAction? || op.SendSignal?) ==> Contains(caps, SYSTEM))
  {
  }

  /** Authority is monotone: widening the mask never turns an allowed operation into a denied one. */
  lemma AuthorizationMonotone(narrow: Caps, wide: Caps, principal: Principal, op: Op)
    requires Narrower(narrow, wide) && Authorized(narrow, principal, op)
    ensures Authorized(wide, principal, op)
  {
  }
}
