/** Kernel events and their observer filter (`arkhe-kernel/src/runtime/event.rs`). */
module Event {
  import opened Abi

  datatype SignalDropReason = QueueFull | TargetNotFound

  datatype FailReason = BudgetExceeded | EntityQuotaExceeded | ScheduledQuotaExceeded

  /** The variants the kernel emits. */
  datatype KernelEvent =
    | ActionExecuted(instance: InstanceId, actionType: TypeCode, at: Tick)
    | EffectFailed(failedIn: InstanceId, failure: FailReason)
    | DomainEventEmitted(emittedBy: InstanceId, actor: Option<EntityId>, eventType: TypeCode, bytes: Bytes)
    | SignalDelivered(from: InstanceId, to: InstanceId, onRoute: RouteId)
    | SignalDropped(target: InstanceId, route: RouteId, reason: SignalDropReason)
    | ModuleForceUnloaded(unloaded: RouteId, liveRefs: U32)

  type EventMask = bv32

  const ACTION_EXECUTED: EventMask := 0x001
  const EFFECT_FAILED: EventMask := 0x004
  const SIGNAL_DROPPED: EventMask := 0x020
  const MODULE_FORCE_UNLOADED: EventMask := 0x040
  const DOMAIN_EVENT_EMITTED: EventMask := 0x200
  const SIGNAL_DELIVERED: EventMask := 0x400

  function Bit(e: KernelEvent): EventMask {
    match e
    case ActionExecuted(_, _, _) => ACTION_EXECUTED
    case EffectFailed(_, _) => EFFECT_FAILED
    case DomainEventEmitted(_, _, _, _) => DOMAIN_EVENT_EMITTED
    case SignalDelivered(_, _, _) => SIGNAL_DELIVERED
    case SignalDropped(_, _, _) => SIGNAL_DROPPED
    case ModuleForceUnloaded(_, _) => MODULE_FORCE_UNLOADED
  }

  predicate Matches(mask: EventMask, e: KernelEvent) {
    mask & Bit(e) == Bit(e)
  }

  /** The one bit an observer's mask must have for the event to reach it. */
  lemma MatchesExactly(mask: EventMask, e: KernelEvent)
    ensures Matches(mask, e) <==>
            match e
            case ActionExecuted(_, _, _) => mask & 0x001 != 0
            case EffectFailed(_, _) => mask & 0x004 != 0
            case SignalDropped(_, _, _) => mask & 0x020 != 0
            case ModuleForceUnloaded(_, _) => mask & 0x040 != 0
            case DomainEventEmitted(_, _, _, _) => mask & 0x200 != 0
            case SignalDelivered(_, _, _) => mask & 0x400 != 0
  {
  }
}
