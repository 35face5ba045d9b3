/** Resource accounting (`arkhe-kernel/src/state/ledger.rs`). */
module Ledger {
  import opened Abi
  import opened Sums

  type ComponentKey = (EntityId, TypeCode)

  datatype LedgerState = LedgerState(
    entities: set<EntityId>,
    sizes: map<ComponentKey, U64>,
    totalBytes: U64)

  const EMPTY := LedgerState({}, map[], 0)

  function KeysOf<V>(m: map<ComponentKey, V>, e: EntityId): set<ComponentKey> {
    set k | k in m && k.0 == e
  }

  /** The stored sizes of one entity's components. */
  function SizesOf(l: LedgerState, e: EntityId): map<ComponentKey, nat> {
    Restrict(l.sizes, KeysOf(l.sizes, e))
  }

  function StoredSize(l: LedgerState, k: ComponentKey): U64 {
    if k in l.sizes then l.sizes[k] else 0
  }

  function AddEntity(l: LedgerState, e: EntityId): LedgerState {
    l.(entities := l.entities + {e})
  }

  /** Despawn takes every size of the entity out of the total at once. */
  ghost function RemoveEntity(l: LedgerState, e: EntityId): LedgerState {
    if e !in l.entities then l
    else LedgerState(l.entities - {e}, l.sizes - KeysOf(l.sizes, e), SatSub(l.totalBytes, Sum(SizesOf(l, e))))
  }

  function AddComponent(l: LedgerState, k: ComponentKey, size: U64): LedgerState {
    if k.0 !in l.entities then l
    else
      var prior := StoredSize(l, k);
      l.(sizes := l.sizes[k := size],
         totalBytes := if size >= prior then SatAdd(l.totalBytes, size - prior) else SatSub(l.totalBytes, prior - size))
  }

  function RemoveComponent(l: LedgerState, k: ComponentKey): LedgerState {
    if k.0 !in l.entities then l
    else l.(sizes := l.sizes - {k}, totalBytes := SatSub(l.totalBytes, StoredSize(l, k)))
  }

  datatype LedgerOp =
    | AddEntityOp(added: EntityId)
    | RemoveEntityOp(removed: EntityId)
    | AddComponentOp(key: ComponentKey, size: U64)
    | RemoveComponentOp(removedKey: ComponentKey, declaredSize: U64)

  ghost function ApplyLedgerOp(l: LedgerState, op: LedgerOp): LedgerState {
    match op
    case AddEntityOp(e) => AddEntity(l, e)
    case RemoveEntityOp(e) => RemoveEntity(l, e)
    case AddComponentOp(k, size) => AddComponent(l, k, size)
    case RemoveComponentOp(k, _) => RemoveComponent(l, k)
  }

  ghost function ApplyLedgerOps(l: LedgerState, ops: seq<LedgerOp>): LedgerState {
    if ops == [] then l else ApplyLedgerOp(ApplyLedgerOps(l, ops[..|ops|-1]), ops[|ops|-1])
  }

  lemma LedgerOpsSnoc(l: LedgerState, ops: seq<LedgerOp>, op: LedgerOp)
    ensures ApplyLedgerOps(l, ops + [op]) == ApplyLedgerOp(ApplyLedgerOps(l, ops), op)
  {
  }

  // ---- the cached total ----

  /** Every accounted component belongs to an accounted entity. */
  ghost predicate Owned(l: LedgerState) {
    forall k :: k in l.sizes ==> k.0 in l.entities
  }

  ghost function TrueTotal(l: LedgerState): nat {
    Sum(l.sizes)
  }

  lemma StepKeepsOwned(l: LedgerState, op: LedgerOp)
    requires Owned(l)
    ensures Owned(ApplyLedgerOp(l, op))
  {
  }

  /** How one operation changes the true sum, saturation aside. */
  lemma TrueTotalAfter(l: LedgerState, op: LedgerOp)
    ensures op.AddEntityOp? ==> TrueTotal(ApplyLedgerOp(l, op)) == TrueTotal(l)
    ensures op.RemoveEntityOp? && op.removed in l.entities ==>
              TrueTotal(ApplyLedgerOp(l, op)) == TrueTotal(l) - Sum(SizesOf(l, op.removed))
    ensures op.AddComponentOp? && op.key.0 in l.entities ==>
              TrueTotal(ApplyLedgerOp(l, op)) == TrueTotal(l) - StoredSize(l, op.key) + op.size
    ensures op.RemoveComponentOp? && op.removedKey.0 in l.entities ==>
              TrueTotal(ApplyLedgerOp(l, op)) == TrueTotal(l) - StoredSize(l, op.removedKey)
  {
    match op
    case AddEntityOp(_) =>
    case RemoveEntityOp(e) =>
      SumSplit(l.sizes, KeysOf(l.sizes, e));
    case AddComponentOp(k, size) =>
      SumPut(l.sizes, k, size);
    case RemoveComponentOp(k, _) =>
      if k in l.sizes {
        SumTake(l.sizes, k);
      } else {
        assert l.sizes - {k} == l.sizes;
      }
  }

  /** Whatever saturates, the cache never claims more than is stored. */
  lemma CacheNeverOverstates(l: LedgerState, op: LedgerOp)
    requires l.totalBytes <= TrueTotal(l)
    ensures ApplyLedgerOp(l, op).totalBytes <= TrueTotal(ApplyLedgerOp(l, op))
  {
    TrueTotalAfter(l, op);
  }

  /** From an exact cache, one operation leaves an exact cache if and only if the new true sum
      still fits 64 bits. */
  lemma CacheExactWhenItFits(l: LedgerState, op: LedgerOp)
    requires l.totalBytes == TrueTotal(l)
    ensures ApplyLedgerOp(l, op).totalBytes == TrueTotal(ApplyLedgerOp(l, op)) <==>
            TrueTotal(ApplyLedgerOp(l, op)) <= U64_MAX
  {
    TrueTotalAfter(l, op);
  }

  // ---- the ledger object ----

  lemma SatSubTwice(t: U64, a: nat, b: nat)
    ensures SatSub(SatSub(t, a), b) == SatSub(t, a + b)
  {
  }

  class ResourceLedger {
    var entities: set<EntityId>
    var sizes: map<ComponentKey, U64>
    var totalBytes: U64

    ghost function View(): LedgerState
      reads this
    {
      LedgerState(entities, sizes, totalBytes)
    }

    constructor ()
      ensures View() == EMPTY
    {
      entities, sizes, totalBytes := {}, map[], 0;
    }

    constructor FromState(s: LedgerState)
      ensures View() == s
    {
      entities, sizes, totalBytes := s.entities, s.sizes, s.totalBytes;
    }

    method Capture() returns (s: LedgerState)
      ensures s == View()
    {
      s := LedgerState(entities, sizes, totalBytes);
    }

    method ComponentSize(k: ComponentKey) returns (size: Option<U64>)
      ensures size == if k in sizes then Some(View().sizes[k]) else None
    {
      size := if k in sizes then Some(sizes[k]) else None;
    }

    /** True on a fresh insertion. */
    method RegisterEntity(e: EntityId) returns (isNew: bool)
      modifies this
      ensures View() == AddEntity(old(View()), e) && isNew == (e !in old(entities))
    {
      isNew := e !in entities;
      entities := entities + {e};
    }

    /** Drops the entity and, one by one, every component it still holds; the freed bytes are the
        sum of their stored sizes. */
    method DropEntity(e: EntityId) returns (freed: U64)
      modifies this
      ensures View() == RemoveEntity(old(View()), e)
      ensures freed == if e in old(entities) then Min(Sum(SizesOf(old(View()), e)), U64_MAX) else 0
    {
      freed := 0;
      if e !in entities {
        return;
      }
      entities := entities - {e};
      var keys := KeysOf(sizes, e);
      ghost var before := old(View());
      var todo := keys;
      assert Restrict(before.sizes, {}) == map[];
      assert before.sizes - {} == before.sizes;
      while todo != {}
        invariant todo <= keys && keys == KeysOf(before.sizes, e)
        invariant entities == before.entities - {e}
        invariant sizes == before.sizes - (keys - todo)
        invariant totalBytes == SatSub(before.totalBytes, Sum(Restrict(before.sizes, keys - todo)))
        invariant freed == Min(Sum(Restrict(before.sizes, keys - todo)), U64_MAX)
        decreases todo
      {
        var k :| k in todo;
        ghost var gone := keys - todo;
        assert k in before.sizes && k !in gone && k in sizes && sizes[k] == before.sizes[k];
        RestrictOne(before.sizes, gone, k);
        SatSubTwice(before.totalBytes, Sum(Restrict(before.sizes, gone)), before.sizes[k]);
        var size := sizes[k];
        sizes := sizes - {k};
        freed := SatAdd(freed, size);
        totalBytes := SatSub(totalBytes, size);
        todo := todo - {k};
        assert keys - todo == gone + {k};
      }
      assert keys - todo == keys;
    }

    /** False if the entity is unknown; a replace moves the total by the difference. */
    method PutComponent(k: ComponentKey, size: U64) returns (known: bool)
      modifies this
      ensures View() == AddComponent(old(View()), k, size) && known == (k.0 in old(entities))
    {
      known := k.0 in entities;
      if !known {
        return;
      }
      if k in sizes {
        var prior := sizes[k];
        if size >= prior {
          totalBytes := SatAdd(totalBytes, size - prior);
        } else {
          totalBytes := SatSub(totalBytes, prior - size);
        }
      } else {
        totalBytes := SatAdd(totalBytes, size);
      }
      sizes := sizes[k := size];
    }

    /** The stored size is subtracted; a declared size plays no part. */
    method DropComponent(k: ComponentKey) returns (known: bool)
      modifies this
      ensures View() == RemoveComponent(old(View()), k) && known == (k.0 in old(entities))
    {
      known := k.0 in entities;
      if known && k in sizes {
        totalBytes := SatSub(totalBytes, sizes[k]);
        sizes := sizes - {k};
      } else {
        assert sizes - {k} == sizes || !known;
      }
    }
  }
}
