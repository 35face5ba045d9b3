/** Observers: filtered delivery with first-panic eviction (`arkhe-kernel/src/runtime/observer.rs`). */
module Observer {
  import opened Abi
  import opened Event

  /** Handles are values of the 64-bit counter below. */
  type Handle = nat

  /** An observer's behaviour is any function of what it has been shown, the event just shown
      included: true where it panics. `seen` records what it has been shown. */
  datatype ObserverSlot = ObserverSlot(panics: seq<KernelEvent> -> bool, mask: EventMask, seen: seq<KernelEvent>)

  datatype RegistryState = RegistryState(slots: map<Handle, ObserverSlot>, evicted: set<Handle>, nextHandle: U64)

  function Register(r: RegistryState, panics: seq<KernelEvent> -> bool, mask: EventMask): RegistryState {
    RegistryState(r.slots[r.nextHandle := ObserverSlot(panics, mask, [])], r.evicted, SatAdd(r.nextHandle, 1))
  }

  /** One event offered to one handle; the flag says whether it is evicted by it. */
  function Offer(r: RegistryState, h: Handle, e: KernelEvent): (RegistryState, bool) {
    if h in r.evicted || h !in r.slots || !Matches(r.slots[h].mask, e) then (r, false)
    else
      var seen := r.slots[h].seen + [e];
      if r.slots[h].panics(seen) then (r.(evicted := r.evicted + {h}, slots := r.slots - {h}), true)
      else (r.(slots := r.slots[h := r.slots[h].(seen := seen)]), false)
  }

  function OfferAll(r: RegistryState, hs: seq<Handle>, e: KernelEvent): (RegistryState, seq<Handle>) {
    if hs == [] then (r, [])
    else
      var (r', out) := OfferAll(r, hs[..|hs|-1], e);
      var (r'', gone) := Offer(r', hs[|hs|-1], e);
      (r'', if gone then out + [hs[|hs|-1]] else out)
  }

  function Handles(r: RegistryState): (hs: seq<Handle>)
    ensures forall h :: h in hs <==> h in r.slots
  {
    AscendingElements(r.slots.Keys);
    Ascending(r.slots.Keys)
  }

  /** `deliver`: every live observer in handle order; the evicted handles in that order. */
  function Deliver(r: RegistryState, e: KernelEvent): (RegistryState, seq<Handle>) {
    OfferAll(r, Handles(r), e)
  }

  function DeliverAll(r: RegistryState, events: seq<KernelEvent>): RegistryState {
    if events == [] then r else Deliver(DeliverAll(r, events[..|events|-1]), events[|events|-1]).0
  }

  /** How many observers the events evict, added up in 32 bits as each delivery reports it. */
  function Evictions(r: RegistryState, events: seq<KernelEvent>): U32 {
    if events == [] then 0
    else
      var before := events[..|events|-1];
      SatAdd32(Evictions(r, before), Truncate32(|Deliver(DeliverAll(r, before), events[|events|-1]).1|))
  }

  // ---- what one observer experiences ----

  /** No handle is both live and evicted, and the next handle is new. */
  ghost predicate Sound(r: RegistryState) {
    && (forall h :: h in r.slots ==> h !in r.evicted && h < r.nextHandle)
    && (forall h :: h in r.evicted ==> h < r.nextHandle)
  }

  lemma RegisterKeepsSound(r: RegistryState, panics: seq<KernelEvent> -> bool, mask: EventMask)
    requires Sound(r) && r.nextHandle < U64_MAX
    ensures Sound(Register(r, panics, mask))
  {
  }

  /** A new observer starts with its own filter and behaviour, has been shown nothing, and disturbs no other. */
  lemma RegisteredAfresh(r: RegistryState, panics: seq<KernelEvent> -> bool, mask: EventMask)
    requires Sound(r) && r.nextHandle < U64_MAX
    ensures var r' := Register(r, panics, mask);
            && r'.slots.Keys == r.slots.Keys + {r.nextHandle} && r.nextHandle !in r.slots && r.nextHandle !in r'.evicted
            && r'.slots[r.nextHandle].panics == panics && r'.slots[r.nextHandle].mask == mask && r'.slots[r.nextHandle].seen == []
            && (forall h :: h in r.slots ==> r'.slots[h] == r.slots[h]) && r'.evicted == r.evicted && r'.nextHandle == r.nextHandle + 1
  {
  }

  /** Offering to some handles touches exactly those, each as if it were alone. */
  lemma {:induction false} OfferIsLocal(r: RegistryState, hs: seq<Handle>, e: KernelEvent, h: Handle)
    requires Sound(r)
    requires forall x, y :: 0 <= x < y < |hs| ==> hs[x] != hs[y]
    ensures var r' := OfferAll(r, hs, e).0;
            var alone := if h in hs then Offer(r, h, e).0 else r;
            && Sound(r') && r'.nextHandle == r.nextHandle
            && (h in r'.slots <==> h in alone.slots) && (h in r'.slots ==> r'.slots[h] == alone.slots[h])
            && (h in r'.evicted <==> h in alone.evicted)
    decreases |hs|
  {
    if hs != [] {
      var init, last := hs[..|hs|-1], hs[|hs|-1];
      assert forall x :: x in hs <==> x in init || x == last;
      OfferIsLocal(r, init, e, h);
      if last == h {
        assert h !in init;
      }
    }
  }

  lemma DeliverIsLocal(r: RegistryState, e: KernelEvent, h: Handle)
    requires Sound(r)
    ensures var r', alone := Deliver(r, e).0, Offer(r, h, e).0;
            && Sound(r') && r'.nextHandle == r.nextHandle
            && (h in r'.slots <==> h in alone.slots) && (h in r'.slots ==> r'.slots[h] == alone.slots[h])
            && (h in r'.evicted <==> h in alone.evicted)
  {
    AscendingOrdered(r.slots.Keys);
    OfferIsLocal(r, Handles(r), e, h);
  }

  /** The events of a stream an observer's mask lets through. */
  function Visible(mask: EventMask, events: seq<KernelEvent>): seq<KernelEvent> {
    if events == [] then []
    else Visible(mask, events[..|events|-1]) + if Matches(mask, events[|events|-1]) then [events[|events|-1]] else []
  }

  /** It survives being shown these events one after another. */
  ghost predicate Survives(slot: ObserverSlot, shown: seq<KernelEvent>) {
    forall n :: 0 < n <= |shown| ==> !slot.panics(slot.seen + shown[..n])
  }

  lemma SurvivesSnoc(slot: ObserverSlot, shown: seq<KernelEvent>, e: KernelEvent)
    ensures Survives(slot, shown + [e]) <==> Survives(slot, shown) && !slot.panics(slot.seen + (shown + [e]))
  {
    var all := shown + [e];
    assert forall n :: 0 <= n <= |shown| ==> all[..n] == shown[..n];
    assert all[..|all|] == all;
  }

  /** Whatever the other observers do, each live observer is shown exactly its filtered stream in
      order up to and including its first panic; it is live afterwards if and only if it never
      panicked, and once evicted it is never shown anything again. */
  lemma {:induction false} EachObserverStandsAlone(r: RegistryState, events: seq<KernelEvent>, h: Handle)
    requires Sound(r)
    ensures var r' := DeliverAll(r, events);
            && Sound(r') && r'.nextHandle == r.nextHandle
            && (h in r.slots ==>
                  var shown := Visible(r.slots[h].mask, events);
                  && (h in r'.slots <==> Survives(r.slots[h], shown))
                  && (h in r'.evicted <==> !Survives(r.slots[h], shown))
                  && (h in r'.slots ==> r'.slots[h] == r.slots[h].(seen := r.slots[h].seen + shown)))
            && (h !in r.slots ==> h !in r'.slots)
            && (h in r.evicted ==> h in r'.evicted)
    decreases |events|
  {
    if events != [] {
      var init, e := events[..|events|-1], events[|events|-1];
      EachObserverStandsAlone(r, init, h);
      DeliverIsLocal(DeliverAll(r, init), e, h);
      if h in r.slots {
        var slot := r.slots[h];
        var shown := Visible(slot.mask, init);
        if Matches(slot.mask, e) {
          assert Visible(slot.mask, events) == shown + [e];
          SurvivesSnoc(slot, shown, e);
          assert slot.seen + (shown + [e]) == slot.seen + shown + [e];
        } else {
          assert Visible(slot.mask, events) == shown;
        }
      }
    } else if h in r.slots {
      assert r.slots[h].seen + [] == r.slots[h].seen;
    }
  }

  // ---- who is evicted ----

  /** The handle is live and would panic at this event. */
  ghost predicate Fails(r: RegistryState, h: Handle, e: KernelEvent) {
    h in r.slots && Matches(r.slots[h].mask, e) && r.slots[h].panics(r.slots[h].seen + [e])
  }

  lemma {:induction false} OfferAllEvicts(r: RegistryState, hs: seq<Handle>, e: KernelEvent)
    requires Sound(r)
    requires Ascends(hs)
    ensures var out := OfferAll(r, hs, e).1; (forall h :: h in out <==> h in hs && Fails(r, h, e)) && Ascends(out)
    decreases |hs|
  {
    if hs != [] {
      var init, last := hs[..|hs|-1], hs[|hs|-1];
      assert hs == init + [last] && last !in init;
      OfferAllEvicts(r, init, e);
      OfferIsLocal(r, init, e, last);
      LastOffered(r, init, last, e);
      forall h | h in init ensures h < last {
        BelowLast(hs, h);
      }
      AscendsSnoc(OfferAll(r, init, e).1, last);
    }
  }

  lemma LastOffered(r: RegistryState, init: seq<Handle>, last: Handle, e: KernelEvent)
    requires Sound(r) && last !in init
    requires var r' := OfferAll(r, init, e).0;
             && Sound(r') && (last in r'.slots <==> last in r.slots) && (last in r'.slots ==> r'.slots[last] == r.slots[last])
    ensures Offer(OfferAll(r, init, e).0, last, e).1 <==> Fails(r, last, e)
  {
  }

  /** A delivery reports, in ascending order, exactly the live observers that panic at it. */
  lemma DeliverEvicts(r: RegistryState, e: KernelEvent)
    requires Sound(r)
    ensures var out := Deliver(r, e).1;
            (forall h :: h in out <==> Fails(r, h, e)) && Ascends(out)
  {
    AscendingOrdered(r.slots.Keys);
    OfferAllEvicts(r, Handles(r), e);
  }

  lemma DeliverEvictsSet(r: RegistryState, e: KernelEvent)
    requires Sound(r)
    ensures var (r', out) := Deliver(r, e);
            && Sound(r') && r.evicted <= r'.evicted && r'.evicted - r.evicted == (set h | h in out)
            && r'.slots.Keys == r.slots.Keys - (set h | h in out)
  {
    DeliverEvicts(r, e);
    forall h: Handle
      ensures h in Deliver(r, e).0.evicted <==> h in r.evicted || Fails(r, h, e)
      ensures h in Deliver(r, e).0.slots <==> h in r.slots && !Fails(r, h, e)
    {
      DeliverIsLocal(r, e, h);
    }
    DeliverIsLocal(r, e, 0);
  }

  lemma SizesApart(a: set<Handle>, b: set<Handle>)
    requires a <= b
    ensures |b| == |a| + |b - a|
  {
    assert b == a + (b - a);
  }

  lemma KeysCount<K, V>(m: map<K, V>, m': map<K, V>, gone: set<K>)
    requires gone <= m.Keys && m'.Keys == m.Keys - gone
    ensures |m'| + |gone| == |m|
  {
    assert m.Keys == m'.Keys + gone && m'.Keys !! gone;
    assert |m.Keys| == |m'.Keys| + |gone|;
  }

  /** From the handles a delivery takes out to how many they are. */
  lemma GoneCounts(r: RegistryState, r': RegistryState, out: seq<Handle>, gone: set<Handle>)
    requires Ascends(out) && (forall h :: h in out <==> h in gone)
    requires gone <= r.slots.Keys && r'.slots.Keys == r.slots.Keys - gone
    requires r.evicted <= r'.evicted && r'.evicted - r.evicted == gone
    ensures |r'.evicted| == |r.evicted| + |out| && |r'.slots| + |out| == |r.slots|
  {
    AscendingCount(out, gone);
    SizesApart(r.evicted, r'.evicted);
    KeysCount(r.slots, r'.slots, gone);
  }

  lemma DeliverCounts(r: RegistryState, e: KernelEvent)
    requires Sound(r)
    ensures var (r', out) := Deliver(r, e);
            Sound(r') && |r'.evicted| == |r.evicted| + |out| && |r'.slots| + |out| == |r.slots|
  {
    var (r', out) := Deliver(r, e);
    DeliverEvicts(r, e);
    DeliverEvictsSet(r, e);
    GoneCounts(r, r', out, set h | h in out);
  }

  lemma EvictionsNext(r: RegistryState, e: KernelEvent, sofar: U32, slots: nat, evicted: nat)
    requires Sound(r) && |r.slots| + sofar == slots <= U32_MAX && |r.evicted| == evicted + sofar
    ensures var (r', out) := Deliver(r, e);
            var total := SatAdd32(sofar, Truncate32(|out|));
            Sound(r') && |r'.slots| + total == slots && |r'.evicted| == evicted + total
  {
    DeliverCounts(r, e);
  }

  /** The evictions a stream reports are as many as it evicts, whatever the instalments. */
  lemma {:induction false} EvictionsCount(r: RegistryState, events: seq<KernelEvent>)
    requires Sound(r) && |r.slots| <= U32_MAX
    ensures var r' := DeliverAll(r, events);
            && Sound(r') && |r'.slots| + Evictions(r, events) == |r.slots|
            && |r'.evicted| == |r.evicted| + Evictions(r, events)
    decreases |events|
  {
    if events != [] {
      var init := events[..|events|-1];
      EvictionsCount(r, init);
      EvictionsNext(DeliverAll(r, init), events[|events|-1], Evictions(r, init), |r.slots|, |r.evicted|);
      DeliverLast(r, events);
    }
  }

  // ---- delivering in instalments ----

  /** The last event of a stream is delivered on top of the rest. */
  lemma DeliverLast(r: RegistryState, events: seq<KernelEvent>)
    requires events != []
    ensures var before, e := events[..|events|-1], events[|events|-1];
            && DeliverAll(r, events) == Deliver(DeliverAll(r, before), e).0
            && Evictions(r, events) == SatAdd32(Evictions(r, before), Truncate32(|Deliver(DeliverAll(r, before), e).1|))
  {
  }

  lemma SatAdd32Associates(a: U32, b: U32, c: U32)
    ensures SatAdd32(SatAdd32(a, b), c) == SatAdd32(a, SatAdd32(b, c))
  {
  }

  lemma {:induction false} DeliverInstalments(r: RegistryState, a: seq<KernelEvent>, b: seq<KernelEvent>)
    ensures DeliverAll(r, a + b) == DeliverAll(DeliverAll(r, a), b)
    ensures Evictions(r, a + b) == SatAdd32(Evictions(r, a), Evictions(DeliverAll(r, a), b))
    decreases |b|
  {
    if b == [] {
      assert a + b == a;
    } else {
      var ab, init, e := a + b, b[..|b|-1], b[|b|-1];
      assert ab[..|ab|-1] == a + init && ab[|ab|-1] == e;
      DeliverInstalments(r, a, init);
      DeliverLast(r, ab);
      DeliverLast(DeliverAll(r, a), b);
      SatAdd32Associates(Evictions(r, a), Evictions(DeliverAll(r, a), init),
                         Truncate32(|Deliver(DeliverAll(DeliverAll(r, a), init), e).1|));
    }
  }

  lemma DeliverOneMore(r: RegistryState, a: seq<KernelEvent>, e: KernelEvent)
    ensures DeliverAll(r, a + [e]) == Deliver(DeliverAll(r, a), e).0
    ensures Evictions(r, a + [e]) == SatAdd32(Evictions(r, a), Truncate32(|Deliver(DeliverAll(r, a), e).1|))
  {
  }

  // ---- the registry object ----

  class ObserverRegistry {
    var slots: map<Handle, ObserverSlot>
    var evicted: set<Handle>
    var nextHandle: U64

    ghost function View(): RegistryState
      reads this
    {
      RegistryState(slots, evicted, nextHandle)
    }

    constructor ()
      ensures View() == RegistryState(map[], {}, 0)
    {
      slots, evicted, nextHandle := map[], {}, 0;
    }

    method RegisterFiltered(panics: seq<KernelEvent> -> bool, mask: EventMask) returns (h: Handle)
      modifies this
      ensures h == old(nextHandle) && View() == Register(old(View()), panics, mask)
    {
      h := nextHandle;
      nextHandle := SatAdd(nextHandle, 1);
      slots := slots[h := ObserverSlot(panics, mask, [])];
    }

    method DeliverEvent(e: KernelEvent) returns (newlyEvicted: seq<Handle>)
      modifies this
      ensures (View(), newlyEvicted) == Deliver(old(View()), e)
    {
      newlyEvicted := [];
      ghost var before := View();
      var keys := Ascending(slots.Keys);
      AscendingElements(slots.Keys);
      for n := 0 to |keys|
        invariant (View(), newlyEvicted) == OfferAll(before, keys[..n], e)
      {
        var h := keys[n];
        assert h in keys && h in before.slots;
        assert keys[..n+1][..n] == keys[..n];
        if h !in evicted && h in slots && Matches(slots[h].mask, e) {
          var seen := slots[h].seen + [e];
          if slots[h].panics(seen) {
            evicted := evicted + {h};
            slots := slots - {h};
            newlyEvicted := newlyEvicted + [h];
          } else {
            slots := slots[h := slots[h].(seen := seen)];
          }
        }
      }
      assert keys[..|keys|] == keys;
    }
  }
}
