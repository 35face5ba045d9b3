/** What replay of an untrusted log can end in when a trust anchor pins the tip of an honest one. */
module ReplayAnchored {
  import opened Abi
  import opened Step
  import opened Wal
  import opened WalTheorems
  import opened Kernel
  import opened Replay
  import opened ReplayTheorems

  lemma {:induction false} ContentsGiveEntries(rs: seq<WalRecord>, rs': seq<WalRecord>)
    requires Contents(rs) == Contents(rs')
    ensures Entries(rs) == Entries(rs')
    decreases |rs|
  {
    if rs != [] && rs' != [] {
      var a, b := Contents(rs), Contents(rs');
      assert a[..|a|-1] == Contents(rs[..|rs|-1]) && b[..|b|-1] == Contents(rs'[..|rs'|-1]);
      assert a[|a|-1] == b[|b|-1];
      ContentsGiveEntries(rs[..|rs|-1], rs'[..|rs'|-1]);
    }
  }

  /** A non-empty log names in its header the world id it is checked under. */
  predicate NamesWorld(w: WalState, world: WorldId) {
    w.records != [] ==> w.header.worldId == world
  }

  /** An arbitrary log under an anchor that pins the tip of a log that replays. */
  lemma PinnedReplays(reg: Registry, m: Instances, honest: WriterState, w: WalState, anchor: TrustAnchor)
    requires Sound(honest) && anchor.tip == Some(honest.prevHash) && ReplayRecords(reg, m, FromWriter(honest)).1.Ok?
    requires VerifyChainAnchored(w, honest.header.worldId, anchor).Ok?
    ensures var (m', r) := ReplayRecords(reg, m, w);
            && (r.Ok? <==> NamesWorld(w, honest.header.worldId))
            && (r.Ok? ==> m' == ReplayRecords(reg, m, FromWriter(honest)).0)
  {
    var world := honest.header.worldId;
    WriterVerifies(honest);
    AnchoredExcludesForgery(honest, w, anchor);
    ContentsGiveEntries(w.records, honest.records);
    ReplayAcceptsExactly(reg, m, w, world);
    ReplayAcceptsExactly(reg, m, FromWriter(honest), world);
  }

  /** What `ReplayIntoVerified` checks before it replays, put aside. */
  lemma VerifiedReplay(reg: Registry, replica: KernelState, w: WalState, world: WorldId, anchor: TrustAnchor)
    ensures var (m, r) := ReplayIntoVerified(reg, replica, w, world, anchor);
            && (r.Ok? <==> HeaderGate(w.header.pins).None? && VerifyChainAnchored(w, world, anchor).Ok? &&
                           ReplayRecords(reg, replica.instances, w).1.Ok?)
            && (r.Ok? ==> (m, r) == ReplayRecords(reg, replica.instances, w))
  {
  }

  lemma ReproducedReplays(reg: Registry, replica: KernelState, end: KernelState, h: WalHeader)
    requires Logging(end, h) && h.manifest == replica.manifest && h.pins == CURRENT_PINS && Reproduces(reg, replica, end)
    ensures var (m, r) := ReplayRecords(reg, replica.instances, FromWriter(end.wal.value)); r.Ok? && m == end.instances
  {
    AcceptedLog(reg, replica, end, h);
  }

  lemma ReplayToTheEnd(reg: Registry, replica: KernelState, live: KernelState, end: KernelState, w: WalState,
                       world: WorldId, anchor: TrustAnchor, c: SignatureClass)
    requires Logging(end, NewWriter(world, live.manifest, c).header) && replica.manifest == live.manifest
    requires Reproduces(reg, replica, end) && anchor.tip == Some(end.wal.value.prevHash)
    ensures var (m, r) := ReplayIntoVerified(reg, replica, w, world, anchor);
            && (r.Ok? ==> m == end.instances)
            && (r.Ok? <==> HeaderGate(w.header.pins).None? && VerifyChainAnchored(w, world, anchor).Ok? && NamesWorld(w, world))
  {
    VerifiedReplay(reg, replica, w, world, anchor);
    ReproducedReplays(reg, replica, end, NewWriter(world, live.manifest, c).header);
    if VerifyChainAnchored(w, world, anchor).Ok? {
      PinnedReplays(reg, replica.instances, end.wal.value, w, anchor);
    }
  }

  /** Verified replay, end to end: against an anchor that pins the tip of a live run whose unloads and
      signals the log can tell, an arbitrary log that is accepted ends in the instances that run reached;
      and whatever passes the header gates and the anchored chain under that world id, and names that
      world, is accepted. */
  lemma AnchoredReplayIsTheRun(reg: Registry, live: KernelState, replica: KernelState, inputs: seq<Input>,
                               world: WorldId, c: SignatureClass, w: WalState, anchor: TrustAnchor)
    requires live.wal == Some(NewWriter(world, live.manifest, c)) && Room(live, inputs) && TraceableRun(reg, live, inputs)
    requires replica.manifest == live.manifest && replica.instances == Run(reg, live, Creations(inputs)).instances
    requires var tip := Run(reg, live, inputs).wal; tip.Some? && anchor.tip == Some(tip.value.prevHash)
    ensures var (m, r) := ReplayIntoVerified(reg, replica, w, world, anchor);
            && (r.Ok? ==> m == Run(reg, live, inputs).instances)
            && (r.Ok? <==> HeaderGate(w.header.pins).None? && VerifyChainAnchored(w, world, anchor).Ok? && NamesWorld(w, world))
  {
    NewWriterSound(world, live.manifest, c);
    RunKeepsLogging(reg, live, inputs, NewWriter(world, live.manifest, c).header);
    ReplayReproducesRun(reg, live, replica, inputs, world, c);
    ReplayToTheEnd(reg, replica, live, Run(reg, live, inputs), w, world, anchor, c);
  }
}
