/** Replay driving a kernel object and a rebuilt writer (`arkhe-kernel/src/persist/replay.rs`). */
module ReplayObject {
  import opened Abi
  import opened Wal
  import opened KernelObject
  import K = Kernel
  import R = Replay

  /** Re-executes one recorded step and compares what it reached with what was recorded. */
  method ReplayStep(k: Kernel, writer: WalWriter, report: R.ReplayReport, e: LogEntry, at: U64)
      returns (report': R.ReplayReport, error: Option<R.ReplayError>)
    requires k.Valid() && e.StepEntry?
    modifies k`instances, k.observers, k.scratch, writer
    ensures k.Valid()
    ensures R.ReplayStep(k.registry, R.Replaying(old(k.instances), old(writer.View()), report), e, at) ==
            if error.Some? then R.Stopped(k.instances, error.value) else R.Replaying(k.instances, writer.View(), report')
  {
    report', error := report, None;
    ghost var reg, now, session := k.registry, e.now, e.sessionCaps;
    ghost var f := (m: K.Instances, id: InstanceId) => K.Process(reg, m, id, now, session, true);
    var result, _, _ := k.ProcessInstanceRecord(e.steppedInstance, e.now, e.sessionCaps, true, f);
    if result.None? {
      return report, Some(R.StepUnderflow(e.steppedInstance));
    }
    error := R.Tripwire(result.value, e, at);
    if error.None? {
      writer.AppendEntry(e);
      report' := R.CountStep(report, result.value);
    }
  }

  /** Admits one recorded submission under its recorded id. */
  method ReplaySubmit(k: Kernel, writer: WalWriter, report: R.ReplayReport, e: LogEntry)
      returns (report': R.ReplayReport, error: Option<R.ReplayError>)
    requires k.Valid() && e.SubmitEntry?
    modifies k`instances, writer
    ensures k.Valid()
    ensures R.ReplaySubmit(R.Replaying(old(k.instances), old(writer.View()), report), e) ==
            if error.Some? then R.Stopped(k.instances, error.value) else R.Replaying(k.instances, writer.View(), report')
  {
    report', error := report, None;
    var admitted := k.SubmitWithId(R.SubmissionOf(e), e.allocatedId);
    if admitted.Err? {
      return report, Some(R.SubmitFailed(admitted.error));
    }
    writer.AppendEntry(e);
    report' := report.(submits := SatAdd32(report.submits, 1));
  }

  method ReplayRecord(k: Kernel, writer: WalWriter, report: R.ReplayReport, c: RecordContent,
                      ghost f: (R.ReplayState, RecordContent) -> R.ReplayState)
      returns (report': R.ReplayReport, error: Option<R.ReplayError>)
    requires k.Valid() && R.Replays(f, k.registry)
    modifies k`instances, k.observers, k.scratch, writer
    ensures k.Valid()
    ensures f(R.Replaying(old(k.instances), old(writer.View()), report), c) ==
            if error.Some? then R.Stopped(k.instances, error.value) else R.Replaying(k.instances, writer.View(), report')
  {
    ghost var before := R.Replaying(k.instances, writer.View(), report);
    assert f(before, c) == R.ReplayRecord(k.registry, before, c);
    if c.entry.SubmitEntry? {
      report', error := ReplaySubmit(k, writer, report, c.entry);
    } else {
      report', error := ReplayStep(k, writer, report, c.entry, c.seqNo);
    }
  }

  /** Every record in order until one fails. */
  method ReplayEach(k: Kernel, writer: WalWriter, rs: seq<WalRecord>, ghost f: (R.ReplayState, RecordContent) -> R.ReplayState)
      returns (report: R.ReplayReport, error: Option<R.ReplayError>)
    requires k.Valid() && R.Replays(f, k.registry)
    modifies k`instances, k.observers, k.scratch, writer
    ensures k.Valid()
    ensures R.ReplayWith(f, R.Replaying(old(k.instances), old(writer.View()), R.ReplayReport(0, 0, 0, 0)), rs) ==
            if error.Some? then R.Stopped(k.instances, error.value) else R.Replaying(k.instances, writer.View(), report)
  {
    report, error := R.ReplayReport(0, 0, 0, 0), None;
    ghost var start := R.Replaying(k.instances, writer.View(), report);
    for n := 0 to |rs|
      invariant k.Valid() && error.None?
      invariant R.ReplayWith(f, start, rs[..n]) == R.Replaying(k.instances, writer.View(), report)
    {
      assert rs[..n+1][..n] == rs[..n];
      report, error := ReplayRecord(k, writer, report, rs[n].content, f);
      if error.Some? {
        R.FirstErrorStands(f, start, rs, n + 1);
        return;
      }
    }
    assert rs[..|rs|] == rs;
  }

  /** Re-admits and re-executes the whole log, then compares the measured tip with the sealed one. */
  method ReplayRecords(k: Kernel, w: WalState) returns (r: Result<(R.ReplayReport, ChainHash), R.ReplayError>)
    requires k.Valid()
    modifies k`instances, k.observers, k.scratch
    ensures k.Valid() && (k.instances, r) == R.ReplayRecords(k.registry, old(k.instances), w)
  {
    ghost var reg, before := k.registry, k.instances;
    ghost var f := (st: R.ReplayState, c: RecordContent) => R.ReplayRecord(reg, st, c);
    var writer := new WalWriter.Rebuild(w.header);
    var report, error := ReplayEach(k, writer, w.records, f);
    R.ReplayWithIsReplayAll(f, reg, R.ReplayStart(before, w.header), w.records);
    if error.Some? {
      return Err(error.value);
    }
    if writer.prevHash != Tip(w) {
      return Err(R.ChainTipDivergence(Tip(w), writer.prevHash));
    }
    r := Ok((report, writer.prevHash));
  }

  method ReplayInto(k: Kernel, w: WalState) returns (r: Result<(R.ReplayReport, ChainHash), R.ReplayError>)
    requires k.Valid()
    modifies k`instances, k.observers, k.scratch
    ensures k.Valid() && (k.instances, r) == R.ReplayInto(k.registry, old(k.View()), w)
  {
    var gate := R.HeaderGate(w.header.pins);
    if gate.Some? {
      return Err(gate.value);
    }
    if w.header.manifest != k.manifest {
      return Err(R.ManifestMismatch(w.header.manifest, k.manifest));
    }
    var checked := VerifyRecords(w, w.header.worldId);
    if checked.Err? {
      return Err(R.WalCorrupted(checked.error));
    }
    r := ReplayRecords(k, w);
  }

  method ReplayIntoVerified(k: Kernel, w: WalState, world: WorldId, anchor: TrustAnchor)
      returns (r: Result<(R.ReplayReport, ChainHash), R.ReplayError>)
    requires k.Valid()
    modifies k`instances, k.observers, k.scratch
    ensures k.Valid() && (k.instances, r) == R.ReplayIntoVerified(k.registry, old(k.View()), w, world, anchor)
  {
    var gate := R.HeaderGate(w.header.pins);
    if gate.Some? {
      return Err(gate.value);
    }
    var checked := VerifyAnchored(w, world, anchor);
    if checked.Err? {
      return Err(R.WalCorrupted(checked.error));
    }
    r := ReplayRecords(k, w);
  }
}
