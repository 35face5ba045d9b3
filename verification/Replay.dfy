/** Replay of a log into a kernel (`arkhe-kernel/src/persist/replay.rs`). */
module Replay {
  import opened Abi
  import opened Step
  import opened Wal
  import opened Kernel

  datatype ReplayReport = ReplayReport(submits: U32, steps: U32, applied: U32, denied: U32)

  datatype ReplayError =
    | HeaderIncompatible
    | KernelSemverMismatch(expectedSemver: (U16, U16, U16), gotSemver: (U16, U16, U16))
    | AbiVersionMismatch(expectedAbi: (U16, U16), gotAbi: (U16, U16))
    | PostcardVersionMismatch(expectedPostcard: U32, gotPostcard: U32)
    | Blake3VersionMismatch(expectedBlake3: U32, gotBlake3: U32)
    | ManifestMismatch(expectedManifest: ManifestDigest, gotManifest: ManifestDigest)
    | WalCorrupted(cause: WalError)
    | SubmitFailed(refusal: ArkheError)
    | StepUnderflow(instance: InstanceId)
    | PoppedIdDivergence(poppedAt: U64)
    | VerdictDivergence(verdictAt: U64, expected: StepVerdict, got: StepVerdict)
    | StateDigestDivergence(digestAt: U64)
    | ChainTipDivergence(sealed: ChainHash, measured: ChainHash)

  /** A replay under way, or stopped at its first divergence with the kernel as it then stands. */
  datatype ReplayState =
    | Replaying(instances: Instances, writer: WriterState, report: ReplayReport)
    | Stopped(left: Instances, error: ReplayError)

  function SubmissionOf(e: LogEntry): Submission
    requires e.SubmitEntry?
  {
    Submission(e.instance, e.principal, e.actor, e.capsAtSubmit, e.at, e.typeCode, e.bytes)
  }

  function ReplaySubmit(st: ReplayState, e: LogEntry): ReplayState
    requires st.Replaying? && e.SubmitEntry?
  {
    match SubmitWithId(st.instances, SubmissionOf(e), e.allocatedId)
    case Err(refusal) => Stopped(st.instances, SubmitFailed(refusal))
    case Ok(m) =>
      Replaying(m, Append(st.writer, e), st.report.(submits := SatAdd32(st.report.submits, 1)))
  }

  /** The first recorded fact the re-executed step contradicts. */
  function Tripwire(r: InstanceStepResult, e: LogEntry, at: U64): Option<ReplayError>
    requires e.StepEntry?
  {
    if r.poppedId != e.poppedId then Some(PoppedIdDivergence(at))
    else if r.verdict != e.verdict then Some(VerdictDivergence(at, e.verdict, r.verdict))
    else if r.digest != e.postStateDigest then Some(StateDigestDivergence(at))
    else None
  }

  function CountStep(report: ReplayReport, r: InstanceStepResult): ReplayReport {
    report.(steps := SatAdd32(report.steps, 1), applied := SatAdd32(report.applied, r.effectsApplied),
            denied := SatAdd32(report.denied, r.effectsDenied))
  }

  /** What replay makes of a re-executed step. */
  function Judged(st: ReplayState, done: Processed, e: LogEntry, at: U64): ReplayState
    requires st.Replaying? && e.StepEntry?
  {
    match done
    case Idle => Stopped(st.instances, StepUnderflow(e.steppedInstance))
    case Ran(m, r, _) =>
      match Tripwire(r, e, at)
      case Some(error) => Stopped(m, error)
      case None => Replaying(m, Append(st.writer, e), CountStep(st.report, r))
  }

  ghost function ReplayStep(reg: Registry, st: ReplayState, e: LogEntry, at: U64): ReplayState
    requires st.Replaying? && e.StepEntry?
  {
    Judged(st, Process(reg, st.instances, e.steppedInstance, e.now, e.sessionCaps, true), e, at)
  }

  ghost function ReplayRecord(reg: Registry, st: ReplayState, c: RecordContent): ReplayState {
    if st.Stopped? then st
    else if c.entry.SubmitEntry? then ReplaySubmit(st, c.entry)
    else ReplayStep(reg, st, c.entry, c.seqNo)
  }

  ghost function ReplayAll(reg: Registry, st: ReplayState, rs: seq<WalRecord>): ReplayState {
    if rs == [] then st else ReplayRecord(reg, ReplayAll(reg, st, rs[..|rs|-1]), rs[|rs|-1].content)
  }

  function ReplayStart(m: Instances, h: WalHeader): ReplayState {
    Replaying(m, RebuildFromHeader(h), ReplayReport(0, 0, 0, 0))
  }

  /** The kernel's instances afterwards, and either the counters with the measured tip or the error. */
  ghost function ReplayRecords(reg: Registry, m: Instances, w: WalState)
      : (Instances, Result<(ReplayReport, ChainHash), ReplayError>) {
    match ReplayAll(reg, ReplayStart(m, w.header), w.records)
    case Stopped(left, error) => (left, Err(error))
    case Replaying(m', writer, report) =>
      if writer.prevHash != Tip(w) then (m', Err(ChainTipDivergence(Tip(w), writer.prevHash)))
      else (m', Ok((report, writer.prevHash)))
  }

  /** The first header gate that refuses these pins: of the kernel version only the major counts. */
  function HeaderGate(p: FormatPins): Option<ReplayError> {
    if p.magic != CURRENT_PINS.magic then Some(HeaderIncompatible)
    else if p.semver.0 != CURRENT_PINS.semver.0 then Some(KernelSemverMismatch(CURRENT_PINS.semver, p.semver))
    else if p.abi != CURRENT_PINS.abi then Some(AbiVersionMismatch(CURRENT_PINS.abi, p.abi))
    else if p.postcardMajor != CURRENT_PINS.postcardMajor then Some(PostcardVersionMismatch(CURRENT_PINS.postcardMajor, p.postcardMajor))
    else if p.blake3Major != CURRENT_PINS.blake3Major then Some(Blake3VersionMismatch(CURRENT_PINS.blake3Major, p.blake3Major))
    else None
  }

  /** The gates pass exactly the logs of this magic, kernel major, ABI, codec and hash. A version error
      carries the running version as expected and the header's as got, never the other way round. */
  lemma HeaderGateExactly(p: FormatPins)
    ensures HeaderGate(p).None? <==>
            && p.magic == CURRENT_PINS.magic && p.semver.0 == CURRENT_PINS.semver.0 && p.abi == CURRENT_PINS.abi
            && p.postcardMajor == CURRENT_PINS.postcardMajor && p.blake3Major == CURRENT_PINS.blake3Major
    ensures match HeaderGate(p)
            case Some(KernelSemverMismatch(e, g)) => e == CURRENT_PINS.semver && g == p.semver && e.0 != g.0
            case Some(AbiVersionMismatch(e, g)) => e == CURRENT_PINS.abi && g == p.abi && e != g
            case Some(PostcardVersionMismatch(e, g)) => e == CURRENT_PINS.postcardMajor && g == p.postcardMajor && e != g
            case Some(Blake3VersionMismatch(e, g)) => e == CURRENT_PINS.blake3Major && g == p.blake3Major && e != g
            case Some(error) => error == HeaderIncompatible && p.magic != CURRENT_PINS.magic
            case None => true
    ensures HeaderGate(p) == Some(HeaderIncompatible) <==> p.magic != CURRENT_PINS.magic
    ensures p.magic == CURRENT_PINS.magic ==> (HeaderGate(p).Some? && HeaderGate(p).value.KernelSemverMismatch? <==> p.semver.0 != CURRENT_PINS.semver.0)
    ensures p.magic == CURRENT_PINS.magic && p.semver.0 == CURRENT_PINS.semver.0 ==>
              (HeaderGate(p).Some? && HeaderGate(p).value.AbiVersionMismatch? <==> p.abi != CURRENT_PINS.abi)
    ensures p.magic == CURRENT_PINS.magic && p.semver.0 == CURRENT_PINS.semver.0 && p.abi == CURRENT_PINS.abi ==>
              (HeaderGate(p).Some? && HeaderGate(p).value.PostcardVersionMismatch? <==> p.postcardMajor != CURRENT_PINS.postcardMajor)
  {
  }

  /** Logs of other versions: this kernel's version is reported as the expected one. */
  lemma OtherMajorIsReported()
    ensures HeaderGate(CURRENT_PINS.(semver := (1, 0, 0))) == Some(KernelSemverMismatch((0, 15, 0), (1, 0, 0)))
    ensures HeaderGate(CURRENT_PINS.(abi := (1, 0))) == Some(AbiVersionMismatch((0, 15), (1, 0)))
    ensures HeaderGate(CURRENT_PINS.(postcardMajor := 2)) == Some(PostcardVersionMismatch(1, 2))
    ensures HeaderGate(CURRENT_PINS.(blake3Major := 2)) == Some(Blake3VersionMismatch(1, 2))
  {
  }

  ghost function ReplayInto(reg: Registry, k: KernelState, w: WalState)
      : (Instances, Result<(ReplayReport, ChainHash), ReplayError>) {
    var gate := HeaderGate(w.header.pins);
    if gate.Some? then (k.instances, Err(gate.value))
    else if w.header.manifest != k.manifest then (k.instances, Err(ManifestMismatch(w.header.manifest, k.manifest)))
    else
      match VerifyChain(w, w.header.worldId)
      case Err(e) => (k.instances, Err(WalCorrupted(e)))
      case Ok(_) => ReplayRecords(reg, k.instances, w)
  }

  ghost function ReplayIntoVerified(reg: Registry, k: KernelState, w: WalState, world: WorldId, anchor: TrustAnchor)
      : (Instances, Result<(ReplayReport, ChainHash), ReplayError>) {
    var gate := HeaderGate(w.header.pins);
    if gate.Some? then (k.instances, Err(gate.value))
    else
      match VerifyChainAnchored(w, world, anchor)
      case Err(e) => (k.instances, Err(WalCorrupted(e)))
      case Ok(_) => ReplayRecords(reg, k.instances, w)
  }

  // ---- replay over a given way of replaying one record ----

  /** `f` is what replay does with one record. */
  ghost predicate Replays(f: (ReplayState, RecordContent) -> ReplayState, reg: Registry) {
    forall st, c {:trigger ReplayRecord(reg, st, c)} :: f(st, c) == ReplayRecord(reg, st, c)
  }

  /** Records one after another, none after the first failure. */
  function ReplayWith(f: (ReplayState, RecordContent) -> ReplayState, st: ReplayState, rs: seq<WalRecord>): ReplayState {
    if rs == [] then st
    else
      var st' := ReplayWith(f, st, rs[..|rs|-1]);
      if st'.Stopped? then st' else f(st', rs[|rs|-1].content)
  }

  lemma {:induction false} FirstErrorStands(f: (ReplayState, RecordContent) -> ReplayState, st: ReplayState, rs: seq<WalRecord>, n: nat)
    requires n <= |rs| && ReplayWith(f, st, rs[..n]).Stopped?
    ensures ReplayWith(f, st, rs) == ReplayWith(f, st, rs[..n])
    decreases |rs|
  {
    if n == |rs| {
      assert rs[..n] == rs;
    } else {
      assert rs[..|rs|-1][..n] == rs[..n];
      FirstErrorStands(f, st, rs[..|rs|-1], n);
    }
  }

  lemma {:induction false} ReplayWithIsReplayAll(f: (ReplayState, RecordContent) -> ReplayState, reg: Registry,
                                                 st: ReplayState, rs: seq<WalRecord>)
    requires Replays(f, reg)
    ensures ReplayWith(f, st, rs) == ReplayAll(reg, st, rs)
    decreases |rs|
  {
    if rs != [] {
      ReplayWithIsReplayAll(f, reg, st, rs[..|rs|-1]);
      assert ReplayAll(reg, st, rs) == ReplayRecord(reg, ReplayAll(reg, st, rs[..|rs|-1]), rs[|rs|-1].content);
    }
  }
}
