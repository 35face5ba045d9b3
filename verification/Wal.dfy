/** The Canonical Input Log: records, keyed hash chain, verification
    (`arkhe-kernel/src/persist/wal.rs`). Hash, key derivation and signatures are symbolic: each is
    a constructor of its inputs, so it is injective and never collides with the zero hash. */
module Wal {
  import opened Abi
  import opened Instance
  import opened Step

  type WorldId = Bytes
  type ManifestDigest = Bytes

  /** What the kernel writes down: admissions from outside and one verdict per pop. */
  datatype LogEntry =
    | SubmitEntry(instance: InstanceId, principal: Principal, actor: Option<EntityId>, capsAtSubmit: Caps,
                  at: Tick, typeCode: TypeCode, bytes: Bytes, allocatedId: ScheduledActionId)
    | StepEntry(steppedInstance: InstanceId, poppedId: ScheduledActionId, now: Tick, sessionCaps: Caps,
                verdict: StepVerdict, postStateDigest: Digest)

  datatype RecordContent = RecordContent(seqNo: U64, entry: LogEntry)

  datatype ChainKey = ChainKey(world: WorldId)
  datatype RecordBody = RecordBody(content: RecordContent, prev: ChainHash)
  datatype ChainHash = Genesis | Keyed(key: ChainKey, prevHash: ChainHash, body: RecordBody)

  datatype KeyBytes = ParsedKey(key: nat) | MalformedKey(raw: Bytes)
  datatype Signature = SignedBy(signer: KeyBytes, message: RecordBody) | OtherSignature(raw: Bytes)
  datatype SignatureClass = Unsigned | Ed25519(key: nat) | Hybrid(edKey: nat, pqcKey: nat)
  datatype SignatureTier = NoTier | Ed25519Tier | HybridTier

  /** The version constants a header pins. */
  datatype FormatPins = FormatPins(magic: Bytes, semver: (U16, U16, U16), abi: (U16, U16), postcardMajor: U32, blake3Major: U32)
  const CURRENT_PINS := FormatPins([0x41, 0x52, 0x4B, 0x48, 0x45, 0x57, 0x41, 0x4C], (0, 15, 0), (0, 15), 1, 1)

  datatype WalHeader = WalHeader(
    pins: FormatPins, worldId: WorldId, manifest: ManifestDigest,
    verifyingKey: Option<KeyBytes>, verifyingKeyPqc: Option<KeyBytes>)

  datatype WalRecord = WalRecord(
    content: RecordContent, prevChainHash: ChainHash, thisChainHash: ChainHash,
    signature: Option<Signature>, signaturePqc: Option<Signature>)

  datatype WalState = WalState(header: WalHeader, records: seq<WalRecord>)

  datatype WriterState = WriterState(
    header: WalHeader, records: seq<WalRecord>, nextSeq: U64, prevHash: ChainHash,
    chainKey: ChainKey, sigClass: SignatureClass)

  datatype WalError =
    | ChainBroken(brokenAt: nat)
    | HashMismatch(mismatchAt: nat)
    | InvalidVerifyingKey
    | MissingSignature(missingAt: nat)
    | SignatureMismatch(badAt: nat)
    | MissingPqcSignature(missingPqcAt: nat)
    | PqcSignatureMismatch(badPqcAt: nat)
    | PqcWithoutEd25519
    | TierDowngrade
    | VerifyingKeyMismatch
    | ManifestDigestMismatch
    | ChainTipMismatch

  // ---- writing ----

  function EdKeyOf(c: SignatureClass): Option<KeyBytes> {
    match c
    case Unsigned => None
    case Ed25519(k) => Some(ParsedKey(k))
    case Hybrid(k, _) => Some(ParsedKey(k))
  }

  function PqcKeyOf(c: SignatureClass): Option<KeyBytes> {
    if c.Hybrid? then Some(ParsedKey(c.pqcKey)) else None
  }

  function NewWriter(world: WorldId, manifest: ManifestDigest, c: SignatureClass): WriterState {
    WriterState(WalHeader(CURRENT_PINS, world, manifest, EdKeyOf(c), PqcKeyOf(c)), [], 0, Genesis, ChainKey(world), c)
  }

  /** A measurement-only writer: same chain key, no signing. */
  function RebuildFromHeader(h: WalHeader): WriterState {
    WriterState(h, [], 0, Genesis, ChainKey(h.worldId), Unsigned)
  }

  function Seal(key: ChainKey, prev: ChainHash, content: RecordContent): ChainHash {
    Keyed(key, prev, RecordBody(content, prev))
  }

  function Sign(key: Option<KeyBytes>, body: RecordBody): Option<Signature> {
    match key
    case None => None
    case Some(k) => Some(SignedBy(k, body))
  }

  function Append(w: WriterState, entry: LogEntry): WriterState {
    var content := RecordContent(SatAdd(w.nextSeq, 1), entry);
    var hash := Seal(w.chainKey, w.prevHash, content);
    var body := RecordBody(content, w.prevHash);
    w.(records := w.records + [WalRecord(content, w.prevHash, hash, Sign(EdKeyOf(w.sigClass), body), Sign(PqcKeyOf(w.sigClass), body))],
       nextSeq := content.seqNo, prevHash := hash)
  }

  function AppendAll(w: WriterState, entries: seq<LogEntry>): WriterState {
    if entries == [] then w else Append(AppendAll(w, entries[..|entries|-1]), entries[|entries|-1])
  }

  function FromWriter(w: WriterState): WalState {
    WalState(w.header, w.records)
  }

  function Tip(w: WalState): ChainHash {
    if w.records == [] then Genesis else w.records[|w.records|-1].thisChainHash
  }

  // ---- verifying ----

  datatype Verifier = VerifyNone | VerifyEd25519(ed: KeyBytes) | VerifyHybrid(hybridEd: KeyBytes, pqc: KeyBytes)

  function VerifierOf(h: WalHeader): Result<Verifier, WalError> {
    match (h.verifyingKey, h.verifyingKeyPqc)
    case (None, None) => Ok(VerifyNone)
    case (Some(k), None) => if k.ParsedKey? then Ok(VerifyEd25519(k)) else Err(InvalidVerifyingKey)
    case (Some(k), Some(p)) => if k.ParsedKey? && p.ParsedKey? then Ok(VerifyHybrid(k, p)) else Err(InvalidVerifyingKey)
    case (None, Some(_)) => Err(PqcWithoutEd25519)
  }

  function CheckSignature(v: Verifier, r: WalRecord, body: RecordBody, at: nat): Result<(), WalError> {
    match v
    case VerifyNone => Ok(())
    case VerifyEd25519(k) =>
      if r.signature.None? then Err(MissingSignature(at))
      else if r.signature.value != SignedBy(k, body) then Err(SignatureMismatch(at))
      else Ok(())
    case VerifyHybrid(k, p) =>
      if r.signature.None? then Err(MissingSignature(at))
      else if r.signaturePqc.None? then Err(MissingPqcSignature(at))
      else if r.signature.value != SignedBy(k, body) || r.signaturePqc.value != SignedBy(p, body) then Err(PqcSignatureMismatch(at))
      else Ok(())
  }

  /** One record against the running hash: the next running hash, or why it is refused. */
  function CheckRecord(key: ChainKey, v: Verifier, prev: ChainHash, r: WalRecord, at: nat): Result<ChainHash, WalError> {
    var computed := Seal(key, prev, r.content);
    if r.prevChainHash != prev then Err(ChainBroken(at))
    else if computed != r.thisChainHash then Err(HashMismatch(at))
    else
      match CheckSignature(v, r, RecordBody(r.content, prev), at)
      case Err(e) => Err(e)
      case Ok(_) => Ok(computed)
  }

  /** The running hash after the given records, or the first refusal among them. */
  function CheckRecords(key: ChainKey, v: Verifier, rs: seq<WalRecord>): Result<ChainHash, WalError> {
    if rs == [] then Ok(Genesis)
    else
      match CheckRecords(key, v, rs[..|rs|-1])
      case Err(e) => Err(e)
      case Ok(prev) => CheckRecord(key, v, prev, rs[|rs|-1], |rs|-1)
  }

  function VerifyChain(w: WalState, world: WorldId): Result<(), WalError> {
    match VerifierOf(w.header)
    case Err(e) => Err(e)
    case Ok(v) =>
      match CheckRecords(ChainKey(world), v, w.records)
      case Err(e) => Err(e)
      case Ok(_) => Ok(())
  }

  datatype TrustAnchor = TrustAnchor(
    minTier: Option<SignatureTier>, ed25519Key: Option<KeyBytes>, mldsaKey: Option<KeyBytes>,
    manifest: Option<ManifestDigest>, tip: Option<ChainHash>)

  function HeaderTier(h: WalHeader): Result<SignatureTier, WalError> {
    match (h.verifyingKey.Some?, h.verifyingKeyPqc.Some?)
    case (false, false) => Ok(NoTier)
    case (true, false) => Ok(Ed25519Tier)
    case (true, true) => Ok(HybridTier)
    case (false, true) => Err(PqcWithoutEd25519)
  }

  function TierRank(t: SignatureTier): nat {
    match t case NoTier => 0 case Ed25519Tier => 1 case HybridTier => 2
  }

  function VerifyChainAnchored(w: WalState, world: WorldId, anchor: TrustAnchor): Result<(), WalError> {
    match HeaderTier(w.header)
    case Err(e) => Err(e)
    case Ok(tier) =>
      if anchor.minTier.Some? && TierRank(tier) < TierRank(anchor.minTier.value) then Err(TierDowngrade)
      else if anchor.ed25519Key.Some? && w.header.verifyingKey != anchor.ed25519Key then Err(VerifyingKeyMismatch)
      else if anchor.mldsaKey.Some? && w.header.verifyingKeyPqc != anchor.mldsaKey then Err(VerifyingKeyMismatch)
      else if anchor.manifest.Some? && w.header.manifest != anchor.manifest.value then Err(ManifestDigestMismatch)
      else
        match VerifyChain(w, world)
        case Err(e) => Err(e)
        case Ok(_) =>
          if anchor.tip.Some? && Tip(w) != anchor.tip.value then Err(ChainTipMismatch) else Ok(())
  }

  // ---- the writer object and the verification loop ----

  class WalWriter {
    const header: WalHeader
    var records: seq<WalRecord>
    var nextSeq: U64
    var prevHash: ChainHash
    const chainKey: ChainKey
    const sigClass: SignatureClass

    ghost function View(): WriterState
      reads this
    {
      WriterState(header, records, nextSeq, prevHash, chainKey, sigClass)
    }

    constructor (world: WorldId, manifest: ManifestDigest, c: SignatureClass)
      ensures View() == NewWriter(world, manifest, c)
    {
      header := WalHeader(CURRENT_PINS, world, manifest, EdKeyOf(c), PqcKeyOf(c));
      records, nextSeq, prevHash, chainKey, sigClass := [], 0, Genesis, ChainKey(world), c;
    }

    constructor Rebuild(h: WalHeader)
      ensures View() == RebuildFromHeader(h)
    {
      header, records, nextSeq, prevHash, chainKey, sigClass := h, [], 0, Genesis, ChainKey(h.worldId), Unsigned;
    }

    /** Hash and signatures of one body; nothing is recorded yet. */
    method SealBody(content: RecordContent) returns (r: WalRecord)
      ensures r.content == content && r.prevChainHash == prevHash && r.thisChainHash == Seal(chainKey, prevHash, content)
      ensures r.signature == Sign(EdKeyOf(sigClass), RecordBody(content, prevHash))
      ensures r.signaturePqc == Sign(PqcKeyOf(sigClass), RecordBody(content, prevHash))
    {
      var body := RecordBody(content, prevHash);
      var hash := Keyed(chainKey, prevHash, body);
      var ed: Option<Signature>, pqc: Option<Signature> := None, None;
      match sigClass {
        case Unsigned =>
        case Ed25519(k) => ed := Some(SignedBy(ParsedKey(k), body));
        case Hybrid(k, p) =>
          ed, pqc := Some(SignedBy(ParsedKey(k), body)), Some(SignedBy(ParsedKey(p), body));
      }
      r := WalRecord(content, prevHash, hash, ed, pqc);
    }

    method AppendEntry(entry: LogEntry)
      modifies this
      ensures View() == Append(old(View()), entry)
    {
      nextSeq := SatAdd(nextSeq, 1);
      var r := SealBody(RecordContent(nextSeq, entry));
      records := records + [r];
      prevHash := r.thisChainHash;
    }
  }

  method VerifyRecords(w: WalState, world: WorldId) returns (r: Result<(), WalError>)
    ensures r == VerifyChain(w, world)
  {
    var verifier := VerifierOf(w.header);
    if verifier.Err? {
      return Err(verifier.error);
    }
    var prev := Genesis;
    for n := 0 to |w.records|
      invariant CheckRecords(ChainKey(world), verifier.value, w.records[..n]) == Ok(prev)
    {
      var rec := w.records[n];
      assert w.records[..n+1][..n] == w.records[..n];
      var computed := Seal(ChainKey(world), prev, rec.content);
      var signed := CheckSignature(verifier.value, rec, RecordBody(rec.content, prev), n);
      if rec.prevChainHash != prev || computed != rec.thisChainHash || signed.Err? {
        FirstRefusalStands(ChainKey(world), verifier.value, w.records, n);
        return Err(if rec.prevChainHash != prev then ChainBroken(n)
                   else if computed != rec.thisChainHash then HashMismatch(n)
                   else signed.error);
      }
      prev := computed;
    }
    assert w.records[..|w.records|] == w.records;
    r := Ok(());
  }

  /** Once a record is refused no later record changes the answer. */
  lemma {:induction false} FirstRefusalStands(key: ChainKey, v: Verifier, rs: seq<WalRecord>, n: nat)
    requires n < |rs| && CheckRecords(key, v, rs[..n+1]).Err?
    ensures CheckRecords(key, v, rs) == CheckRecords(key, v, rs[..n+1])
    decreases |rs|
  {
    if n + 1 == |rs| {
      assert rs[..n+1] == rs;
    } else {
      var init := rs[..|rs|-1];
      assert init[..n+1] == rs[..n+1];
      FirstRefusalStands(key, v, init, n);
    }
  }

  /** The anchor's pins, the chain, then the sealed tip. */
  method VerifyAnchored(w: WalState, world: WorldId, anchor: TrustAnchor) returns (r: Result<(), WalError>)
    ensures r == VerifyChainAnchored(w, world, anchor)
  {
    var tier := HeaderTier(w.header);
    if tier.Err? {
      return Err(tier.error);
    }
    if anchor.minTier.Some? && TierRank(tier.value) < TierRank(anchor.minTier.value) {
      return Err(TierDowngrade);
    }
    if anchor.ed25519Key.Some? && w.header.verifyingKey != anchor.ed25519Key {
      return Err(VerifyingKeyMismatch);
    }
    if anchor.mldsaKey.Some? && w.header.verifyingKeyPqc != anchor.mldsaKey {
      return Err(VerifyingKeyMismatch);
    }
    if anchor.manifest.Some? && w.header.manifest != anchor.manifest.value {
      return Err(ManifestDigestMismatch);
    }
    r := VerifyRecords(w, world);
    if r.Ok? && anchor.tip.Some? && Tip(w) != anchor.tip.value {
      r := Err(ChainTipMismatch);
    }
  }
}
