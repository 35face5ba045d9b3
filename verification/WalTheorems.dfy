/** What a verified chain tip pins down. */
module WalTheorems {
  import opened Abi
  import opened Wal

  /** The contents of a log, in order. */
  function Contents(rs: seq<WalRecord>): seq<RecordContent> {
    if rs == [] then [] else Contents(rs[..|rs|-1]) + [rs[|rs|-1].content]
  }

  /** A writer whose records all pass, under the key and signatures its own header promises, with
      its running hash as the tip and its records numbered from one. */
  ghost predicate Sound(w: WriterState) {
    && w.chainKey == ChainKey(w.header.worldId)
    && w.header.verifyingKey == EdKeyOf(w.sigClass) && w.header.verifyingKeyPqc == PqcKeyOf(w.sigClass)
    && VerifierOf(w.header).Ok?
    && CheckRecords(w.chainKey, VerifierOf(w.header).value, w.records) == Ok(w.prevHash)
  }

  lemma NewWriterSound(world: WorldId, manifest: ManifestDigest, c: SignatureClass)
    ensures Sound(NewWriter(world, manifest, c))
  {
  }

  lemma AppendKeepsSound(w: WriterState, entry: LogEntry)
    requires Sound(w)
    ensures Sound(Append(w, entry))
  {
  }

  /** Every log a writer builds verifies under its own world id, whatever it signs with. */
  lemma WriterVerifies(w: WriterState)
    requires Sound(w)
    ensures VerifyChain(FromWriter(w), w.header.worldId) == Ok(())
  {
  }

  /** The running hash of a verified log is its tip. */
  lemma RunningHashIsTip(key: ChainKey, v: Verifier, rs: seq<WalRecord>)
    requires CheckRecords(key, v, rs).Ok?
    ensures CheckRecords(key, v, rs).value == (if rs == [] then Genesis else rs[|rs|-1].thisChainHash)
  {
  }

  /** Equal running hashes come from equal contents, in equal order and number, under equal keys. */
  lemma {:induction false} HashDeterminesContents(
      key: ChainKey, v: Verifier, rs: seq<WalRecord>, key': ChainKey, v': Verifier, rs': seq<WalRecord>)
    requires CheckRecords(key, v, rs).Ok? && CheckRecords(key, v, rs) == CheckRecords(key', v', rs')
    ensures Contents(rs) == Contents(rs') && |rs| == |rs'|
    ensures rs != [] ==> key == key'
    decreases |rs|
  {
    if rs != [] && rs' != [] {
      HashDeterminesContents(key, v, rs[..|rs|-1], key', v', rs'[..|rs'|-1]);
    }
  }

  /** Two logs that verify under one world id and end in the same tip hold the same contents in the
      same order: the tip excludes tampering, reordering and truncation alike. */
  lemma TipDeterminesHistory(a: WalState, b: WalState, world: WorldId)
    requires VerifyChain(a, world).Ok? && VerifyChain(b, world).Ok? && Tip(a) == Tip(b)
    ensures Contents(a.records) == Contents(b.records) && |a.records| == |b.records|
  {
    var va, vb := VerifierOf(a.header).value, VerifierOf(b.header).value;
    RunningHashIsTip(ChainKey(world), va, a.records);
    RunningHashIsTip(ChainKey(world), vb, b.records);
    HashDeterminesContents(ChainKey(world), va, a.records, ChainKey(world), vb, b.records);
  }

  /** A non-empty log verifies under at most one world id. */
  lemma WorldIsPinned(a: WalState, world: WorldId, other: WorldId)
    requires VerifyChain(a, world).Ok? && VerifyChain(a, other).Ok? && a.records != []
    ensures world == other
  {
  }

  /** Against an anchor that pins the tip of an honest log, an arbitrary log is accepted only if it
      carries exactly the honest contents; with a pinned Ed25519 or ML-DSA key its every record is also
      signed by that key. */
  lemma AnchoredExcludesForgery(honest: WriterState, log: WalState, anchor: TrustAnchor)
    requires Sound(honest) && anchor.tip == Some(honest.prevHash)
    requires VerifyChainAnchored(log, honest.header.worldId, anchor).Ok?
    ensures Contents(log.records) == Contents(honest.records)
    ensures anchor.ed25519Key.Some? ==>
              forall r :: r in log.records ==>
                r.signature == Some(SignedBy(anchor.ed25519Key.value, RecordBody(r.content, r.prevChainHash)))
    ensures anchor.mldsaKey.Some? ==>
              forall r :: r in log.records ==>
                r.signaturePqc == Some(SignedBy(anchor.mldsaKey.value, RecordBody(r.content, r.prevChainHash)))
  {
    var h := FromWriter(honest);
    WriterVerifies(honest);
    RunningHashIsTip(honest.chainKey, VerifierOf(h.header).value, h.records);
    TipDeterminesHistory(log, h, honest.header.worldId);
    if anchor.ed25519Key.Some? {
      AllSigned(ChainKey(honest.header.worldId), VerifierOf(log.header).value, log.records, anchor.ed25519Key.value);
    }
    if anchor.mldsaKey.Some? {
      AllSignedPqc(ChainKey(honest.header.worldId), VerifierOf(log.header).value, log.records, anchor.mldsaKey.value);
    }
  }

  lemma {:induction false} AllSigned(key: ChainKey, v: Verifier, rs: seq<WalRecord>, k: KeyBytes)
    requires CheckRecords(key, v, rs).Ok?
    requires v == VerifyEd25519(k) || (v.VerifyHybrid? && v.hybridEd == k)
    ensures forall r :: r in rs ==> r.signature == Some(SignedBy(k, RecordBody(r.content, r.prevChainHash)))
    decreases |rs|
  {
    if rs != [] {
      AllSigned(key, v, rs[..|rs|-1], k);
      assert rs == rs[..|rs|-1] + [rs[|rs|-1]];
    }
  }

  lemma {:induction false} AllSignedPqc(key: ChainKey, v: Verifier, rs: seq<WalRecord>, k: KeyBytes)
    requires CheckRecords(key, v, rs).Ok? && v.VerifyHybrid? && v.pqc == k
    ensures forall r :: r in rs ==> r.signaturePqc == Some(SignedBy(k, RecordBody(r.content, r.prevChainHash)))
    decreases |rs|
  {
    if rs != [] {
      AllSignedPqc(key, v, rs[..|rs|-1], k);
      assert rs == rs[..|rs|-1] + [rs[|rs|-1]];
    }
  }

  /** Re-sealing a list of entries measures the same hashes whoever signs. */
  lemma {:induction false} ResealAgrees(w: WriterState, m: WriterState, entries: seq<LogEntry>)
    requires w.chainKey == m.chainKey && w.prevHash == m.prevHash && w.nextSeq == m.nextSeq
    ensures AppendAll(w, entries).prevHash == AppendAll(m, entries).prevHash
    ensures AppendAll(w, entries).nextSeq == AppendAll(m, entries).nextSeq
    ensures AppendAll(w, entries).chainKey == AppendAll(m, entries).chainKey == w.chainKey
    decreases |entries|
  {
    if entries != [] {
      ResealAgrees(w, m, entries[..|entries|-1]);
    }
  }

  lemma {:induction false} AppendAllKeepsSound(w: WriterState, entries: seq<LogEntry>)
    requires Sound(w)
    ensures Sound(AppendAll(w, entries)) && AppendAll(w, entries).header == w.header
    decreases |entries|
  {
    if entries != [] {
      AppendAllKeepsSound(w, entries[..|entries|-1]);
      AppendKeepsSound(AppendAll(w, entries[..|entries|-1]), entries[|entries|-1]);
    }
  }

  /** Whatever a writer is given to record, under whatever signature class, its log verifies under the
      world id it was opened for. */
  lemma EveryWrittenLogVerifies(world: WorldId, manifest: ManifestDigest, c: SignatureClass, entries: seq<LogEntry>)
    ensures VerifyChain(FromWriter(AppendAll(NewWriter(world, manifest, c), entries)), world) == Ok(())
  {
    NewWriterSound(world, manifest, c);
    AppendAllKeepsSound(NewWriter(world, manifest, c), entries);
    WriterVerifies(AppendAll(NewWriter(world, manifest, c), entries));
  }

  // ---- what verification accepts ----

  /** The running hash a record is checked against. */
  function Before(rs: seq<WalRecord>, n: nat): ChainHash
    requires n < |rs|
  {
    if n == 0 then Genesis else rs[n-1].thisChainHash
  }

  /** A record that follows its predecessor, hashes to what it says, and is signed by every key the
      header carries. */
  predicate Fine(h: WalHeader, world: WorldId, rs: seq<WalRecord>, n: nat)
    requires n < |rs|
  {
    var (r, prev) := (rs[n], Before(rs, n));
    var body := RecordBody(r.content, prev);
    && r.prevChainHash == prev && r.thisChainHash == Keyed(ChainKey(world), prev, body)
    && (h.verifyingKey.Some? ==> r.signature == Some(SignedBy(h.verifyingKey.value, body)))
    && (h.verifyingKeyPqc.Some? ==> r.signaturePqc == Some(SignedBy(h.verifyingKeyPqc.value, body)))
  }

  /** Keys that can be verified with: each parses, and there is no ML-DSA key without an Ed25519 one. */
  predicate KeysUsable(h: WalHeader) {
    && (h.verifyingKey.Some? ==> h.verifyingKey.value.ParsedKey?)
    && (h.verifyingKeyPqc.Some? ==> h.verifyingKey.Some? && h.verifyingKeyPqc.value.ParsedKey?)
  }

  lemma VerifierExactly(h: WalHeader)
    ensures VerifierOf(h).Ok? <==> KeysUsable(h)
    ensures VerifierOf(h) == Err(PqcWithoutEd25519) <==> h.verifyingKey.None? && h.verifyingKeyPqc.Some?
    ensures VerifierOf(h) == Err(InvalidVerifyingKey) <==> !KeysUsable(h) && h.verifyingKey.Some?
    ensures HeaderTier(h) == Err(PqcWithoutEd25519) <==> h.verifyingKey.None? && h.verifyingKeyPqc.Some?
    ensures HeaderTier(h).Ok? <==> h.verifyingKey.Some? || h.verifyingKeyPqc.None?
  {
  }

  lemma RecordFine(h: WalHeader, world: WorldId, rs: seq<WalRecord>, n: nat)
    requires n < |rs| && KeysUsable(h)
    ensures VerifierOf(h).Ok?
    ensures var r := CheckRecord(ChainKey(world), VerifierOf(h).value, Before(rs, n), rs[n], n);
            (r.Ok? <==> Fine(h, world, rs, n)) && (r.Ok? ==> r.value == rs[n].thisChainHash)
  {
  }

  lemma FineBefore(h: WalHeader, world: WorldId, rs: seq<WalRecord>, n: nat)
    requires n < |rs| - 1
    ensures Fine(h, world, rs[..|rs|-1], n) <==> Fine(h, world, rs, n)
  {
  }

  lemma {:induction false} ChecksExactly(h: WalHeader, world: WorldId, rs: seq<WalRecord>)
    requires KeysUsable(h)
    ensures VerifierOf(h).Ok?
    ensures CheckRecords(ChainKey(world), VerifierOf(h).value, rs).Ok? <==> forall n :: 0 <= n < |rs| ==> Fine(h, world, rs, n)
    decreases |rs|
  {
    VerifierExactly(h);
    if rs != [] {
      var init := rs[..|rs|-1];
      ChecksExactly(h, world, init);
      forall n | 0 <= n < |init| ensures Fine(h, world, init, n) <==> Fine(h, world, rs, n) {
        FineBefore(h, world, rs, n);
      }
      if CheckRecords(ChainKey(world), VerifierOf(h).value, init).Ok? {
        LastCheck(h, world, rs);
      } else {
        var n :| 0 <= n < |init| && !Fine(h, world, init, n);
        assert !Fine(h, world, rs, n);
      }
    }
  }

  lemma LastCheck(h: WalHeader, world: WorldId, rs: seq<WalRecord>)
    requires KeysUsable(h) && VerifierOf(h).Ok? && rs != [] && CheckRecords(ChainKey(world), VerifierOf(h).value, rs[..|rs|-1]).Ok?
    ensures CheckRecords(ChainKey(world), VerifierOf(h).value, rs).Ok? <==> Fine(h, world, rs, |rs| - 1)
  {
    RunningHashIsTip(ChainKey(world), VerifierOf(h).value, rs[..|rs|-1]);
    RecordFine(h, world, rs, |rs| - 1);
  }

  /** A log verifies under a world id if and only if its header's keys can be used and every record
      follows the one before it, hashes to what it says under that world, and carries their signatures. */
  lemma ChainAcceptsExactly(w: WalState, world: WorldId)
    ensures VerifyChain(w, world).Ok? <==> KeysUsable(w.header) && forall n :: 0 <= n < |w.records| ==> Fine(w.header, world, w.records, n)
  {
    VerifierExactly(w.header);
    if KeysUsable(w.header) {
      ChecksExactly(w.header, world, w.records);
    }
  }

  /** What is wrong with a record that is not fine, told apart as the refusals do. */
  ghost predicate Faulty(h: WalHeader, world: WorldId, rs: seq<WalRecord>, n: nat, e: WalError)
    requires n < |rs|
  {
    var (r, prev, ed, pqc) := (rs[n], Before(rs, n), h.verifyingKey, h.verifyingKeyPqc);
    var body := RecordBody(r.content, prev);
    var (chained, hashed) := (r.prevChainHash == prev, r.thisChainHash == Keyed(ChainKey(world), prev, body));
    match e
    case ChainBroken(at) => at == n && !chained
    case HashMismatch(at) => at == n && chained && !hashed
    case MissingSignature(at) => at == n && chained && hashed && ed.Some? && r.signature.None?
    case SignatureMismatch(at) => at == n && chained && hashed && ed.Some? && pqc.None? && r.signature.Some? && r.signature != Some(SignedBy(ed.value, body))
    case MissingPqcSignature(at) => at == n && chained && hashed && pqc.Some? && r.signature.Some? && r.signaturePqc.None?
    case PqcSignatureMismatch(at) =>
      && at == n && chained && hashed && ed.Some? && pqc.Some? && r.signature.Some? && r.signaturePqc.Some?
      && (r.signature != Some(SignedBy(ed.value, body)) || r.signaturePqc != Some(SignedBy(pqc.value, body)))
    case _ => false
  }

  lemma RecordRefused(h: WalHeader, world: WorldId, rs: seq<WalRecord>, n: nat)
    requires n < |rs| && VerifierOf(h).Ok?
    ensures var r := CheckRecord(ChainKey(world), VerifierOf(h).value, Before(rs, n), rs[n], n); r.Err? ==> Faulty(h, world, rs, n, r.error)
  {
  }

  /** A refused log names its first faulty record and what is wrong with it. */
  lemma {:induction false} RefusalNamesFirst(h: WalHeader, world: WorldId, rs: seq<WalRecord>) returns (n: nat)
    requires VerifierOf(h).Ok? && CheckRecords(ChainKey(world), VerifierOf(h).value, rs).Err?
    ensures n < |rs| && Faulty(h, world, rs, n, CheckRecords(ChainKey(world), VerifierOf(h).value, rs).error)
    ensures forall l :: 0 <= l < n ==> Fine(h, world, rs, l)
    decreases |rs|
  {
    var init := rs[..|rs|-1];
    if CheckRecords(ChainKey(world), VerifierOf(h).value, init).Err? {
      n := RefusalNamesFirst(h, world, init);
      forall l | 0 <= l < n ensures Fine(h, world, rs, l) {
        FineBefore(h, world, rs, l);
      }
    } else {
      n := |init|;
      VerifierExactly(h);
      ChecksExactly(h, world, init);
      RunningHashIsTip(ChainKey(world), VerifierOf(h).value, init);
      RecordRefused(h, world, rs, n);
      forall l | 0 <= l < n ensures Fine(h, world, rs, l) {
        FineBefore(h, world, rs, l);
      }
    }
  }

  /** The header is at or above the anchor's floor: no floor, or the keys it asks for are there. */
  predicate AboveFloor(h: WalHeader, floor: Option<SignatureTier>) {
    match floor
    case None => true
    case Some(NoTier) => true
    case Some(Ed25519Tier) => h.verifyingKey.Some?
    case Some(HybridTier) => h.verifyingKey.Some? && h.verifyingKeyPqc.Some?
  }

  /** An anchored log is accepted if and only if its header reaches the floor, carries each pinned key and
      the pinned manifest, its chain verifies under the caller's world, and it ends in the pinned tip;
      a header below the floor is refused as a downgrade before anything else is looked at. */
  lemma AnchorAcceptsExactly(w: WalState, world: WorldId, a: TrustAnchor)
    ensures var (h, r) := (w.header, VerifyChainAnchored(w, world, a));
            var keysMatch := (a.ed25519Key.Some? ==> h.verifyingKey == a.ed25519Key) && (a.mldsaKey.Some? ==> h.verifyingKeyPqc == a.mldsaKey);
            var manifestMatches := a.manifest.Some? ==> h.manifest == a.manifest.value;
            var shaped := h.verifyingKey.Some? || h.verifyingKeyPqc.None?;
            && (r.Ok? <==> && shaped && AboveFloor(h, a.minTier) && keysMatch && manifestMatches && VerifyChain(w, world).Ok?
                           && (a.tip.Some? ==> Tip(w) == a.tip.value))
            && (r == Err(TierDowngrade) <==> shaped && !AboveFloor(h, a.minTier))
            && (r == Err(VerifyingKeyMismatch) <==> shaped && AboveFloor(h, a.minTier) && !keysMatch)
            && (r == Err(ManifestDigestMismatch) <==> shaped && AboveFloor(h, a.minTier) && keysMatch && !manifestMatches)
            && (r == Err(ChainTipMismatch) <==> && shaped && AboveFloor(h, a.minTier) && keysMatch && manifestMatches && VerifyChain(w, world).Ok?
                                                && a.tip.Some? && Tip(w) != a.tip.value)
  {
    ChainRefusals(w, world);
  }

  /** The chain itself never reports what only the anchor checks. */
  lemma ChainRefusals(w: WalState, world: WorldId)
    ensures var r := VerifyChain(w, world);
            r.Err? ==> r.error != TierDowngrade && r.error != VerifyingKeyMismatch && r.error != ManifestDigestMismatch && r.error != ChainTipMismatch
  {
    if VerifierOf(w.header).Ok? && CheckRecords(ChainKey(world), VerifierOf(w.header).value, w.records).Err? {
      var n := RefusalNamesFirst(w.header, world, w.records);
    }
  }
}
