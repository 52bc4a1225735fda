/** Recovery drills: running one, deriving what it qualifies, and verifying the signed bundle
    by recomputation (src/recovery-preflight.js). */
module Recovery {
  import opened RailStates
  import opened JsonValues
  import opened Artifacts

  datatype DrillError =
    | ContractInvalid | AdapterMismatch | ContractExpired | DrillInvalid
    | DrillBundleInvalid | DrillKeyUntrusted | DrillSignatureInvalid | AttestationExpired

  /** The ranges validateRecoveryContract keeps that the datatypes do not. */
  predicate ContractValid(k: Contract) {
    && k.scope.mode != Observed
    && k.expiresAt > k.issuedAt
    && 1 <= k.maxAgeSeconds <= MAX_DURATION_SECONDS
  }

  predicate InContractWindow(k: Contract, at: Time) { k.issuedAt <= at < k.expiresAt }

  function CoverageOf(k: Contract): Coverage {
    Coverage(k.actionDigest, k.actionClass, k.recourse, k.scope,
             k.fixture.adapter, k.fixture.adapterVersion, k.fixture.adapterDigest, k.fixture.checkpointDigest)
  }

  // ----- Traces -----

  /** What an adapter returns: it may leave its identity out and may use null for a state. */
  datatype RawTrace = RawTrace(
    adapterId: Option<string>,
    adapterVersion: Option<string>,
    adapterDigest: Option<Digest>,
    localTestable: bool,
    checkpointReferenceDigest: Option<Digest>,
    baselineState: Option<Facts>,
    checkpointState: Option<Facts>,
    damagedState: Option<Facts>,
    recoveredState: Option<Facts>,
    faultObserved: bool,
    recoveryAttempted: bool,
    oracleSatisfied: bool,
    notes: seq<string>)

  datatype Adapter = Adapter(id: string, version: string, digest: Digest)

  function NullToNone(s: Option<Facts>): Option<Facts> {
    if s == Some(Null) then None else s
  }

  function NormalizeTrace(raw: RawTrace, adapter: Adapter): Option<Trace> {
    if (raw.adapterId.Some? && raw.adapterId.value != adapter.id)
       || (raw.adapterVersion.Some? && raw.adapterVersion.value != adapter.version)
       || (raw.adapterDigest.Some? && raw.adapterDigest.value != adapter.digest) then None
    else Some(Trace(
      adapter.id, adapter.version, adapter.digest, raw.localTestable, raw.checkpointReferenceDigest,
      NullToNone(raw.baselineState), NullToNone(raw.checkpointState),
      NullToNone(raw.damagedState), NullToNone(raw.recoveredState),
      raw.faultObserved, raw.recoveryAttempted, raw.oracleSatisfied, raw.notes))
  }

  /** A recorded trace, read again as input. */
  function AsRaw(t: Trace): RawTrace {
    RawTrace(Some(t.adapterId), Some(t.adapterVersion), Some(t.adapterDigest), t.localTestable,
             t.checkpointReferenceDigest, t.baselineState, t.checkpointState, t.damagedState,
             t.recoveredState, t.faultObserved, t.recoveryAttempted, t.oracleSatisfied, t.notes)
  }

  function AdapterOf(t: Trace): Adapter { Adapter(t.adapterId, t.adapterVersion, t.adapterDigest) }

  lemma NormalizationIsIdempotent(raw: RawTrace, adapter: Adapter)
    requires NormalizeTrace(raw, adapter).Some?
    ensures var t := NormalizeTrace(raw, adapter).value;
            NormalizeTrace(AsRaw(t), AdapterOf(t)) == Some(t) && AdapterOf(t) == adapter
  {
  }

  // ----- Qualification -----

  function DigestFacts(c: Crypto, f: Facts): Digest { c.digest(FactsA(f)) }

  predicate CheckpointIntact(c: Crypto, k: Contract, t: Trace) {
    && t.baselineState.Some?
    && t.checkpointState.Some?
    && t.checkpointReferenceDigest == Some(k.fixture.checkpointDigest)
    && DigestFacts(c, t.baselineState.value) == k.fixture.checkpointDigest
    && DigestFacts(c, t.checkpointState.value) == k.fixture.checkpointDigest
  }

  predicate FaultSeen(c: Crypto, t: Trace) {
    && t.faultObserved
    && t.baselineState.Some?
    && t.damagedState.Some?
    && DigestFacts(c, t.baselineState.value) != DigestFacts(c, t.damagedState.value)
  }

  function DeriveQualification(c: Crypto, k: Contract, t: Trace): Qualification {
    if !t.localTestable || k.fixture.fidelity != Synthetic then NotTestableLocal
    else if !CheckpointIntact(c, k, t) || !FaultSeen(c, t) || !t.recoveryAttempted then NotQualified
    else if k.recoveryClass == Exact && k.oracle.kind == "exact-state-digest" then
      if t.oracleSatisfied && t.recoveredState.Some?
         && DigestFacts(c, t.baselineState.value) == DigestFacts(c, t.recoveredState.value)
      then QualifiedExact else NotQualified
    else if k.recoveryClass == Compensation && t.oracleSatisfied then ReviewCompensated
    else NotTestableLocal
  }

  ghost predicate FactsCollide(c: Crypto, x: Facts, y: Facts) { x != y && DigestFacts(c, x) == DigestFacts(c, y) }

  /** Damage and restoration: checkpoint, baseline and recovered states are one state and the
      damaged state is another, unless two states collide under the digest. */
  ghost predicate Restored(c: Crypto, t: Trace) {
    && t.baselineState.Some? && t.checkpointState.Some? && t.damagedState.Some? && t.recoveredState.Some?
    && t.damagedState != t.baselineState
    && (t.recoveredState == t.baselineState || FactsCollide(c, t.recoveredState.value, t.baselineState.value))
    && (t.checkpointState == t.baselineState || FactsCollide(c, t.checkpointState.value, t.baselineState.value))
  }

  /** QUALIFIED_EXACT is restoration. It cannot be claimed for anything but a synthetic fixture
      and an exact contract. */
  lemma QualifiedExactMeansRestored(c: Crypto, k: Contract, t: Trace)
    requires DeriveQualification(c, k, t) == QualifiedExact
    ensures k.fixture.fidelity == Synthetic && k.recoveryClass == Exact && Restored(c, t)
  {
  }

  // ----- Attestations -----

  function ExpectedExpiry(k: Contract, drilledAt: Time): Time {
    var ageExpiry := drilledAt + k.maxAgeSeconds * 1000;
    if ageExpiry <= k.expiresAt then ageExpiry else k.expiresAt
  }

  function DigestState(c: Crypto, s: Option<Facts>): Option<Digest> {
    match s case None => None case Some(f) => Some(DigestFacts(c, f))
  }

  function BuildCore(c: Crypto, k: Contract, t: Trace, q: Qualification, drilledAt: Time): AttestationCore {
    AttestationCore(
      c.digest(ContractA(k)), c.digest(CoverageA(CoverageOf(k))), k.fixture.adapterDigest, c.digest(TraceA(t)),
      c.digest(FixtureA(k.fixture)), k.fixture.checkpointDigest, c.digest(OperationA(k.fault)),
      DigestState(c, t.damagedState), c.digest(OperationA(k.procedure)), c.digest(OperationA(k.oracle)),
      DigestState(c, t.recoveredState), k.recoveryClass, k.fixture.fidelity, q, drilledAt, ExpectedExpiry(k, drilledAt))
  }

  function AttestationId(c: Crypto, core: AttestationCore): string { "rda_" + Prefix20(c.digest(CoreA(core))) }

  /** What runRecoveryPreflight is given about an adapter: its declared digest and, for a
      registered adapter, the digest measured from its callable. */
  datatype AdapterClaim = AdapterClaim(id: string, version: string, declared: Digest, measured: Option<Digest>)

  const NotExecuted: RawTrace :=
    RawTrace(None, None, None, false, None, None, None, None, None, false, false, false,
      ["NON_SYNTHETIC_FIXTURE_NOT_EXECUTED"])

  predicate AdapterMatches(k: Contract, a: AdapterClaim) {
    && a.id == k.fixture.adapter
    && a.version == k.fixture.adapterVersion
    && a.declared == k.fixture.adapterDigest
    && (k.fixture.fidelity == Synthetic ==> a.measured == Some(k.fixture.adapterDigest))
  }

  /** runRecoveryPreflight; `run` is what the adapter answers when it is called. A fixture
      that is not synthetic never reaches the adapter. */
  function RunPreflight(c: Crypto, k: Contract, a: AdapterClaim, run: RawTrace, signer: Signer,
      now: Time): Result<DrillBundle, DrillError> {
    if !ContractValid(k) then Err(ContractInvalid)
    else if !AdapterMatches(k, a) then Err(AdapterMismatch)
    else if !InContractWindow(k, now) then Err(ContractExpired)
    else
      var raw := if k.fixture.fidelity == Synthetic then run else NotExecuted;
      match NormalizeTrace(raw, Adapter(a.id, a.version, a.declared))
      case None => Err(DrillInvalid)
      case Some(t) =>
        var core := BuildCore(c, k, t, DeriveQualification(c, k, t), now);
        var body := AttestationBody(core, AttestationId(c, core));
        Ok(DrillBundle(k, t, Signed(body, MakeSignature(c, AttestationB(body), signer))))
  }

  datatype DrillVerification = DrillVerification(
    qualification: Qualification,
    contractDigest: Digest,
    coverageDigest: Digest,
    attestationDigest: Digest,
    expiresAt: Time)

  /** verifyRecoveryPreflight; `now` is given exactly when currency is required. */
  function VerifyPreflight(c: Crypto, b: DrillBundle, keys: map<KeyId, PublicKey>,
      now: Option<Time>): Result<DrillVerification, DrillError> {
    var body := b.attestation.body;
    if !ContractValid(b.contract) then Err(ContractInvalid)
    else match CheckSignature(c, AttestationB(body), b.attestation.sig, keys)
      case UntrustedKey => Err(DrillKeyUntrusted)
      case SignatureInvalid => Err(DrillSignatureInvalid)
      case SignatureGood =>
        match NormalizeTrace(AsRaw(b.trace), AdapterOf(b.trace))
        case None => Err(DrillBundleInvalid)
        case Some(t) =>
          if AdapterOf(b.trace) != Adapter(b.contract.fixture.adapter, b.contract.fixture.adapterVersion,
            b.contract.fixture.adapterDigest)
             || !InContractWindow(b.contract, body.core.drilledAt)
             || body.core != BuildCore(c, b.contract, t, DeriveQualification(c, b.contract, t), body.core.drilledAt)
             || body.attestationId != AttestationId(c, body.core) then Err(DrillBundleInvalid)
          else if now.Some? && !(body.core.drilledAt <= now.value < body.core.expiresAt) then Err(AttestationExpired)
          else Ok(DrillVerification(
            body.core.qualification, body.core.contractDigest, body.core.coverageDigest,
            DigestAttestation(c, b.attestation), body.core.expiresAt))
  }

  /** Every emitted bundle verifies under its signer, and it is current on exactly the
      non-empty interval that starts when it was drilled and ends at the derived expiry. */
  lemma DrillRoundTrip(
      c: Crypto, k: Contract, a: AdapterClaim, run: RawTrace, signer: Signer, drilledAt: Time,
      keys: map<KeyId, PublicKey>, now: Time)
    requires SoundSignatures(c)
    requires signer.kid in keys && keys[signer.kid] == signer.key
    requires RunPreflight(c, k, a, run, signer, drilledAt).Ok?
    ensures var b := RunPreflight(c, k, a, run, signer, drilledAt).value;
            && VerifyPreflight(c, b, keys, None).Ok?
            && VerifyPreflight(c, b, keys, None).value.qualification == DeriveQualification(c, k, b.trace)
            && (VerifyPreflight(c, b, keys, Some(now)).Ok? <==> drilledAt <= now < ExpectedExpiry(k, drilledAt))
            && drilledAt < ExpectedExpiry(k, drilledAt) <= k.expiresAt
  {
    var b := RunPreflight(c, k, a, run, signer, drilledAt).value;
    var raw := if k.fixture.fidelity == Synthetic then run else NotExecuted;
    NormalizationIsIdempotent(raw, Adapter(a.id, a.version, a.declared));
    OwnSignatureChecks(c, AttestationB(b.attestation.body), signer, keys);
  }

  /** A verified bundle carries the qualification its own trace derives, whoever wrote it. */
  lemma VerifiedQualificationIsDerived(c: Crypto, b: DrillBundle, keys: map<KeyId, PublicKey>, now: Option<Time>)
    requires VerifyPreflight(c, b, keys, now).Ok?
    ensures var v := VerifyPreflight(c, b, keys, now).value;
            && (exists t: Trace :: NormalizeTrace(AsRaw(b.trace), AdapterOf(b.trace)) == Some(t)
                  && v.qualification == DeriveQualification(c, b.contract, t))
            && v.expiresAt == ExpectedExpiry(b.contract, b.attestation.body.core.drilledAt)
            && (now.Some? ==> b.attestation.body.core.drilledAt <= now.value < v.expiresAt)
            && v == VerifyPreflight(c, b, keys, None).value
  {
    var t := NormalizeTrace(AsRaw(b.trace), AdapterOf(b.trace)).value;
    assert VerifyPreflight(c, b, keys, now).value.qualification == DeriveQualification(c, b.contract, t);
  }

  /** A bundle that verifies as exact, current now, shows a restoration of a synthetic fixture,
      whoever wrote it. */
  ghost predicate ShowsRestoration(c: Crypto, b: DrillBundle, now: Time) {
    && b.contract.fixture.fidelity == Synthetic && b.contract.recoveryClass == Exact
    && b.attestation.body.core.drilledAt <= now < ExpectedExpiry(b.contract, b.attestation.body.core.drilledAt)
    && exists t: Trace :: NormalizeTrace(AsRaw(b.trace), AdapterOf(b.trace)) == Some(t) && Restored(c, t)
  }

  lemma ExactBundleShowsRestoration(c: Crypto, b: DrillBundle, keys: map<KeyId, PublicKey>, now: Time)
    requires VerifyPreflight(c, b, keys, Some(now)).Ok?
    requires VerifyPreflight(c, b, keys, Some(now)).value.qualification == QualifiedExact
    ensures ShowsRestoration(c, b, now)
  {
    hide VerifyPreflight, DeriveQualification, NormalizeTrace, ExpectedExpiry;
    VerifiedQualificationIsDerived(c, b, keys, Some(now));
    var t: Trace :| NormalizeTrace(AsRaw(b.trace), AdapterOf(b.trace)) == Some(t)
      && DeriveQualification(c, b.contract, t) == QualifiedExact;
    QualifiedExactMeansRestored(c, b.contract, t);
  }
}
