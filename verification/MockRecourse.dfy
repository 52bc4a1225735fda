/** What the two mock connectors have in common: the recourse they reserve, the faults they can
    be told to inject, and the rule that binds an idempotency key to one action
    (src/mock-refund-connector.js, src/mock-inventory-connector.js). */
module MockRecourse {
  import opened RailStates
  import opened Artifacts

  datatype ExecutionFault = NoExecutionFault | Duplicate | LostBeforeCommit | LostAfterCommit | ExecutionRemedyFailure
  datatype RemedyFault = NoRemedyFault | RemedyFailure | RemedyLostBeforeCommit | RemedyLostAfterCommit
  datatype EvidenceFault = NoEvidenceFault | StaleEvidence | FalseEvidence

  const STALE_BY := 3600000

  // ----- Reserved recourse -----

  datatype Entry = Entry(commitment: Commitment, status: RecourseStatus)
  type Book = map<string, Entry>

  function Prefix24(d: Digest): string { if |d| <= 24 then d else d[..24] }

  function TokenOf(c: Crypto, actionDigest: Digest, r: RecourseRequest): string {
    "rsv_" + Prefix24(c.digest(TokenA(actionDigest, r.capability, r.expiresAt, r.scope)))
  }

  function Asked(p: Parameters): Option<int> {
    match p
    case RefundParameters(amount, _) => Some(amount)
    case InventoryParameters(_, quantity) => Some(quantity)
    case EmailParameters(_, _) => None
  }

  predicate Safe(n: int) { -MAX_SAFE_INTEGER <= n <= MAX_SAFE_INTEGER }

  /** A connector that offers one capability for one kind of action. */
  datatype Offer = Offer(connector: string, capability: string, actionType: ActionType)

  predicate CanReserve(offer: Offer, p: Proposal, r: RecourseRequest) {
    && r.capability == offer.capability
    && r.connector == offer.connector
    && ActionTypeOf(p.parameters) == offer.actionType
    && ScopeCovers(p.parameters, r.scope)
    && Safe(ScopeLimit(r.scope))
    && Asked(p.parameters).Some? && Safe(Asked(p.parameters).value)
  }

  function MakeCommitment(c: Crypto, signer: Signer, offer: Offer, r: RecourseRequest, now: Time): Commitment {
    var body := CommitmentBody(TokenOf(c, r.actionDigest, r), r.actionDigest, offer.connector, r.capability, r.kind,
      r.expiresAt, r.maxAttempts, r.scope, now, true);
    Commitment(body, MakeSignature(c, CommitmentB(body), signer))
  }

  function StatusAt(book: Book, token: string, now: Time): RecourseStatus {
    if token !in book then StatusUnknown
    else if book[token].status == StatusActive && book[token].commitment.body.expiresAt <= now then StatusExpired
    else book[token].status
  }

  /** Reading a status records an expiry that has come. */
  function AfterRead(book: Book, token: string, now: Time): Book {
    if token in book && StatusAt(book, token, now) != book[token].status
    then book[token := book[token].(status := StatusExpired)] else book
  }

  function AfterRelease(book: Book, token: string): Book {
    if token in book && book[token].status == StatusActive then book[token := book[token].(status := StatusReleased)]
      else book
  }

  /** All that reads and releases can do: active entries may expire or be released. */
  ghost predicate OnlyEnds(before: Book, after: Book) {
    && before.Keys == after.Keys
    && forall t <- before ::
         && after[t].commitment == before[t].commitment
         && (after[t].status == before[t].status ||
             (before[t].status == StatusActive && after[t].status in {StatusExpired, StatusReleased}))
  }

  // ----- Idempotency -----

  /** A key may be used again by the action it is bound to, and by no other. */
  predicate Foreign(bindings: map<string, Digest>, key: string, actionDigest: Digest) {
    key in bindings && bindings[key] != actionDigest
  }

  function Decimal(n: nat): (s: string)
    ensures |s| > 0
  {
    var digit := ['0' + (n % 10) as char];
    if n < 10 then digit else Decimal(n / 10) + digit
  }
}
