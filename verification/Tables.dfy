/** The rows of one tenant database that the chain protocol reads and writes, and the values it passes around. */
module Tables {
  import opened Text
  import opened Messages

  const MAX_UINT64: int := 0xFFFF_FFFF_FFFF_FFFF
  const MAX_INT64: int := 0x7FFF_FFFF_FFFF_FFFF

  type uint64 = n: int | 0 <= n <= MAX_UINT64

  /** Addition of Go's uint64, which wraps. */
  function WrapAdd(a: uint64, b: uint64): uint64 {
    (a + b) % (MAX_UINT64 + 1)
  }

  const GENESIS_PIH: string :=
    "NWZlY2ViNjZmZmM4NmYzOGQ5NTI3ODZjNmQ2OTZjNzljMmRiYzIzOWRkNGU5MWI0NjcyOWQ3M2EyN2ZiNTdlOQ=="

  const ACCEPTED := "accepted"
  const WARNING := "accepted_with_warning"
  const REJECTED := "rejected"
  const AMBIGUOUS := "ambiguous"
  const TERMINAL := "terminal_failure"
  const PENDING := "pending"

  const STANDARD := "standard"
  const SIMPLIFIED := "simplified"

  const ISSUED := 3

  /** A recorded outcome state, so not pending and not empty. */
  predicate FinalState(state: string) {
    state == ACCEPTED || state == WARNING || state == REJECTED || state == AMBIGUOUS || state == TERMINAL
  }

  /** What errors.Is can find in an error. A joined error holds the kinds of all its parts. */
  datatype Error =
    | Technical
    | InvalidEnvelope
    | RejectedInput
    | ChainBusy
    | ChainConflict
    | ClaimInFlight
    | ClaimStale
    | ClaimNotFound
    | FingerprintConflict
    | InvoiceRejected
    | OutcomeAmbiguous

  type Errors = set<Error>

  datatype Reply<+T> = Ok(value: T) | Err(errors: Errors)

  /** What can happen to one transaction: it runs, it fails and nothing is applied, it is applied but the reply is lost,
      or the branch row is locked by another transaction (seen only by Book, which does not wait). */
  datatype Fault = Clean | Failed | ReplyLost | LockHeld

  /** Leases, and whether the driver counts changed rows instead of matched rows. */
  datatype Config = Config(chainLeaseSetting: int, claimLeaseSetting: int, countsChangedRows: bool)
  {
    /** A setting that is not positive means the default, in seconds. */
    function ChainLease(): (d: int)
      ensures d > 0 && d in {5 * 60, chainLeaseSetting}
      ensures d == 5 * 60 <==> chainLeaseSetting <= 0 || chainLeaseSetting == 5 * 60
    {
      if chainLeaseSetting <= 0 then 300 else chainLeaseSetting
    }

    function ClaimLease(): (d: int)
      ensures d > 0 && d in {30 * 60, claimLeaseSetting}
      ensures d == 30 * 60 <==> claimLeaseSetting <= 0 || claimLeaseSetting == 30 * 60
    {
      if claimLeaseSetting <= 0 then 1800 else claimLeaseSetting
    }
  }

  datatype Booking = Booking(
    branchID: int,
    requestKey: string,
    eventID: string,
    uuid: string,
    icv: uint64,
    pih: string)

  datatype Evidence = Unspecified | Provider | External | Local | Unknown(text: string)

  datatype SignedInvoice = SignedInvoice(
    sourceID: int,
    branchID: int,
    uuid: string,
    icv: uint64,
    pih: string,
    hash: string,
    kind: string,
    signedXML: string,
    qr: string,
    outcome: string,
    evidence: Evidence,
    evidenceID: string,
    providerCode: string,
    outcomeMessage: string)
  {
    predicate Valid() {
      && sourceID > 0
      && branchID > 0
      && IsUUID(uuid)
      && icv != 0
      && !Blank(pih)
      && !Blank(hash)
      && !Blank(signedXML)
      && (kind == STANDARD || kind == SIMPLIFIED)
      && (outcome == "" || FinalState(outcome))
    }
  }

  datatype Outcome = Outcome(state: string, providerCode: string, message: string, evidence: Evidence,
                             evidenceID: string)

  /** branch_zatca_config: the committed chain and the four reservation columns. */
  datatype BranchRow = BranchRow(
    lastICV: uint64,
    previous: Option<string>,
    ownerKey: Option<string>,
    ownerToken: Option<string>,
    reservedICV: Option<uint64>,
    leaseEnd: Option<int>)

  datatype BillRow = BillRow(
    branchID: int,
    state: int,
    invoiceUUID: Option<string>,
    invoiceHash: Option<string>,
    qr: Option<string>)

  /** zatca_submission, keyed by its bill: the backend keeps one row per bill. */
  datatype Submission = Submission(
    branchID: int,
    icv: uint64,
    pih: string,
    uuid: string,
    hash: string,
    kind: string,
    signedXML: string,
    status: int,
    outcomeState: string,
    providerCode: Option<string>,
    rejectionCode: Option<string>,
    rejectionMsg: Option<string>,
    warningMsg: Option<string>)

  datatype LogRow = LogRow(billID: int, state: string, providerCode: Option<string>, message: Option<string>)

  datatype ClaimRow = ClaimRow(
    eventID: string,
    egsSequenceID: string,
    fingerprint: string,
    completed: bool,
    leaseEnd: Option<int>)

  /** (pos_id, bill_request_id) */
  type ClaimKey = (string, string)

  datatype Db = Db(
    branches: map<int, BranchRow>,
    bills: map<int, BillRow>,
    submissions: map<int, Submission>,
    log: seq<LogRow>,
    claims: map<ClaimKey, ClaimRow>)

  function KeyOf(msg: Message): ClaimKey {
    (msg.posID, msg.billRequestID)
  }
}
