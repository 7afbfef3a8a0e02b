/** Every change of the tenant tables: the daemon's transactions, in any order and with any arguments,
    and the rows the backend adds. */
module Operations {
  import opened Text
  import opened Messages
  import opened Tables
  import Chain
  import Claims

  datatype Op =
    | Book(msg: Message, now: int, fault: Fault)
    | Release(booking: Booking, fault: Fault)
    | Commit(booking: Booking, invoice: SignedInvoice, fault: Fault)
    | Record(invoice: SignedInvoice, outcome: Outcome, fault: Fault)
    | Claim(msg: Message, now: int, fault: Fault)
    | Unclaim(msg: Message, fault: Fault)
    | Complete(msg: Message, fault: Fault)
    | AddBill(billID: int, bill: BillRow)
    | AddBranch(branchID: int)

  const EMPTY_BRANCH := BranchRow(0, None, None, None, None, None)

  /** A bill the backend adds is not issued and has no invoice. */
  predicate Fresh(bill: BillRow) {
    bill.state < ISSUED && (bill.invoiceHash.None? || Blank(bill.invoiceHash.value))
  }

  function Apply(cfg: Config, db: Db, op: Op): Db {
    match op
    case Book(msg, now, fault) => Chain.Book(cfg, db, msg, now, fault).1
    case Release(b, fault) => Chain.Release(db, b, fault).1
    case Commit(b, invoice, fault) => Chain.Commit(db, b, invoice, fault).1
    case Record(invoice, outcome, fault) => Chain.Record(db, invoice, outcome, fault).1
    case Claim(msg, now, fault) => Claims.Claim(cfg, db, msg, now, fault).1
    case Unclaim(msg, fault) => Claims.ReleaseUpdate(cfg, db, msg, fault).1
    case Complete(msg, fault) => Claims.CompleteUpdate(db, msg, fault).1
    case AddBill(id, bill) => if id in db.bills || !Fresh(bill) then db else db.(bills := db.bills[id := bill])
    case AddBranch(id) => if id in db.branches then db else db.(branches := db.branches[id := EMPTY_BRANCH])
  }

  function ApplyAll(cfg: Config, db: Db, ops: seq<Op>): Db {
    if ops == [] then db else Apply(cfg, ApplyAll(cfg, db, ops[..|ops| - 1]), ops[|ops| - 1])
  }

  /** A tenant database before the daemon first runs: no invoice, no booking and no claim. */
  ghost predicate Initial(db: Db) {
    && (forall k | k in db.branches ::
          db.branches[k] == EMPTY_BRANCH || db.branches[k] == EMPTY_BRANCH.(previous := Some("")))
    && (forall k | k in db.bills :: Fresh(db.bills[k]))
    && db.submissions == map[]
    && db.log == []
    && db.claims == map[]
  }

  ghost predicate SameInvoice(a: Submission, b: Submission) {
    && a.branchID == b.branchID && a.icv == b.icv && a.pih == b.pih && a.uuid == b.uuid
    && a.hash == b.hash && a.kind == b.kind && a.signedXML == b.signedXML
  }

  /** What never changes back: the order in which tables can be observed. */
  ghost predicate Evolves(a: Db, b: Db) {
    && (forall k | k in a.branches :: k in b.branches && a.branches[k].lastICV <= b.branches[k].lastICV)
    && (forall k | k in a.bills :: k in b.bills && a.bills[k].branchID == b.bills[k].branchID)
    && (forall k | k in a.submissions :: k in b.submissions && SameInvoice(a.submissions[k], b.submissions[k]))
    && (forall k | k in a.submissions && k in a.bills :: b.bills[k].qr == a.bills[k].qr)
    && (forall k | k in a.submissions && a.submissions[k].outcomeState != PENDING ::
          b.submissions[k] == a.submissions[k])
    && a.log <= b.log
    && (forall k | k in a.claims :: k in b.claims && a.claims[k].fingerprint == b.claims[k].fingerprint)
    && (forall k | k in a.claims && a.claims[k].completed :: b.claims[k] == a.claims[k])
  }

  lemma EvolvesTransitively(a: Db, b: Db, c: Db)
    requires Evolves(a, b) && Evolves(b, c)
    ensures Evolves(a, c)
  {
  }
}
