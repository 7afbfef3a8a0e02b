/** What every run of table operations keeps: the reservation shape, the invoice rows, the outcome log and the hash
    chain. */
module ChainSafety {
  import opened Text
  import opened Messages
  import opened Tables
  import opened Operations
  import Chain

  // ---------------------------------------------------------------- invariant of the tables

  /** A branch is unreserved, or reserved for exactly the next number. */
  ghost predicate ReservationShape(row: BranchRow) {
    if row.reservedICV.None? then row == Chain.Unreserved(row)
    else row.reservedICV.value == row.lastICV + 1 && row.ownerKey.Some? && row.ownerToken.Some? && row.leaseEnd.Some?
  }

  /** A row of zatca_submission agrees with its bill and branch, and its status is that of its outcome. */
  ghost predicate SubmissionShape(db: Db, k: int, s: Submission) {
    && s.branchID in db.branches
    && k in db.bills
    && db.bills[k].branchID == s.branchID
    && db.bills[k].invoiceUUID == Some(s.uuid)
    && db.bills[k].invoiceHash == Some(s.hash)
    && IsUUID(s.uuid) && s.icv != 0 && !Blank(s.pih) && !Blank(s.hash) && !Blank(s.signedXML)
    && (s.kind == STANDARD || s.kind == SIMPLIFIED) && k > 0 && s.branchID > 0
    && (if s.outcomeState == PENDING then s.status == 0
        else Chain.SubmissionStatus(s.outcomeState) == Some(s.status))
  }

  /** A bill is issued exactly when its invoice was accepted, and carries no hash before its invoice. */
  ghost predicate BillShape(db: Db, k: int, bill: BillRow) {
    && (bill.state == ISSUED <==> k in db.submissions && Chain.Issues(db.submissions[k].outcomeState))
    && (k !in db.submissions ==> bill.invoiceHash.None? || Blank(bill.invoiceHash.value))
  }

  /** How many log rows an invoice has. */
  function Answers(log: seq<LogRow>, billID: int): nat {
    if log == [] then 0
    else Answers(log[..|log| - 1], billID) + (if log[|log| - 1].billID == billID then 1 else 0)
  }

  predicate IsAnswered(db: Db, k: int) {
    k in db.submissions && db.submissions[k].outcomeState != PENDING
  }

  ghost predicate LogShape(db: Db) {
    && (forall k :: Answers(db.log, k) == (if IsAnswered(db, k) then 1 else 0))
    && (forall i | 0 <= i < |db.log| ::
        && db.log[i].billID in db.submissions
        && db.log[i].state == db.submissions[db.log[i].billID].outcomeState
        && db.log[i].providerCode == db.submissions[db.log[i].billID].providerCode)
  }

  ghost predicate Sound(db: Db) {
    && (forall k | k in db.branches :: ReservationShape(db.branches[k]))
    && (forall k | k in db.submissions :: SubmissionShape(db, k, db.submissions[k]))
    && (forall k | k in db.bills :: BillShape(db, k, db.bills[k]))
    && LogShape(db)
  }

  lemma InitialIsSound(db: Db)
    requires Initial(db)
    ensures Sound(db)
  {
    forall k ensures Answers(db.log, k) == 0 {}
  }

  lemma AnswersOfAppend(log: seq<LogRow>, row: LogRow, k: int)
    ensures Answers(log + [row], k) == Answers(log, k) + (if row.billID == k then 1 else 0)
  {
    assert (log + [row])[..|log|] == log;
  }

  /** A logged invoice is answered, so a first answer is about an invoice without a log row. */
  lemma RecordKeepsLog(db: Db, k: int, outcome: Outcome)
    requires LogShape(db) && Chain.Recordable(outcome)
    requires k in db.submissions && db.submissions[k].outcomeState == PENDING
    ensures LogShape(Chain.Recorded(db, k, outcome))
  {
    var db' := Chain.Recorded(db, k, outcome);
    var row := Chain.LogEntry(k, db.submissions[k], outcome);
    forall j
      ensures Answers(db'.log, j) == (if IsAnswered(db', j) then 1 else 0)
    {
      AnswersOfAppend(db.log, row, j);
      assert Answers(db.log, j) == (if IsAnswered(db, j) then 1 else 0);
    }
    forall i | 0 <= i < |db.log|
      ensures db'.log[i] == db.log[i] && db.log[i].billID != k
    {
      LoggedIsCounted(db.log, i);
      assert Answers(db.log, k) == (if IsAnswered(db, k) then 1 else 0);
    }
  }

  lemma RecordKeepsRows(db: Db, k: int, outcome: Outcome)
    requires Sound(db) && Chain.Recordable(outcome)
    requires k in db.submissions && db.submissions[k].outcomeState == PENDING
    ensures var db' := Chain.Recorded(db, k, outcome);
      && (forall j | j in db'.submissions :: SubmissionShape(db', j, db'.submissions[j]))
      && (forall j | j in db'.bills :: BillShape(db', j, db'.bills[j]))
  {
    var db' := Chain.Recorded(db, k, outcome);
    assert SubmissionShape(db, k, db.submissions[k]);
    forall j | j in db'.submissions
      ensures SubmissionShape(db', j, db'.submissions[j])
    {
      assert SubmissionShape(db, j, db.submissions[j]);
    }
    forall j | j in db'.bills
      ensures BillShape(db', j, db'.bills[j])
    {
      assert BillShape(db, j, db.bills[j]);
    }
  }

  lemma RecordKeepsSound(db: Db, k: int, outcome: Outcome)
    requires Sound(db) && Chain.Recordable(outcome)
    requires k in db.submissions && db.submissions[k].outcomeState == PENDING
    ensures Sound(Chain.Recorded(db, k, outcome))
  {
    RecordKeepsLog(db, k, outcome);
    RecordKeepsRows(db, k, outcome);
  }

  lemma {:induction false} LoggedIsCounted(log: seq<LogRow>, i: nat)
    requires i < |log|
    ensures Answers(log, log[i].billID) >= 1
  {
    if i < |log| - 1 {
      LoggedIsCounted(log[..|log| - 1], i);
    }
  }

  lemma CommitKeepsSound(db: Db, b: Booking, invoice: SignedInvoice)
    requires Sound(db) && Chain.CommitRefusal(db, b, invoice) == {}
    ensures Sound(Chain.Committed(db, b, invoice))
  {
    CommitKeepsBranches(db, b, invoice);
    CommitKeepsSubmissions(db, b, invoice);
    CommitKeepsBills(db, b, invoice);
    CommitKeepsLog(db, b, invoice);
    hide ReservationShape, SubmissionShape, BillShape, LogShape, Chain.Committed, SignedInvoice.Valid;
  }

  lemma CommitKeepsBranches(db: Db, b: Booking, invoice: SignedInvoice)
    requires Sound(db) && Chain.CommitRefusal(db, b, invoice) == {}
    ensures var db' := Chain.Committed(db, b, invoice);
      forall j | j in db'.branches :: ReservationShape(db'.branches[j])
  {
    hide SubmissionShape, BillShape, LogShape;
    var db' := Chain.Committed(db, b, invoice);
    forall j | j in db'.branches
      ensures ReservationShape(db'.branches[j])
    {
      assert j in db.branches && ReservationShape(db.branches[j]);
    }
  }

  lemma CommitKeepsSubmissions(db: Db, b: Booking, invoice: SignedInvoice)
    requires Sound(db) && Chain.CommitRefusal(db, b, invoice) == {}
    ensures var db' := Chain.Committed(db, b, invoice);
      forall j | j in db'.submissions :: SubmissionShape(db', j, db'.submissions[j])
  {
    hide BillShape, LogShape;
    var db' := Chain.Committed(db, b, invoice);
    assert ReservationShape(db.branches[b.branchID]);
    forall j | j in db'.submissions
      ensures SubmissionShape(db', j, db'.submissions[j])
    {
      assert j != invoice.sourceID ==> SubmissionShape(db, j, db.submissions[j]);
    }
  }

  lemma CommitKeepsBills(db: Db, b: Booking, invoice: SignedInvoice)
    requires Sound(db) && Chain.CommitRefusal(db, b, invoice) == {}
    ensures var db' := Chain.Committed(db, b, invoice);
      forall j | j in db'.bills :: BillShape(db', j, db'.bills[j])
  {
    hide ReservationShape, LogShape;
    var db' := Chain.Committed(db, b, invoice);
    forall j | j in db'.bills
      ensures BillShape(db', j, db'.bills[j])
    {
      assert BillShape(db, j, db.bills[j]);
    }
  }

  lemma CommitKeepsLog(db: Db, b: Booking, invoice: SignedInvoice)
    requires Sound(db) && Chain.CommitRefusal(db, b, invoice) == {}
    ensures LogShape(Chain.Committed(db, b, invoice))
  {
    hide ReservationShape, SubmissionShape, BillShape;
    forall i | 0 <= i < |db.log|
      ensures db.log[i].billID != invoice.sourceID
    {
      assert db.log[i].billID in db.submissions;
    }
  }

  lemma BranchUpdateKeepsSound(db: Db, id: int, row: BranchRow)
    requires Sound(db) && ReservationShape(row)
    ensures Sound(db.(branches := db.branches[id := row]))
  {
    var db' := db.(branches := db.branches[id := row]);
    forall j | j in db'.submissions
      ensures SubmissionShape(db', j, db'.submissions[j])
    {
      assert SubmissionShape(db, j, db.submissions[j]);
    }
    forall j | j in db'.bills
      ensures BillShape(db', j, db'.bills[j])
    {
      assert BillShape(db, j, db.bills[j]);
    }
  }

  lemma ClaimUpdateKeepsSound(db: Db, claims: map<ClaimKey, ClaimRow>)
    requires Sound(db)
    ensures Sound(db.(claims := claims))
  {
    var db' := db.(claims := claims);
    forall j | j in db'.submissions
      ensures SubmissionShape(db', j, db'.submissions[j])
    {
      assert SubmissionShape(db, j, db.submissions[j]);
    }
    forall j | j in db'.bills
      ensures BillShape(db', j, db'.bills[j])
    {
      assert BillShape(db, j, db.bills[j]);
    }
  }

  lemma AddBillKeepsSound(db: Db, id: int, bill: BillRow)
    requires Sound(db) && id !in db.bills && Fresh(bill)
    ensures Sound(db.(bills := db.bills[id := bill]))
  {
    var db' := db.(bills := db.bills[id := bill]);
    forall j | j in db'.submissions
      ensures SubmissionShape(db', j, db'.submissions[j])
    {
      assert SubmissionShape(db, j, db.submissions[j]);
    }
    forall j | j in db'.bills
      ensures BillShape(db', j, db'.bills[j])
    {
      assert j in db.submissions ==> SubmissionShape(db, j, db.submissions[j]);
      assert j != id ==> BillShape(db, j, db.bills[j]);
    }
  }

  /** Book and Release change one branch row, keep its shape, and leave its chain as it is. */
  lemma ReservationMoves(cfg: Config, db: Db, op: Op, id: int)
    requires Sound(db) && Apply(cfg, db, op) != db
    requires (op.Book? && id == op.msg.branchID) || (op.Release? && id == op.booking.branchID)
    ensures var db' := Apply(cfg, db, op);
      && id in db.branches && id in db'.branches && db' == db.(branches := db.branches[id := db'.branches[id]])
      && ReservationShape(db'.branches[id])
      && db'.branches[id].lastICV == db.branches[id].lastICV && db'.branches[id].previous == db.branches[id].previous
  {
    hide Message.Valid, SignedInvoice.Valid, LogShape, BillShape, SubmissionShape;
    assert id in db.branches && ReservationShape(db.branches[id]);
  }

  /** Every operation keeps the tables sound. */
  lemma ApplyKeepsSound(cfg: Config, db: Db, op: Op)
    requires Sound(db)
    ensures Sound(Apply(cfg, db, op))
  {
    hide Message.Valid, SignedInvoice.Valid, Sound, Fresh, Chain.Recordable, Chain.Book, Chain.Release;
    var db' := Apply(cfg, db, op);
    if db' == db { return; }
    match op
    case Book(msg, _, _) =>
      ReservationMoves(cfg, db, op, msg.branchID);
      BranchUpdateKeepsSound(db, msg.branchID, db'.branches[msg.branchID]);
    case Release(b, _) =>
      ReservationMoves(cfg, db, op, b.branchID);
      BranchUpdateKeepsSound(db, b.branchID, db'.branches[b.branchID]);
    case Commit(b, invoice, fault) => CommitKeepsSound(db, b, invoice);
    case Record(invoice, outcome, fault) => RecordKeepsSound(db, invoice.sourceID, outcome);
    case Claim(msg, now, fault) => ClaimUpdateKeepsSound(db, db'.claims);
    case Unclaim(msg, fault) => ClaimUpdateKeepsSound(db, db'.claims);
    case Complete(msg, fault) => ClaimUpdateKeepsSound(db, db'.claims);
    case AddBill(id, bill) => AddBillKeepsSound(db, id, bill);
    case AddBranch(id) => BranchUpdateKeepsSound(db, id, EMPTY_BRANCH);
  }

  lemma CommitEvolves(db: Db, b: Booking, invoice: SignedInvoice)
    requires Sound(db) && Chain.CommitRefusal(db, b, invoice) == {}
    ensures Evolves(db, Chain.Committed(db, b, invoice))
    ensures invoice.icv == db.branches[b.branchID].lastICV + 1
  {
    assert ReservationShape(db.branches[b.branchID]);
  }

  lemma RecordEvolves(db: Db, k: int, outcome: Outcome)
    requires Chain.Recordable(outcome)
    requires k in db.submissions && db.submissions[k].outcomeState == PENDING
    ensures Evolves(db, Chain.Recorded(db, k, outcome))
  {
  }

  lemma EvolvesItself(db: Db)
    ensures Evolves(db, db)
  {
  }

  lemma BranchUpdateEvolves(db: Db, id: int, row: BranchRow)
    requires id in db.branches ==> db.branches[id].lastICV <= row.lastICV
    ensures Evolves(db, db.(branches := db.branches[id := row]))
  {
  }

  lemma ClaimUpdateEvolves(db: Db, key: ClaimKey, row: ClaimRow)
    requires key in db.claims ==> db.claims[key].fingerprint == row.fingerprint && !db.claims[key].completed
    ensures Evolves(db, db.(claims := db.claims[key := row]))
  {
  }

  lemma AddBillEvolves(db: Db, id: int, bill: BillRow)
    requires id !in db.bills
    ensures Evolves(db, db.(bills := db.bills[id := bill]))
  {
  }

  /** Every operation only moves the tables forward. */
  lemma ApplyEvolves(cfg: Config, db: Db, op: Op)
    requires Sound(db)
    ensures Evolves(db, Apply(cfg, db, op))
  {
    hide Message.Valid, SignedInvoice.Valid, Sound, Evolves, Fresh, Chain.Recordable, Chain.Book, Chain.Release;
    var db' := Apply(cfg, db, op);
    if db' == db {
      EvolvesItself(db);
      return;
    }
    match op
    case Book(msg, _, _) =>
      ReservationMoves(cfg, db, op, msg.branchID);
      BranchUpdateEvolves(db, msg.branchID, db'.branches[msg.branchID]);
    case Release(b, _) =>
      ReservationMoves(cfg, db, op, b.branchID);
      BranchUpdateEvolves(db, b.branchID, db'.branches[b.branchID]);
    case Commit(b, invoice, fault) => CommitEvolves(db, b, invoice);
    case Record(invoice, outcome, fault) => RecordEvolves(db, invoice.sourceID, outcome);
    case Claim(msg, _, _) => ClaimUpdateEvolves(db, KeyOf(msg), db'.claims[KeyOf(msg)]);
    case Unclaim(msg, _) => ClaimUpdateEvolves(db, KeyOf(msg), db'.claims[KeyOf(msg)]);
    case Complete(msg, _) => ClaimUpdateEvolves(db, KeyOf(msg), db'.claims[KeyOf(msg)]);
    case AddBill(id, bill) => AddBillEvolves(db, id, bill);
    case AddBranch(id) => BranchUpdateEvolves(db, id, EMPTY_BRANCH);
  }

  // ---------------------------------------------------------------- what an operation leaves alone

  /** Only a commit that goes through adds an invoice. */
  lemma OnlyCommitAddsInvoices(cfg: Config, db: Db, op: Op)
    ensures var db' := Apply(cfg, db, op);
      db'.submissions.Keys
      == db.submissions.Keys + (if op.Commit? && db' != db then {op.invoice.sourceID} else {})
  {
    hide Message.Valid, SignedInvoice.Valid, Fresh, Chain.Answered, Chain.LogEntry, ValidEvidenceText;
  }

  lemma RowsLeaveClaims(cfg: Config, db: Db, op: Op)
    requires op.Record? || op.AddBill? || op.AddBranch?
    ensures Apply(cfg, db, op).claims == db.claims
  {
    hide Fresh, Chain.Answered, Chain.LogEntry, Chain.Recordable;
  }

  /** A record that is answered without an error leaves the invoice answered. */
  lemma RecordAnswers(db: Db, invoice: SignedInvoice, outcome: Outcome, fault: Fault)
    ensures var (reply, db') := Chain.Record(db, invoice, outcome, fault);
      if reply.Err? then reply.errors == {Technical} else IsAnswered(db', invoice.sourceID)
  {
    hide Chain.LogEntry, ValidEvidenceText;
  }
}
