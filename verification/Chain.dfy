/** The transactions of queue/chain.go as functions on the tables. Each returns the reply and the new tables. */
module Chain {
  import opened Text
  import opened Messages
  import opened Tables
  import opened Evidences

  /** The hash the next invoice chains from. */
  function EffectivePIH(row: BranchRow): string {
    if row.previous.Some? && row.previous.value != "" then row.previous.value else GENESIS_PIH
  }

  predicate OwnedBy(row: BranchRow, key: string) {
    row.ownerKey == Some(key)
  }

  predicate LeaseLive(row: BranchRow, now: int) {
    row.leaseEnd.Some? && row.leaseEnd.value > now
  }

  /** The reserved number is scanned into a signed 64-bit value, which fails above its range. */
  predicate Loads(row: BranchRow) {
    row.reservedICV.Some? ==> row.reservedICV.value <= MAX_INT64
  }

  predicate Holds(row: BranchRow, b: Booking) {
    && OwnedBy(row, b.requestKey)
    && row.ownerToken == Some(b.eventID)
    && row.reservedICV == Some(b.icv)
    && WrapAdd(row.lastICV, 1) == b.icv
    && EffectivePIH(row) == b.pih
  }

  function Book(cfg: Config, db: Db, msg: Message, now: int, fault: Fault): (Reply<Booking>, Db) {
    if fault.LockHeld? then (Err({ChainBusy}), db)
    else if fault.Failed? then (Err({Technical}), db)
    else if msg.branchID !in db.branches then (Err({RejectedInput}), db)
    else
      var row := db.branches[msg.branchID];
      if !Loads(row) then (Err({Technical}), db)
      else if row.lastICV == MAX_UINT64 then (Err({ChainConflict}), db)
      else
        var booking := Booking(msg.branchID, msg.RequestKey(), msg.eventID, msg.invoiceUUID,
                               row.lastICV + 1, EffectivePIH(row));
        var own := OwnedBy(row, booking.requestKey);
        if LeaseLive(row, now) && !(own && row.ownerToken == Some(booking.eventID)) then (Err({ChainBusy}), db)
        else if own && row.reservedICV.Some? && row.reservedICV.value != booking.icv then (Err({ChainConflict}), db)
        else
          var reserved := row.(ownerKey := Some(booking.requestKey), ownerToken := Some(booking.eventID),
                               reservedICV := Some(booking.icv), leaseEnd := Some(now + cfg.ChainLease()));
          (if fault.ReplyLost? then Err({Technical}) else Ok(booking),
           db.(branches := db.branches[msg.branchID := reserved]))
  }

  function Unreserved(row: BranchRow): BranchRow {
    row.(ownerKey := None, ownerToken := None, reservedICV := None, leaseEnd := None)
  }

  function Release(db: Db, b: Booking, fault: Fault): (Reply<()>, Db) {
    if fault.Failed? then (Err({Technical}), db)
    else
      var db' :=
        if b.branchID in db.branches && OwnedBy(db.branches[b.branchID], b.requestKey)
           && db.branches[b.branchID].ownerToken == Some(b.eventID)
        then db.(branches := db.branches[b.branchID := Unreserved(db.branches[b.branchID])])
        else db;
      (if fault.ReplyLost? then Err({Technical}) else Ok(()), db')
  }

  predicate Fits(invoice: SignedInvoice, b: Booking) {
    invoice.branchID == b.branchID && invoice.icv == b.icv && invoice.uuid == b.uuid && invoice.pih == b.pih
  }

  /** A nullable column that is unset, blank, or already carries the value. */
  predicate FreeFor(column: Option<string>, value: string) {
    column.None? || Blank(column.value) || column.value == value
  }

  function NewSubmission(i: SignedInvoice): Submission {
    Submission(i.branchID, i.icv, i.pih, i.uuid, i.hash, i.kind, i.signedXML, 0, PENDING, None, None, None, None)
  }

  /** Why a commit is refused, or nothing when it goes through. */
  function CommitRefusal(db: Db, b: Booking, invoice: SignedInvoice): Errors {
    if !Fits(invoice, b) || !invoice.Valid() then {ChainConflict}
    else if b.branchID !in db.branches || !Loads(db.branches[b.branchID]) then {Technical}
    else if !Holds(db.branches[b.branchID], b) then {ChainConflict}
    else if invoice.sourceID !in db.bills then {ChainConflict}
    else
      var bill := db.bills[invoice.sourceID];
      if bill.branchID != b.branchID || !FreeFor(bill.invoiceUUID, invoice.uuid)
         || !FreeFor(bill.invoiceHash, invoice.hash) then {ChainConflict}
      else if invoice.sourceID in db.submissions then {Technical}
      else {}
  }

  /** The three writes of a commit that goes through. */
  function Committed(db: Db, b: Booking, invoice: SignedInvoice): Db
    requires b.branchID in db.branches && invoice.sourceID in db.bills
  {
    var row, bill := db.branches[b.branchID], db.bills[invoice.sourceID];
    db.(submissions := db.submissions[invoice.sourceID := NewSubmission(invoice)],
        bills := db.bills[invoice.sourceID :=
          bill.(invoiceUUID := Some(invoice.uuid), invoiceHash := Some(invoice.hash), qr := Some(invoice.qr))],
        branches := db.branches[b.branchID :=
          Unreserved(row).(lastICV := invoice.icv, previous := Some(invoice.hash))])
  }

  function Commit(db: Db, b: Booking, invoice: SignedInvoice, fault: Fault): (Reply<()>, Db) {
    var refusal := CommitRefusal(db, b, invoice);
    if fault.Failed? && Fits(invoice, b) && invoice.Valid() then (Err({Technical}), db)
    else if refusal != {} then (Err(refusal), db)
    else (if fault.ReplyLost? then Err({Technical}) else Ok(()), Committed(db, b, invoice))
  }

  /** The committed invoice of a bill, with its recorded answer. */
  function Stored(db: Db, billID: int): Option<SignedInvoice> {
    if billID !in db.submissions || billID !in db.bills then None
    else
      var s := db.submissions[billID];
      var plain := SignedInvoice(billID, s.branchID, s.uuid, s.icv, s.pih, s.hash, s.kind, s.signedXML,
                                 OrEmpty(db.bills[billID].qr), "", Unspecified, "", "", "");
      if s.outcomeState == PENDING then Some(plain)
      else
        var text := if s.rejectionMsg.Some? then s.rejectionMsg.value else OrEmpty(s.warningMsg);
        var parsed := ParseEvidence(text);
        Some(plain.(outcome := s.outcomeState, providerCode := OrEmpty(s.providerCode),
                    evidence := parsed.source, evidenceID := parsed.id, outcomeMessage := parsed.message))
  }

  function Lookup(db: Db, billID: int, fault: Fault): Reply<Option<SignedInvoice>> {
    if fault.Failed? || fault.ReplyLost? then Err({Technical}) else Ok(Stored(db, billID))
  }

  function SubmissionStatus(state: string): Option<int> {
    if state == ACCEPTED then Some(2)
    else if state == REJECTED then Some(3)
    else if state == WARNING then Some(4)
    else if state == AMBIGUOUS then Some(1)
    else if state == TERMINAL then Some(5)
    else None
  }

  /** The arguments Record takes: a known state, a known source, and an id with external evidence. */
  predicate Recordable(outcome: Outcome) {
    && SubmissionStatus(outcome.state).Some?
    && !outcome.evidence.Unknown?
    && (outcome.evidence.External? ==> !Blank(outcome.evidenceID) && ValidEvidenceText(outcome.evidenceID, 256))
  }

  function Answered(s: Submission, outcome: Outcome): Submission
    requires Recordable(outcome)
  {
    var code := NullString(outcome.providerCode, 64);
    var text := OutcomeText(outcome);
    var refused := outcome.state == REJECTED || outcome.state == TERMINAL;
    s.(status := SubmissionStatus(outcome.state).value, outcomeState := outcome.state, providerCode := code,
       rejectionCode := if refused then code else None,
       rejectionMsg := if refused then NullString(text, 512) else None,
       warningMsg := if refused then None else NullString(text, 1024))
  }

  function LogEntry(billID: int, s: Submission, outcome: Outcome): LogRow
    requires Recordable(outcome)
  {
    LogRow(billID, outcome.state, NullString(outcome.providerCode, 64),
           if outcome.evidence.External? then NullString(OutcomeText(outcome), 1024)
             else Answered(s, outcome).warningMsg)
  }

  predicate Issues(state: string) {
    state == ACCEPTED || state == WARNING
  }

  /** The tables after the first answer to a pending invoice. */
  function Recorded(db: Db, billID: int, outcome: Outcome): Db
    requires Recordable(outcome) && billID in db.submissions
  {
    var s := db.submissions[billID];
    db.(submissions := db.submissions[billID := Answered(s, outcome)],
        log := db.log + [LogEntry(billID, s, outcome)],
        bills := if Issues(outcome.state) && billID in db.bills
                 then db.bills[billID := db.bills[billID].(state := ISSUED)] else db.bills)
  }

  function Record(db: Db, invoice: SignedInvoice, outcome: Outcome, fault: Fault): (Reply<()>, Db) {
    if !Recordable(outcome) then (Err({Technical}), db)
    else if fault.Failed? || invoice.sourceID !in db.submissions then (Err({Technical}), db)
    else
      (if fault.ReplyLost? then Err({Technical}) else Ok(()),
       if db.submissions[invoice.sourceID].outcomeState == PENDING
       then Recorded(db, invoice.sourceID, outcome) else db)
  }
}
