/** The stores of queue/chain.go and queue/sql_claim_store.go in their own form: methods that read rows, check them and
    write them back inside one transaction. Each is proved against its transaction function. */
module Stores {
  import opened Text
  import opened Messages
  import opened Tables
  import Chain
  import Claims
  import Evidences

  /** One tenant database. Tables are replaced only at the commit of a transaction. */
  class TenantDB {
    var branches: map<int, BranchRow>
    var bills: map<int, BillRow>
    var submissions: map<int, Submission>
    var log: seq<LogRow>
    var claims: map<ClaimKey, ClaimRow>

    function State(): Db
      reads this
    {
      Db(branches, bills, submissions, log, claims)
    }

    constructor (db: Db)
      ensures State() == db
    {
      branches, bills, submissions, log, claims := db.branches, db.bills, db.submissions, db.log, db.claims;
    }
  }

  class SQLChain {
    const db: TenantDB
    const cfg: Config

    constructor (db: TenantDB, cfg: Config)
      ensures this.db == db && this.cfg == cfg
    {
      this.db, this.cfg := db, cfg;
    }

    method Book(msg: Message, now: int, fault: Fault) returns (reply: Reply<Booking>)
      modifies db
      ensures (reply, db.State()) == Chain.Book(cfg, old(db.State()), msg, now, fault)
    {
      if fault.LockHeld? { return Err({ChainBusy}); }
      if fault.Failed? { return Err({Technical}); }
      if msg.branchID !in db.branches { return Err({RejectedInput}); }
      var row := db.branches[msg.branchID];
      if row.reservedICV.Some? && row.reservedICV.value > MAX_INT64 { return Err({Technical}); }
      if row.lastICV == MAX_UINT64 { return Err({ChainConflict}); }
      var booking := Booking(msg.branchID, msg.RequestKey(), msg.eventID, msg.invoiceUUID,
                             row.lastICV + 1, Chain.EffectivePIH(row));
      if Chain.LeaseLive(row, now) {
        if !Chain.OwnedBy(row, booking.requestKey) || row.ownerToken.None? || row.ownerToken.value != booking.eventID {
          return Err({ChainBusy});
        }
      }
      if Chain.OwnedBy(row, booking.requestKey) && row.reservedICV.Some? && row.reservedICV.value != booking.icv {
        return Err({ChainConflict});
      }
      db.branches := db.branches[msg.branchID :=
        BranchRow(row.lastICV, row.previous, Some(booking.requestKey), Some(booking.eventID), Some(booking.icv),
                  Some(now + cfg.ChainLease()))];
      if fault.ReplyLost? { return Err({Technical}); }
      return Ok(booking);
    }

    method Release(booking: Booking, fault: Fault) returns (reply: Reply<()>)
      modifies db
      ensures (reply, db.State()) == Chain.Release(old(db.State()), booking, fault)
    {
      if fault.Failed? { return Err({Technical}); }
      if booking.branchID in db.branches {
        var row := db.branches[booking.branchID];
        if row.ownerKey == Some(booking.requestKey) && row.ownerToken == Some(booking.eventID) {
          db.branches := db.branches[booking.branchID := BranchRow(row.lastICV, row.previous, None, None, None, None)];
        }
      }
      if fault.ReplyLost? { return Err({Technical}); }
      return Ok(());
    }

    method Commit(booking: Booking, invoice: SignedInvoice, fault: Fault) returns (reply: Reply<()>)
      modifies db
      ensures (reply, db.State()) == Chain.Commit(old(db.State()), booking, invoice, fault)
    {
      if invoice.branchID != booking.branchID || invoice.icv != booking.icv || invoice.uuid != booking.uuid
         || invoice.pih != booking.pih || !invoice.Valid() {
        return Err({ChainConflict});
      }
      if fault.Failed? || booking.branchID !in db.branches { return Err({Technical}); }
      var row := db.branches[booking.branchID];
      if !Chain.Loads(row) { return Err({Technical}); }
      if !Chain.Holds(row, booking) { return Err({ChainConflict}); }
      if invoice.sourceID !in db.bills { return Err({ChainConflict}); }
      var bill := db.bills[invoice.sourceID];
      if bill.branchID != booking.branchID { return Err({ChainConflict}); }
      if bill.invoiceUUID.Some? && !Blank(bill.invoiceUUID.value) && bill.invoiceUUID.value != invoice.uuid {
        return Err({ChainConflict});
      }
      if bill.invoiceHash.Some? && !Blank(bill.invoiceHash.value) && bill.invoiceHash.value != invoice.hash {
        return Err({ChainConflict});
      }
      if invoice.sourceID in db.submissions { return Err({Technical}); }
      var submissions := db.submissions[invoice.sourceID :=
        Submission(invoice.branchID, invoice.icv, invoice.pih, invoice.uuid, invoice.hash, invoice.kind,
                   invoice.signedXML, 0, PENDING, None, None, None, None)];
      var bills := db.bills[invoice.sourceID :=
        BillRow(bill.branchID, bill.state, Some(invoice.uuid), Some(invoice.hash), Some(invoice.qr))];
      var branches := db.branches[booking.branchID :=
        BranchRow(invoice.icv, Some(invoice.hash), None, None, None, None)];
      db.submissions, db.bills, db.branches := submissions, bills, branches;
      if fault.ReplyLost? { return Err({Technical}); }
      return Ok(());
    }

    method Stored(billID: int, fault: Fault) returns (reply: Reply<Option<SignedInvoice>>)
      ensures reply == Chain.Lookup(db.State(), billID, fault)
    {
      if fault.Failed? || fault.ReplyLost? { return Err({Technical}); }
      if billID !in db.submissions || billID !in db.bills { return Ok(None); }
      var s := db.submissions[billID];
      var invoice := SignedInvoice(billID, s.branchID, s.uuid, s.icv, s.pih, s.hash, s.kind, s.signedXML,
                                   OrEmpty(db.bills[billID].qr), "", Unspecified, "", "", "");
      if s.outcomeState != PENDING {
        var text := OrEmpty(s.warningMsg);
        if s.rejectionMsg.Some? { text := s.rejectionMsg.value; }
        var parsed := Evidences.ParseEvidence(text);
        invoice := invoice.(outcome := s.outcomeState, providerCode := OrEmpty(s.providerCode),
                            evidence := parsed.source, evidenceID := parsed.id, outcomeMessage := parsed.message);
      }
      return Ok(Some(invoice));
    }

    method Record(invoice: SignedInvoice, outcome: Outcome, fault: Fault) returns (reply: Reply<()>)
      modifies db
      ensures (reply, db.State()) == Chain.Record(old(db.State()), invoice, outcome, fault)
    {
      var status := Chain.SubmissionStatus(outcome.state);
      if status.None? || outcome.evidence.Unknown? { return Err({Technical}); }
      if outcome.evidence.External? && (Blank(outcome.evidenceID) || !ValidEvidenceText(outcome.evidenceID, 256)) {
        return Err({Technical});
      }
      if fault.Failed? || invoice.sourceID !in db.submissions { return Err({Technical}); }
      var s := db.submissions[invoice.sourceID];
      var providerCode := NullString(outcome.providerCode, 64);
      var message := Evidences.OutcomeText(outcome);
      var rejectionCode: Option<string>, rejectionMsg: Option<string>, warningMsg: Option<string> := None, None, None;
      if outcome.state == REJECTED || outcome.state == TERMINAL {
        rejectionCode, rejectionMsg := providerCode, NullString(message, 512);
      } else {
        warningMsg := NullString(message, 1024);
      }
      if s.outcomeState == PENDING {
        var logged := if outcome.evidence.External? then NullString(message, 1024) else warningMsg;
        db.submissions := db.submissions[invoice.sourceID :=
          s.(status := status.value, outcomeState := outcome.state, providerCode := providerCode,
             rejectionCode := rejectionCode, rejectionMsg := rejectionMsg, warningMsg := warningMsg)];
        db.log := db.log + [LogRow(invoice.sourceID, outcome.state, providerCode, logged)];
        if (outcome.state == ACCEPTED || outcome.state == WARNING) && invoice.sourceID in db.bills {
          db.bills := db.bills[invoice.sourceID := db.bills[invoice.sourceID].(state := ISSUED)];
        }
      }
      if fault.ReplyLost? { return Err({Technical}); }
      return Ok(());
    }
  }

  class SQLClaimStore {
    const db: TenantDB
    const cfg: Config

    constructor (db: TenantDB, cfg: Config)
      ensures this.db == db && this.cfg == cfg
    {
      this.db, this.cfg := db, cfg;
    }

    method Claim(msg: Message, now: int, fault: Fault) returns (reply: Reply<Claims.Decision>)
      modifies db
      ensures (reply, db.State()) == Claims.Claim(cfg, old(db.State()), msg, now, fault)
    {
      if !msg.Valid() { return Err({InvalidEnvelope}); }
      if fault.Failed? { return Err({Technical}); }
      var key := (msg.posID, msg.billRequestID);
      var taken := exists k | k in db.claims :: k != key && db.claims[k].eventID == msg.eventID;
      var decision := Claims.Process;
      if key !in db.claims {
        if taken {
          decision := Claims.Conflict;
        } else {
          db.claims := db.claims[key :=
            ClaimRow(msg.eventID, msg.egsSequenceID, msg.fingerprint, false, Some(now + cfg.ClaimLease()))];
        }
      } else {
        var row := db.claims[key];
        if row.fingerprint != msg.fingerprint {
          decision := Claims.Conflict;
        } else if row.completed {
          decision := Claims.Duplicate;
        } else if row.leaseEnd.Some? && row.leaseEnd.value > now {
          decision := Claims.InFlight;
        } else {
          if taken { return Err({Technical}); }
          db.claims := db.claims[key :=
            ClaimRow(msg.eventID, msg.egsSequenceID, row.fingerprint, false, Some(now + cfg.ClaimLease()))];
        }
      }
      if fault.ReplyLost? { return Err({Technical}); }
      return Ok(decision);
    }

    /** The update of Release and, when it reports no row, the read of the owner. No error means the claim is given
        back. */
    method Release(msg: Message, fault: Fault, readFault: Fault) returns (errors: Errors)
      modifies db
      ensures (errors, db.State()) == Claims.Released(cfg, old(db.State()), msg, fault, readFault)
    {
      if !msg.Valid() { return {InvalidEnvelope}; }
      if fault.Failed? { return {Technical}; }
      var key := (msg.posID, msg.billRequestID);
      var affected := false;
      if key in db.claims {
        var row := db.claims[key];
        if row.eventID == msg.eventID && row.fingerprint == msg.fingerprint && !row.completed {
          affected := row.leaseEnd.Some? || !cfg.countsChangedRows;
          db.claims := db.claims[key := row.(leaseEnd := None)];
        }
      }
      if fault.ReplyLost? { return {Technical}; }
      if affected { return {}; }
      errors := Claims.Inspect(db.State(), msg, readFault);
    }

    /** The update of Complete and, when it reports no row, the read that makes repeating it safe. */
    method Complete(msg: Message, fault: Fault, readFault: Fault) returns (errors: Errors)
      modifies db
      ensures (errors, db.State()) == Claims.Completed(old(db.State()), msg, fault, readFault)
    {
      if !msg.Valid() { return {InvalidEnvelope}; }
      if fault.Failed? { return {Technical}; }
      var key := (msg.posID, msg.billRequestID);
      var affected := false;
      if key in db.claims {
        var row := db.claims[key];
        if row.eventID == msg.eventID && row.fingerprint == msg.fingerprint && !row.completed {
          affected := true;
          db.claims := db.claims[key := row.(completed := true, leaseEnd := None)];
        }
      }
      if fault.ReplyLost? { return {Technical}; }
      if affected { return {}; }
      errors := Claims.Inspect(db.State(), msg, readFault);
    }
  }
}
