/** Where the code does less than one might expect of it: each limit for all inputs. */
module Limits {
  import opened Text
  import opened Messages
  import opened Tables
  import opened Operations
  import opened ChainSafety
  import opened Stream
  import Chain
  import Claims

  /** A booking is fenced by request and event, not by delivery: the late release of an earlier delivery of the same
      event drops the booking that a redelivery has resumed, and the redelivery cannot commit with it any more. */
  lemma LateReleaseDropsAResumedBooking(cfg: Config, db: Db, msg: Message, first: int, resumed: int, fault: Fault,
                                        invoice: SignedInvoice)
    requires Sound(db) && Chain.Book(cfg, db, msg, first, Clean).0.Ok? && !fault.Failed?
    requires Chain.Book(cfg, Chain.Book(cfg, db, msg, first, Clean).1, msg, resumed, Clean).0.Ok?
    ensures var (early, booked) := Chain.Book(cfg, db, msg, first, Clean);
      var (late, again) := Chain.Book(cfg, booked, msg, resumed, Clean);
      && late == early
      && var released := Chain.Release(again, early.value, fault).1;
         && released.branches[msg.branchID] == Chain.Unreserved(again.branches[msg.branchID])
         && Chain.CommitRefusal(released, late.value, invoice) != {}
  {
    hide SignedInvoice.Valid, SubmissionShape, BillShape, LogShape;
    assert ReservationShape(db.branches[msg.branchID]);
  }

  /** A second release of a claim answers with an error exactly when the driver counts changed rows. */
  lemma RepeatedReleaseErrs(cfg: Config, db: Db, msg: Message)
    requires msg.Valid() && Claims.Owns(db, msg)
    ensures var once := Claims.Released(cfg, db, msg, Clean, Clean).1;
      Claims.Released(cfg, once, msg, Clean, Clean) == (if cfg.countsChangedRows then {ClaimInFlight} else {}, once)
  {
    hide Message.Valid;
    var once := Claims.Released(cfg, db, msg, Clean, Clean).1;
    var row := once.claims[KeyOf(msg)];
    assert once.(claims := once.claims[KeyOf(msg) := row.(leaseEnd := None)]) == once;
  }

  /** The delivery limit does not finalize a request whose chain or claim is busy: it ends unacknowledged, and its
      tables stay as they are. */
  lemma BusyIsNotFinalised(cfg: Config, db: Db, d: Delivery, script: Script)
    requires d.pc.Returned? && (ChainBusy in d.pc.result || ClaimInFlight in d.pc.result)
    ensures RunAlone(cfg, db, d, script) == (d.(pc := Ended(false)), db)
  {
    AloneStep(cfg, db, d, script, Ended(false), db);
  }

  /** A delivery that meets the live claim of another one ends unacknowledged and changes nothing, also on its last
      attempt. */
  lemma LiveClaimIsNotFinalised(cfg: Config, db: Db, d: Delivery, script: Script)
    requires d.pc.AtClaim? && d.msg.Valid() && script(21).fault == Clean
    requires KeyOf(d.msg) in db.claims && !db.claims[KeyOf(d.msg)].completed
    requires db.claims[KeyOf(d.msg)].fingerprint == d.msg.fingerprint
    requires Claims.LeaseLive(db.claims[KeyOf(d.msg)], script(21).now)
    ensures RunAlone(cfg, db, d, script) == (d.(pc := Ended(false)), db)
  {
    hide Message.Valid, RunAlone;
    AloneStep(cfg, db, d, script, Returned({ClaimInFlight}), db);
    BusyIsNotFinalised(cfg, db, d.(pc := Returned({ClaimInFlight})), script);
  }

  /** A delivery that meets the live booking of another one, or its lock, ends unacknowledged, also on its last attempt,
      and whatever happens to the release of its claim: only that claim may change. */
  lemma LiveBookingIsNotFinalised(cfg: Config, db: Db, d: Delivery, script: Script)
    requires d.pc.AtBook? && MeetsABooking(db, d.msg, script(18))
    ensures var (e, z) := RunAlone(cfg, db, d, script);
      && e == d.(pc := Ended(false))
      && z.(claims := map[]) == db.(claims := map[])
      && z.claims - {KeyOf(d.msg)} == db.claims - {KeyOf(d.msg)}
  {
    hide RunAlone, Message.Valid;
    BookingIsBusy(cfg, db, d.msg, script(18));
    hide Chain.Book, MeetsABooking;
    AloneStep(cfg, db, d, script, AtUnclaim({ChainBusy}), db);
    UnclaimsAndEnds(cfg, db, d.(pc := AtUnclaim({ChainBusy})), script);
  }

  /** Another request or event holds a live booking of the branch, or its row is locked. */
  predicate MeetsABooking(db: Db, msg: Message, inp: Input) {
    || inp.fault == LockHeld
    || (!inp.fault.Failed? && msg.branchID in db.branches
        && var row := db.branches[msg.branchID];
           && Chain.Loads(row) && row.lastICV < MAX_UINT64 && Chain.LeaseLive(row, inp.now)
           && !(row.ownerKey == Some(msg.RequestKey()) && row.ownerToken == Some(msg.eventID)))
  }

  lemma BookingIsBusy(cfg: Config, db: Db, msg: Message, inp: Input)
    requires MeetsABooking(db, msg, inp)
    ensures Chain.Book(cfg, db, msg, inp.now, inp.fault) == (Err({ChainBusy}), db)
  {
  }

  /** The release of the claim and the end of a delivery that failed on a busy branch. */
  lemma UnclaimsAndEnds(cfg: Config, db: Db, d: Delivery, script: Script)
    requires d.pc == AtUnclaim({ChainBusy})
    ensures var (e, z) := RunAlone(cfg, db, d, script);
      && e == d.(pc := Ended(false))
      && z.(claims := map[]) == db.(claims := map[])
      && z.claims - {KeyOf(d.msg)} == db.claims - {KeyOf(d.msg)}
  {
    hide RunAlone, Message.Valid;
    var (reply, z) := Claims.ReleaseUpdate(cfg, db, d.msg, script(10).fault);
    ReleaseTouchesItsClaim(cfg, db, d.msg, script(10).fault);
    hide Claims.ReleaseUpdate;
    AloneStep(cfg, db, d, script, AfterUnclaim(reply, {ChainBusy}), z);
    var next := d.(pc := AfterUnclaim(reply, {ChainBusy}));
    if next.pc.AtInspectRelease? {
      var result := {ChainBusy} + Claims.Inspect(z, d.msg, script(9).fault);
      AloneStep(cfg, z, next, script, Returned(result), z);
      BusyIsNotFinalised(cfg, z, d.(pc := Returned(result)), script);
    } else {
      BusyIsNotFinalised(cfg, z, next, script);
    }
  }

  lemma ReleaseTouchesItsClaim(cfg: Config, db: Db, msg: Message, fault: Fault)
    ensures var z := Claims.ReleaseUpdate(cfg, db, msg, fault).1;
      z.(claims := map[]) == db.(claims := map[]) && z.claims - {KeyOf(msg)} == db.claims - {KeyOf(msg)}
  {
    hide Message.Valid;
  }

  /** The finalization does not check whose invoice is stored: an unanswered invoice of the bill becomes a terminal
      failure even when the delivery names another UUID. */
  lemma FinalizationIgnoresTheUUID(cfg: Config, db: Db, d: Delivery, script: Script)
    requires Sound(db) && d.pc.AtFinalRead? && d.msg.id in db.submissions
    requires db.submissions[d.msg.id].outcomeState == PENDING && db.submissions[d.msg.id].uuid != d.msg.invoiceUUID
    requires script(6).fault == Clean && script(5).fault == Clean
    ensures !CheckStored(Chain.Stored(db, d.msg.id).value, d.msg)
    ensures var z := RunAlone(cfg, db, d, script).1;
      d.msg.id in z.submissions && z.submissions[d.msg.id].outcomeState == TERMINAL
  {
    hide RunAlone, Sound, Message.Valid, SignedInvoice.Valid, Chain.Stored, Chain.Record, CheckStored, TerminalOutcome;
    StoredIsForeign(db, d.msg);
    var invoice := Chain.Stored(db, d.msg.id).value;
    TerminalIsRecorded(db, invoice, script(5).causeText);
    var db' := Chain.Record(db, invoice, TerminalOutcome(script(5).causeText), Clean).1;
    FinalReadAndRecord(cfg, db, d, script, invoice);
    CompletionLeavesInvoices(cfg, db', d.(pc := AtComplete(Finalize(d.pc.cause))), script);
  }

  lemma StoredIsForeign(db: Db, msg: Message)
    requires Sound(db) && msg.id in db.submissions
    requires db.submissions[msg.id].outcomeState == PENDING && db.submissions[msg.id].uuid != msg.invoiceUUID
    ensures var i := Chain.Stored(db, msg.id);
      && msg.id in db.bills && i.Some? && !CheckStored(i.value, msg)
      && i.value.sourceID == msg.id && i.value.outcome == "" && i.value.Valid()
  {
    hide Message.Valid, LogShape, BillShape;
    assert SubmissionShape(db, msg.id, db.submissions[msg.id]);
  }

  lemma TerminalIsRecorded(db: Db, invoice: SignedInvoice, text: string)
    requires invoice.Valid() && invoice.sourceID in db.submissions && invoice.sourceID in db.bills
    requires db.submissions[invoice.sourceID].outcomeState == PENDING
    ensures var (reply, z) := Chain.Record(db, invoice, TerminalOutcome(text), Clean);
      && reply.Ok? && invoice.sourceID in z.submissions && z.submissions[invoice.sourceID].outcomeState == TERMINAL
  {
    hide SignedInvoice.Valid;
  }

  lemma FinalReadAndRecord(cfg: Config, db: Db, d: Delivery, script: Script, invoice: SignedInvoice)
    requires d.pc.AtFinalRead? && Chain.Stored(db, d.msg.id) == Some(invoice) && invoice.outcome == ""
    requires script(6).fault == Clean && script(5).fault == Clean
    requires Chain.Record(db, invoice, TerminalOutcome(script(5).causeText), Clean).0.Ok?
    ensures var z := Chain.Record(db, invoice, TerminalOutcome(script(5).causeText), Clean).1;
      RunAlone(cfg, db, d, script) == RunAlone(cfg, z, d.(pc := AtComplete(Finalize(d.pc.cause))), script)
  {
    hide RunAlone, Message.Valid, Chain.Record, Chain.Stored, TerminalOutcome;
    var recording := d.(pc := AtFinalRecord(invoice, d.pc.cause));
    AloneStep(cfg, db, d, script, recording.pc, db);
    AloneStep(cfg, db, recording, script, AtComplete(Finalize(d.pc.cause)),
              Chain.Record(db, invoice, TerminalOutcome(script(5).causeText), Clean).1);
  }

  lemma {:induction false} CompletionLeavesInvoices(cfg: Config, db: Db, d: Delivery, script: Script)
    requires Rank(d.pc) <= 4
    ensures RunAlone(cfg, db, d, script).1.submissions == db.submissions
    decreases Rank(d.pc)
  {
    hide Message.Valid;
    if !d.pc.Ended? {
      var (pc', db') := Next(cfg, db, d, script(Rank(d.pc)));
      AloneStep(cfg, db, d, script, pc', db');
      StepsLowerTheRank(cfg, db, d, script(Rank(d.pc)));
      CompletionLeavesInvoices(cfg, db', d.(pc := pc', finalAcks := d.finalAcks + (if d.pc.AtAck? then 1 else 0)),
                               script);
    }
  }
}
