/** What a delivery answers when nothing fails around it: a bill that cannot be invoiced, a request with other content,
    and the answer of the provider. */
module Refusals {
  import opened Text
  import opened Messages
  import opened Tables
  import opened Operations
  import opened ChainSafety
  import opened Outcomes
  import opened Evidences
  import opened Stream
  import opened Validity
  import opened WorldSafety
  import opened Progress
  import Chain
  import Claims
  import Provider

  // ---------------------------------------------------------------- an envelope that cannot be processed

  /** A bad envelope is returned at once, and no other is returned as one by the claim. */
  lemma BadEnvelopesAreReturned(cfg: Config, db: Db, msg: Message, exhausted: bool, script: Script)
    ensures BadEnvelope(msg) ==>
      Handle(cfg, db, Received(msg, exhausted), script)
      == (Received(msg, exhausted).(pc := Returned({InvalidEnvelope})), db)
    ensures !BadEnvelope(msg) ==> Claims.Claim(cfg, db, msg, script(21).now,
                                               script(21).fault).0 != Err({InvalidEnvelope})
  {
    GoodEnvelope(msg);
    hide Handle, Message.Valid, BadEnvelope;
    assert {Technical} != {InvalidEnvelope} by { assert Technical !in {InvalidEnvelope}; }
    HandleStep(cfg, db, Received(msg, exhausted), script);
    HandleReturns(cfg, db, Received(msg, exhausted).(pc := Returned({InvalidEnvelope})), script);
  }

  // ---------------------------------------------------------------- a bill that cannot be invoiced

  /** The claim of a delivery that ended its request. */
  function ClosedClaim(msg: Message): ClaimRow {
    ClaimRow(msg.eventID, msg.egsSequenceID, msg.fingerprint, true, None)
  }

  function ClosedRequest(db: Db, msg: Message): Db {
    db.(claims := db.claims[KeyOf(msg) := ClosedClaim(msg)])
  }

  /** The transactions of a refusal and its acknowledgement succeed, and the bill could be checked. */
  ghost predicate RefusesCleanly(script: Script) {
    && script(21).fault == Clean && script(20).fault == Clean && script(10).fault == Clean && script(8).ackSucceeds
    && !script(19).prepare.Unavailable?
  }

  /** What decides that a number is booked: the bill exists, belongs to the branch of the envelope, is a final sale with
      no UUID or that of the envelope, and verification passes. Otherwise it is refused, or the check is retried. */
  lemma BooksVerifiedBills(cfg: Config, db: Db, d: Delivery, inp: Input)
    requires d.pc.AtPrepare?
    ensures var (pc, z) := Next(cfg, db, d, inp);
      && z == db
      && (pc == AtBook <==> Verifiable(db, d.msg) && inp.prepare.Verified?)
      && (pc == AtUnclaim({Technical}) <==> inp.prepare.Unavailable?)
      && (pc == AtComplete(Reject({RejectedInput}))
          <==> !inp.prepare.Unavailable? && (!Verifiable(db, d.msg) || inp.prepare.Refused?))
  {
    assert RejectedInput in {RejectedInput} && RejectedInput !in {Technical};
  }

  lemma ClosesTheClaim(cfg: Config, db: Db, msg: Message, at: int)
    requires Claimable(db, msg, at)
    ensures var (reply, taken) := Claims.Claim(cfg, db, msg, at, Clean);
      && reply == Reply.Ok(Claims.Process) && taken.(claims := map[]) == db.(claims := map[])
      && Claims.CompleteUpdate(taken, msg, Clean) == (Reply.Ok(true), ClosedRequest(db, msg))
  {
    hide Message.Valid;
    var taken := Claims.Claim(cfg, db, msg, at, Clean).1;
    assert taken.claims[KeyOf(msg) := ClosedClaim(msg)] == db.claims[KeyOf(msg) := ClosedClaim(msg)];
  }

  lemma SameBillsSameCheck(a: Db, b: Db, msg: Message)
    requires a.(claims := map[]) == b.(claims := map[])
    ensures Verifiable(a, msg) <==> Verifiable(b, msg)
    ensures Chain.Stored(a, msg.id) == Chain.Stored(b, msg.id)
  {
    var c := a.(claims := map[]);
    assert a.bills == c.bills && a.submissions == c.submissions;
  }

  /** The last effect of HandleMessage is its acknowledgement. */
  lemma AckReturns(cfg: Config, db: Db, d: Delivery, script: Script)
    requires d.pc.AtAck? && !FinalAck(d.pc)
    ensures Handle(cfg, db, d, script)
         == (d.(pc := Acknowledged(d.pc.reason, script(8).ackSucceeds), acks := d.acks + 1), db)
  {
  }

  lemma FromRefusal(cfg: Config, db: Db, d: Delivery, script: Script, z: Db)
    requires d.pc == AtComplete(Reject({RejectedInput})) && script(10).fault == Clean && script(8).ackSucceeds
    requires Claims.CompleteUpdate(db, d.msg, Clean) == (Reply.Ok(true), z)
    ensures Handle(cfg, db, d, script) == (d.(pc := Returned({RejectedInput}), acks := d.acks + 1), z)
  {
    hide Handle, Claims.CompleteUpdate;
    HandleStep(cfg, db, d, script);
    var closing := d.(pc := AtAck(Closing(Reject({RejectedInput}))));
    AckReturns(cfg, z, closing, script);
    assert {RejectedInput} + {} == {RejectedInput};
  }

  lemma FromUnfitRead(cfg: Config, db: Db, d: Delivery, script: Script, z: Db)
    requires d.pc.AtRead? && RefusesCleanly(script)
    requires Chain.Stored(db, d.msg.id).None? && (!Verifiable(db, d.msg) || script(19).prepare.Refused?)
    requires Claims.CompleteUpdate(db, d.msg, Clean) == (Reply.Ok(true), z)
    ensures Handle(cfg, db, d, script) == (d.(pc := Returned({RejectedInput}), acks := d.acks + 1), z)
  {
    hide Handle, Claims.CompleteUpdate, Chain.Stored, Verifiable, Prepare;
    HandleStep(cfg, db, d, script);
    var checking := d.(pc := AtPrepare);
    BooksVerifiedBills(cfg, db, checking, script(19));
    HandleStep(cfg, db, checking, script);
    FromRefusal(cfg, db, d.(pc := AtComplete(Reject({RejectedInput}))), script, z);
  }

  /** Main result on refused bills: a delivery whose bill is missing, belongs to another branch, is no final sale,
      carries another UUID or fails verification ends its request. It is acknowledged once and its claim completed; no
      number is booked, and bills, invoices and log stay as they are, also on the last attempt. */
  lemma UnfitBillsAreRefused(cfg: Config, db: Db, msg: Message, exhausted: bool, script: Script)
    requires Claimable(db, msg, script(21).now) && RefusesCleanly(script)
    requires msg.id !in db.submissions || msg.id !in db.bills
    requires !Verifiable(db, msg) || script(19).prepare.Refused?
    ensures Handle(cfg, db, Received(msg, exhausted), script)
         == (Received(msg, exhausted).(pc := Returned({RejectedInput}), acks := 1), ClosedRequest(db, msg))
    ensures RunAlone(cfg, db, Received(msg, exhausted), script)
         == (Received(msg, exhausted).(pc := Ended(false), acks := 1), ClosedRequest(db, msg))
  {
    var d := Received(msg, exhausted);
    assert Chain.Stored(db, msg.id).None?;
    hide Handle, RunAlone, Message.Valid, Claims.Claim, Claims.CompleteUpdate, ClosedRequest, Verifiable, Prepare,
      Chain.Stored;
    ClosesTheClaim(cfg, db, msg, script(21).now);
    var taken := Claims.Claim(cfg, db, msg, script(21).now, Clean).1;
    SameBillsSameCheck(taken, db, msg);
    HandleStep(cfg, db, d, script);
    FromUnfitRead(cfg, taken, d.(pc := AtRead), script, ClosedRequest(db, msg));
    HandleThenRest(cfg, db, d, script);
    FromReturned(cfg, ClosedRequest(db, msg), d.(pc := Returned({RejectedInput}), acks := 1), script);
  }

  // ---------------------------------------------------------------- an invoice of another envelope

  /** The claim of a delivery that gave its request back. */
  function GivenBack(db: Db, msg: Message): Db
    requires KeyOf(msg) in db.claims
  {
    db.(claims := db.claims[KeyOf(msg) := db.claims[KeyOf(msg)].(leaseEnd := None)])
  }

  /** A stored invoice with another UUID or branch than the envelope is never submitted and answers nothing: the
      delivery returns unacknowledged, and only gives its claim back. */
  lemma ForeignInvoicesAreNotSubmitted(cfg: Config, db: Db, d: Delivery, script: Script)
    requires d.pc.AtRead? && d.msg.Valid() && Claims.Owns(db, d.msg) && db.claims[KeyOf(d.msg)].leaseEnd.Some?
    requires script(20).fault == Clean && script(10).fault == Clean
    requires d.msg.id in db.submissions && d.msg.id in db.bills
    requires db.submissions[d.msg.id].uuid != d.msg.invoiceUUID || db.submissions[d.msg.id].branchID != d.msg.branchID
    ensures Handle(cfg, db, d, script) == (d.(pc := Returned({Technical})), GivenBack(db, d.msg))
  {
    StoredNames(db, d.msg.id);
    hide Handle, Message.Valid, SignedInvoice.Valid, Chain.Stored;
    assert RejectedInput !in {Technical};
    HandleStep(cfg, db, d, script);
    ReleaseReturns(cfg, db, d.(pc := AtUnclaim({Technical})), script);
  }

  lemma StoredNames(db: Db, k: int)
    requires k in db.submissions && k in db.bills
    ensures var i := Chain.Stored(db, k);
      i.Some? && i.value.uuid == db.submissions[k].uuid && i.value.branchID == db.submissions[k].branchID
  {
    hide ParseEvidence;
  }

  /** What the signer may return for a booking: an invoice of this bill with the UUID of the envelope, and with the
      number, the previous hash and the UUID that were booked. */
  ghost predicate BuiltAsBooked(built: Option<SignedInvoice>, msg: Message, b: Booking) {
    && built.Some? && built.value.(outcome := "").Valid()
    && built.value.sourceID == msg.id && built.value.branchID == msg.branchID
    && built.value.uuid == msg.invoiceUUID && b.uuid == msg.invoiceUUID
    && built.value.icv == b.icv && built.value.pih == b.pih
  }

  /** Only such an invoice is committed. Otherwise the booking and the claim are given back, and the delivery returns
      unacknowledged. */
  lemma OthersAreReleased(cfg: Config, db: Db, d: Delivery, script: Script)
    requires d.pc.AtBuild? && d.msg.Valid() && Claims.Owns(db, d.msg) && db.claims[KeyOf(d.msg)].leaseEnd.Some?
    requires script(15).fault == Clean && script(10).fault == Clean
    ensures BuiltAsBooked(script(17).build(d.pc.booking), d.msg, d.pc.booking)
       <==> Next(cfg, db, d, script(17)).0.AtCommit?
    ensures !BuiltAsBooked(script(17).build(d.pc.booking), d.msg, d.pc.booking) ==>
      Handle(cfg, db, d, script)
      == (d.(pc := Returned({Technical})), GivenBack(Chain.Release(db, d.pc.booking, Clean).1, d.msg))
  {
    BuiltIsChecked(script(17).build(d.pc.booking), d.msg, d.pc.booking);
    hide Handle, Message.Valid, SignedInvoice.Valid, CheckBuilt, BuiltAsBooked, Unanswered;
    if !BuiltAsBooked(script(17).build(d.pc.booking), d.msg, d.pc.booking) {
      HandleStep(cfg, db, d, script);
      hide Next, Claims.Owns;
      UnbookReturns(cfg, db, d.(pc := AtUnbook(d.pc.booking, {Technical})), script);
    }
  }

  lemma UnbookReturns(cfg: Config, db: Db, d: Delivery, script: Script)
    requires d.pc.AtUnbook? && d.pc.cause == {Technical} && d.msg.Valid() && Claims.Owns(db, d.msg)
    requires db.claims[KeyOf(d.msg)].leaseEnd.Some? && script(15).fault == Clean && script(10).fault == Clean
    ensures Handle(cfg, db, d, script)
         == (d.(pc := Returned({Technical})), GivenBack(Chain.Release(db, d.pc.booking, Clean).1, d.msg))
  {
    hide Handle, Message.Valid, SignedInvoice.Valid;
    assert RejectedInput !in {Technical};
    HandleStep(cfg, db, d, script);
    ReleaseReturns(cfg, Chain.Release(db, d.pc.booking, Clean).1, d.(pc := AtUnclaim({Technical})), script);
  }

  lemma BuiltIsChecked(built: Option<SignedInvoice>, msg: Message, b: Booking)
    ensures BuiltAsBooked(built, msg, b) <==> built.Some? && CheckBuilt(Unanswered(built.value), msg, b)
  {
  }

  // ---------------------------------------------------------------- a request with other content

  /** The claimed request has another fingerprint, or its event already belongs to another request. */
  ghost predicate OtherContent(db: Db, msg: Message) {
    if KeyOf(msg) in db.claims then db.claims[KeyOf(msg)].fingerprint != msg.fingerprint
    else exists k | k in db.claims :: db.claims[k].eventID == msg.eventID
  }

  lemma OtherContentConflicts(cfg: Config, db: Db, msg: Message, at: int)
    requires msg.Valid()
    ensures var (reply, z) := Claims.Claim(cfg, db, msg, at, Clean);
      && (reply == Reply.Ok(Claims.Conflict) <==> OtherContent(db, msg))
      && (OtherContent(db, msg) ==> z == db)
  {
    hide Message.Valid;
    if KeyOf(msg) !in db.claims && OtherContent(db, msg) {
      var k :| k in db.claims && db.claims[k].eventID == msg.eventID;
      assert k != KeyOf(msg);
    }
  }

  /** A delivery with other content than the claimed request, or with the event of another request, is acknowledged once
      with a conflict and changes nothing, also on its last attempt and when its acknowledgement fails. */
  lemma OtherContentIsRefused(cfg: Config, db: Db, msg: Message, exhausted: bool, script: Script)
    requires msg.Valid() && script(21).fault == Clean && OtherContent(db, msg)
    ensures Handle(cfg, db, Received(msg, exhausted), script)
         == (Received(msg, exhausted).(pc := Returned({FingerprintConflict}), acks := 1), db)
    ensures RunAlone(cfg, db, Received(msg, exhausted), script)
         == (Received(msg, exhausted).(pc := Ended(false), acks := 1), db)
  {
    hide Handle, RunAlone, Message.Valid, Claims.Claim, OtherContent;
    var d := Received(msg, exhausted);
    OtherContentConflicts(cfg, db, msg, script(21).now);
    HandleStep(cfg, db, d, script);
    AckReturns(cfg, db, d.(pc := AtAck(Mismatch)), script);
    HandleThenRest(cfg, db, d, script);
    FromReturned(cfg, db, d.(pc := Returned({FingerprintConflict}), acks := 1), script);
  }

  // ---------------------------------------------------------------- the delivery limit

  /** The errors that end a delivery without counting it against the limit. */
  const EXEMPT: Errors :=
    {ClaimInFlight, ChainBusy, InvoiceRejected, OutcomeAmbiguous, RejectedInput, FingerprintConflict}

  lemma NamedAreExempt(e: Errors)
    ensures Named(e) <==> !(e !! EXEMPT)
  {
    if !(e !! EXEMPT) { var x :| x in e && x in EXEMPT; }
  }

  /** What HandleMessage returns decides, with the limit, whether the request is finalised: only after the last attempt,
      and only for an error of which no part is exempt. Any other delivery ends with the tables as they are. */
  lemma OnlyOtherErrorsAreFinalised(cfg: Config, db: Db, d: Delivery, script: Script)
    requires d.pc.Returned?
    ensures RunAlone(cfg, db, d, script)
         == if d.exhausted && d.pc.result != {} && d.pc.result !! EXEMPT
            then RunAlone(cfg, db, d.(pc := AtFinalRead(d.pc.result)), script)
            else (d.(pc := Ended(false)), db)
  {
    hide RunAlone;
    var e := d.pc.result;
    NamedAreExempt(e);
    hide Named;
    var pc := AfterHandle(d, e);
    AloneStep(cfg, db, d, script, pc, db);
    AloneEnds(cfg, db, d.(pc := Ended(false)), script);
  }

  /** The transactions of a finalization and its acknowledgement succeed. */
  ghost predicate FinalisesCleanly(script: Script) {
    script(6).fault == Clean && script(5).fault == Clean && script(4).fault == Clean && script(1).ackSucceeds
  }

  /** The row that a finalization leaves: a local terminal failure with the text of the last error, for an invoice that
      was pending, and otherwise the row as it was. */
  ghost predicate Finalises(db: Db, z: Db, k: int, causeText: string) {
    if k in db.submissions && k in db.bills && db.submissions[k].outcomeState == PENDING then
      && k in z.submissions
      && AnswersRow(db.submissions[k], z.submissions[k],
                    Outcome(TERMINAL, "DAEMON_RETRY_EXHAUSTED", causeText, Local, ""), causeText)
      && z.submissions - {k} == db.submissions - {k}
    else z.submissions == db.submissions
  }

  lemma FromFinalComplete(cfg: Config, db: Db, d: Delivery, script: Script)
    requires d.pc.AtComplete? && d.pc.why.Finalize? && FinalisesCleanly(script)
    requires d.msg.Valid() && Claims.Owns(db, d.msg)
    ensures var (e, z) := RunAlone(cfg, db, d, script);
      && e == d.(pc := Ended(false), finalAcks := d.finalAcks + 1) && ClaimCompleted(z, d.msg)
      && z.submissions == db.submissions && z.bills == db.bills && z.branches == db.branches && z.log == db.log
  {
    hide RunAlone, Message.Valid;
    var z := Claims.CompleteUpdate(db, d.msg, Clean).1;
    var closing := d.(pc := AtAck(Closing(d.pc.why)));
    AloneStep(cfg, db, d, script, closing.pc, z);
    AloneStep(cfg, z, closing, script, Ended(false), z);
    AloneEnds(cfg, z, d.(pc := Ended(false), finalAcks := d.finalAcks + 1), script);
  }

  lemma TerminalRow(db: Db, invoice: SignedInvoice, causeText: string)
    requires invoice.sourceID in db.submissions && invoice.sourceID in db.bills
    requires db.submissions[invoice.sourceID].outcomeState == PENDING
    ensures var (reply, z) := Chain.Record(db, invoice, TerminalOutcome(causeText), Clean);
      && reply.Ok? && Finalises(db, z, invoice.sourceID, causeText)
      && z.claims == db.claims && z.branches == db.branches && z.bills == db.bills
  {
    var o := Outcome(TERMINAL, "DAEMON_RETRY_EXHAUSTED", causeText, Local, "");
    assert TerminalOutcome(causeText) == o && CanBeRecorded(o);
    StatesDiffer();
    hide Chain.Record, AnswersRow, LogsAnswer, TerminalOutcome, CanBeRecorded;
    var text := RecordWrites(db, invoice, o, Clean);
  }

  /** Main result on the delivery limit: a finalization that runs without a fault records a terminal failure for an
      invoice without an answer, leaves any other invoice as it is, completes the claim and acknowledges once. */
  lemma ExhaustedDeliveriesAreClosed(cfg: Config, db: Db, d: Delivery, script: Script)
    requires Sound(db) && d.pc.AtFinalRead? && FinalisesCleanly(script)
    requires d.msg.Valid() && Claims.Owns(db, d.msg)
    ensures var (e, z) := RunAlone(cfg, db, d, script);
      && e == d.(pc := Ended(false), finalAcks := d.finalAcks + 1) && ClaimCompleted(z, d.msg)
      && Finalises(db, z, d.msg.id, script(5).causeText)
      && z.bills == db.bills && z.branches == db.branches
  {
    hide RunAlone, Message.Valid, SignedInvoice.Valid, Chain.Record, Finalises, ClaimCompleted, Sound, TerminalOutcome;
    FinalReadLeads(cfg, db, d, script);
    var (k, done) := (d.msg.id, d.(pc := AtComplete(Finalize(d.pc.cause))));
    if k in db.submissions && k in db.bills && db.submissions[k].outcomeState == PENDING {
      var invoice := Chain.Stored(db, k).value;
      hide Chain.Stored;
      TerminalRow(db, invoice, script(5).causeText);
      var z := Chain.Record(db, invoice, TerminalOutcome(script(5).causeText), Clean).1;
      var recording := d.(pc := AtFinalRecord(invoice, d.pc.cause));
      AloneStep(cfg, db, d, script, recording.pc, db);
      AloneStep(cfg, db, recording, script, done.pc, z);
      FromFinalComplete(cfg, z, done, script);
      SameRows(db, z, RunAlone(cfg, z, done, script).1, k, script(5).causeText);
    } else {
      hide Chain.Stored;
      AloneStep(cfg, db, d, script, done.pc, db);
      FromFinalComplete(cfg, db, done, script);
      NothingFinalised(db, RunAlone(cfg, db, done, script).1, k, script(5).causeText);
    }
  }

  lemma SameRows(db: Db, z: Db, after: Db, k: int, causeText: string)
    requires Finalises(db, z, k, causeText) && after.submissions == z.submissions
    ensures Finalises(db, after, k, causeText)
  {
    hide AnswersRow;
  }

  lemma NothingFinalised(db: Db, z: Db, k: int, causeText: string)
    requires !(k in db.submissions && k in db.bills && db.submissions[k].outcomeState == PENDING)
    requires z.submissions == db.submissions
    ensures Finalises(db, z, k, causeText)
  {
    hide AnswersRow;
  }

  lemma FinalReadLeads(cfg: Config, db: Db, d: Delivery, script: Script)
    requires Sound(db) && d.pc.AtFinalRead? && script(6).fault == Clean
    ensures var (k, i) := (d.msg.id, Chain.Stored(db, d.msg.id));
      if k in db.submissions && k in db.bills && db.submissions[k].outcomeState == PENDING
      then i.Some? && i.value.sourceID == k && Next(cfg, db, d, script(6)) == (AtFinalRecord(i.value, d.pc.cause), db)
      else Next(cfg, db, d, script(6)) == (AtComplete(Finalize(d.pc.cause)), db)
  {
    hide Sound, Message.Valid, SignedInvoice.Valid, Chain.Stored;
    PendingIsUnanswered(db, d.msg.id);
  }

  lemma PendingIsUnanswered(db: Db, k: int)
    requires Sound(db)
    ensures var i := Chain.Stored(db, k);
      && (i.Some? <==> k in db.submissions && k in db.bills)
      && (i.Some? ==> i.value.sourceID == k && (i.value.outcome == "" <==> db.submissions[k].outcomeState == PENDING))
  {
    if Chain.Stored(db, k).Some? { StoredCarries(db, k); }
    hide Sound, ParseEvidence, Carries;
  }

  // ---------------------------------------------------------------- what the provider's answer returns

  /** The error that reports a recorded state. */
  function Report(state: string): Errors {
    if state == REJECTED then {InvoiceRejected} else if state == AMBIGUOUS then {OutcomeAmbiguous} else {}
  }

  /** The transactions after a submission and the acknowledgement succeed. */
  ghost predicate ClosesCleanly(script: Script) {
    script(13).fault == Clean && script(12).fault == Clean && script(8).ackSucceeds
  }

  lemma FromFinish(cfg: Config, db: Db, d: Delivery, script: Script)
    requires d.pc.AtComplete? && d.pc.why.Finish? && ClosesCleanly(script) && d.msg.Valid() && Claims.Owns(db, d.msg)
    ensures var row := db.claims[KeyOf(d.msg)];
      var z := db.(claims := db.claims[KeyOf(d.msg) := row.(completed := true, leaseEnd := None)]);
      Handle(cfg, db, d, script) == (d.(pc := Returned(d.pc.why.result), acks := d.acks + 1), z)
  {
    hide Handle, Message.Valid;
    HandleStep(cfg, db, d, script);
    var z := Claims.CompleteUpdate(db, d.msg, Clean).1;
    AckReturns(cfg, z, d.(pc := AtAck(Closing(d.pc.why))), script);
    assert d.pc.why.result + {} == d.pc.why.result;
  }

  lemma RecordsTheState(db: Db, invoice: SignedInvoice, o: Outcome)
    requires invoice.sourceID in db.submissions && Chain.Recordable(o)
    requires db.submissions[invoice.sourceID].outcomeState == PENDING
    ensures var (reply, z) := Chain.Record(db, invoice, o, Clean);
      && reply.Ok? && z.claims == db.claims && z.branches == db.branches
      && invoice.sourceID in z.submissions && z.submissions[invoice.sourceID].outcomeState == o.state
  {
    hide Blank, ValidEvidenceText, OutcomeText;
  }

  /** The step of a submission, and the record that follows it. */
  lemma SubmitStep(cfg: Config, db: Db, d: Delivery, script: Script, o: Outcome)
    requires d.pc.AtSubmit? && d.pc.invoice.Valid() && script(14).answer.Some?
    requires Provider.Classify(d.pc.invoice.kind, script(14).answer.value).outcome == Some(o)
    ensures Handle(cfg, db, d, script)
         == Handle(cfg, db, d.(pc := AtRecord(d.pc.invoice, script(14).answer.value, o, Report(o.state))), script)
  {
    hide Handle, SignedInvoice.Valid, Message.Valid;
    Provider.VerdictsAreRecordable(d.pc.invoice.kind, script(14).answer.value);
    hide Provider.Classify;
    HandleStep(cfg, db, d, script);
  }

  lemma RecordStep(cfg: Config, db: Db, d: Delivery, script: Script)
    requires d.pc.AtRecord? && script(13).fault == Clean
    requires Chain.Record(db, d.pc.invoice, d.pc.outcome, Clean).0.Ok?
    ensures Handle(cfg, db, d, script)
         == Handle(cfg, Chain.Record(db, d.pc.invoice, d.pc.outcome, Clean).1,
                   d.(pc := AtComplete(Finish(d.pc.result))), script)
  {
    hide Handle, SignedInvoice.Valid, Message.Valid, Chain.Record;
    HandleStep(cfg, db, d, script);
  }

  lemma FromRecorded(cfg: Config, db: Db, d: Delivery, script: Script)
    requires d.pc.AtRecord? && d.msg.Valid() && Claims.Owns(db, d.msg) && ClosesCleanly(script)
    requires Chain.Recordable(d.pc.outcome) && d.pc.invoice.sourceID in db.submissions
    requires db.submissions[d.pc.invoice.sourceID].outcomeState == PENDING
    ensures var (h, z) := Handle(cfg, db, d, script);
      && d.pc.invoice.sourceID in z.submissions
      && z.submissions[d.pc.invoice.sourceID].outcomeState == d.pc.outcome.state
      && h == d.(pc := Returned(d.pc.result), acks := d.acks + 1)
      && ClaimCompleted(z, d.msg) && z.branches == db.branches
  {
    hide Handle, Next, Message.Valid, SignedInvoice.Valid, Chain.Record, Chain.Recordable;
    RecordsTheState(db, d.pc.invoice, d.pc.outcome);
    RecordStep(cfg, db, d, script);
    var z := Chain.Record(db, d.pc.invoice, d.pc.outcome, Clean).1;
    FromFinish(cfg, z, d.(pc := AtComplete(Finish(d.pc.result))), script);
  }

  /** Main result on answers: when the provider gives an outcome for a pending invoice, it is recorded, the claim is
      completed, the delivery is acknowledged once, and HandleMessage reports the recorded state: a rejection, an
      ambiguous answer, or no error for an accepted or warned invoice. */
  lemma AnswersAreReported(cfg: Config, db: Db, d: Delivery, script: Script)
    requires d.pc.AtSubmit? && d.pc.invoice.Valid() && d.msg.Valid() && Claims.Owns(db, d.msg) && ClosesCleanly(script)
    requires d.pc.invoice.sourceID in db.submissions
    requires db.submissions[d.pc.invoice.sourceID].outcomeState == PENDING
    requires script(14).answer.Some?
    requires Provider.Classify(d.pc.invoice.kind, script(14).answer.value).outcome.Some?
    ensures var (h, z) := Handle(cfg, db, d, script);
      var state := Provider.Classify(d.pc.invoice.kind, script(14).answer.value).outcome.value.state;
      && d.pc.invoice.sourceID in z.submissions && z.submissions[d.pc.invoice.sourceID].outcomeState == state
      && h == d.(pc := Returned(Report(state)), acks := d.acks + 1)
      && ClaimCompleted(z, d.msg) && z.branches == db.branches
  {
    var (invoice, answer) := (d.pc.invoice, script(14).answer.value);
    Provider.VerdictsAreRecordable(invoice.kind, answer);
    var o := Provider.Classify(invoice.kind, answer).outcome.value;
    hide Handle, Next, Message.Valid, SignedInvoice.Valid, Provider.Classify, Chain.Recordable, Report, Claims.Owns,
      ClosesCleanly, ClaimCompleted;
    SubmitStep(cfg, db, d, script, o);
    FromRecorded(cfg, db, d.(pc := AtRecord(invoice, answer, o, Report(o.state))), script);
  }

  lemma FailedSubmitStep(cfg: Config, db: Db, d: Delivery, script: Script)
    requires d.pc.AtSubmit?
    requires !d.pc.invoice.Valid() || script(14).answer.None?
      || Provider.Classify(d.pc.invoice.kind, script(14).answer.value).outcome.None?
    ensures Handle(cfg, db, d, script) == Handle(cfg, db, d.(pc := AtUnclaim({Technical})), script)
  {
    hide Handle, SignedInvoice.Valid, Message.Valid;
    if script(14).answer.Some? { Provider.VerdictsAreRecordable(d.pc.invoice.kind, script(14).answer.value); }
    hide Provider.Classify;
    assert RejectedInput !in {Technical};
    HandleStep(cfg, db, d, script);
  }

  lemma ReleaseReturns(cfg: Config, db: Db, d: Delivery, script: Script)
    requires d.pc.AtUnclaim? && d.msg.Valid() && Claims.Owns(db, d.msg) && script(10).fault == Clean
    requires db.claims[KeyOf(d.msg)].leaseEnd.Some?
    ensures Handle(cfg, db, d, script)
         == (d.(pc := Returned(d.pc.cause)), GivenBack(db, d.msg))
  {
    hide Handle, SignedInvoice.Valid, Message.Valid;
    HandleStep(cfg, db, d, script);
    HandleReturns(cfg, Claims.ReleaseUpdate(cfg, db, d.msg, Clean).1, d.(pc := Returned(d.pc.cause)), script);
  }

  /** An answer without an outcome is a technical failure: the delivery returns unacknowledged and gives its claim back,
      so that the same invoice is submitted again. */
  lemma NoOutcomeIsRetried(cfg: Config, db: Db, d: Delivery, script: Script)
    requires d.pc.AtSubmit? && d.msg.Valid() && Claims.Owns(db, d.msg) && script(10).fault == Clean
    requires db.claims[KeyOf(d.msg)].leaseEnd.Some?
    requires !d.pc.invoice.Valid() || script(14).answer.None?
      || Provider.Classify(d.pc.invoice.kind, script(14).answer.value).outcome.None?
    ensures Handle(cfg, db, d, script)
         == (d.(pc := Returned({Technical})), GivenBack(db, d.msg))
  {
    hide Handle, Message.Valid, SignedInvoice.Valid;
    FailedSubmitStep(cfg, db, d, script);
    hide Provider.Classify, Next;
    ReleaseReturns(cfg, db, d.(pc := AtUnclaim({Technical})), script);
  }

  // ---------------------------------------------------------------- closing that fails

  /** A finished request whose claim cannot be completed gives it back and returns unacknowledged: the redelivery finds
      the answer and closes the request. */
  lemma FailedCompletionsAreRetried(cfg: Config, db: Db, d: Delivery, script: Script)
    requires d.pc.AtComplete? && d.pc.why.Finish? && d.msg.Valid() && Claims.Owns(db, d.msg)
    requires db.claims[KeyOf(d.msg)].leaseEnd.Some? && script(12).fault.Failed? && script(10).fault == Clean
    ensures Handle(cfg, db, d, script) == (d.(pc := Returned({Technical})), GivenBack(db, d.msg))
  {
    hide Handle, Message.Valid;
    assert RejectedInput !in {Technical};
    HandleStep(cfg, db, d, script);
    ReleaseReturns(cfg, db, d.(pc := AtUnclaim({Technical})), script);
  }

  /** A lost acknowledgement is reported together with what the delivery had to report; only a conflict stays as it
      is. */
  lemma LostAcksAreReported(cfg: Config, db: Db, d: Delivery, script: Script)
    requires d.pc.AtAck? && !FinalAck(d.pc) && !script(8).ackSucceeds
    ensures var (h, z) := Handle(cfg, db, d, script);
      && z == db && h.pc.Returned? && h.acks == d.acks + 1
      && (d.pc.reason.Mismatch? ==> h.pc.result == {FingerprintConflict})
      && (!d.pc.reason.Mismatch? ==> Technical in h.pc.result)
      && (d.pc.reason.Closing? ==>
            (if d.pc.reason.why.Finish? then d.pc.reason.why.result else d.pc.reason.why.cause) <= h.pc.result)
  {
    hide Handle;
    AckReturns(cfg, db, d, script);
  }

  /** What completing a claim answers: nothing for this event's own claim, also when it is repeated; that it is stale
      when another event has taken it over; and that there is none for an unknown request or other content. */
  lemma CompletionAnswers(db: Db, msg: Message)
    requires msg.Valid()
    ensures var (errors, z) := Claims.Completed(db, msg, Clean, Clean);
      var known := KeyOf(msg) in db.claims && db.claims[KeyOf(msg)].fingerprint == msg.fingerprint;
      && (errors == {ClaimNotFound} <==> !known)
      && (errors == {ClaimStale} <==> known && db.claims[KeyOf(msg)].eventID != msg.eventID)
      && (errors == {} <==> known && db.claims[KeyOf(msg)].eventID == msg.eventID)
      && (errors == {} ==> ClaimCompleted(z, msg)) && (errors != {} ==> z == db)
      && (errors == {} ==> Claims.Completed(z, msg, Clean, Clean) == ({}, z))
  {
    hide Message.Valid;
    assert ClaimNotFound !in {ClaimStale} && ClaimStale in {ClaimStale} && ClaimNotFound in {ClaimNotFound};
  }

  /** What releasing a claim answers for an event that does not hold it. */
  lemma ReleaseAnswers(cfg: Config, db: Db, msg: Message)
    requires msg.Valid() && !Claims.Owns(db, msg)
    ensures Claims.Released(cfg, db, msg, Clean, Clean) == Claims.Completed(db, msg, Clean, Clean)
  {
    hide Message.Valid;
  }
}
