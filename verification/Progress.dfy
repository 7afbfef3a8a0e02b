/** No reachable state is wedged: once leases have expired, one redelivery without a fault finishes the request. */
module Progress {
  import opened Text
  import opened Messages
  import opened Tables
  import opened Operations
  import opened ChainSafety
  import opened HashChain
  import opened Stream
  import opened World
  import opened WorldSafety
  import Chain
  import Claims
  import Provider

  /** The signer answers every booking of this message with an invoice that passes checkBuilt. */
  ghost predicate Builds(build: Booking -> Option<SignedInvoice>, msg: Message) {
    forall b | BookingOf(b, msg) && b.icv != 0 && !Blank(b.pih) ::
      build(b).Some? && CheckBuilt(Unanswered(build(b).value), msg, b)
  }

  /** Nothing fails: every effect is applied and answered, and the provider gives an outcome. */
  ghost predicate Smooth(inp: Input, msg: Message, now: int) {
    && inp.fault == Clean && inp.now >= now && inp.ackSucceeds && inp.prepare.Verified?
    && Builds(inp.build, msg)
    && inp.answer.Some? && Decides(inp.answer.value)
  }

  ghost predicate FaultFree(script: Script, msg: Message, now: int) {
    forall n :: Smooth(script(n), msg, now)
  }

  /** The provider's answer is an outcome for either kind of invoice. */
  ghost predicate Decides(answer: Provider.Answer) {
    forall kind :: Provider.Classify(kind, answer).outcome.Some?
  }

  /** The request is not taken by other content, its event is its own, and no delivery holds a live lease on it. */
  ghost predicate Claimable(db: Db, msg: Message, now: int) {
    && msg.Valid() && !Claims.EventTaken(db, msg)
    && (KeyOf(msg) in db.claims ==>
          var row := db.claims[KeyOf(msg)];
          row.fingerprint == msg.fingerprint && !row.completed && !Claims.LeaseLive(row, now))
  }

  /** A final sale of the branch whose UUID is unset or the envelope's. */
  ghost predicate Verifiable(db: Db, msg: Message) {
    && msg.id in db.bills
    && db.bills[msg.id].branchID == msg.branchID && db.bills[msg.id].state >= 1
    && (db.bills[msg.id].invoiceUUID == None || db.bills[msg.id].invoiceUUID == Some(msg.invoiceUUID))
  }

  /** The branch has a chain with numbers left, and no live booking. */
  ghost predicate Bookable(db: Db, msg: Message, now: int) {
    && msg.branchID in db.branches
    && !Chain.LeaseLive(db.branches[msg.branchID], now)
    && db.branches[msg.branchID].lastICV < MAX_INT64
  }

  /** The request is finished: its invoice is answered, its claim completed and the delivery acknowledged once. */
  ghost predicate Finished(d: Delivery, db: Db, msg: Message) {
    IsAnswered(db, msg.id) && ClaimCompleted(db, msg) && d.acks == 1 && d.finalAcks == 0 && d.pc == Ended(false)
  }

  lemma FromReturned(cfg: Config, db: Db, d: Delivery, script: Script)
    requires d.pc.Returned? && (d.pc.result == {} || Named(d.pc.result))
    ensures RunAlone(cfg, db, d, script) == (d.(pc := Ended(false)), db)
  {
    AloneStep(cfg, db, d, script, Ended(false), db);
  }

  lemma FromAck(cfg: Config, db: Db, d: Delivery, script: Script, now: int)
    requires FaultFree(script, d.msg, now) && d.acks == 0
    requires d.pc.AtAck? && d.pc.reason.Closing? && d.pc.reason.why.Finish?
    requires d.pc.reason.why.result == {} || Named(d.pc.reason.why.result)
    ensures RunAlone(cfg, db, d, script) == (d.(pc := Ended(false), acks := 1), db)
  {
    hide RunAlone, Named, Builds, Decides;
    var result := d.pc.reason.why.result;
    assert script(8).ackSucceeds && result + {} == result;
    AloneStep(cfg, db, d, script, Returned(result), db);
    FromReturned(cfg, db, d.(pc := Returned(result), acks := 1), script);
  }

  lemma FromComplete(cfg: Config, db: Db, d: Delivery, script: Script, now: int)
    requires FaultFree(script, d.msg, now) && d.msg.Valid() && Claims.Owns(db, d.msg)
    requires d.pc.AtComplete? && d.pc.why.Finish? && (d.pc.why.result == {} || Named(d.pc.why.result))
    requires d.acks == 0 && d.finalAcks == 0 && IsAnswered(db, d.msg.id)
    ensures var (e, z) := RunAlone(cfg, db, d, script); Finished(e, z, d.msg) && z.submissions == db.submissions
  {
    hide RunAlone, Named, Builds, Decides, Message.Valid;
    assert script(12).fault == Clean;
    var (reply, db') := Claims.CompleteUpdate(db, d.msg, Clean);
    AloneStep(cfg, db, d, script, AtAck(Closing(d.pc.why)), db');
    FromAck(cfg, db', d.(pc := AtAck(Closing(d.pc.why))), script, now);
  }

  lemma FromRecord(cfg: Config, db: Db, d: Delivery, script: Script, now: int)
    requires FaultFree(script, d.msg, now) && Holding(db, d) && Claims.Owns(db, d.msg)
    requires d.pc.AtRecord? && (d.pc.result == {} || Named(d.pc.result)) && d.acks == 0 && d.finalAcks == 0
    ensures var (e, z) := RunAlone(cfg, db, d, script); Finished(e, z, d.msg)
  {
    hide RunAlone, Named, Builds, Decides, Message.Valid, Provider.Classify, ValidEvidenceText, Chain.LogEntry;
    var (invoice, outcome) := (d.pc.invoice, d.pc.outcome);
    Provider.VerdictsAreRecordable(invoice.kind, d.pc.answer);
    assert script(13).fault == Clean;
    var (reply, db') := Chain.Record(db, invoice, outcome, Clean);
    RecordAnswers(db, invoice, outcome, Clean);
    RowsLeaveClaims(cfg, db, Op.Record(invoice, outcome, Clean));
    var pc' := AtComplete(Finish(d.pc.result));
    AloneStep(cfg, db, d, script, pc', db');
    FromComplete(cfg, db', d.(pc := pc'), script, now);
  }

  lemma FromSubmit(cfg: Config, db: Db, d: Delivery, script: Script, now: int)
    requires Sound(db) && FaultFree(script, d.msg, now) && Holding(db, d) && Claims.Owns(db, d.msg)
    requires d.pc.AtSubmit? && d.pc.invoice.Valid() && d.acks == 0 && d.finalAcks == 0
    ensures var (e, z) := RunAlone(cfg, db, d, script); Finished(e, z, d.msg)
  {
    hide RunAlone, Builds, Message.Valid, SignedInvoice.Valid, Provider.Classify, Sound, Claims.Owns;
    var inp := script(14);
    assert inp.answer.Some? && Decides(inp.answer.value);
    Provider.VerdictsAreRecordable(d.pc.invoice.kind, inp.answer.value);
    SubmitKeepsHolding(cfg, db, d, inp);
    var pc' := AfterSubmit(d.pc.invoice, inp.answer);
    assert pc'.AtRecord? && (pc'.result == {} || Named(pc'.result));
    AloneStep(cfg, db, d, script, pc', db);
    FromRecord(cfg, db, d.(pc := pc'), script, now);
  }

  lemma FromCommit(cfg: Config, db: Db, d: Delivery, script: Script, now: int)
    requires Sound(db) && FaultFree(script, d.msg, now) && d.msg.Valid() && Claims.Owns(db, d.msg)
    requires d.pc.AtCommit? && d.acks == 0 && d.finalAcks == 0
    requires Holding(db, d) && Chain.CommitRefusal(db, d.pc.booking, d.pc.invoice) == {}
    ensures var (e, z) := RunAlone(cfg, db, d, script); Finished(e, z, d.msg)
  {
    hide RunAlone, Builds, Decides, Message.Valid, Sound, Finished;
    var (b, invoice) := (d.pc.booking, d.pc.invoice);
    var db' := Chain.Committed(db, b, invoice);
    assert script(16).fault == Clean;
    CommitKeepsHolding(cfg, db, d, script(16));
    CommitKeepsSound(db, b, invoice);
    AloneStep(cfg, db, d, script, AtSubmit(invoice), db');
    FromSubmit(cfg, db', d.(pc := AtSubmit(invoice)), script, now);
  }

  lemma BuiltInvoice(cfg: Config, db: Db, d: Delivery, inp: Input, now: int) returns (invoice: SignedInvoice)
    requires Smooth(inp, d.msg, now) && d.pc.AtBuild?
    requires BookingOf(d.pc.booking, d.msg) && d.pc.booking.icv != 0 && !Blank(d.pc.booking.pih)
    ensures CheckBuilt(invoice, d.msg, d.pc.booking) && invoice.outcome == ""
    ensures Next(cfg, db, d, inp) == (AtCommit(d.pc.booking, invoice), db)
  {
    invoice := Unanswered(inp.build(d.pc.booking).value);
  }

  lemma FromBuild(cfg: Config, db: Db, d: Delivery, script: Script, now: int)
    requires Sound(db) && FaultFree(script, d.msg, now) && d.msg.Valid() && Claims.Owns(db, d.msg)
    requires d.pc.AtBuild? && d.acks == 0 && d.finalAcks == 0
    requires BookingOf(d.pc.booking, d.msg) && d.pc.booking.icv != 0 && !Blank(d.pc.booking.pih)
    requires forall i | CheckBuilt(i, d.msg, d.pc.booking) :: Chain.CommitRefusal(db, d.pc.booking, i) == {}
    ensures var (e, z) := RunAlone(cfg, db, d, script); Finished(e, z, d.msg)
  {
    hide RunAlone, Next, Message.Valid, Sound, Finished, CheckBuilt, Blank, Claims.Owns, Chain.CommitRefusal;
    var b := d.pc.booking;
    assert Smooth(script(17), d.msg, now);
    var invoice := BuiltInvoice(cfg, db, d, script(17), now);
    AloneStep(cfg, db, d, script, AtCommit(b, invoice), db);
    FromCommit(cfg, db, d.(pc := AtCommit(b, invoice)), script, now);
  }

  lemma BookingIsReady(cfg: Config, db: Db, msg: Message, at: int, now: int)
    requires Sound(db) && msg.Valid() && at >= now
    requires Verifiable(db, msg) && Bookable(db, msg, now) && msg.id !in db.submissions
    requires !Blank(Chain.EffectivePIH(db.branches[msg.branchID]))
    ensures var (reply, db') := Chain.Book(cfg, db, msg, at, Clean);
      && reply.Ok? && BookingOf(reply.value, msg) && reply.value.icv != 0 && !Blank(reply.value.pih)
      && db'.claims == db.claims
      && forall i | CheckBuilt(i, msg, reply.value) :: Chain.CommitRefusal(db', reply.value, i) == {}
  {
    BookAnswer(cfg, db, msg, at);
    var (reply, db') := Chain.Book(cfg, db, msg, at, Clean);
    forall i | CheckBuilt(i, msg, reply.value)
      ensures Chain.CommitRefusal(db', reply.value, i) == {}
    {
      BookedCommits(cfg, db, msg, at, i);
    }
  }

  lemma FromBook(cfg: Config, db: Db, d: Delivery, script: Script, now: int)
    requires Sound(db) && FaultFree(script, d.msg, now) && d.msg.Valid() && Claims.Owns(db, d.msg)
    requires Verifiable(db, d.msg) && Bookable(db, d.msg, now) && d.msg.id !in db.submissions
    requires !Blank(Chain.EffectivePIH(db.branches[d.msg.branchID]))
    requires d.pc.AtBook? && d.acks == 0 && d.finalAcks == 0
    ensures var (e, z) := RunAlone(cfg, db, d, script); Finished(e, z, d.msg)
  {
    hide RunAlone, Builds, Decides, Message.Valid, Sound, Finished, Verifiable, Bookable, Chain.Book,
      Chain.CommitRefusal, Blank;
    var inp := script(18);
    assert inp.fault == Clean && inp.now >= now;
    BookingIsReady(cfg, db, d.msg, inp.now, now);
    ApplyKeepsSound(cfg, db, Op.Book(d.msg, inp.now, Clean));
    var (reply, db') := Chain.Book(cfg, db, d.msg, inp.now, Clean);
    AloneStep(cfg, db, d, script, AtBuild(reply.value), db');
    FromBuild(cfg, db', d.(pc := AtBuild(reply.value)), script, now);
  }

  lemma FromRead(cfg: Config, db: Db, d: Delivery, script: Script, now: int)
    requires Sound(db) && FaultFree(script, d.msg, now) && d.msg.Valid() && Claims.Owns(db, d.msg)
    requires Verifiable(db, d.msg)
    requires d.msg.id !in db.submissions ==>
      Bookable(db, d.msg, now) && !Blank(Chain.EffectivePIH(db.branches[d.msg.branchID]))
    requires d.pc.AtRead? && d.acks == 0 && d.finalAcks == 0
    ensures var (e, z) := RunAlone(cfg, db, d, script); Finished(e, z, d.msg)
  {
    hide RunAlone, Builds, Decides, Message.Valid, Sound, Finished, Bookable, Chain.Stored, Claims.Owns, Blank;
    assert Smooth(script(20), d.msg, now) && Smooth(script(19), d.msg, now);
    if d.msg.id in db.submissions {
      StoredIsChecked(db, d.msg);
      StoredCarries(db, d.msg.id);
      var invoice := Chain.Stored(db, d.msg.id).value;
      var pc' := if invoice.outcome != "" then AtComplete(Finish({})) else AtSubmit(invoice);
      AloneStep(cfg, db, d, script, pc', db);
      if pc'.AtSubmit? { FromSubmit(cfg, db, d.(pc := pc'), script, now); }
        else { FromComplete(cfg, db, d.(pc := pc'), script, now); }
    } else {
      NothingStored(db, d.msg.id);
      AloneStep(cfg, db, d, script, AtPrepare, db);
      AloneStep(cfg, db, d.(pc := AtPrepare), script, AtBook, db);
      FromBook(cfg, db, d.(pc := AtBook), script, now);
    }
  }

  lemma NothingStored(db: Db, k: int)
    requires k !in db.submissions
    ensures Chain.Stored(db, k).None?
  {
  }

  /** What is stored for a verifiable bill passes checkStored. */
  lemma StoredIsChecked(db: Db, msg: Message)
    requires Sound(db) && msg.Valid() && Verifiable(db, msg) && msg.id in db.submissions
    ensures Chain.Stored(db, msg.id).Some? && CheckStored(Chain.Stored(db, msg.id).value, msg)
  {
    assert SubmissionShape(db, msg.id, db.submissions[msg.id]);
  }

  lemma ClaimIsTaken(cfg: Config, db: Db, msg: Message, at: int, now: int)
    requires Claimable(db, msg, now) && at >= now
    ensures var (reply, db') := Claims.Claim(cfg, db, msg, at, Clean);
      && reply == Reply.Ok(Claims.Process) && Claims.Owns(db', msg)
      && db'.submissions == db.submissions && db'.bills == db.bills && db'.branches == db.branches
  {
  }

  lemma FromClaim(cfg: Config, db: Db, msg: Message, exhausted: bool, script: Script, now: int)
    requires Sound(db) && FaultFree(script, msg, now) && Claimable(db, msg, now) && Verifiable(db, msg)
    requires msg.id !in db.submissions ==>
      Bookable(db, msg, now) && !Blank(Chain.EffectivePIH(db.branches[msg.branchID]))
    ensures var (e, z) := RunAlone(cfg, db, Received(msg, exhausted), script); Finished(e, z, msg)
  {
    hide RunAlone, Builds, Decides, Message.Valid, Sound, Finished, Claims.Claim, Blank;
    var d := Received(msg, exhausted);
    var inp := script(21);
    assert inp.fault == Clean && inp.now >= now;
    ClaimIsTaken(cfg, db, msg, inp.now, now);
    ApplyKeepsSound(cfg, db, Op.Claim(msg, inp.now, Clean));
    var db' := Claims.Claim(cfg, db, msg, inp.now, Clean).1;
    AloneStep(cfg, db, d, script, AtRead, db');
    FromRead(cfg, db', d.(pc := AtRead), script, now);
  }

  lemma PihIsNotBlank(db: Db, branch: int, bills: seq<int>)
    requires Sound(db) && IsLedger(db, branch, bills)
    ensures !Blank(Chain.EffectivePIH(db.branches[branch]))
  {
    if |bills| > 0 {
      var last := bills[|bills| - 1];
      assert SubmissionShape(db, last, db.submissions[last]);
    } else {
      assert GENESIS_PIH[|GENESIS_PIH| - 1] == '=' && !IsSpace('=');
    }
  }

  /** Main result: after any run with any crashes, faults and lost replies, once the leases on the request and its
      branch have expired, one redelivery without a fault of a verifiable bill ends with the outcome recorded, the claim
      completed and the delivery acknowledged. Numbers must be left only when the bill has no invoice yet. */
  lemma NoStateIsWedged(cfg: Config, w: World, actions: seq<Action>, msg: Message, exhausted: bool, script: Script,
                        now: int)
    requires Start(w) && FaultFree(script, msg, now)
    requires var z := Run(cfg, w, actions).db;
      Claimable(z, msg, now) && Verifiable(z, msg) && (msg.id in z.submissions || Bookable(z, msg, now))
    ensures var (e, after) := RunAlone(cfg, Run(cfg, w, actions).db, Received(msg, exhausted), script);
      Finished(e, after, msg)
  {
    var z := Run(cfg, w, actions).db;
    RunIsSafe(cfg, w, actions);
    if msg.id !in z.submissions {
      RunIsOperations(cfg, w, actions);
      var bills := ChainIntegrity(cfg, w.db, OpsOfRun(cfg, w, actions), msg.branchID);
      PihIsNotBlank(z, msg.branchID, bills);
    }
    FromClaim(cfg, z, msg, exhausted, script, now);
  }

  /** A redelivery of a completed request is acknowledged and changes nothing. */
  lemma CompletedIsOnlyAcknowledged(cfg: Config, db: Db, msg: Message, exhausted: bool, script: Script, now: int)
    requires FaultFree(script, msg, now) && msg.Valid() && ClaimCompleted(db, msg)
    requires db.claims[KeyOf(msg)].fingerprint == msg.fingerprint
    ensures RunAlone(cfg, db, Received(msg, exhausted), script)
         == (Received(msg, exhausted).(pc := Ended(false), acks := 1), db)
  {
    hide Builds, Decides, Message.Valid;
    var d := Received(msg, exhausted);
    assert Smooth(script(21), msg, now) && Smooth(script(8), msg, now);
    AloneStep(cfg, db, d, script, AtAck(Repeat), db);
    AloneStep(cfg, db, d.(pc := AtAck(Repeat)), script, Returned({}), db);
    FromReturned(cfg, db, d.(pc := Returned({}), acks := 1), script);
  }

  /** The exact limit of progress: from the largest signed number on, no invoice of the branch is ever committed again,
      whatever happens. */
  lemma LastNumberStalls(cfg: Config, db: Db, ops: seq<Op>, b: Booking, invoice: SignedInvoice)
    requires Sound(db) && b.branchID in db.branches && db.branches[b.branchID].lastICV >= MAX_INT64
    ensures Chain.CommitRefusal(ApplyAll(cfg, db, ops), b, invoice) != {}
  {
    RunIsSound(cfg, db, ops);
    assert ReservationShape(ApplyAll(cfg, db, ops).branches[b.branchID]);
  }
}
