/** One delivery as a machine of atomic effects: handleDelivery of cmd/daemon/worker.go around HandleMessage and
    FinalizePermanentFailure of queue/ordered_stream.go. Between two steps anything else may happen. */
module Stream {
  import opened Text
  import opened Messages
  import opened Tables
  import Chain
  import Claims
  import Provider

  /** What verification says beyond the checks on the bill row: it passes, refuses the bill, or could not run. */
  datatype PrepareAnswer = Verified | Refused | Unavailable

  /** Everything a step takes from outside the tables. An answer is None when nothing was sent to the provider. */
  datatype Input = Input(
    fault: Fault,
    now: int,
    prepare: PrepareAnswer,
    build: Booking -> Option<SignedInvoice>,
    answer: Option<Provider.Answer>,
    ackSucceeds: bool,
    causeText: string)

  /** Why a claim is completed: the request is done, its input is refused, or its delivery budget is used up. */
  datatype Purpose = Finish(result: Errors) | Reject(cause: Errors) | Finalize(cause: Errors)

  datatype AckReason = Repeat | Mismatch | Closing(why: Purpose)

  datatype Pc =
    | AtClaim
    | AtRead
    | AtPrepare
    | AtBook
    | AtBuild(booking: Booking)
    | AtCommit(booking: Booking, invoice: SignedInvoice)
    | AtUnbook(booking: Booking, cause: Errors)
    | AtSubmit(invoice: SignedInvoice)
    | AtRecord(invoice: SignedInvoice, answer: Provider.Answer, outcome: Outcome, result: Errors)
    | AtComplete(why: Purpose)
    | AtInspect(why: Purpose)
    | AtUnclaim(cause: Errors)
    | AtInspectRelease(cause: Errors)
    | AtAck(reason: AckReason)
    | Returned(result: Errors)
    | AtFinalRead(cause: Errors)
    | AtFinalRecord(invoice: SignedInvoice, cause: Errors)
    | Ended(terminated: bool)

  /** A delivery in progress. acks counts the calls of ack by HandleMessage, finalAcks those by the finalization. */
  datatype Delivery = Delivery(msg: Message, exhausted: bool, pc: Pc, acks: nat, finalAcks: nat)

  function Received(msg: Message, exhausted: bool): Delivery {
    Delivery(msg, exhausted, AtClaim, 0, 0)
  }

  // ---------------------------------------------------------------- pure parts

  predicate CheckStored(invoice: SignedInvoice, msg: Message) {
    && invoice.Valid() && invoice.sourceID == msg.id
    && invoice.uuid == msg.invoiceUUID && invoice.branchID == msg.branchID
  }

  predicate CheckBuilt(invoice: SignedInvoice, msg: Message, b: Booking) {
    && invoice.Valid() && invoice.sourceID == msg.id && invoice.branchID == msg.branchID
    && invoice.uuid == msg.invoiceUUID && invoice.uuid == b.uuid
    && invoice.icv == b.icv && invoice.pih == b.pih
  }

  /** Build leaves the outcome fields at their zero values. */
  function Unanswered(invoice: SignedInvoice): SignedInvoice {
    invoice.(outcome := "", evidence := Unspecified, evidenceID := "", providerCode := "", outcomeMessage := "")
  }

  /** Prepare: no error when the bill passes verification. */
  function Prepare(db: Db, msg: Message, answer: PrepareAnswer): Errors {
    if answer.Unavailable? then {Technical}
    else if msg.id !in db.bills then {RejectedInput}
    else
      var bill := db.bills[msg.id];
      if bill.branchID != msg.branchID || bill.state < 1
         || (bill.invoiceUUID.Some? && bill.invoiceUUID.value != msg.invoiceUUID) || answer.Refused?
      then {RejectedInput} else {}
  }

  function Failed(cause: Errors): Pc {
    if RejectedInput in cause then AtComplete(Reject(cause)) else AtUnclaim(cause)
  }

  /** Where a completion that failed leads. */
  function NotCompleted(why: Purpose, errors: Errors): Pc {
    match why
    case Finish(_) => Failed(errors)
    case Reject(cause) => Returned(cause + errors)
    case Finalize(_) => Ended(true)
  }

  function Acknowledged(reason: AckReason, succeeds: bool): Pc {
    var lost := if succeeds then {} else {Technical};
    match reason
    case Repeat => Returned(lost)
    case Mismatch => Returned({FingerprintConflict})
    case Closing(Finish(result)) => Returned(result + lost)
    case Closing(Reject(cause)) => Returned(cause + lost)
    case Closing(Finalize(_)) => Ended(!succeeds)
  }

  /** The errors that handleDelivery treats by name. Any other error counts against the delivery budget. */
  predicate Named(errors: Errors) {
    || ClaimInFlight in errors || ChainBusy in errors || InvoiceRejected in errors || OutcomeAmbiguous in errors
    || RejectedInput in errors || FingerprintConflict in errors
  }

  function AfterHandle(d: Delivery, result: Errors): Pc {
    if result != {} && !Named(result) && d.exhausted then AtFinalRead(result) else Ended(false)
  }

  function TerminalOutcome(text: string): Outcome {
    Outcome(TERMINAL, "DAEMON_RETRY_EXHAUSTED", text, Local, "")
  }

  // ---------------------------------------------------------------- where each reply leads

  function AfterClaim(reply: Reply<Claims.Decision>): Pc {
    match reply
    case Err(e) => Returned(e)
    case Ok(Duplicate) => AtAck(Repeat)
    case Ok(Conflict) => AtAck(Mismatch)
    case Ok(InFlight) => Returned({ClaimInFlight})
    case Ok(Process) => AtRead
  }

  function AfterRead(reply: Reply<Option<SignedInvoice>>, msg: Message): Pc {
    match reply
    case Err(e) => Failed(e)
    case Ok(None) => AtPrepare
    case Ok(Some(invoice)) =>
      if !CheckStored(invoice, msg) then Failed({Technical})
      else if invoice.outcome != "" then AtComplete(Finish({}))
      else AtSubmit(invoice)
  }

  function AfterBook(reply: Reply<Booking>): Pc {
    match reply
    case Err(e) => Failed(e)
    case Ok(b) => AtBuild(b)
  }

  function AfterBuild(built: Option<SignedInvoice>, msg: Message, b: Booking): Pc {
    if built.Some? && CheckBuilt(Unanswered(built.value), msg, b) then AtCommit(b, Unanswered(built.value))
    else AtUnbook(b, {Technical})
  }

  function AfterCommit(reply: Reply<()>, b: Booking, invoice: SignedInvoice): Pc {
    match reply
    case Err(e) => AtUnbook(b, e)
    case Ok(_) => AtSubmit(invoice)
  }

  function AfterUnbook(reply: Reply<()>, cause: Errors): Pc {
    match reply
    case Err(e) => Failed(cause + e)
    case Ok(_) => Failed(cause)
  }

  function AfterSubmit(invoice: SignedInvoice, answer: Option<Provider.Answer>): Pc {
    if !invoice.Valid() || answer.None? then Failed({Technical})
    else
      var v := Provider.Classify(invoice.kind, answer.value);
      if v.outcome.None? then Failed(v.errors)
      else AtRecord(invoice, answer.value, v.outcome.value,
                    if v.outcome.value.state == REJECTED then {InvoiceRejected} else v.errors)
  }

  function AfterRecord(reply: Reply<()>, result: Errors): Pc {
    match reply
    case Err(e) => Failed(e)
    case Ok(_) => AtComplete(Finish(result))
  }

  function AfterComplete(reply: Reply<bool>, why: Purpose): Pc {
    match reply
    case Err(e) => NotCompleted(why, e)
    case Ok(true) => AtAck(Closing(why))
    case Ok(false) => AtInspect(why)
  }

  function AfterInspect(errors: Errors, why: Purpose): Pc {
    if errors == {} then AtAck(Closing(why)) else NotCompleted(why, errors)
  }

  function AfterUnclaim(reply: Reply<bool>, cause: Errors): Pc {
    match reply
    case Err(e) => Returned(cause + e)
    case Ok(true) => Returned(cause)
    case Ok(false) => AtInspectRelease(cause)
  }

  function AfterFinalRead(reply: Reply<Option<SignedInvoice>>, cause: Errors): Pc {
    match reply
    case Err(_) => Ended(true)
    case Ok(None) => AtComplete(Finalize(cause))
    case Ok(Some(invoice)) =>
      if invoice.outcome == "" then AtFinalRecord(invoice, cause) else AtComplete(Finalize(cause))
  }

  function AfterFinalRecord(reply: Reply<()>, cause: Errors): Pc {
    if reply.Err? then Ended(true) else AtComplete(Finalize(cause))
  }

  // ---------------------------------------------------------------- one step

  /** The next program counter and the new tables. */
  function Next(cfg: Config, db: Db, d: Delivery, inp: Input): (Pc, Db) {
    var msg := d.msg;
    match d.pc
    case AtClaim =>
      var r := Claims.Claim(cfg, db, msg, inp.now, inp.fault);
      (AfterClaim(r.0), r.1)
    case AtRead => (AfterRead(Chain.Lookup(db, msg.id, inp.fault), msg), db)
    case AtPrepare =>
      var errors := Prepare(db, msg, inp.prepare);
      (if errors == {} then AtBook else Failed(errors), db)
    case AtBook =>
      var r := Chain.Book(cfg, db, msg, inp.now, inp.fault);
      (AfterBook(r.0), r.1)
    case AtBuild(b) => (AfterBuild(inp.build(b), msg, b), db)
    case AtCommit(b, invoice) =>
      var r := Chain.Commit(db, b, invoice, inp.fault);
      (AfterCommit(r.0, b, invoice), r.1)
    case AtUnbook(b, cause) =>
      var r := Chain.Release(db, b, inp.fault);
      (AfterUnbook(r.0, cause), r.1)
    case AtSubmit(invoice) => (AfterSubmit(invoice, inp.answer), db)
    case AtRecord(invoice, _, outcome, result) =>
      var r := Chain.Record(db, invoice, outcome, inp.fault);
      (AfterRecord(r.0, result), r.1)
    case AtComplete(why) =>
      var r := Claims.CompleteUpdate(db, msg, inp.fault);
      (AfterComplete(r.0, why), r.1)
    case AtInspect(why) => (AfterInspect(Claims.Inspect(db, msg, inp.fault), why), db)
    case AtUnclaim(cause) =>
      var r := Claims.ReleaseUpdate(cfg, db, msg, inp.fault);
      (AfterUnclaim(r.0, cause), r.1)
    case AtInspectRelease(cause) => (Returned(cause + Claims.Inspect(db, msg, inp.fault)), db)
    case AtAck(reason) => (Acknowledged(reason, inp.ackSucceeds), db)
    case Returned(result) => (AfterHandle(d, result), db)
    case AtFinalRead(cause) => (AfterFinalRead(Chain.Lookup(db, msg.id, inp.fault), cause), db)
    case AtFinalRecord(invoice, cause) =>
      var r := Chain.Record(db, invoice, TerminalOutcome(inp.causeText), inp.fault);
      (AfterFinalRecord(r.0, cause), r.1)
    case Ended(_) => (d.pc, db)
  }

  function Advance(cfg: Config, db: Db, d: Delivery, inp: Input): (Delivery, Db) {
    var (pc, db') := Next(cfg, db, d, inp);
    var final := d.pc.AtAck? && d.pc.reason.Closing? && d.pc.reason.why.Finalize?;
    (d.(pc := pc,
        acks := d.acks + (if d.pc.AtAck? && !final then 1 else 0),
        finalAcks := d.finalAcks + (if final then 1 else 0)), db')
  }

  // ---------------------------------------------------------------- a delivery on its own

  /** Every step goes to a lower rank, so a delivery that is not stopped ends. */
  function Rank(pc: Pc): nat {
    match pc
    case AtClaim => 21
    case AtRead => 20
    case AtPrepare => 19
    case AtBook => 18
    case AtBuild(_) => 17
    case AtCommit(_, _) => 16
    case AtUnbook(_, _) => 15
    case AtSubmit(_) => 14
    case AtRecord(_, _, _, _) => 13
    case AtComplete(Finish(_)) => 12
    case AtInspect(Finish(_)) => 11
    case AtComplete(Reject(_)) => 10
    case AtInspect(Reject(_)) => 9
    case AtUnclaim(_) => 10
    case AtInspectRelease(_) => 9
    case AtAck(Closing(Finalize(_))) => 1
    case AtAck(_) => 8
    case Returned(_) => 7
    case AtFinalRead(_) => 6
    case AtFinalRecord(_, _) => 5
    case AtComplete(Finalize(_)) => 4
    case AtInspect(Finalize(_)) => 3
    case Ended(_) => 0
  }

  lemma StepsLowerTheRank(cfg: Config, db: Db, d: Delivery, inp: Input)
    ensures d.pc.Ended? || Rank(Next(cfg, db, d, inp).0) < Rank(d.pc)
  {
    hide Message.Valid, SignedInvoice.Valid, Provider.Classify, Prepare, CheckBuilt, Claims.Claim,
      Claims.CompleteUpdate, Claims.ReleaseUpdate, Claims.Inspect, Chain.Lookup, Chain.Book, Chain.Commit,
      Chain.Release, Chain.Record;
  }

  /** The input of each step of a delivery that runs alone, by the rank of the step. */
  type Script = nat -> Input

  /** Runs a delivery on its own until HandleMessage returns. */
  function Handle(cfg: Config, db: Db, d: Delivery, script: Script): (Delivery, Db)
    decreases Rank(d.pc)
  {
    if Rank(d.pc) <= 7 then (d, db)
    else
      StepsLowerTheRank(cfg, db, d, script(Rank(d.pc)));
      var (d', db') := Advance(cfg, db, d, script(Rank(d.pc)));
      Handle(cfg, db', d', script)
  }

  /** Runs a delivery on its own until it ends. */
  function RunAlone(cfg: Config, db: Db, d: Delivery, script: Script): (r: (Delivery, Db))
    ensures r.0.pc.Ended?
    decreases Rank(d.pc)
  {
    if d.pc.Ended? then (d, db)
    else
      StepsLowerTheRank(cfg, db, d, script(Rank(d.pc)));
      var (d', db') := Advance(cfg, db, d, script(Rank(d.pc)));
      RunAlone(cfg, db', d', script)
  }

  predicate FinalAck(pc: Pc) {
    pc.AtAck? && pc.reason.Closing? && pc.reason.why.Finalize?
  }

  /** A step that is no acknowledgement only moves the program counter. */
  lemma HandleStep(cfg: Config, db: Db, d: Delivery, script: Script)
    requires Rank(d.pc) > 7 && !d.pc.AtAck?
    ensures var (pc', db') := Next(cfg, db, d, script(Rank(d.pc)));
      Handle(cfg, db, d, script) == Handle(cfg, db', d.(pc := pc'), script)
  {
    hide Next;
    StepsLowerTheRank(cfg, db, d, script(Rank(d.pc)));
  }

  lemma HandleReturns(cfg: Config, db: Db, d: Delivery, script: Script)
    ensures Rank(d.pc) <= 7 ==> Handle(cfg, db, d, script) == (d, db)
  {
  }

  /** One step of a run, with the acknowledgement it counts. */
  lemma AloneStep(cfg: Config, db: Db, d: Delivery, script: Script, pc': Pc, db': Db)
    requires !d.pc.Ended? && Next(cfg, db, d, script(Rank(d.pc))) == (pc', db')
    ensures RunAlone(cfg, db, d, script)
         == RunAlone(cfg, db', d.(pc := pc', acks := d.acks + (if d.pc.AtAck? && !FinalAck(d.pc) then 1 else 0),
                                  finalAcks := d.finalAcks + (if FinalAck(d.pc) then 1 else 0)), script)
  {
    hide Next;
    StepsLowerTheRank(cfg, db, d, script(Rank(d.pc)));
  }

  lemma AloneEnds(cfg: Config, db: Db, d: Delivery, script: Script)
    requires d.pc.Ended?
    ensures RunAlone(cfg, db, d, script) == (d, db)
  {
  }

  lemma {:induction false} HandleThenRest(cfg: Config, db: Db, d: Delivery, script: Script)
    ensures var (h, hdb) := Handle(cfg, db, d, script);
      RunAlone(cfg, db, d, script) == RunAlone(cfg, hdb, h, script)
    decreases Rank(d.pc)
  {
    if Rank(d.pc) > 7 {
      StepsLowerTheRank(cfg, db, d, script(Rank(d.pc)));
      var (d', db') := Advance(cfg, db, d, script(Rank(d.pc)));
      HandleThenRest(cfg, db', d', script);
    }
  }
}
