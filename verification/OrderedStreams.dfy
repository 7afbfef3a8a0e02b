/** The stream and the worker in their own form: HandleMessage, FinalizePermanentFailure and handleDelivery call the
    stores one after the other. Each is proved to do exactly what the delivery machine does when it runs alone. */
module OrderedStreams {
  import opened Text
  import opened Messages
  import opened Tables
  import opened Stores
  import opened Stream
  import Chain
  import Claims
  import Provider

  class Mutex {
    constructor () {}
  }

  /** A delivery of this message at a program counter. */
  function At(msg: Message, exhausted: bool, pc: Pc, acks: nat): Delivery {
    Delivery(msg, exhausted, pc, acks, 0)
  }

  /** An acknowledgement by HandleMessage is its last effect. */
  lemma AckEnds(cfg: Config, db: Db, d: Delivery, script: Script)
    requires d.pc.AtAck? && !FinalAck(d.pc)
    ensures Handle(cfg, db, d, script)
         == (d.(pc := Acknowledged(d.pc.reason, script(8).ackSucceeds), acks := d.acks + 1), db)
  {
  }

  lemma CompleteStage(cfg: Config, db: Db, d: Delivery, script: Script)
    requires d.pc.AtComplete? && !d.pc.why.Finalize?
    ensures var r := Rank(d.pc); var (errors, db') := Claims.Completed(db, d.msg, script(r).fault, script(r - 1).fault);
      Handle(cfg, db, d, script)
      == Handle(cfg, db', d.(pc := if errors == {} then AtAck(Closing(d.pc.why)) else NotCompleted(d.pc.why, errors)),
                script)
  {
    hide Message.Valid, SignedInvoice.Valid, Handle;
    HandleStep(cfg, db, d, script);
    var r := Rank(d.pc);
    var (reply, db') := Claims.CompleteUpdate(db, d.msg, script(r).fault);
    if reply == Reply.Ok(false) {
      HandleStep(cfg, db', d.(pc := AtInspect(d.pc.why)), script);
    } else if reply.Err? {
      assert reply.errors != {};
    }
  }

  lemma UnclaimStage(cfg: Config, db: Db, d: Delivery, script: Script)
    requires d.pc.AtUnclaim?
    ensures var (errors, db') := Claims.Released(cfg, db, d.msg, script(10).fault, script(9).fault);
      Handle(cfg, db, d, script) == (d.(pc := Returned(d.pc.cause + errors)), db')
  {
    hide Message.Valid, SignedInvoice.Valid, Handle;
    HandleStep(cfg, db, d, script);
    var (reply, db') := Claims.ReleaseUpdate(cfg, db, d.msg, script(10).fault);
    var (errors, _) := Claims.Released(cfg, db, d.msg, script(10).fault, script(9).fault);
    if reply == Reply.Ok(false) {
      HandleStep(cfg, db', d.(pc := AtInspectRelease(d.pc.cause)), script);
    } else if reply.Ok? {
      assert d.pc.cause + {} == d.pc.cause;
    }
    HandleReturns(cfg, db', d.(pc := Returned(d.pc.cause + errors)), script);
  }

  lemma ClaimStage(cfg: Config, db: Db, msg: Message, exhausted: bool, script: Script)
    ensures var (reply, db') := Claims.Claim(cfg, db, msg, script(21).now, script(21).fault);
      Handle(cfg, db, Received(msg, exhausted), script)
      == Handle(cfg, db', At(msg, exhausted, AfterClaim(reply), 0), script)
    ensures !msg.Valid() ==>
      Handle(cfg, db, Received(msg, exhausted), script) == (At(msg, exhausted, Returned({InvalidEnvelope}), 0), db)
  {
    hide Message.Valid, SignedInvoice.Valid, Handle;
    HandleStep(cfg, db, Received(msg, exhausted), script);
    HandleReturns(cfg, db, At(msg, exhausted, Returned({InvalidEnvelope}), 0), script);
  }

  /** The completion of a finalization: its update and, when that reports no row, its read. */
  lemma FinalCompleteStage(cfg: Config, db: Db, d: Delivery, script: Script)
    requires d.pc.AtComplete? && d.pc.why.Finalize?
    ensures var (errors, db') := Claims.Completed(db, d.msg, script(4).fault, script(3).fault);
      RunAlone(cfg, db, d, script)
      == RunAlone(cfg, db', d.(pc := if errors == {} then AtAck(Closing(d.pc.why)) else Ended(true)), script)
  {
    hide Message.Valid, SignedInvoice.Valid, RunAlone;
    var (reply, db') := Claims.CompleteUpdate(db, d.msg, script(4).fault);
    AloneStep(cfg, db, d, script, AfterComplete(reply, d.pc.why), db');
    if reply == Reply.Ok(false) {
      var d' := d.(pc := AtInspect(d.pc.why));
      AloneStep(cfg, db', d', script, AfterInspect(Claims.Inspect(db', d.msg, script(3).fault), d.pc.why), db');
    } else if reply.Err? {
      assert reply.errors != {};
    }
  }

  lemma FinalAckEnds(cfg: Config, db: Db, d: Delivery, script: Script)
    requires FinalAck(d.pc)
    ensures RunAlone(cfg, db, d, script)
         == (d.(pc := Ended(!script(1).ackSucceeds), finalAcks := d.finalAcks + 1), db)
  {
  }

  /** Where process goes on after invoiceFor. */
  function AfterInvoice(reply: Reply<SignedInvoice>): Pc {
    match reply
    case Err(e) => Stream.Failed(e)
    case Ok(invoice) => if invoice.outcome != "" then AtComplete(Purpose.Finish({})) else AtSubmit(invoice)
  }

  class OrderedStream {
    const chain: SQLChain
    const claims: SQLClaimStore
    var partition: map<string, Mutex>

    /** Chain and claims are in the same tenant database, and no two partitions share a lock. */
    ghost predicate Valid()
      reads this
    {
      && chain.db == claims.db && chain.cfg == claims.cfg
      && forall p, q | p in partition && q in partition && p != q :: partition[p] != partition[q]
    }

    constructor (claims: SQLClaimStore, chain: SQLChain)
      requires chain.db == claims.db && chain.cfg == claims.cfg
      ensures Valid() && this.chain == chain && this.claims == claims && partition == map[]
    {
      this.claims, this.chain, this.partition := claims, chain, map[];
    }

    /** The lock of a partition: always the same one, and never that of another partition. */
    method LockFor(key: string) returns (lock: Mutex)
      requires Valid()
      modifies this`partition
      ensures Valid() && key in partition && partition[key] == lock
      ensures key in old(partition) ==> partition == old(partition)
      ensures key !in old(partition) ==> fresh(lock) && partition == old(partition)[key := lock]
    {
      if key in partition {
        return partition[key];
      }
      lock := new Mutex();
      partition := partition[key := lock];
    }

    /** failed: a refused input is completed and acknowledged, anything else gives the claim back. */
    method Failed(msg: Message, ghost exhausted: bool, cause: Errors, script: Script)
      returns (result: Errors, acks: nat)
      requires Valid()
      modifies chain.db
      ensures Handle(chain.cfg, old(chain.db.State()), At(msg, exhausted, Stream.Failed(cause), 0), script)
           == (At(msg, exhausted, Returned(result), acks), chain.db.State())
    {
      hide Message.Valid, SignedInvoice.Valid, Handle;
      ghost var db0 := chain.db.State();
      ghost var d := At(msg, exhausted, Stream.Failed(cause), 0);
      if RejectedInput !in cause {
        UnclaimStage(chain.cfg, db0, d, script);
        var errors := claims.Release(msg, script(10).fault, script(9).fault);
        return cause + errors, 0;
      }
      CompleteStage(chain.cfg, db0, d, script);
      var errors := claims.Complete(msg, script(10).fault, script(9).fault);
      HandleReturns(chain.cfg, chain.db.State(), d.(pc := Returned(cause + errors)), script);
      if errors != {} { return cause + errors, 0; }
      AckEnds(chain.cfg, chain.db.State(), d.(pc := AtAck(Closing(d.pc.why))), script);
      acks := 1;
      result := cause + (if script(8).ackSucceeds then {} else {Technical});
    }

    /** finish: completes the claim and acknowledges. */
    method Finish(msg: Message, ghost exhausted: bool, why: Errors, script: Script) returns (result: Errors, acks: nat)
      requires Valid()
      modifies chain.db
      ensures Handle(chain.cfg, old(chain.db.State()), At(msg, exhausted, AtComplete(Purpose.Finish(why)), 0), script)
           == (At(msg, exhausted, Returned(result), acks), chain.db.State())
    {
      hide Message.Valid, SignedInvoice.Valid, Handle;
      ghost var d := At(msg, exhausted, AtComplete(Purpose.Finish(why)), 0);
      CompleteStage(chain.cfg, chain.db.State(), d, script);
      var errors := claims.Complete(msg, script(12).fault, script(11).fault);
      if errors != {} {
        result, acks := Failed(msg, exhausted, errors, script);
        return;
      }
      AckEnds(chain.cfg, chain.db.State(), d.(pc := AtAck(Closing(d.pc.why))), script);
      acks := 1;
      result := why + (if script(8).ackSucceeds then {} else {Technical});
    }

    /** release: drops a booking after a failure before the commit, and keeps the cause. */
    method ReleaseBooking(booking: Booking, cause: Errors, fault: Fault) returns (errors: Errors)
      modifies chain.db
      ensures var (reply, db') := Chain.Release(old(chain.db.State()), booking, fault);
        chain.db.State() == db' && errors == (if reply.Err? then cause + reply.errors else cause)
    {
      var reply := chain.Release(booking, fault);
      errors := cause;
      if reply.Err? { errors := cause + reply.errors; }
    }

    /** invoiceFor: the committed invoice of the bill, built and committed when the bill has none. An error says why
        there is no invoice to go on with. */
    method InvoiceFor(msg: Message, ghost exhausted: bool, script: Script) returns (reply: Reply<SignedInvoice>)
      requires Valid()
      modifies chain.db
      ensures Handle(chain.cfg, old(chain.db.State()), At(msg, exhausted, AtRead, 0), script)
           == Handle(chain.cfg, chain.db.State(), At(msg, exhausted, AfterInvoice(reply), 0), script)
    {
      hide Message.Valid, SignedInvoice.Valid, Handle, Chain.Stored;
      ghost var cfg := chain.cfg;
      HandleStep(cfg, chain.db.State(), At(msg, exhausted, AtRead, 0), script);
      var stored := chain.Stored(msg.id, script(20).fault);
      if stored.Err? { return Err(stored.errors); }
      if stored.value.Some? {
        if CheckStored(stored.value.value, msg) { return Ok(stored.value.value); }
        return Err({Technical});
      }
      HandleStep(cfg, chain.db.State(), At(msg, exhausted, AtPrepare, 0), script);
      var refusal := Prepare(chain.db.State(), msg, script(19).prepare);
      if refusal != {} { return Err(refusal); }
      HandleStep(cfg, chain.db.State(), At(msg, exhausted, AtBook, 0), script);
      var booked := chain.Book(msg, script(18).now, script(18).fault);
      if booked.Err? { return Err(booked.errors); }
      reply := BuildAndCommit(msg, exhausted, booked.value, script);
    }

    method BuildAndCommit(msg: Message, ghost exhausted: bool, booking: Booking, script: Script)
      returns (reply: Reply<SignedInvoice>)
      requires Valid()
      modifies chain.db
      ensures Handle(chain.cfg, old(chain.db.State()), At(msg, exhausted, AtBuild(booking), 0), script)
           == Handle(chain.cfg, chain.db.State(), At(msg, exhausted, AfterInvoice(reply), 0), script)
    {
      hide Message.Valid, SignedInvoice.Valid, Handle;
      ghost var cfg := chain.cfg;
      HandleStep(cfg, chain.db.State(), At(msg, exhausted, AtBuild(booking), 0), script);
      var built := script(17).build(booking);
      var cause := {Technical};
      if built.Some? && CheckBuilt(Unanswered(built.value), msg, booking) {
        var invoice := Unanswered(built.value);
        HandleStep(cfg, chain.db.State(), At(msg, exhausted, AtCommit(booking, invoice), 0), script);
        var committed := chain.Commit(booking, invoice, script(16).fault);
        if committed.Ok? { return Ok(invoice); }
        cause := committed.errors;
      }
      HandleStep(cfg, chain.db.State(), At(msg, exhausted, AtUnbook(booking, cause), 0), script);
      var errors := ReleaseBooking(booking, cause, script(15).fault);
      return Err(errors);
    }

    /** process: runs a request whose claim this delivery holds. */
    method Process(msg: Message, ghost exhausted: bool, script: Script) returns (result: Errors, acks: nat)
      requires Valid()
      modifies chain.db
      ensures Handle(chain.cfg, old(chain.db.State()), At(msg, exhausted, AtRead, 0), script)
           == (At(msg, exhausted, Returned(result), acks), chain.db.State())
    {
      hide Message.Valid, SignedInvoice.Valid, Handle;
      var found := InvoiceFor(msg, exhausted, script);
      if found.Err? {
        result, acks := Failed(msg, exhausted, found.errors, script);
        return;
      }
      var invoice := found.value;
      if invoice.outcome != "" {
        result, acks := Finish(msg, exhausted, {}, script);
        return;
      }
      HandleStep(chain.cfg, chain.db.State(), At(msg, exhausted, AtSubmit(invoice), 0), script);
      var answer := script(14).answer;
      if !invoice.Valid() || answer.None? {
        result, acks := Failed(msg, exhausted, {Technical}, script);
        return;
      }
      var verdict := Provider.Classify(invoice.kind, answer.value);
      if verdict.outcome.None? {
        result, acks := Failed(msg, exhausted, verdict.errors, script);
        return;
      }
      var outcome := verdict.outcome.value;
      var why := if outcome.state == REJECTED then {InvoiceRejected} else verdict.errors;
      HandleStep(chain.cfg, chain.db.State(), At(msg, exhausted, AtRecord(invoice, answer.value, outcome, why), 0),
                 script);
      var recorded := chain.Record(invoice, outcome, script(13).fault);
      if recorded.Err? {
        result, acks := Failed(msg, exhausted, recorded.errors, script);
        return;
      }
      result, acks := Finish(msg, exhausted, why, script);
    }

    /** HandleMessage under the lock of its partition: the machine of the delivery, run alone to its return. */
    method HandleMessage(msg: Message, ghost exhausted: bool, script: Script) returns (result: Errors, acks: nat)
      requires Valid()
      modifies this`partition, chain.db
      ensures Valid()
      ensures msg.Valid() ==> msg.PartitionKey() in partition
      ensures Handle(chain.cfg, old(chain.db.State()), Received(msg, exhausted), script)
           == (At(msg, exhausted, Returned(result), acks), chain.db.State())
    {
      hide Message.Valid, SignedInvoice.Valid, Handle;
      ClaimStage(chain.cfg, chain.db.State(), msg, exhausted, script);
      if !msg.Valid() { return {InvalidEnvelope}, 0; }
      var lock := LockFor(msg.PartitionKey());
      var claimed := claims.Claim(msg, script(21).now, script(21).fault);
      HandleReturns(chain.cfg, chain.db.State(), At(msg, exhausted, AfterClaim(claimed), 0), script);
      match claimed {
        case Err(errors) =>
          return errors, 0;
        case Ok(Duplicate) =>
          AckEnds(chain.cfg, chain.db.State(), At(msg, exhausted, AtAck(Repeat), 0), script);
          return (if script(8).ackSucceeds then {} else {Technical}), 1;
        case Ok(Conflict) =>
          AckEnds(chain.cfg, chain.db.State(), At(msg, exhausted, AtAck(Mismatch), 0), script);
          return {FingerprintConflict}, 1;
        case Ok(InFlight) =>
          return {ClaimInFlight}, 0;
        case Ok(Process) =>
          result, acks := Process(msg, exhausted, script);
      }
    }

    /** FinalizePermanentFailure, after the delivery budget is used up. It takes no lock and does not check the stored
        invoice. terminated says that the delivery is terminated because this failed. */
    method FinalizePermanentFailure(msg: Message, ghost exhausted: bool, ghost acks: nat, cause: Errors, script: Script)
      returns (terminated: bool, finalAcks: nat)
      requires Valid()
      modifies chain.db
      ensures RunAlone(chain.cfg, old(chain.db.State()), Delivery(msg, exhausted, AtFinalRead(cause), acks, 0), script)
           == (Delivery(msg, exhausted, Ended(terminated), acks, finalAcks), chain.db.State())
    {
      hide Message.Valid, SignedInvoice.Valid, RunAlone, Chain.Stored;
      ghost var cfg := chain.cfg;
      ghost var d := Delivery(msg, exhausted, AtFinalRead(cause), acks, 0);
      var stored := chain.Stored(msg.id, script(6).fault);
      AloneStep(cfg, chain.db.State(), d, script, AfterFinalRead(stored, cause), chain.db.State());
      if stored.Err? {
        AloneEnds(cfg, chain.db.State(), d.(pc := Ended(true)), script);
        return true, 0;
      }
      if stored.value.Some? && stored.value.value.outcome == "" {
        var invoice := stored.value.value;
        ghost var db0 := chain.db.State();
        var recorded := chain.Record(invoice, TerminalOutcome(script(5).causeText), script(5).fault);
        AloneStep(cfg, db0, d.(pc := AtFinalRecord(invoice, cause)), script, AfterFinalRecord(recorded, cause),
                  chain.db.State());
        if recorded.Err? {
          AloneEnds(cfg, chain.db.State(), d.(pc := Ended(true)), script);
          return true, 0;
        }
      }
      FinalCompleteStage(cfg, chain.db.State(), d.(pc := AtComplete(Finalize(cause))), script);
      var errors := claims.Complete(msg, script(4).fault, script(3).fault);
      if errors != {} {
        AloneEnds(cfg, chain.db.State(), d.(pc := Ended(true)), script);
        return true, 0;
      }
      FinalAckEnds(cfg, chain.db.State(), d.(pc := AtAck(Closing(Finalize(cause)))), script);
      return !script(1).ackSucceeds, 1;
    }
  }

  /** handleDelivery: an envelope that does not decode, or names another tenant or branch, is terminated without any
      effect. Any other delivery does what the delivery machine does alone. */
  method HandleDelivery(stream: OrderedStream, decoded: Option<Message>, tenantKey: string, dbName: string,
                        branchID: int, exhausted: bool, script: Script)
    returns (terminated: bool, acks: nat, finalAcks: nat)
    requires stream.Valid()
    modifies stream`partition, stream.chain.db
    ensures stream.Valid()
    ensures if decoded.Some? && decoded.value.dbName == dbName && decoded.value.branchID == branchID
               && decoded.value.tenantKey == tenantKey
            then RunAlone(stream.chain.cfg, old(stream.chain.db.State()), Received(decoded.value, exhausted), script)
              == (Delivery(decoded.value, exhausted, Ended(terminated), acks, finalAcks), stream.chain.db.State())
            else terminated && acks == 0 && finalAcks == 0 && stream.chain.db.State() == old(stream.chain.db.State())
  {
    hide Message.Valid, SignedInvoice.Valid, RunAlone, Handle, Named;
    if decoded.None? { return true, 0, 0; }
    var msg := decoded.value;
    if msg.dbName != dbName || msg.branchID != branchID || msg.tenantKey != tenantKey { return true, 0, 0; }
    ghost var cfg := stream.chain.cfg;
    HandleThenRest(cfg, stream.chain.db.State(), Received(msg, exhausted), script);
    var result, acked := stream.HandleMessage(msg, exhausted, script);
    ghost var d := At(msg, exhausted, Returned(result), acked);
    AloneStep(cfg, stream.chain.db.State(), d, script, AfterHandle(d, result), stream.chain.db.State());
    acks := acked;
    if result != {} && !Named(result) && exhausted {
      terminated, finalAcks := stream.FinalizePermanentFailure(msg, exhausted, acked, result, script);
      return;
    }
    AloneEnds(cfg, stream.chain.db.State(), d.(pc := Ended(false)), script);
    return false, acked, 0;
  }
}
