/** What can happen when two deliveries of one request overlap: the run that the partition lock of
    queue/ordered_stream.go is there to exclude. */
module Overlap {
  import opened Text
  import opened Messages
  import opened Tables
  import opened Operations
  import opened Stream
  import opened World
  import Chain
  import Claims

  const NOTHING := World(Db(map[], map[], map[], [], map[]), map[], [], map[], map[])

  /** The first number of the branch, booked for this message. */
  function FirstBooking(msg: Message): Booking {
    Booking(msg.branchID, msg.RequestKey(), msg.eventID, msg.invoiceUUID, 1, GENESIS_PIH)
  }

  /** A bill that can be invoiced for the message, and the invoice that is built for it. */
  predicate CanBeInvoiced(msg: Message, bill: BillRow, invoice: SignedInvoice) {
    && msg.Valid() && Fresh(bill) && bill.branchID == msg.branchID && bill.state >= 1 && bill.invoiceUUID == None
    && CheckBuilt(invoice, msg, FirstBooking(msg)) && Unanswered(invoice) == invoice
  }

  function Inputs(now: int, prepare: PrepareAnswer, invoice: SignedInvoice): Input {
    Input(Clean, now, prepare, (b: Booking) => Some(invoice), None, true, "")
  }

  /** The tables while the first delivery has booked and built, with the end of the claim lease. */
  function Booked(cfg: Config, msg: Message, bill: BillRow, lease: int): Db {
    Db(map[msg.branchID := BranchRow(0, None, Some(msg.RequestKey()), Some(msg.eventID), Some(1),
                                     Some(cfg.ChainLease()))],
       map[msg.id := bill], map[], [],
       map[KeyOf(msg) := ClaimRow(msg.eventID, msg.egsSequenceID, msg.fingerprint, false, Some(lease))])
  }

  function Opened(msg: Message, bill: BillRow): Db {
    Db(map[msg.branchID := EMPTY_BRANCH], map[msg.id := bill], map[], [], map[])
  }

  // ---------------------------------------------------------------- single steps

  lemma Then(cfg: Config, actions: seq<Action>, a: Action) returns (r: seq<Action>)
    ensures r == actions + [a] && Run(cfg, NOTHING, r) == Do(cfg, Run(cfg, NOTHING, actions), a)
  {
    hide Do;
    r := actions + [a];
    assert r[..|r| - 1] == actions;
  }

  predicate Plain(pc: Pc) {
    !pc.AtSubmit? && !pc.AtCommit? && !pc.AtRecord? && !pc.AtFinalRecord? && !pc.AtAck?
  }

  /** A step that neither sends, commits, records nor acknowledges changes its program counter and the tables only. */
  lemma Moves(cfg: Config, actions: seq<Action>, id: nat, inp: Input, pc: Pc, db: Db) returns (r: seq<Action>)
    requires id in Run(cfg, NOTHING, actions).live && Plain(Run(cfg, NOTHING, actions).live[id].pc)
    requires var w := Run(cfg, NOTHING, actions); Next(cfg, w.db, w.live[id], inp) == (pc, db)
    ensures var w := Run(cfg, NOTHING, actions);
      Run(cfg, NOTHING, r) == w.(db := db, live := w.live[id := w.live[id].(pc := pc)])
  {
    hide Run, Next;
    r := Then(cfg, actions, Step(id, inp));
  }

  lemma FirstClaim(cfg: Config, msg: Message, bill: BillRow)
    requires msg.Valid()
    ensures Claims.Claim(cfg, Opened(msg, bill), msg, 0, Clean)
         == (Reply.Ok(Claims.Process),
             Opened(msg, bill).(claims := map[KeyOf(msg) :=
               ClaimRow(msg.eventID, msg.egsSequenceID, msg.fingerprint, false, Some(cfg.ClaimLease()))]))
  {
    hide Message.Valid;
  }

  lemma SecondClaim(cfg: Config, msg: Message, bill: BillRow)
    requires msg.Valid()
    ensures Claims.Claim(cfg, Booked(cfg, msg, bill, cfg.ClaimLease()), msg, cfg.ClaimLease(), Clean)
         == (Reply.Ok(Claims.Process), Booked(cfg, msg, bill, cfg.ClaimLease() + cfg.ClaimLease()))
  {
    hide Message.Valid;
    var (db, key) := (Booked(cfg, msg, bill, cfg.ClaimLease()), KeyOf(msg));
    assert !Claims.EventTaken(db, msg);
    Replaced(key, db.claims[key], db.claims[key].(leaseEnd := Some(cfg.ClaimLease() + cfg.ClaimLease())));
  }

  lemma Replaced<K, V>(k: K, v: V, w: V)
    ensures map[k := v][k := w] == map[k := w]
  {
  }

  lemma FirstBook(cfg: Config, msg: Message, bill: BillRow, claims: map<ClaimKey, ClaimRow>)
    ensures Chain.Book(cfg, Opened(msg, bill).(claims := claims), msg, 0, Clean)
         == (Reply.Ok(FirstBooking(msg)), Booked(cfg, msg, bill, 0).(claims := claims))
  {
    Replaced(msg.branchID, EMPTY_BRANCH, Booked(cfg, msg, bill, 0).branches[msg.branchID]);
  }

  // ---------------------------------------------------------------- the run

  /** The world with only the first delivery in it. */
  function Alone(msg: Message, db: Db, pc: Pc): World {
    NOTHING.(db := db, live := map[0 := Received(msg, false).(pc := pc)])
  }

  lemma MovesAlone(cfg: Config, msg: Message, actions: seq<Action>, db: Db, pc: Pc, inp: Input, pc': Pc, db': Db)
    returns (r: seq<Action>)
    requires Run(cfg, NOTHING, actions) == Alone(msg, db, pc) && Plain(pc)
    requires Next(cfg, db, Received(msg, false).(pc := pc), inp) == (pc', db')
    ensures Run(cfg, NOTHING, r) == Alone(msg, db', pc')
  {
    hide Run, Next;
    r := Moves(cfg, actions, 0, inp, pc', db');
    Replaced(0 as nat, Received(msg, false).(pc := pc), Received(msg, false).(pc := pc'));
  }

  lemma Set(cfg: Config, msg: Message, bill: BillRow) returns (actions: seq<Action>)
    requires msg.Valid() && Fresh(bill)
    ensures Run(cfg, NOTHING, actions) == Alone(msg, Opened(msg, bill), AtClaim)
  {
    hide Message.Valid, Run, Blank;
    RunOfNothing(cfg);
    actions := Then(cfg, [], Action.AddBranch(msg.branchID));
    actions := Then(cfg, actions, Action.AddBill(msg.id, bill));
    assert Run(cfg, NOTHING, actions).db == Opened(msg, bill);
    actions := Then(cfg, actions, Deliver(0, msg, false));
  }

  lemma RunOfNothing(cfg: Config)
    ensures Run(cfg, NOTHING, []) == NOTHING
  {
  }

  /** The first delivery claims, reads, verifies, books and builds, and stops before it commits. */
  lemma FirstDelivery(cfg: Config, msg: Message, bill: BillRow, invoice: SignedInvoice) returns (actions: seq<Action>)
    requires CanBeInvoiced(msg, bill, invoice)
    ensures Run(cfg, NOTHING, actions)
         == Alone(msg, Booked(cfg, msg, bill, cfg.ClaimLease()), AtCommit(FirstBooking(msg), invoice))
  {
    hide Run, Next, Alone, CanBeInvoiced, Message.Valid, Fresh, CheckBuilt, Opened, Booked, Claims.Claim, Chain.Book;
    var (d, input) := (Received(msg, false), Inputs(0, PrepareAnswer.Verified, invoice));
    var start := Opened(msg, bill);
    var (claimed, booked) := (Claims.Claim(cfg, start, msg, 0, Clean).1, Booked(cfg, msg, bill, cfg.ClaimLease()));
    CanStart(msg, bill, invoice);
    actions := Set(cfg, msg, bill);
    FirstSteps(cfg, msg, bill, invoice);
    actions := MovesAlone(cfg, msg, actions, start, AtClaim, input, AtRead, claimed);
    actions := MovesAlone(cfg, msg, actions, claimed, AtRead, input, AtPrepare, claimed);
    actions := MovesAlone(cfg, msg, actions, claimed, AtPrepare, input, AtBook, claimed);
    actions := MovesAlone(cfg, msg, actions, claimed, AtBook, input, AtBuild(FirstBooking(msg)), booked);
    actions := MovesAlone(cfg, msg, actions, booked, AtBuild(FirstBooking(msg)), input,
                          AtCommit(FirstBooking(msg), invoice), booked);
  }

  lemma CanStart(msg: Message, bill: BillRow, invoice: SignedInvoice)
    requires CanBeInvoiced(msg, bill, invoice)
    ensures msg.Valid() && Fresh(bill)
  {
  }

  /** The steps of the first delivery up to its commit. */
  lemma FirstSteps(cfg: Config, msg: Message, bill: BillRow, invoice: SignedInvoice)
    requires CanBeInvoiced(msg, bill, invoice)
    ensures var (d, input) := (Received(msg, false), Inputs(0, PrepareAnswer.Verified, invoice));
      var start := Opened(msg, bill);
      var claimed := Claims.Claim(cfg, start, msg, 0, Clean).1;
      var booked := Booked(cfg, msg, bill, cfg.ClaimLease());
      && Next(cfg, start, d, input) == (AtRead, claimed)
      && Next(cfg, claimed, d.(pc := AtRead), input) == (AtPrepare, claimed)
      && Next(cfg, claimed, d.(pc := AtPrepare), input) == (AtBook, claimed)
      && Next(cfg, claimed, d.(pc := AtBook), input) == (AtBuild(FirstBooking(msg)), booked)
      && Next(cfg, booked, d.(pc := AtBuild(FirstBooking(msg))), input)
           == (AtCommit(FirstBooking(msg), invoice), booked)
  {
    hide Message.Valid, CheckBuilt, Fresh, Claims.Claim, Chain.Book;
    var claimed := Claims.Claim(cfg, Opened(msg, bill), msg, 0, Clean).1;
    FirstClaim(cfg, msg, bill);
    FirstBook(cfg, msg, bill, claimed.claims);
  }

  // ---------------------------------------------------------------- the second delivery

  /** The world with the first delivery before its commit, and a second one of the same message. */
  function Both(msg: Message, db: Db, invoice: SignedInvoice, second: Delivery): World {
    NOTHING.(db := db, live := map[0 := Received(msg, false).(pc := AtCommit(FirstBooking(msg), invoice)), 1 := second])
  }

  lemma MovesSecond(cfg: Config, msg: Message, invoice: SignedInvoice, actions: seq<Action>, db: Db, d: Delivery,
                    inp: Input, pc': Pc, db': Db)
    returns (r: seq<Action>)
    requires Run(cfg, NOTHING, actions) == Both(msg, db, invoice, d) && Plain(d.pc)
    requires Next(cfg, db, d, inp) == (pc', db')
    ensures Run(cfg, NOTHING, r) == Both(msg, db', invoice, d.(pc := pc'))
  {
    hide Run, Next;
    r := Moves(cfg, actions, 1, inp, pc', db');
    SecondReplaced(Both(msg, db, invoice, d).live[0], d, d.(pc := pc'));
  }

  lemma SecondReplaced(first: Delivery, d: Delivery, d': Delivery)
    ensures map[0 as nat := first, 1 := d][1 := d'] == map[0 as nat := first, 1 := d']
  {
  }

  const REFUSED: Errors := {RejectedInput}

  /** The tables with the claim completed while the first delivery has still to commit. */
  function Closed(cfg: Config, msg: Message, bill: BillRow): Db {
    Booked(cfg, msg, bill, 0).(claims := map[KeyOf(msg) :=
      ClaimRow(msg.eventID, msg.egsSequenceID, msg.fingerprint, true, None)])
  }

  /** The steps of a redelivery after the claim lease, when the bill is refused by then. */
  lemma SecondSteps(cfg: Config, msg: Message, bill: BillRow, invoice: SignedInvoice)
    requires msg.Valid() && bill.branchID == msg.branchID
    ensures var (d, input) := (Received(msg, false), Inputs(cfg.ClaimLease(), PrepareAnswer.Refused, invoice));
      var (first, again) := (Booked(cfg, msg, bill, cfg.ClaimLease()),
                             Booked(cfg, msg, bill, cfg.ClaimLease() + cfg.ClaimLease()));
      && Next(cfg, first, d, input) == (AtRead, again)
      && Next(cfg, again, d.(pc := AtRead), input) == (AtPrepare, again)
      && Next(cfg, again, d.(pc := AtPrepare), input) == (AtComplete(Reject(REFUSED)), again)
      && Next(cfg, again, d.(pc := AtComplete(Reject(REFUSED))), input)
         == (AtAck(Closing(Reject(REFUSED))), Closed(cfg, msg, bill))
  {
    hide Message.Valid, Claims.Claim;
    SecondClaim(cfg, msg, bill);
    var again := Booked(cfg, msg, bill, cfg.ClaimLease() + cfg.ClaimLease());
    var row := again.claims[KeyOf(msg)];
    Replaced(KeyOf(msg), row, row.(completed := true, leaseEnd := None));
  }

  /** The redelivery is refused, completes the claim, and ends. */
  lemma SecondDelivery(cfg: Config, msg: Message, bill: BillRow, invoice: SignedInvoice) returns (actions: seq<Action>)
    requires CanBeInvoiced(msg, bill, invoice)
    ensures Run(cfg, NOTHING, actions)
         == Both(msg, Closed(cfg, msg, bill), invoice, Delivery(msg, false, Ended(false), 1, 0))
  {
    BillOfMessage(msg, bill, invoice);
    hide Run, Next, CanBeInvoiced, Message.Valid, Fresh, CheckBuilt, Booked, Closed;
    var (d, input) := (Received(msg, false), Inputs(cfg.ClaimLease(), PrepareAnswer.Refused, invoice));
    var (first, again) := (Booked(cfg, msg, bill, cfg.ClaimLease()),
                           Booked(cfg, msg, bill, cfg.ClaimLease() + cfg.ClaimLease()));
    SecondSteps(cfg, msg, bill, invoice);
    actions := FirstDelivery(cfg, msg, bill, invoice);
    actions := Arrives(cfg, msg, invoice, actions, first);
    hide Both, Alone;
    actions := MovesSecond(cfg, msg, invoice, actions, first, d, input, AtRead, again);
    actions := MovesSecond(cfg, msg, invoice, actions, again, d.(pc := AtRead), input, AtPrepare, again);
    actions := MovesSecond(cfg, msg, invoice, actions, again, d.(pc := AtPrepare), input,
                           AtComplete(Reject(REFUSED)), again);
    actions := MovesSecond(cfg, msg, invoice, actions, again, d.(pc := AtComplete(Reject(REFUSED))), input,
                           AtAck(Closing(Reject(REFUSED))), Closed(cfg, msg, bill));
    actions := Acknowledges(cfg, msg, invoice, actions, Closed(cfg, msg, bill), input);
  }

  lemma BillOfMessage(msg: Message, bill: BillRow, invoice: SignedInvoice)
    requires CanBeInvoiced(msg, bill, invoice)
    ensures msg.Valid() && bill.branchID == msg.branchID
  {
  }

  lemma Arrives(cfg: Config, msg: Message, invoice: SignedInvoice, actions: seq<Action>, db: Db)
    returns (r: seq<Action>)
    requires msg.Valid() && Run(cfg, NOTHING, actions) == Alone(msg, db, AtCommit(FirstBooking(msg), invoice))
    ensures Run(cfg, NOTHING, r) == Both(msg, db, invoice, Received(msg, false))
  {
    hide Run, Message.Valid;
    r := Then(cfg, actions, Deliver(1, msg, false));
  }

  /** The acknowledgement and the end of the redelivery. */
  lemma Acknowledges(cfg: Config, msg: Message, invoice: SignedInvoice, actions: seq<Action>, db: Db, input: Input)
    returns (r: seq<Action>)
    requires Run(cfg, NOTHING, actions)
          == Both(msg, db, invoice, Received(msg, false).(pc := AtAck(Closing(Reject(REFUSED)))))
    requires input.ackSucceeds
    ensures Run(cfg, NOTHING, r) == Both(msg, db, invoice, Delivery(msg, false, Ended(false), 1, 0))
  {
    hide Run, Message.Valid;
    var d := Received(msg, false).(pc := AtAck(Closing(Reject(REFUSED))));
    var acked := Delivery(msg, false, Returned(REFUSED), 1, 0);
    assert REFUSED + {} == REFUSED;
    r := Then(cfg, actions, Step(1, input));
    SecondReplaced(Both(msg, db, invoice, d).live[0], d, acked);
    assert Run(cfg, NOTHING, r) == Both(msg, db, invoice, acked);
    hide Do;
    r := MovesSecond(cfg, msg, invoice, r, db, acked, input, Ended(false), db);
  }

  // ---------------------------------------------------------------- the result

  lemma FirstCommit(cfg: Config, msg: Message, bill: BillRow, invoice: SignedInvoice)
    requires CanBeInvoiced(msg, bill, invoice)
    ensures Chain.CommitRefusal(Closed(cfg, msg, bill), FirstBooking(msg), invoice) == {}
  {
    hide Message.Valid, SignedInvoice.Valid, Blank;
  }

  /** What the partition lock excludes: for every request, when a redelivery after the claim lease is refused while the
      first delivery is about to commit, the first delivery still commits. If it crashes then, the request is completed
      with its invoice pending, and nobody is left to send it. */
  lemma OverlapLeavesAnInvoicePending(cfg: Config, msg: Message, bill: BillRow, invoice: SignedInvoice)
    returns (actions: seq<Action>)
    requires CanBeInvoiced(msg, bill, invoice)
    ensures Start(NOTHING)
    ensures var z := Run(cfg, NOTHING, actions);
      && KeyOf(msg) in z.db.claims && z.db.claims[KeyOf(msg)].completed
      && z.committedBy == map[msg.id := msg.RequestKey()] && IsPending(z.db, msg.id) && z.submits == []
      && z.live == map[1 := Delivery(msg, false, Ended(false), 1, 0)]
  {
    var closed := Closed(cfg, msg, bill);
    actions := SecondDelivery(cfg, msg, bill, invoice);
    FirstCommit(cfg, msg, bill, invoice);
    hide Run, CanBeInvoiced, Message.Valid, Chain.CommitRefusal, SignedInvoice.Valid;
    actions := Commits(cfg, msg, invoice, actions, closed);
    assert KeyOf(msg) in closed.claims && closed.claims[KeyOf(msg)].completed;
    hide Closed;
    actions := Then(cfg, actions, Crash(0));
  }

  lemma Commits(cfg: Config, msg: Message, invoice: SignedInvoice, actions: seq<Action>, db: Db)
    returns (r: seq<Action>)
    requires invoice.sourceID == msg.id && Chain.CommitRefusal(db, FirstBooking(msg), invoice) == {}
    requires msg.id !in db.submissions
    requires Run(cfg, NOTHING, actions) == Both(msg, db, invoice, Delivery(msg, false, Ended(false), 1, 0))
    ensures var z := Run(cfg, NOTHING, r);
      && z.db.claims == db.claims && IsPending(z.db, msg.id) && z.submits == []
      && z.committedBy == map[msg.id := msg.RequestKey()]
      && z.live.Keys == {0, 1} && z.live[1] == Delivery(msg, false, Ended(false), 1, 0)
  {
    hide Run, Message.Valid, SignedInvoice.Valid, Chain.CommitRefusal;
    r := Then(cfg, actions, Step(0, Inputs(0, PrepareAnswer.Verified, invoice)));
    assert msg.id in Chain.Commit(db, FirstBooking(msg), invoice, Clean).1.submissions;
  }
}
