/** Any number of deliveries over one tenant database, interleaved at every step, with crashes, operator records and the
    rows the backend adds. */
module World {
  import opened Text
  import opened Messages
  import opened Tables
  import opened Operations
  import opened Stream
  import Chain
  import Claims
  import Provider

  /** Who recorded the answer of an invoice. */
  datatype Source = ByProvider(answer: Provider.Answer) | ByOperator(evidenceID: string) | ByDaemon

  /** The tables, the deliveries in progress, and what happened so far: every invoice sent to the provider, the request
      under whose booking each invoice was committed, and the source of each recorded answer. */
  datatype World = World(
    db: Db,
    live: map<nat, Delivery>,
    submits: seq<SignedInvoice>,
    committedBy: map<int, string>,
    answeredBy: map<int, Source>)

  datatype Action =
    | Deliver(id: nat, msg: Message, exhausted: bool)
    | Step(id: nat, input: Input)
    | Crash(id: nat)
    | Operate(invoice: SignedInvoice, outcome: Outcome, fault: Fault)
    | AddBill(billID: int, bill: BillRow)
    | AddBranch(branchID: int)

  /** The operator's record: external evidence for one of the three provider outcomes (queue/reconcile.go). */
  predicate OperatorOutcome(outcome: Outcome) {
    && outcome.evidence.External? && Chain.Recordable(outcome)
    && (outcome.state == ACCEPTED || outcome.state == WARNING || outcome.state == REJECTED)
  }

  predicate IsPending(db: Db, k: int) {
    k in db.submissions && db.submissions[k].outcomeState == PENDING
  }

  function SourceOf(pc: Pc): Source {
    if pc.AtRecord? then ByProvider(pc.answer) else ByDaemon
  }

  function RecordedBill(pc: Pc): Option<int> {
    match pc
    case AtRecord(invoice, _, _, _) => Some(invoice.sourceID)
    case AtFinalRecord(invoice, _) => Some(invoice.sourceID)
    case _ => None
  }

  function StepOne(cfg: Config, w: World, id: nat, inp: Input): World
    requires id in w.live
  {
    var d := w.live[id];
    var (d', db') := Advance(cfg, w.db, d, inp);
    var billID := RecordedBill(d.pc);
    World(
      db', w.live[id := d'],
      if d.pc.AtSubmit? && d.pc.invoice.Valid() && inp.answer.Some? then w.submits + [d.pc.invoice] else w.submits,
      if d.pc.AtCommit? && db' != w.db then w.committedBy[d.pc.invoice.sourceID := d.pc.booking.requestKey]
      else w.committedBy,
      if billID.Some? && IsPending(w.db, billID.value) && !IsPending(db', billID.value)
      then w.answeredBy[billID.value := SourceOf(d.pc)] else w.answeredBy)
  }

  function Do(cfg: Config, w: World, a: Action): World {
    match a
    case Deliver(id, msg, exhausted) =>
      if id in w.live || !msg.Valid() then w else w.(live := w.live[id := Received(msg, exhausted)])
    case Step(id, inp) => if id in w.live then StepOne(cfg, w, id, inp) else w
    case Crash(id) => w.(live := w.live - {id})
    case Operate(invoice, outcome, fault) =>
      if !OperatorOutcome(outcome) then w
      else
        var db' := Chain.Record(w.db, invoice, outcome, fault).1;
        w.(db := db',
           answeredBy := if db' != w.db then w.answeredBy[invoice.sourceID := ByOperator(outcome.evidenceID)]
                         else w.answeredBy)
    case AddBill(id, bill) => w.(db := Apply(cfg, w.db, Op.AddBill(id, bill)))
    case AddBranch(id) => w.(db := Apply(cfg, w.db, Op.AddBranch(id)))
  }

  function Run(cfg: Config, w: World, actions: seq<Action>): World {
    if actions == [] then w else Do(cfg, Run(cfg, w, actions[..|actions| - 1]), actions[|actions| - 1])
  }

  ghost predicate Start(w: World) {
    Initial(w.db) && w.live == map[] && w.submits == [] && w.committedBy == map[] && w.answeredBy == map[]
  }

  // ---------------------------------------------------------------- every step is an operation on the tables

  function OpOf(d: Delivery, inp: Input): Option<Op> {
    match d.pc
    case AtClaim => Some(Op.Claim(d.msg, inp.now, inp.fault))
    case AtBook => Some(Op.Book(d.msg, inp.now, inp.fault))
    case AtCommit(b, invoice) => Some(Op.Commit(b, invoice, inp.fault))
    case AtUnbook(b, _) => Some(Op.Release(b, inp.fault))
    case AtRecord(invoice, _, outcome, _) => Some(Op.Record(invoice, outcome, inp.fault))
    case AtComplete(_) => Some(Op.Complete(d.msg, inp.fault))
    case AtUnclaim(_) => Some(Op.Unclaim(d.msg, inp.fault))
    case AtFinalRecord(invoice, _) => Some(Op.Record(invoice, TerminalOutcome(inp.causeText), inp.fault))
    case _ => None
  }

  lemma StepIsOperation(cfg: Config, db: Db, d: Delivery, inp: Input)
    ensures Advance(cfg, db, d, inp).1 == (if OpOf(d, inp).Some? then Apply(cfg, db, OpOf(d, inp).value) else db)
  {
  }

  function OpsOf(w: World, a: Action): seq<Op> {
    match a
    case Step(id, inp) => if id in w.live && OpOf(w.live[id], inp).Some? then [OpOf(w.live[id], inp).value] else []
    case Operate(invoice, outcome, fault) => if OperatorOutcome(outcome) then [Op.Record(invoice, outcome, fault)]
      else []
    case AddBill(id, bill) => [Op.AddBill(id, bill)]
    case AddBranch(id) => [Op.AddBranch(id)]
    case _ => []
  }

  /** The operations on the tables in a run. */
  function OpsOfRun(cfg: Config, w: World, actions: seq<Action>): seq<Op> {
    if actions == [] then []
    else
      var prefix := actions[..|actions| - 1];
      OpsOfRun(cfg, w, prefix) + OpsOf(Run(cfg, w, prefix), actions[|actions| - 1])
  }

  lemma DoIsOperations(cfg: Config, w: World, a: Action)
    ensures Do(cfg, w, a).db == ApplyAll(cfg, w.db, OpsOf(w, a))
  {
    var ops := OpsOf(w, a);
    if ops != [] {
      assert ops[..0] == [] && ops == [ops[0]];
      assert ApplyAll(cfg, w.db, ops) == Apply(cfg, w.db, ops[0]);
    }
    if a.Step? && a.id in w.live {
      StepIsOperation(cfg, w.db, w.live[a.id], a.input);
    }
  }
}
