/** Chain integrity in every run of table operations: any number of workers, any arguments, clocks, failures and lost
    replies. Nothing here assumes that a booking is honest or that deliveries are serialised. */
module HashChain {
  import opened Text
  import opened Messages
  import opened Tables
  import opened Operations
  import opened ChainSafety
  import Chain
  import Claims

  // ---------------------------------------------------------------- runs

  lemma {:induction false} RunIsSound(cfg: Config, db: Db, ops: seq<Op>)
    requires Sound(db)
    ensures Sound(ApplyAll(cfg, db, ops)) && Evolves(db, ApplyAll(cfg, db, ops))
  {
    if ops == [] {
      EvolvesItself(db);
    } else {
      var before := ApplyAll(cfg, db, ops[..|ops| - 1]);
      RunIsSound(cfg, db, ops[..|ops| - 1]);
      ApplyKeepsSound(cfg, before, ops[|ops| - 1]);
      ApplyEvolves(cfg, before, ops[|ops| - 1]);
      EvolvesTransitively(db, before, ApplyAll(cfg, db, ops));
    }
  }

  lemma {:induction false} RunSplits(cfg: Config, db: Db, a: seq<Op>, b: seq<Op>)
    ensures ApplyAll(cfg, db, a + b) == ApplyAll(cfg, ApplyAll(cfg, db, a), b)
  {
    if b == [] {
      assert a + b == a;
    } else {
      var ops := a + b;
      assert ops[..|ops| - 1] == a + b[..|b| - 1] && ops[|ops| - 1] == b[|b| - 1];
      RunSplits(cfg, db, a, b[..|b| - 1]);
    }
  }

  // ---------------------------------------------------------------- the ledger of a branch

  /** The invoice at position i has the next number and chains from the one before. */
  ghost predicate Link(db: Db, branch: int, bills: seq<int>, i: int)
    requires 0 <= i < |bills| && forall j | 0 <= j < |bills| :: bills[j] in db.submissions
  {
    var s := db.submissions[bills[i]];
    && s.branchID == branch
    && s.icv == i + 1
    && s.pih == (if i == 0 then GENESIS_PIH else db.submissions[bills[i - 1]].hash)
  }

  /** The bills of a branch in the order of their numbers: 1, 2, ..., last_icv, each chained from the one before. */
  ghost predicate IsLedger(db: Db, branch: int, bills: seq<int>) {
    && branch in db.branches
    && |bills| == db.branches[branch].lastICV
    && (forall i | 0 <= i < |bills| :: bills[i] in db.submissions)
    && (forall i | 0 <= i < |bills| :: Link(db, branch, bills, i))
    && (forall k | k in db.submissions && db.submissions[k].branchID == branch :: k in bills)
    && (if |bills| == 0 then Chain.EffectivePIH(db.branches[branch]) == GENESIS_PIH
        else db.branches[branch].previous == Some(db.submissions[bills[|bills| - 1]].hash))
  }

  lemma LedgerSurvives(db: Db, db': Db, branch: int, bills: seq<int>)
    requires IsLedger(db, branch, bills) && Evolves(db, db')
    requires db'.submissions.Keys == db.submissions.Keys
    requires db'.branches[branch].lastICV == db.branches[branch].lastICV
    requires db'.branches[branch].previous == db.branches[branch].previous
    ensures IsLedger(db', branch, bills)
  {
    assert forall k | k in db.submissions :: SameInvoice(db.submissions[k], db'.submissions[k]);
    forall i | 0 <= i < |bills|
      ensures Link(db', branch, bills, i)
    {
      assert Link(db, branch, bills, i);
      assert SameInvoice(db.submissions[bills[i]], db'.submissions[bills[i]]);
      if i > 0 {
        assert SameInvoice(db.submissions[bills[i - 1]], db'.submissions[bills[i - 1]]);
      }
    }
    if |bills| > 0 {
      var last := bills[|bills| - 1];
      assert last in db.submissions && SameInvoice(db.submissions[last], db'.submissions[last]);
    }
  }

  /** What a commit takes from the branch row and writes to it. */
  lemma CommitTakesNext(db: Db, b: Booking, invoice: SignedInvoice)
    requires Sound(db) && Chain.CommitRefusal(db, b, invoice) == {}
    ensures var db' := Chain.Committed(db, b, invoice);
      && b.branchID in db.branches && b.branchID in db'.branches && invoice.sourceID in db.bills
      && invoice.branchID == b.branchID && invoice.icv == db.branches[b.branchID].lastICV + 1
      && invoice.pih == Chain.EffectivePIH(db.branches[b.branchID])
      && db'.submissions == db.submissions[invoice.sourceID := Chain.NewSubmission(invoice)]
      && db'.branches[b.branchID].lastICV == invoice.icv
      && db'.branches[b.branchID].previous == Some(invoice.hash)
      && invoice.sourceID !in db.submissions && !Blank(invoice.hash)
  {
    hide LogShape, BillShape, SubmissionShape;
    assert ReservationShape(db.branches[b.branchID]);
  }

  lemma CommitExtendsLedger(db: Db, b: Booking, invoice: SignedInvoice, bills: seq<int>)
    requires Sound(db) && IsLedger(db, b.branchID, bills)
    requires Chain.CommitRefusal(db, b, invoice) == {}
    ensures IsLedger(Chain.Committed(db, b, invoice), b.branchID, bills + [invoice.sourceID])
  {
    hide Sound, Link, Chain.CommitRefusal, Chain.Committed, Chain.EffectivePIH;
    CommitTakesNext(db, b, invoice);
    if |bills| > 0 { LastHashIsSet(db, bills); }
    var db' := Chain.Committed(db, b, invoice);
    LinksStay(db, db', b.branchID, bills, invoice.sourceID, Chain.NewSubmission(invoice));
    LastLink(db, db', b.branchID, bills, invoice);
    AllAreIn(db, db', b.branchID, bills, invoice);
  }

  lemma LinksStay(db: Db, db': Db, branch: int, bills: seq<int>, k: int, s: Submission)
    requires forall i | 0 <= i < |bills| :: bills[i] in db.submissions
    requires forall i | 0 <= i < |bills| :: Link(db, branch, bills, i)
    requires k !in db.submissions && db'.submissions == db.submissions[k := s]
    ensures forall i | 0 <= i < |bills + [k]| :: (bills + [k])[i] in db'.submissions
    ensures forall i | 0 <= i < |bills| :: Link(db', branch, bills + [k], i)
  {
    var bills' := bills + [k];
    forall i | 0 <= i < |bills|
      ensures bills'[i] in db'.submissions && db'.submissions[bills'[i]] == db.submissions[bills[i]]
    {
    }
    forall i | 0 <= i < |bills|
      ensures Link(db', branch, bills', i)
    {
      assert Link(db, branch, bills, i);
    }
  }

  lemma LastLink(db: Db, db': Db, branch: int, bills: seq<int>, invoice: SignedInvoice)
    requires IsLedger(db, branch, bills) && invoice.sourceID !in db.submissions
    requires db'.submissions == db.submissions[invoice.sourceID := Chain.NewSubmission(invoice)]
    requires invoice.branchID == branch && invoice.icv == |bills| + 1
    requires invoice.pih == Chain.EffectivePIH(db.branches[branch])
    requires |bills| > 0 ==> db.submissions[bills[|bills| - 1]].hash != ""
    requires forall i | 0 <= i <= |bills| :: (bills + [invoice.sourceID])[i] in db'.submissions
    ensures Link(db', branch, bills + [invoice.sourceID], |bills|)
  {
    var bills' := bills + [invoice.sourceID];
    if |bills| > 0 {
      var last := bills[|bills| - 1];
      assert bills'[|bills| - 1] == last && last in db.submissions;
      assert db'.submissions[last] == db.submissions[last];
    }
  }

  lemma AllAreIn(db: Db, db': Db, branch: int, bills: seq<int>, invoice: SignedInvoice)
    requires forall k | k in db.submissions && db.submissions[k].branchID == branch :: k in bills
    requires db'.submissions == db.submissions[invoice.sourceID := Chain.NewSubmission(invoice)]
    ensures forall k | k in db'.submissions && db'.submissions[k].branchID == branch :: k in bills + [invoice.sourceID]
  {
  }

  lemma LastHashIsSet(db: Db, bills: seq<int>)
    requires Sound(db) && |bills| > 0 && bills[|bills| - 1] in db.submissions
    ensures db.submissions[bills[|bills| - 1]].hash != ""
  {
    var last := bills[|bills| - 1];
    assert SubmissionShape(db, last, db.submissions[last]);
  }

  lemma CommitElsewhere(db: Db, b: Booking, invoice: SignedInvoice, branch: int, bills: seq<int>)
    requires Sound(db) && IsLedger(db, branch, bills) && branch != b.branchID
    requires Chain.CommitRefusal(db, b, invoice) == {}
    ensures IsLedger(Chain.Committed(db, b, invoice), branch, bills)
  {
    var db' := Chain.Committed(db, b, invoice);
    assert db'.branches[branch] == db.branches[branch];
    forall i | 0 <= i < |bills|
      ensures bills[i] in db'.submissions && db'.submissions[bills[i]] == db.submissions[bills[i]]
    {
    }
    forall i | 0 <= i < |bills|
      ensures Link(db', branch, bills, i)
    {
      assert Link(db, branch, bills, i);
    }
  }

  lemma LedgerStep(cfg: Config, db: Db, op: Op, branch: int, bills: seq<int>) returns (bills': seq<int>)
    requires Sound(db) && IsLedger(db, branch, bills)
    ensures IsLedger(Apply(cfg, db, op), branch, bills') && bills <= bills'
  {
    var db' := Apply(cfg, db, op);
    bills' := bills;
    if db' == db {
    } else if op.Commit? {
      if op.booking.branchID == branch {
        CommitExtendsLedger(db, op.booking, op.invoice, bills);
        bills' := bills + [op.invoice.sourceID];
      } else {
        CommitElsewhere(db, op.booking, op.invoice, branch, bills);
      }
    } else {
      ApplyEvolves(cfg, db, op);
      OnlyCommitMovesTheChain(cfg, db, op, branch);
      LedgerSurvives(db, db', branch, bills);
    }
  }

  lemma OnlyCommitMovesTheChain(cfg: Config, db: Db, op: Op, branch: int)
    requires branch in db.branches && !op.Commit?
    ensures var db' := Apply(cfg, db, op);
      && db'.submissions.Keys == db.submissions.Keys
      && branch in db'.branches
      && db'.branches[branch].lastICV == db.branches[branch].lastICV
      && db'.branches[branch].previous == db.branches[branch].previous
  {
    hide Message.Valid, SignedInvoice.Valid, Fresh, Chain.Answered, Chain.LogEntry, Chain.Recordable;
  }

  lemma {:induction false} LedgerOfContinuation(cfg: Config, db: Db, ops: seq<Op>, branch: int, bills: seq<int>)
    returns (bills': seq<int>)
    requires Sound(db) && IsLedger(db, branch, bills)
    ensures IsLedger(ApplyAll(cfg, db, ops), branch, bills') && bills <= bills'
  {
    bills' := bills;
    if ops != [] {
      bills' := LedgerOfContinuation(cfg, db, ops[..|ops| - 1], branch, bills);
      RunIsSound(cfg, db, ops[..|ops| - 1]);
      bills' := LedgerStep(cfg, ApplyAll(cfg, db, ops[..|ops| - 1]), ops[|ops| - 1], branch, bills');
    }
  }

  /** Main result: in every run from an initial database each branch has a ledger. Its numbers are exactly 1..last_icv,
      the first hash is the genesis hash, every later one is its predecessor's, the branch row holds the last one, and
      no number passes the signed 64-bit range, so the counter never wraps. */
  lemma {:induction false} ChainIntegrity(cfg: Config, db: Db, ops: seq<Op>, branch: int) returns (bills: seq<int>)
    requires Initial(db) && branch in ApplyAll(cfg, db, ops).branches
    ensures IsLedger(ApplyAll(cfg, db, ops), branch, bills)
    ensures |bills| <= MAX_INT64
    ensures forall i, j | 0 <= i < j < |bills| :: bills[i] != bills[j]
  {
    InitialIsSound(db);
    if ops == [] {
      bills := [];
    } else {
      var prefix, last := ops[..|ops| - 1], ops[|ops| - 1];
      var before := ApplyAll(cfg, db, prefix);
      RunIsSound(cfg, db, prefix);
      if branch in before.branches {
        bills := ChainIntegrity(cfg, db, prefix, branch);
        bills := LedgerStep(cfg, before, last, branch, bills);
        StepStaysInRange(cfg, before, last, branch);
      } else {
        bills := [];
        BranchesOfInvoices(cfg, before, last, branch);
      }
    }
    LedgerIsDistinct(ApplyAll(cfg, db, ops), branch, bills);
  }

  lemma BranchesOfInvoices(cfg: Config, db: Db, op: Op, branch: int)
    requires Sound(db) && branch !in db.branches && branch in Apply(cfg, db, op).branches
    ensures Apply(cfg, db, op).branches[branch] == EMPTY_BRANCH
    ensures forall k | k in Apply(cfg, db, op).submissions :: Apply(cfg, db, op).submissions[k].branchID != branch
  {
    hide LogShape, BillShape, Message.Valid, SignedInvoice.Valid, Chain.Answered, Chain.LogEntry, Chain.Recordable;
    forall k | k in db.submissions
      ensures db.submissions[k].branchID != branch
    {
      assert SubmissionShape(db, k, db.submissions[k]);
    }
  }

  lemma LedgerIsDistinct(db: Db, branch: int, bills: seq<int>)
    requires IsLedger(db, branch, bills)
    ensures forall i, j | 0 <= i < j < |bills| :: bills[i] != bills[j]
  {
    forall i, j | 0 <= i < j < |bills|
      ensures bills[i] != bills[j]
    {
      assert Link(db, branch, bills, i) && Link(db, branch, bills, j);
    }
  }

  lemma StepStaysInRange(cfg: Config, db: Db, op: Op, branch: int)
    requires Sound(db) && branch in db.branches && db.branches[branch].lastICV <= MAX_INT64
    ensures branch in Apply(cfg, db, op).branches && Apply(cfg, db, op).branches[branch].lastICV <= MAX_INT64
  {
    hide Sound, Message.Valid, Chain.Book, Chain.Release, Chain.Commit, Chain.Record, Claims.Claim,
      Claims.ReleaseUpdate, Claims.CompleteUpdate;
    match op
    case Commit(b, invoice, fault) => CommitStaysInRange(db, b, invoice, fault, branch);
    case Book(msg, now, fault) => ReservationsStayInRange(cfg, db, op, branch);
    case Release(b, fault) => ReservationsStayInRange(cfg, db, op, branch);
    case Record(invoice, outcome, fault) => RecordStaysInRange(db, invoice, outcome, fault, branch);
    case Claim(msg, now, fault) => ClaimsStayInRange(cfg, db, op, branch);
    case Unclaim(msg, fault) => ClaimsStayInRange(cfg, db, op, branch);
    case Complete(msg, fault) => ClaimsStayInRange(cfg, db, op, branch);
    case AddBill(_, _) =>
    case AddBranch(_) =>
  }

  lemma ClaimsStayInRange(cfg: Config, db: Db, op: Op, branch: int)
    requires branch in db.branches && db.branches[branch].lastICV <= MAX_INT64
    requires op.Claim? || op.Unclaim? || op.Complete?
    ensures branch in Apply(cfg, db, op).branches && Apply(cfg, db, op).branches[branch].lastICV <= MAX_INT64
  {
    hide Message.Valid;
  }

  lemma ReservationsStayInRange(cfg: Config, db: Db, op: Op, branch: int)
    requires Sound(db) && branch in db.branches && db.branches[branch].lastICV <= MAX_INT64 && (op.Book? || op.Release?)
    ensures branch in Apply(cfg, db, op).branches && Apply(cfg, db, op).branches[branch].lastICV <= MAX_INT64
  {
    hide Sound, Message.Valid, SignedInvoice.Valid;
  }

  lemma RecordStaysInRange(db: Db, invoice: SignedInvoice, outcome: Outcome, fault: Fault, branch: int)
    requires branch in db.branches && db.branches[branch].lastICV <= MAX_INT64
    ensures var db' := Chain.Record(db, invoice, outcome, fault).1;
      branch in db'.branches && db'.branches[branch].lastICV <= MAX_INT64
  {
    hide SignedInvoice.Valid, Chain.Answered, Chain.LogEntry, Chain.Recordable;
  }

  lemma CommitStaysInRange(db: Db, b: Booking, invoice: SignedInvoice, fault: Fault, branch: int)
    requires Sound(db) && branch in db.branches && db.branches[branch].lastICV <= MAX_INT64
    ensures var db' := Chain.Commit(db, b, invoice, fault).1;
      branch in db'.branches && db'.branches[branch].lastICV <= MAX_INT64
  {
    hide LogShape, BillShape, SubmissionShape, Message.Valid;
  }

  // ---------------------------------------------------------------- one commit for each number

  /** A commit that went through owns its number: whatever happens afterwards, no commit of the same branch and number
      goes through again, however many deliveries hold the same booking. */
  lemma NumberIsCommittedOnce(cfg: Config, db: Db, b: Booking, invoice: SignedInvoice, ops: seq<Op>,
                              b': Booking, invoice': SignedInvoice)
    requires Sound(db) && Chain.CommitRefusal(db, b, invoice) == {}
    requires b'.branchID == b.branchID && b'.icv == b.icv
    ensures Chain.CommitRefusal(ApplyAll(cfg, Chain.Committed(db, b, invoice), ops), b', invoice') != {}
  {
    var done := Chain.Committed(db, b, invoice);
    var later := ApplyAll(cfg, done, ops);
    CommitEvolves(db, b, invoice);
    CommitKeepsSound(db, b, invoice);
    RunIsSound(cfg, done, ops);
    assert later.branches[b.branchID].lastICV >= b.icv;
  }

  // ---------------------------------------------------------------- fencing

  /** The branch row is reserved for this request and event. */
  predicate Holder(db: Db, b: Booking) {
    && b.branchID in db.branches
    && db.branches[b.branchID].ownerKey == Some(b.requestKey)
    && db.branches[b.branchID].ownerToken == Some(b.eventID)
  }

  predicate BooksFor(op: Op, b: Booking) {
    op.Book? && op.msg.branchID == b.branchID && op.msg.RequestKey() == b.requestKey && op.msg.eventID == b.eventID
  }

  lemma OnlyItsBookingHolds(cfg: Config, db: Db, op: Op, b: Booking)
    requires !Holder(db, b) && !BooksFor(op, b)
    ensures !Holder(Apply(cfg, db, op), b)
  {
    match op
    case Book(msg, now, fault) =>
      if Chain.Book(cfg, db, msg, now, fault).1 != db { TakeoverDisplaces(cfg, db, msg, now, fault, b); }
    case Release(_, _) =>
    case Commit(_, _, _) =>
    case Record(_, _, _) =>
    case Claim(_, _, _) =>
    case Unclaim(_, _) =>
    case Complete(_, _) =>
    case AddBill(_, _) =>
    case AddBranch(_) =>
  }

  /** A takeover displaces: after a booking of the branch, its holder is the request and event that booked it. */
  lemma TakeoverDisplaces(cfg: Config, db: Db, msg: Message, now: int, fault: Fault, b: Booking)
    requires Chain.Book(cfg, db, msg, now, fault).1 != db
    ensures var db' := Chain.Book(cfg, db, msg, now, fault).1;
      Holder(db', b) <==> if msg.branchID == b.branchID
                          then msg.RequestKey() == b.requestKey && msg.eventID == b.eventID
                          else Holder(db, b)
  {
    assert msg.branchID in db.branches;
  }

  lemma {:induction false} DisplacedStaysDisplaced(cfg: Config, db: Db, ops: seq<Op>, b: Booking)
    requires !Holder(db, b)
    requires forall i | 0 <= i < |ops| :: !BooksFor(ops[i], b)
    ensures !Holder(ApplyAll(cfg, db, ops), b)
  {
    if ops != [] {
      DisplacedStaysDisplaced(cfg, db, ops[..|ops| - 1], b);
      OnlyItsBookingHolds(cfg, ApplyAll(cfg, db, ops[..|ops| - 1]), ops[|ops| - 1], b);
    }
  }

  /** A displaced booking is fenced: until its own request and event book again it commits nothing, and its release
      leaves every reservation as it is. */
  lemma DisplacedBookingIsFenced(cfg: Config, db: Db, ops: seq<Op>, b: Booking, invoice: SignedInvoice, fault: Fault)
    requires !Holder(db, b)
    requires forall i | 0 <= i < |ops| :: !BooksFor(ops[i], b)
    ensures var later := ApplyAll(cfg, db, ops);
      Chain.CommitRefusal(later, b, invoice) != {} && Chain.Release(later, b, fault).1 == later
  {
    DisplacedStaysDisplaced(cfg, db, ops, b);
  }

  // ---------------------------------------------------------------- booking

  /** What Book answers on sound tables without a fault. The guard on a stale reserved number never decides. */
  lemma BookAnswer(cfg: Config, db: Db, msg: Message, now: int)
    requires Sound(db)
    ensures var reply := Chain.Book(cfg, db, msg, now, Clean).0;
      if msg.branchID !in db.branches then reply == Err({RejectedInput})
      else
        var row := db.branches[msg.branchID];
        if row.reservedICV.Some? && row.lastICV >= MAX_INT64 then reply == Err({Technical})
        else if row.lastICV == MAX_UINT64 then reply == Err({ChainConflict})
        else if Chain.LeaseLive(row, now) && (row.ownerKey != Some(msg.RequestKey())
                                              || row.ownerToken != Some(msg.eventID))
        then reply == Err({ChainBusy})
        else reply.Ok? && reply.value.icv == row.lastICV + 1 && reply.value.pih == Chain.EffectivePIH(row)
  {
    if msg.branchID in db.branches {
      assert ReservationShape(db.branches[msg.branchID]);
    }
  }

  /** A booking that was just made commits any invoice that fits it and its bill, as long as its number is in range. */
  lemma BookedCommits(cfg: Config, db: Db, msg: Message, now: int, invoice: SignedInvoice)
    requires Sound(db) && Chain.Book(cfg, db, msg, now, Clean).0.Ok?
    requires var b := Chain.Book(cfg, db, msg, now, Clean).0.value;
      Chain.Fits(invoice, b) && invoice.Valid()
    requires invoice.sourceID in db.bills && invoice.sourceID !in db.submissions
    requires db.bills[invoice.sourceID].branchID == msg.branchID
    requires Chain.FreeFor(db.bills[invoice.sourceID].invoiceUUID, invoice.uuid)
    ensures var (reply, booked) := Chain.Book(cfg, db, msg, now, Clean);
      Chain.CommitRefusal(booked, reply.value, invoice) == {} <==> db.branches[msg.branchID].lastICV < MAX_INT64
  {
    hide SubmissionShape, LogShape, Message.Valid;
    assert BillShape(db, invoice.sourceID, db.bills[invoice.sourceID]);
  }

  /** A column that the commit may write: unset, blank, or already with this value. */
  predicate Open(column: Option<string>, value: string) {
    match column
    case None => true
    case Some(text) => text == value || forall i | 0 <= i < |text| :: IsSpace(text[i])
  }

  /** Which commits go through, in terms of the rows: a valid invoice with the branch, number, UUID and previous hash of
      its booking, which still holds the next number of its branch and the hash that number chains from, for a bill of
      that branch without an invoice and without other values in its two columns. */
  lemma CommitsExactly(db: Db, b: Booking, invoice: SignedInvoice)
    requires Sound(db)
    ensures Chain.CommitRefusal(db, b, invoice) == {} <==>
      && invoice.Valid() && invoice.branchID == b.branchID && invoice.icv == b.icv
      && invoice.uuid == b.uuid && invoice.pih == b.pih
      && b.branchID in db.branches
      && (var row := db.branches[b.branchID];
          && row.ownerKey == Some(b.requestKey) && row.ownerToken == Some(b.eventID)
          && row.reservedICV == Some(b.icv) && b.icv == row.lastICV + 1 <= MAX_INT64
          && b.pih == (match row.previous
                       case None => GENESIS_PIH
                       case Some(hash) => if |hash| == 0 then GENESIS_PIH else hash))
      && invoice.sourceID in db.bills && invoice.sourceID !in db.submissions
      && (var bill := db.bills[invoice.sourceID];
          bill.branchID == b.branchID && Open(bill.invoiceUUID, invoice.uuid) && Open(bill.invoiceHash, invoice.hash))
  {
    hide SubmissionShape, LogShape, BillShape, IsUUID;
    if b.branchID in db.branches {
      var row := db.branches[b.branchID];
      assert ReservationShape(row);
      if row.reservedICV == Some(invoice.icv) {
        assert WrapAdd(row.lastICV, 1) == invoice.icv <==> invoice.icv != 0;
      }
    }
    if invoice.sourceID in db.bills {
      var bill := db.bills[invoice.sourceID];
      assert Open(bill.invoiceUUID, invoice.uuid) <==> Chain.FreeFor(bill.invoiceUUID, invoice.uuid);
      assert Open(bill.invoiceHash, invoice.hash) <==> Chain.FreeFor(bill.invoiceHash, invoice.hash);
    }
  }

  // ---------------------------------------------------------------- outcomes

  /** Main result on outcomes: in every run from an initial database, what was answered stays with its state, code and
      message, the log holds exactly one row for an answered invoice and none otherwise, the numeric status is that of
      the state, and a bill is issued exactly when its invoice was accepted. */
  lemma OutcomesAreFinal(cfg: Config, db: Db, ops: seq<Op>, more: seq<Op>, k: int)
    requires Initial(db)
    requires k in ApplyAll(cfg, db, ops).submissions
    ensures var (a, z) := (ApplyAll(cfg, db, ops), ApplyAll(cfg, db, ops + more));
      && k in z.submissions && SameInvoice(a.submissions[k], z.submissions[k])
      && (a.submissions[k].outcomeState != PENDING ==> z.submissions[k] == a.submissions[k])
      && Answers(z.log, k) == (if z.submissions[k].outcomeState != PENDING then 1 else 0)
      && (if z.submissions[k].outcomeState == PENDING then z.submissions[k].status == 0
          else Chain.SubmissionStatus(z.submissions[k].outcomeState) == Some(z.submissions[k].status))
      && k in z.bills && (z.bills[k].state == ISSUED <==> Chain.Issues(z.submissions[k].outcomeState))
  {
    InitialIsSound(db);
    RunIsSound(cfg, db, ops);
    RunSplits(cfg, db, ops, more);
    var a, z := ApplyAll(cfg, db, ops), ApplyAll(cfg, db, ops + more);
    RunIsSound(cfg, a, more);
    assert SubmissionShape(z, k, z.submissions[k]) && BillShape(z, k, z.bills[k]);
    assert Answers(z.log, k) == (if IsAnswered(z, k) then 1 else 0);
  }

  // ---------------------------------------------------------------- claims

  /** A claim's fingerprint never changes, and a completed claim never changes at all. */
  lemma ClaimsAreFinal(cfg: Config, db: Db, ops: seq<Op>, key: ClaimKey)
    requires Sound(db) && key in db.claims
    ensures var z := ApplyAll(cfg, db, ops);
      && key in z.claims && z.claims[key].fingerprint == db.claims[key].fingerprint
      && (db.claims[key].completed ==> z.claims[key] == db.claims[key])
  {
    RunIsSound(cfg, db, ops);
  }

  /** The claim of the request is this event's. */
  predicate ClaimedBy(db: Db, msg: Message) {
    KeyOf(msg) in db.claims && db.claims[KeyOf(msg)].eventID == msg.eventID
  }

  predicate ClaimsFor(op: Op, msg: Message) {
    op.Claim? && KeyOf(op.msg) == KeyOf(msg) && op.msg.eventID == msg.eventID
  }

  lemma {:induction false} DisplacedClaimStays(cfg: Config, db: Db, ops: seq<Op>, msg: Message)
    requires !ClaimedBy(db, msg)
    requires forall i | 0 <= i < |ops| :: !ClaimsFor(ops[i], msg)
    ensures !ClaimedBy(ApplyAll(cfg, db, ops), msg)
  {
    if ops != [] {
      DisplacedClaimStays(cfg, db, ops[..|ops| - 1], msg);
      OnlyItsClaimOwns(cfg, ApplyAll(cfg, db, ops[..|ops| - 1]), ops[|ops| - 1], msg);
    }
  }

  lemma OnlyItsClaimOwns(cfg: Config, db: Db, op: Op, msg: Message)
    requires !ClaimedBy(db, msg) && !ClaimsFor(op, msg)
    ensures !ClaimedBy(Apply(cfg, db, op), msg)
  {
    hide Message.Valid, SignedInvoice.Valid, Chain.Recordable, Chain.LogEntry, Chain.Answered, Chain.Holds, Fresh;
  }

  /** A claim that another event has taken over is fenced: until its own event claims again, the delivery neither
      releases nor completes it, whatever happens. */
  lemma DisplacedClaimIsFenced(cfg: Config, db: Db, ops: seq<Op>, msg: Message, fault: Fault)
    requires !ClaimedBy(db, msg)
    requires forall i | 0 <= i < |ops| :: !ClaimsFor(ops[i], msg)
    ensures var later := ApplyAll(cfg, db, ops);
      && Claims.ReleaseUpdate(cfg, later, msg, fault).1 == later && Claims.CompleteUpdate(later, msg, fault).1 == later
      && (msg.Valid() ==> Claims.Completed(later, msg, Clean, Clean).0 in {{ClaimStale}, {ClaimNotFound}})
  {
    DisplacedClaimStays(cfg, db, ops, msg);
    hide Message.Valid, ApplyAll;
  }
}
