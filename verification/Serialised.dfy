/** Runs in which the deliveries of one partition do not overlap, as the partition lock arranges: a completed request
    never leaves an invoice of its own behind unanswered. */
module Serialised {
  import opened Text
  import opened Messages
  import opened Tables
  import opened Operations
  import opened ChainSafety
  import opened HashChain
  import opened Stream
  import opened World
  import opened WorldSafety
  import Chain
  import Claims
  import Provider

  /** The tenant a daemon serves, the bill and branch the backend gave each request, and the branch of each bill. */
  datatype Backend = Backend(tenantKey: string, request: string -> (int, int), branchOf: int -> int)
  {
    /** Every delivery of a request names the same bill and branch, and all requests of a bill name its branch. The
        event of a delivery may differ. */
    predicate Sent(msg: Message) {
      && msg.Valid() && msg.tenantKey == tenantKey && request(msg.RequestKey()) == (msg.id, msg.branchID)
      && branchOf(msg.id) == msg.branchID
    }
  }

  /** A delivery is admitted when the backend sent it and its partition is free. */
  ghost predicate Admits(be: Backend, w: World, a: Action) {
    a.Deliver? ==>
      && be.Sent(a.msg)
      && forall id | id in w.live && !w.live[id].pc.Ended? :: w.live[id].msg.PartitionKey() != a.msg.PartitionKey()
  }

  ghost predicate SerialRun(cfg: Config, be: Backend, w: World, actions: seq<Action>) {
    actions != [] ==>
      && SerialRun(cfg, be, w, actions[..|actions| - 1])
      && Admits(be, Run(cfg, w, actions[..|actions| - 1]), actions[|actions| - 1])
  }

  // ---------------------------------------------------------------- invariant

  function RequestText(key: ClaimKey): string {
    key.0 + [NUL] + key.1
  }

  /** No invoice was committed under this request. */
  ghost predicate Uncommitted(owners: map<int, string>, request: string) {
    forall k | k in owners :: owners[k] != request
  }

  /** No invoice committed under this request is pending. */
  ghost predicate Settled(db: Db, owners: map<int, string>, request: string) {
    forall k | k in owners && owners[k] == request :: !IsPending(db, k)
  }

  /** The claim of this delivery is still being processed. */
  ghost predicate Open(db: Db, msg: Message) {
    KeyOf(msg) in db.claims && !db.claims[KeyOf(msg)].completed
  }

  predicate Working(pc: Pc) {
    pc.AtRead? || pc.AtPrepare? || pc.AtBook? || pc.AtBuild? || pc.AtCommit? || pc.AtUnbook? || pc.AtSubmit?
      || pc.AtRecord?
  }

  ghost predicate OnTrack(db: Db, owners: map<int, string>, d: Delivery) {
    && (Working(d.pc) ==> Open(db, d.msg))
    && (d.pc.AtPrepare? || d.pc.AtBook? || d.pc.AtBuild? || d.pc.AtCommit? ==> Uncommitted(owners, d.msg.RequestKey()))
    && (d.pc.AtComplete? || d.pc.AtInspect? ==> Settled(db, owners, d.msg.RequestKey()))
    && (d.pc.AtUnbook? ==> RejectedInput !in d.pc.cause)
  }

  ghost predicate ClaimsSettled(db: Db, owners: map<int, string>) {
    forall key | key in db.claims :: NUL !in key.0 && (db.claims[key].completed ==>
                                                         Settled(db, owners, RequestText(key)))
  }

  ghost predicate CommittedAsSent(be: Backend, owners: map<int, string>) {
    forall k | k in owners :: be.request(owners[k]).0 == k
  }

  ghost predicate Apart(live: map<nat, Delivery>) {
    forall i, j | i in live && j in live && i != j && !live[i].pc.Ended? && !live[j].pc.Ended? ::
      live[i].msg.branchID != live[j].msg.branchID
  }

  ghost predicate AllSent(be: Backend, live: map<nat, Delivery>) {
    forall id | id in live :: be.Sent(live[id].msg)
  }

  ghost predicate AllOnTrack(db: Db, owners: map<int, string>, live: map<nat, Delivery>) {
    forall id | id in live :: OnTrack(db, owners, live[id])
  }

  ghost predicate Orderly(be: Backend, w: World) {
    && Safe(w)
    && AllSent(be, w.live)
    && AllOnTrack(w.db, w.committedBy, w.live)
    && Apart(w.live)
    && CommittedAsSent(be, w.committedBy)
    && ClaimsSettled(w.db, w.committedBy)
  }

  // ---------------------------------------------------------------- the delivery that moves

  /** What a step of d may do to the rest: it touches its own claim only, commits under its own request only, and never
      makes an invoice pending again. */
  ghost predicate OwnStep(a: Db, owners: map<int, string>, b: Db, owners': map<int, string>, msg: Message) {
    && (forall key | key in b.claims && key != KeyOf(msg) :: key in a.claims && b.claims[key] == a.claims[key])
    && (forall key | key in a.claims :: key in b.claims)
    && (forall k | k in owners :: k in owners' && owners'[k] == owners[k])
    && (forall k | k in owners' && k !in owners :: owners'[k] == msg.RequestKey() && k == msg.id)
    && (forall k | k in owners && IsPending(b, k) :: IsPending(a, k))
  }

  lemma StepTouchesItsClaim(cfg: Config, db: Db, d: Delivery, inp: Input)
    ensures var db' := Advance(cfg, db, d, inp).1;
      && (forall key | key in db'.claims && key != KeyOf(d.msg) ::
            key in db.claims && db'.claims[key] == db.claims[key])
      && (forall key | key in db.claims :: key in db'.claims)
  {
    StepIsOperation(cfg, db, d, inp);
    if OpOf(d, inp).Some? {
      OperationTouchesItsClaim(cfg, db, OpOf(d, inp).value, d.msg);
    }
  }

  lemma OperationTouchesItsClaim(cfg: Config, db: Db, op: Op, msg: Message)
    requires op.Claim? || op.Unclaim? || op.Complete? ==> op.msg == msg
    requires !op.AddBill? && !op.AddBranch?
    ensures var db' := Apply(cfg, db, op);
      && (forall key | key in db'.claims && key != KeyOf(msg) :: key in db.claims && db'.claims[key] == db.claims[key])
      && (forall key | key in db.claims :: key in db'.claims)
  {
    hide Message.Valid, SignedInvoice.Valid, Chain.Recordable, Chain.LogEntry, Chain.Answered, Chain.Holds;
  }

  lemma StepCommitsItsOwn(cfg: Config, w: World, id: nat, inp: Input)
    requires id in w.live && Holding(w.db, w.live[id]) && w.committedBy.Keys == w.db.submissions.Keys
    ensures var (w', d) := (StepOne(cfg, w, id, inp), w.live[id]);
      && (forall k | k in w.committedBy :: k in w'.committedBy && w'.committedBy[k] == w.committedBy[k])
      && (forall k | k in w'.committedBy && k !in w.committedBy ::
            d.pc.AtCommit? && w'.committedBy[k] == d.msg.RequestKey() && k == d.msg.id)
  {
  }

  lemma PendingOnlyEnds(a: Db, b: Db, k: int)
    requires Evolves(a, b) && k in a.submissions && IsPending(b, k)
    ensures IsPending(a, k)
  {
  }

  lemma StepTouchesItsOwn(cfg: Config, w: World, id: nat, inp: Input)
    requires Safe(w) && id in w.live
    ensures var w' := StepOne(cfg, w, id, inp);
      OwnStep(w.db, w.committedBy, w'.db, w'.committedBy, w.live[id].msg)
  {
    var w' := StepOne(cfg, w, id, inp);
    assert Holding(w.db, w.live[id]);
    StepEvolves(cfg, w.db, w.live[id], inp);
    StepSubmits(cfg, w, id, inp);
    StepTouchesItsClaim(cfg, w.db, w.live[id], inp);
    StepCommitsItsOwn(cfg, w, id, inp);
    forall k | k in w.committedBy && IsPending(w'.db, k)
      ensures IsPending(w.db, k)
    {
      PendingOnlyEnds(w.db, w'.db, k);
    }
  }

  lemma SettledStays(a: Db, owners: map<int, string>, b: Db, owners': map<int, string>, msg: Message, request: string)
    requires OwnStep(a, owners, b, owners', msg) && request != msg.RequestKey()
    requires Settled(a, owners, request)
    ensures Settled(b, owners', request)
  {
  }

  lemma OthersStayOnTrack(be: Backend, a: Db, owners: map<int, string>, b: Db, owners': map<int, string>, msg: Message,
                          d: Delivery)
    requires OwnStep(a, owners, b, owners', msg) && be.Sent(msg) && be.Sent(d.msg)
    requires d.pc.Ended? || d.msg.branchID != msg.branchID
    requires OnTrack(a, owners, d)
    ensures OnTrack(b, owners', d)
  {
    if !d.pc.Ended? {
      assert d.msg.RequestKey() != msg.RequestKey();
      RequestKeyIdentifies(d.msg, msg);
      if d.pc.AtComplete? || d.pc.AtInspect? {
        SettledStays(a, owners, b, owners', msg, d.msg.RequestKey());
      }
    }
  }

  lemma OneBill(be: Backend, db: Db, owners: map<int, string>, msg: Message)
    requires CommittedAsSent(be, owners) && be.Sent(msg) && owners.Keys == db.submissions.Keys
    ensures !IsPending(db, msg.id) ==> Settled(db, owners, msg.RequestKey())
    ensures msg.id !in db.submissions ==> Uncommitted(owners, msg.RequestKey())
  {
  }

  // The moving delivery itself, one group of program counters at a time.

  ghost predicate Moves(be: Backend, db: Db, owners: map<int, string>, d: Delivery) {
    && Sound(db) && Holding(db, d) && OnTrack(db, owners, d) && be.Sent(d.msg)
    && owners.Keys == db.submissions.Keys && CommittedAsSent(be, owners)
  }

  lemma ClaimStaysOnTrack(cfg: Config, be: Backend, db: Db, owners: map<int, string>, d: Delivery, inp: Input)
    requires d.pc.AtClaim?
    ensures var (d', db') := Advance(cfg, db, d, inp); OnTrack(db', owners, d')
  {
    hide Message.Valid, SignedInvoice.Valid;
  }

  /** What a read tells about the row. */
  lemma StoredTells(db: Db, k: int)
    requires Sound(db)
    ensures Chain.Stored(db, k).None? ==> k !in db.submissions
    ensures Chain.Stored(db, k).Some? && Chain.Stored(db, k).value.outcome != "" ==> !IsPending(db, k)
  {
    if k in db.submissions {
      assert SubmissionShape(db, k, db.submissions[k]);
    }
    if Chain.Stored(db, k).Some? {
      StoredCarries(db, k);
    }
  }

  lemma ReadGoesOn(cfg: Config, db: Db, d: Delivery, inp: Input)
    requires d.pc.AtRead? || d.pc.AtFinalRead?
    ensures var reply := Chain.Lookup(db, d.msg.id, inp.fault);
      Advance(cfg, db, d, inp)
      == (d.(pc := if d.pc.AtRead? then AfterRead(reply, d.msg) else AfterFinalRead(reply, d.pc.cause)), db)
  {
    hide AfterRead, AfterFinalRead, Chain.Lookup;
  }

  lemma ReadStaysOnTrack(cfg: Config, be: Backend, db: Db, owners: map<int, string>, d: Delivery, inp: Input)
    requires Moves(be, db, owners, d) && (d.pc.AtRead? || d.pc.AtFinalRead?)
    ensures var (d', db') := Advance(cfg, db, d, inp); OnTrack(db', owners, d')
  {
    hide Advance, Next, Message.Valid, SignedInvoice.Valid, CheckStored, Chain.Stored, Sound, Holding, Settled,
      Uncommitted, Open, CommittedAsSent, Backend.Sent;
    ReadGoesOn(cfg, db, d, inp);
    OneBill(be, db, owners, d.msg);
    StoredTells(db, d.msg.id);
  }

  lemma BookStaysOnTrack(cfg: Config, be: Backend, db: Db, owners: map<int, string>, d: Delivery, inp: Input)
    requires Moves(be, db, owners, d) && (d.pc.AtPrepare? || d.pc.AtBook? || d.pc.AtBuild?)
    ensures var (d', db') := Advance(cfg, db, d, inp); OnTrack(db', owners, d')
  {
  }

  lemma CommitStaysOnTrack(cfg: Config, be: Backend, db: Db, owners: map<int, string>, d: Delivery, inp: Input,
                           owners': map<int, string>)
    requires Moves(be, db, owners, d) && d.pc.AtCommit?
    ensures var (d', db') := Advance(cfg, db, d, inp); OnTrack(db', owners', d')
  {
    assert RejectedInput !in Chain.CommitRefusal(db, d.pc.booking, d.pc.invoice);
  }

  lemma UnbookStaysOnTrack(cfg: Config, be: Backend, db: Db, owners: map<int, string>, d: Delivery, inp: Input)
    requires Moves(be, db, owners, d) && d.pc.AtUnbook?
    ensures var (d', db') := Advance(cfg, db, d, inp); OnTrack(db', owners, d')
  {
  hide Message.Valid, Sound, Holding, CommittedAsSent, Uncommitted, Settled;
  }

  lemma SubmitStaysOnTrack(cfg: Config, be: Backend, db: Db, owners: map<int, string>, d: Delivery, inp: Input)
    requires Moves(be, db, owners, d) && d.pc.AtSubmit?
    ensures var (d', db') := Advance(cfg, db, d, inp); OnTrack(db', owners, d')
  {
    var pc := AfterSubmit(d.pc.invoice, inp.answer);
    if inp.answer.Some? {
      Provider.VerdictsAreRecordable(d.pc.invoice.kind, inp.answer.value);
    }
    assert pc.AtUnclaim? || pc.AtRecord?;
  }

  lemma RecordStaysOnTrack(cfg: Config, be: Backend, db: Db, owners: map<int, string>, d: Delivery, inp: Input)
    requires Moves(be, db, owners, d) && (d.pc.AtRecord? || d.pc.AtFinalRecord?)
    ensures var (d', db') := Advance(cfg, db, d, inp); OnTrack(db', owners, d')
  {
    hide Message.Valid, Provider.Classify, Sound, SameInvoice, Chain.Record;
    var outcome := if d.pc.AtRecord? then d.pc.outcome else TerminalOutcome(inp.causeText);
    var (reply, db') := Chain.Record(db, d.pc.invoice, outcome, inp.fault);
    RecordAnswers(db, d.pc.invoice, outcome, inp.fault);
    OnlyCommitAddsInvoices(cfg, db, Op.Record(d.pc.invoice, outcome, inp.fault));
    RowsLeaveClaims(cfg, db, Op.Record(d.pc.invoice, outcome, inp.fault));
    OneBill(be, db', owners, d.msg);
  }

  lemma CompleteStaysOnTrack(cfg: Config, be: Backend, db: Db, owners: map<int, string>, d: Delivery, inp: Input)
    requires Moves(be, db, owners, d)
    requires d.pc.AtComplete? || d.pc.AtInspect? || d.pc.AtUnclaim? || d.pc.AtInspectRelease? || d.pc.AtAck?
          || d.pc.Returned? || d.pc.Ended?
    ensures var (d', db') := Advance(cfg, db, d, inp); OnTrack(db', owners, d')
  {
    hide Message.Valid, SignedInvoice.Valid, Provider.Classify, Sound, SameInvoice;
    var (d', db') := Advance(cfg, db, d, inp);
    assert db'.submissions == db.submissions;
  }

  lemma MoverStaysOnTrack(cfg: Config, be: Backend, w: World, id: nat, inp: Input)
    requires Orderly(be, w) && id in w.live
    ensures var w' := StepOne(cfg, w, id, inp); OnTrack(w'.db, w'.committedBy, w'.live[id])
  {
    hide Message.Valid;
    var (w', d) := (StepOne(cfg, w, id, inp), w.live[id]);
    assert Holding(w.db, d) && Moves(be, w.db, w.committedBy, d);
    StepSubmits(cfg, w, id, inp);
    if !d.pc.AtCommit? { assert w'.committedBy == w.committedBy; }
    match d.pc
    case AtClaim => ClaimStaysOnTrack(cfg, be, w.db, w.committedBy, d, inp);
    case AtRead => ReadStaysOnTrack(cfg, be, w.db, w.committedBy, d, inp);
    case AtFinalRead(_) => ReadStaysOnTrack(cfg, be, w.db, w.committedBy, d, inp);
    case AtPrepare => BookStaysOnTrack(cfg, be, w.db, w.committedBy, d, inp);
    case AtBook => BookStaysOnTrack(cfg, be, w.db, w.committedBy, d, inp);
    case AtBuild(_) => BookStaysOnTrack(cfg, be, w.db, w.committedBy, d, inp);
    case AtCommit(_, _) => CommitStaysOnTrack(cfg, be, w.db, w.committedBy, d, inp, w'.committedBy);
    case AtUnbook(_, _) => UnbookStaysOnTrack(cfg, be, w.db, w.committedBy, d, inp);
    case AtSubmit(_) => SubmitStaysOnTrack(cfg, be, w.db, w.committedBy, d, inp);
    case AtRecord(_, _, _, _) => RecordStaysOnTrack(cfg, be, w.db, w.committedBy, d, inp);
    case AtFinalRecord(_, _) => RecordStaysOnTrack(cfg, be, w.db, w.committedBy, d, inp);
    case _ => CompleteStaysOnTrack(cfg, be, w.db, w.committedBy, d, inp);
  }

  // ---------------------------------------------------------------- claims and owners after a step

  /** A claim that a step completes is the delivery's own, from a state in which its request is settled. */
  lemma StepCompletesSettled(cfg: Config, db: Db, d: Delivery, inp: Input)
    ensures var db' := Advance(cfg, db, d, inp).1; var key := KeyOf(d.msg);
      key in db'.claims && db'.claims[key].completed && !(key in db.claims && db.claims[key].completed) ==>
        d.pc.AtComplete?
  {
  }

  lemma StepNamesItsClaims(cfg: Config, db: Db, d: Delivery, inp: Input)
    requires d.msg.Valid()
    requires forall key | key in db.claims :: NUL !in key.0
    ensures forall key | key in Advance(cfg, db, d, inp).1.claims :: NUL !in key.0
  {
    StepTouchesItsClaim(cfg, db, d, inp);
    NoNul(d.msg.posID, 64);
  }

  lemma ClaimsStaySettled(cfg: Config, be: Backend, w: World, id: nat, inp: Input)
    requires Orderly(be, w) && id in w.live
    ensures var w' := StepOne(cfg, w, id, inp); ClaimsSettled(w'.db, w'.committedBy)
  {
    var (w', d) := (StepOne(cfg, w, id, inp), w.live[id]);
    var own := KeyOf(d.msg);
    assert be.Sent(d.msg) && OnTrack(w.db, w.committedBy, d);
    assert Holding(w.db, d);
    StepSubmits(cfg, w, id, inp);
    StepTouchesItsOwn(cfg, w, id, inp);
    StepCommitsItsOwn(cfg, w, id, inp);
    StepCompletesSettled(cfg, w.db, d, inp);
    StepNamesItsClaims(cfg, w.db, d, inp);
    forall key | key in w'.db.claims && w'.db.claims[key].completed
      ensures Settled(w'.db, w'.committedBy, RequestText(key))
    {
      if key == own {
        SettledOfOwn(w, w', d);
      } else {
        assert key in w.db.claims && Settled(w.db, w.committedBy, RequestText(key));
        if RequestText(key) == RequestText(own) {
          NoNul(d.msg.posID, 64);
          JoinSplitsOnce(key.0, key.1, own.0, own.1, NUL);
        }
        SettledStays(w.db, w.committedBy, w'.db, w'.committedBy, d.msg, RequestText(key));
      }
    }
  }

  /** A delivery commits only while its claim is open, so a completed claim of its own request stays settled. */
  lemma SettledOfOwn(w: World, w': World, d: Delivery)
    requires OwnStep(w.db, w.committedBy, w'.db, w'.committedBy, d.msg)
    requires OnTrack(w.db, w.committedBy, d) && ClaimsSettled(w.db, w.committedBy)
    requires ClaimCompleted(w.db, d.msg) || d.pc.AtComplete?
    requires d.pc.AtCommit? || w'.committedBy.Keys == w.committedBy.Keys
    ensures Settled(w'.db, w'.committedBy, RequestText(KeyOf(d.msg)))
  {
    assert Settled(w.db, w.committedBy, RequestText(KeyOf(d.msg)));
    assert !d.pc.AtCommit?;
  }

  lemma EndedStepIsIdle(cfg: Config, w: World, id: nat, inp: Input)
    requires id in w.live && w.live[id].pc.Ended?
    ensures StepOne(cfg, w, id, inp) == w
  {
    assert w.live[id := w.live[id]] == w.live;
  }

  lemma RestStaysOnTrack(be: Backend, w: World, w': World, id: nat, d': Delivery)
    requires id in w.live && !w.live[id].pc.Ended? && Apart(w.live)
    requires AllSent(be, w.live) && AllOnTrack(w.db, w.committedBy, w.live)
    requires OwnStep(w.db, w.committedBy, w'.db, w'.committedBy, w.live[id].msg)
    requires OnTrack(w'.db, w'.committedBy, d')
    ensures AllOnTrack(w'.db, w'.committedBy, w.live[id := d'])
  {
    forall j | j in w.live && j != id
      ensures OnTrack(w'.db, w'.committedBy, w.live[j])
    {
      OthersStayOnTrack(be, w.db, w.committedBy, w'.db, w'.committedBy, w.live[id].msg, w.live[j]);
    }
  }

  lemma SameMessages(be: Backend, live: map<nat, Delivery>, id: nat, d': Delivery)
    requires id in live && !live[id].pc.Ended? && Apart(live) && AllSent(be, live) && d'.msg == live[id].msg
    ensures Apart(live[id := d']) && AllSent(be, live[id := d'])
  {
    var live' := live[id := d'];
    forall j | j in live'
      ensures live'[j].msg == live[j].msg && (!live'[j].pc.Ended? ==> !live[j].pc.Ended?)
    {
    }
  }

  lemma CommitsAsSent(be: Backend, w: World, w': World, msg: Message)
    requires CommittedAsSent(be, w.committedBy) && be.Sent(msg)
    requires OwnStep(w.db, w.committedBy, w'.db, w'.committedBy, msg)
    ensures CommittedAsSent(be, w'.committedBy)
  {
  }

  lemma StepKeepsLiveOrderly(cfg: Config, be: Backend, w: World, id: nat, inp: Input)
    requires Orderly(be, w) && id in w.live && !w.live[id].pc.Ended?
    ensures var w' := StepOne(cfg, w, id, inp);
      && AllSent(be, w'.live) && AllOnTrack(w'.db, w'.committedBy, w'.live) && Apart(w'.live)
      && CommittedAsSent(be, w'.committedBy)
  {
    var (w', d) := (StepOne(cfg, w, id, inp), w.live[id]);
    StepSubmits(cfg, w, id, inp);
    StepTouchesItsOwn(cfg, w, id, inp);
    MoverStaysOnTrack(cfg, be, w, id, inp);
    RestStaysOnTrack(be, w, w', id, w'.live[id]);
    SameMessages(be, w.live, id, w'.live[id]);
    CommitsAsSent(be, w, w', d.msg);
  }

  lemma StepKeepsOrderly(cfg: Config, be: Backend, w: World, id: nat, inp: Input)
    requires Orderly(be, w) && id in w.live
    ensures Orderly(be, StepOne(cfg, w, id, inp))
  {
    if w.live[id].pc.Ended? {
      EndedStepIsIdle(cfg, w, id, inp);
    } else {
      StepKeepsSafe(cfg, w, id, inp);
      ClaimsStaySettled(cfg, be, w, id, inp);
      StepKeepsLiveOrderly(cfg, be, w, id, inp);
    }
  }

  // ---------------------------------------------------------------- the other actions

  /** Operator records and backend rows leave claims and owners alone and make nothing pending. */
  lemma TableActionKeepsOrderly(be: Backend, w: World, w': World)
    requires Orderly(be, w) && Safe(w')
    requires w'.live == w.live && w'.committedBy == w.committedBy && w'.db.claims == w.db.claims
    requires Evolves(w.db, w'.db)
    ensures Orderly(be, w')
  {
    hide Message.Valid;
    forall k | k in w.committedBy && IsPending(w'.db, k)
      ensures IsPending(w.db, k)
    {
      PendingOnlyEnds(w.db, w'.db, k);
    }
    forall request | Settled(w.db, w.committedBy, request)
      ensures Settled(w'.db, w'.committedBy, request)
    {
    }
  }

  lemma AdmittedIsApart(be: Backend, w: World, a: Action)
    requires AllSent(be, w.live) && Apart(w.live) && a.Deliver? && Admits(be, w, a) && a.id !in w.live
    ensures Apart(w.live[a.id := Received(a.msg, a.exhausted)])
  {
    forall j | j in w.live && !w.live[j].pc.Ended?
      ensures w.live[j].msg.branchID != a.msg.branchID
    {
      assert be.Sent(w.live[j].msg);
      PartitionKeyIdentifies(w.live[j].msg, a.msg);
    }
  }

  lemma DeliverKeepsOrderly(cfg: Config, be: Backend, w: World, a: Action)
    requires Orderly(be, w) && a.Deliver? && Admits(be, w, a)
    ensures Orderly(be, Do(cfg, w, a))
  {
    hide Message.Valid, Safe;
    DoKeepsSafe(cfg, w, a);
    if a.id !in w.live {
      AdmittedIsApart(be, w, a);
      assert OnTrack(w.db, w.committedBy, Received(a.msg, a.exhausted));
    }
  }

  lemma RowsKeepOrderly(cfg: Config, be: Backend, w: World, w': World, op: Op)
    requires Orderly(be, w) && Safe(w')
    requires op.Record? || op.AddBill? || op.AddBranch?
    requires w'.live == w.live && w'.committedBy == w.committedBy && w'.db == Apply(cfg, w.db, op)
    ensures Orderly(be, w')
  {
    ApplyEvolves(cfg, w.db, op);
    RowsLeaveClaims(cfg, w.db, op);
    TableActionKeepsOrderly(be, w, w');
  }

  lemma TablesKeepOrderly(cfg: Config, be: Backend, w: World, a: Action)
    requires Orderly(be, w) && (a.Operate? || a.AddBill? || a.AddBranch?)
    ensures Orderly(be, Do(cfg, w, a))
  {
    hide Safe, Chain.Record, Message.Valid;
    DoKeepsSafe(cfg, w, a);
    match a
    case Operate(invoice, outcome, fault) =>
      if OperatorOutcome(outcome) {
        RowsKeepOrderly(cfg, be, w, Do(cfg, w, a), Op.Record(invoice, outcome, fault));
      }
    case AddBill(id, bill) => RowsKeepOrderly(cfg, be, w, Do(cfg, w, a), Op.AddBill(id, bill));
    case AddBranch(id) => RowsKeepOrderly(cfg, be, w, Do(cfg, w, a), Op.AddBranch(id));
  }

  lemma DoKeepsOrderly(cfg: Config, be: Backend, w: World, a: Action)
    requires Orderly(be, w) && Admits(be, w, a)
    ensures Orderly(be, Do(cfg, w, a))
  {
    match a
    case Deliver(id, msg, exhausted) => DeliverKeepsOrderly(cfg, be, w, a);
    case Step(id, inp) => if id in w.live { StepKeepsOrderly(cfg, be, w, id, inp); }
    case Crash(id) => DoKeepsSafe(cfg, w, a);
    case _ => TablesKeepOrderly(cfg, be, w, a);
  }

  lemma {:induction false} RunIsOrderly(cfg: Config, be: Backend, w: World, actions: seq<Action>)
    requires Start(w) && SerialRun(cfg, be, w, actions)
    ensures Orderly(be, Run(cfg, w, actions))
  {
    if actions == [] {
      InitialIsSound(w.db);
    } else {
      RunIsOrderly(cfg, be, w, actions[..|actions| - 1]);
      DoKeepsOrderly(cfg, be, Run(cfg, w, actions[..|actions| - 1]), actions[|actions| - 1]);
    }
  }

  // ---------------------------------------------------------------- what is sent is unanswered

  ghost predicate ByOperator(answeredBy: map<int, Source>, k: int) {
    k in answeredBy && answeredBy[k].ByOperator?
  }

  /** What a delivery sends, or has sent, is unanswered, unless an operator has answered it meanwhile. */
  ghost predicate Timely(db: Db, answeredBy: map<int, Source>, d: Delivery) {
    d.pc.AtSubmit? || d.pc.AtRecord? ==> IsPending(db, d.msg.id) || ByOperator(answeredBy, d.msg.id)
  }

  ghost predicate AllTimely(w: World) {
    forall id | id in w.live :: Timely(w.db, w.answeredBy, w.live[id])
  }

  /** A step ends the wait for an answer only of the invoice it records. */
  lemma OthersStayPending(cfg: Config, db: Db, d: Delivery, inp: Input, k: int)
    requires Sound(db) && Holding(db, d) && IsPending(db, k) && RecordedBill(d.pc) != Some(k)
    ensures IsPending(Advance(cfg, db, d, inp).1, k)
  {
    hide Advance, Sound, Holding;
    StepEvolves(cfg, db, d, inp);
    if IsAnswered(Advance(cfg, db, d, inp).1, k) {
      StepAnswers(cfg, db, d, inp, k);
    }
  }

  lemma RecordsItsOwn(db: Db, d: Delivery)
    requires Holding(db, d)
    ensures RecordedBill(d.pc).Some? ==> RecordedBill(d.pc) == Some(d.msg.id)
  {
    hide Message.Valid, Provider.Classify;
  }

  /** A delivery that comes to its submission has read or committed the invoice without an answer. */
  lemma MoverStaysTimely(cfg: Config, db: Db, answeredBy: map<int, Source>, d: Delivery, inp: Input)
    requires Sound(db) && Holding(db, d) && Timely(db, answeredBy, d)
    ensures var (d', db') := Advance(cfg, db, d, inp);
      d'.pc.AtSubmit? || d'.pc.AtRecord? ==>
        IsPending(db', d'.msg.id) || (db' == db && ByOperator(answeredBy, d'.msg.id))
  {
    hide Message.Valid, SignedInvoice.Valid, Provider.Classify, ByOperator, Carries, Sound;
    if d.pc.AtRead? && Chain.Stored(db, d.msg.id).Some? {
      StoredCarries(db, d.msg.id);
    }
  }

  lemma MoverIsTimely(cfg: Config, w: World, id: nat, inp: Input)
    requires Sound(w.db) && id in w.live && Holding(w.db, w.live[id]) && Timely(w.db, w.answeredBy, w.live[id])
    ensures var w' := StepOne(cfg, w, id, inp); Timely(w'.db, w'.answeredBy, w'.live[id])
  {
    hide Advance, Sound, Holding;
    StepSubmits(cfg, w, id, inp);
    StepNames(cfg, w, id, inp);
    MoverStaysTimely(cfg, w.db, w.answeredBy, w.live[id], inp);
  }

  /** A delivery of another bill keeps waiting for its own. */
  lemma RestStaysTimely(cfg: Config, w: World, id: nat, e: Delivery, inp: Input)
    requires Sound(w.db) && id in w.live && Holding(w.db, w.live[id]) && Timely(w.db, w.answeredBy, e)
    requires e.msg.id != w.live[id].msg.id
    ensures var w' := StepOne(cfg, w, id, inp); Timely(w'.db, w'.answeredBy, e)
  {
    hide Advance, Sound, Holding;
    RecordsItsOwn(w.db, w.live[id]);
    StepSubmits(cfg, w, id, inp);
    StepNames(cfg, w, id, inp);
    if IsPending(w.db, e.msg.id) {
      OthersStayPending(cfg, w.db, w.live[id], inp, e.msg.id);
    }
  }

  /** Deliveries of different branches are about different bills. */
  lemma OtherBills(be: Backend, live: map<nat, Delivery>, id: nat, j: nat)
    requires AllSent(be, live) && Apart(live) && id in live && j in live && j != id
    ensures live[id].pc.Ended? || live[j].pc.Ended? || live[j].msg.id != live[id].msg.id
  {
    hide Message.Valid;
    assert be.Sent(live[id].msg) && be.Sent(live[j].msg);
  }

  lemma StepKeepsTimely(cfg: Config, be: Backend, w: World, id: nat, inp: Input)
    requires Safe(w) && AllSent(be, w.live) && Apart(w.live) && AllTimely(w) && id in w.live
    ensures AllTimely(StepOne(cfg, w, id, inp))
  {
    hide Message.Valid, Advance, Sound, Apart, AllSent;
    var (w', d) := (StepOne(cfg, w, id, inp), w.live[id]);
    if d.pc.Ended? {
      EndedStepIsIdle(cfg, w, id, inp);
      return;
    }
    assert Holding(w.db, d) && Timely(w.db, w.answeredBy, d);
    hide Holding;
    StepSubmits(cfg, w, id, inp);
    MoverIsTimely(cfg, w, id, inp);
    forall j | j in w.live && j != id
      ensures Timely(w'.db, w'.answeredBy, w.live[j])
    {
      OtherBills(be, w.live, id, j);
      if !w.live[j].pc.Ended? { RestStaysTimely(cfg, w, id, w.live[j], inp); }
    }
  }

  /** An operator's record answers by the operator, and backend rows answer nothing. */
  lemma TablesKeepTimely(cfg: Config, w: World, a: Action)
    requires AllTimely(w) && (a.Operate? || a.AddBill? || a.AddBranch?)
    ensures AllTimely(Do(cfg, w, a))
  {
    hide Chain.Answered, Chain.LogEntry, Chain.Recordable, Fresh;
    var w' := Do(cfg, w, a);
    forall id | id in w'.live
      ensures Timely(w'.db, w'.answeredBy, w'.live[id])
    {
      assert Timely(w.db, w.answeredBy, w.live[id]);
    }
  }

  lemma DoKeepsTimely(cfg: Config, be: Backend, w: World, a: Action)
    requires Orderly(be, w) && AllTimely(w)
    ensures AllTimely(Do(cfg, w, a))
  {
    hide Message.Valid, Safe, AllOnTrack, ClaimsSettled, CommittedAsSent, Apart, AllSent, StepOne;
    match a
    case Deliver(id, msg, exhausted) =>
    case Step(id, inp) => if id in w.live { StepKeepsTimely(cfg, be, w, id, inp); }
    case Crash(id) =>
    case _ => TablesKeepTimely(cfg, w, a);
  }

  lemma {:induction false} RunIsTimely(cfg: Config, be: Backend, w: World, actions: seq<Action>)
    requires Start(w) && SerialRun(cfg, be, w, actions)
    ensures AllTimely(Run(cfg, w, actions))
  {
    if actions != [] {
      var prefix := actions[..|actions| - 1];
      RunIsTimely(cfg, be, w, prefix);
      RunIsOrderly(cfg, be, w, prefix);
      DoKeepsTimely(cfg, be, Run(cfg, w, prefix), actions[|actions| - 1]);
    }
  }

  // ---------------------------------------------------------------- results

  /** Main result: when the deliveries of a partition do not overlap, no invoice committed under a request is pending
      once the claim of that request is completed. */
  lemma CompletedRequestsAreAnswered(cfg: Config, be: Backend, w: World, actions: seq<Action>, key: ClaimKey, k: int)
    requires Start(w) && SerialRun(cfg, be, w, actions)
    requires var z := Run(cfg, w, actions);
      && key in z.db.claims && z.db.claims[key].completed
      && k in z.committedBy && z.committedBy[k] == RequestText(key)
    ensures IsAnswered(Run(cfg, w, actions).db, k)
  {
    RunIsOrderly(cfg, be, w, actions);
    var z := Run(cfg, w, actions);
    assert Settled(z.db, z.committedBy, RequestText(key)) && k in z.db.submissions;
  }

  /** Main result: when the deliveries of a partition do not overlap, a delivery sends an invoice to the provider only
      while the committed row of the bill is unanswered, unless an operator has answered it since the delivery read
      it. */
  lemma SubmitsOnlyUnanswered(cfg: Config, be: Backend, w: World, actions: seq<Action>, id: nat)
    requires Start(w) && SerialRun(cfg, be, w, actions)
    requires id in Run(cfg, w, actions).live && Run(cfg, w, actions).live[id].pc.AtSubmit?
    ensures var z := Run(cfg, w, actions);
      var d := z.live[id];
      && Carries(z.db, d.pc.invoice) && d.pc.invoice.sourceID == d.msg.id && d.pc.invoice.outcome == ""
      && (IsPending(z.db, d.msg.id) || (d.msg.id in z.answeredBy && z.answeredBy[d.msg.id].ByOperator?))
  {
    RunIsSafe(cfg, w, actions);
    RunIsTimely(cfg, be, w, actions);
    var z := Run(cfg, w, actions);
    assert Holding(z.db, z.live[id]) && Timely(z.db, z.answeredBy, z.live[id]);
  }
}
