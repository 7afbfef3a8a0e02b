/** What every interleaved run keeps, without any assumption on how deliveries are serialised. */
module WorldSafety {
  import opened Text
  import opened Messages
  import opened Tables
  import opened Operations
  import opened ChainSafety
  import opened HashChain
  import opened Stream
  import opened World
  import Chain
  import Claims
  import Provider

  /** The tables of a run are those of its operations, so every result on table runs holds here. */
  lemma {:induction false} RunIsOperations(cfg: Config, w: World, actions: seq<Action>)
    ensures Run(cfg, w, actions).db == ApplyAll(cfg, w.db, OpsOfRun(cfg, w, actions))
  {
    if actions != [] {
      var prefix := actions[..|actions| - 1];
      RunIsOperations(cfg, w, prefix);
      DoIsOperations(cfg, Run(cfg, w, prefix), actions[|actions| - 1]);
      RunSplits(cfg, w.db, OpsOfRun(cfg, w, prefix), OpsOf(Run(cfg, w, prefix), actions[|actions| - 1]));
    }
  }

  // ---------------------------------------------------------------- what a delivery holds

  /** The invoice is the committed row of its bill. */
  ghost predicate Carries(db: Db, i: SignedInvoice) {
    && i.sourceID in db.submissions && i.sourceID in db.bills
    && SameInvoice(Chain.NewSubmission(i), db.submissions[i.sourceID])
    && OrEmpty(db.bills[i.sourceID].qr) == i.qr
  }

  ghost predicate ClaimCompleted(db: Db, msg: Message) {
    KeyOf(msg) in db.claims && db.claims[KeyOf(msg)].completed
  }

  predicate BookingOf(b: Booking, msg: Message) {
    b.branchID == msg.branchID && b.requestKey == msg.RequestKey() && b.eventID == msg.eventID
      && b.uuid == msg.invoiceUUID
  }

  ghost predicate Holding(db: Db, d: Delivery) {
    && d.msg.Valid()
    && match d.pc
       case AtBuild(b) => BookingOf(b, d.msg)
       case AtCommit(b, i) => BookingOf(b, d.msg) && CheckBuilt(i, d.msg, b) && i.outcome == ""
       case AtUnbook(b, _) => BookingOf(b, d.msg)
       case AtSubmit(i) => Carries(db, i) && i.sourceID == d.msg.id && i.outcome == ""
       case AtRecord(i, answer, outcome, _) =>
         Carries(db, i) && i.sourceID == d.msg.id && Provider.Classify(i.kind, answer).outcome == Some(outcome)
       case AtFinalRecord(i, _) => Carries(db, i) && i.sourceID == d.msg.id
       case AtAck(reason) => !reason.Mismatch? ==> ClaimCompleted(db, d.msg)
       case _ => true
  }

  /** HandleMessage calls ack at most once, and so does the finalization. */
  ghost predicate AckedOnce(d: Delivery) {
    && d.acks <= 1 && d.finalAcks <= 1
    && (Rank(d.pc) >= 8 ==> d.acks == 0)
    && (!d.pc.Ended? ==> d.finalAcks == 0)
  }

  lemma CarriedStays(a: Db, b: Db, i: SignedInvoice)
    requires Evolves(a, b) && Carries(a, i)
    ensures Carries(b, i)
  {
    assert SameInvoice(a.submissions[i.sourceID], b.submissions[i.sourceID]);
  }

  lemma HoldingStays(a: Db, b: Db, d: Delivery)
    requires Evolves(a, b) && Holding(a, d)
    ensures Holding(b, d)
  {
    match d.pc
    case AtSubmit(i) => CarriedStays(a, b, i);
    case AtRecord(i, _, _, _) => CarriedStays(a, b, i);
    case AtFinalRecord(i, _) => CarriedStays(a, b, i);
    case _ =>
  }

  lemma StoredCarries(db: Db, k: int)
    requires Sound(db) && Chain.Stored(db, k).Some?
    ensures Carries(db, Chain.Stored(db, k).value) && Chain.Stored(db, k).value.sourceID == k
    ensures Chain.Stored(db, k).value.outcome == "" <==> db.submissions[k].outcomeState == PENDING
  {
    assert SubmissionShape(db, k, db.submissions[k]);
  }

  lemma StepEvolves(cfg: Config, db: Db, d: Delivery, inp: Input)
    requires Sound(db)
    ensures var db' := Advance(cfg, db, d, inp).1; Sound(db') && Evolves(db, db')
  {
    StepIsOperation(cfg, db, d, inp);
    EvolvesItself(db);
    if OpOf(d, inp).Some? {
      ApplyEvolves(cfg, db, OpOf(d, inp).value);
      ApplyKeepsSound(cfg, db, OpOf(d, inp).value);
    }
  }

  lemma StepKeepsAckedOnce(cfg: Config, db: Db, d: Delivery, inp: Input)
    requires AckedOnce(d)
    ensures AckedOnce(Advance(cfg, db, d, inp).0)
  {
    StepsLowerTheRank(cfg, db, d, inp);
  }

  lemma ReadKeepsHolding(cfg: Config, db: Db, d: Delivery, inp: Input)
    requires Sound(db) && Holding(db, d) && (d.pc.AtRead? || d.pc.AtFinalRead?)
    ensures var (d', db') := Advance(cfg, db, d, inp); Holding(db', d')
  {
    hide Message.Valid, SignedInvoice.Valid, Chain.Stored, Sound, SameInvoice, Provider.Classify;
    if Chain.Stored(db, d.msg.id).Some? {
      StoredCarries(db, d.msg.id);
    }
  }

  lemma CommitKeepsHolding(cfg: Config, db: Db, d: Delivery, inp: Input)
    requires Sound(db) && Holding(db, d) && d.pc.AtCommit?
    ensures var (d', db') := Advance(cfg, db, d, inp); Holding(db', d')
  {
  }

  lemma SubmitKeepsHolding(cfg: Config, db: Db, d: Delivery, inp: Input)
    requires Sound(db) && Holding(db, d) && d.pc.AtSubmit?
    ensures var (d', db') := Advance(cfg, db, d, inp); Holding(db', d')
  {
    hide Message.Valid, SignedInvoice.Valid, Sound, SameInvoice;
  }

  lemma ClosingKeepsHolding(cfg: Config, db: Db, d: Delivery, inp: Input)
    requires Sound(db) && Holding(db, d)
    requires d.pc.AtClaim? || d.pc.AtComplete? || d.pc.AtInspect? || d.pc.AtUnclaim? || d.pc.AtInspectRelease?
    ensures var (d', db') := Advance(cfg, db, d, inp); Holding(db', d')
  {
    hide SignedInvoice.Valid, Provider.Classify, Sound, SameInvoice;
  }

  lemma RecordKeepsHolding(cfg: Config, db: Db, d: Delivery, inp: Input)
    requires Sound(db) && Holding(db, d)
    requires d.pc.AtRecord? || d.pc.AtFinalRecord? || d.pc.AtUnbook?
    ensures var (d', db') := Advance(cfg, db, d, inp); Holding(db', d')
  {
    hide Provider.Classify, Sound, Carries, Message.Valid, Chain.Record, Chain.Release;
  }

  lemma BookKeepsHolding(cfg: Config, db: Db, d: Delivery, inp: Input)
    requires Sound(db) && Holding(db, d) && d.pc.AtBook?
    ensures var (d', db') := Advance(cfg, db, d, inp); Holding(db', d')
  {
    hide Provider.Classify, Sound, Carries;
  }

  lemma StepKeepsHolding(cfg: Config, db: Db, d: Delivery, inp: Input)
    requires Sound(db) && Holding(db, d)
    ensures var (d', db') := Advance(cfg, db, d, inp); Holding(db', d')
  {
    hide Message.Valid, SignedInvoice.Valid, Sound, SameInvoice;
    match d.pc
    case AtRead => ReadKeepsHolding(cfg, db, d, inp);
    case AtFinalRead(_) => ReadKeepsHolding(cfg, db, d, inp);
    case AtCommit(_, _) => CommitKeepsHolding(cfg, db, d, inp);
    case AtSubmit(_) => SubmitKeepsHolding(cfg, db, d, inp);
    case AtClaim => ClosingKeepsHolding(cfg, db, d, inp);
    case AtComplete(_) => ClosingKeepsHolding(cfg, db, d, inp);
    case AtInspect(_) => ClosingKeepsHolding(cfg, db, d, inp);
    case AtUnclaim(_) => ClosingKeepsHolding(cfg, db, d, inp);
    case AtInspectRelease(_) => ClosingKeepsHolding(cfg, db, d, inp);
    case AtRecord(_, _, _, _) => RecordKeepsHolding(cfg, db, d, inp);
    case AtFinalRecord(_, _) => RecordKeepsHolding(cfg, db, d, inp);
    case AtUnbook(_, _) => RecordKeepsHolding(cfg, db, d, inp);
    case AtBook => BookKeepsHolding(cfg, db, d, inp);
    case AtPrepare =>
    case AtBuild(_) =>
    case AtAck(_) =>
    case Returned(_) =>
    case Ended(_) =>
  }

  // ---------------------------------------------------------------- invariant of a world

  /** A recorded answer comes from a provider answer with that meaning, from an operator's external evidence, or from
      the daemon's own terminal failure. */
  ghost predicate Explains(source: Source, s: Submission) {
    match source
    case ByProvider(answer) =>
      var v := Provider.Classify(s.kind, answer);
      v.outcome.Some? && v.outcome.value.state == s.outcomeState
    case ByOperator(evidenceID) =>
      !Blank(evidenceID) && (s.outcomeState == ACCEPTED || s.outcomeState == WARNING || s.outcomeState == REJECTED)
    case ByDaemon => s.outcomeState == TERMINAL
  }

  ghost predicate Explained(w: World) {
    forall k | IsAnswered(w.db, k) :: k in w.answeredBy && Explains(w.answeredBy[k], w.db.submissions[k])
  }

  ghost predicate SubmitsCarried(db: Db, submits: seq<SignedInvoice>) {
    forall i | 0 <= i < |submits| :: Carries(db, submits[i])
  }

  ghost predicate LiveHolding(db: Db, live: map<nat, Delivery>) {
    forall id | id in live :: Holding(db, live[id]) && AckedOnce(live[id])
  }

  ghost predicate Safe(w: World) {
    && Sound(w.db)
    && LiveHolding(w.db, w.live)
    && SubmitsCarried(w.db, w.submits)
    && Explained(w)
    && w.committedBy.Keys == w.db.submissions.Keys
  }

  lemma LiveStays(a: Db, b: Db, live: map<nat, Delivery>, submits: seq<SignedInvoice>)
    requires Evolves(a, b) && LiveHolding(a, live) && SubmitsCarried(a, submits)
    ensures LiveHolding(b, live) && SubmitsCarried(b, submits)
  {
    forall id | id in live
      ensures Holding(b, live[id])
    {
      HoldingStays(a, b, live[id]);
    }
    forall i | 0 <= i < |submits|
      ensures Carries(b, submits[i])
    {
      CarriedStays(a, b, submits[i]);
    }
  }

  /** Only a record of a pending invoice answers it. */
  lemma OnlyRecordAnswers(cfg: Config, db: Db, op: Op, k: int)
    requires !IsAnswered(db, k) && IsAnswered(Apply(cfg, db, op), k)
    ensures op.Record? && op.invoice.sourceID == k && Chain.Recordable(op.outcome) && k in db.submissions
    ensures Apply(cfg, db, op).submissions[k] == Chain.Answered(db.submissions[k], op.outcome)
  {
  }

  lemma StepAnswers(cfg: Config, db: Db, d: Delivery, inp: Input, k: int)
    requires Sound(db) && Holding(db, d)
    requires !IsAnswered(db, k) && IsAnswered(Advance(cfg, db, d, inp).1, k)
    ensures RecordedBill(d.pc) == Some(k) && IsPending(db, k)
    ensures Explains(SourceOf(d.pc), Advance(cfg, db, d, inp).1.submissions[k])
  {
    StepIsOperation(cfg, db, d, inp);
    OnlyRecordAnswers(cfg, db, OpOf(d, inp).value, k);
  }

  lemma StepNames(cfg: Config, w: World, id: nat, inp: Input)
    requires id in w.live
    ensures var (w', d, db') := (StepOne(cfg, w, id, inp), w.live[id], Advance(cfg, w.db, w.live[id], inp).1);
      && w'.db == db'
      && (forall k | k in w.answeredBy && !IsPending(w.db, k) ::
            k in w'.answeredBy && w'.answeredBy[k] == w.answeredBy[k])
      && (forall k | RecordedBill(d.pc) == Some(k) && IsPending(w.db, k) && !IsPending(db', k) ::
            k in w'.answeredBy && w'.answeredBy[k] == SourceOf(d.pc))
  {
  }

  /** Answers stay explained when old ones keep their source and new ones get one that explains them. */
  lemma ExplainedNext(w: World, w': World)
    requires Explained(w) && Evolves(w.db, w'.db)
    requires forall k | k in w.answeredBy && !IsPending(w.db, k) ::
      k in w'.answeredBy && w'.answeredBy[k] == w.answeredBy[k]
    requires forall k | !IsAnswered(w.db, k) && IsAnswered(w'.db, k) ::
      k in w'.answeredBy && Explains(w'.answeredBy[k], w'.db.submissions[k])
    ensures Explained(w')
  {
    forall k | IsAnswered(w'.db, k)
      ensures k in w'.answeredBy && Explains(w'.answeredBy[k], w'.db.submissions[k])
    {
      if IsAnswered(w.db, k) {
        assert k in w.db.submissions && w'.db.submissions[k] == w.db.submissions[k];
      }
    }
  }

  lemma StepExplains(cfg: Config, w: World, id: nat, inp: Input)
    requires Safe(w) && id in w.live
    ensures Explained(StepOne(cfg, w, id, inp))
  {
    var w' := StepOne(cfg, w, id, inp);
    var d, db' := w.live[id], Advance(cfg, w.db, w.live[id], inp).1;
    StepEvolves(cfg, w.db, d, inp);
    StepNames(cfg, w, id, inp);
    assert Holding(w.db, d);
    forall k | !IsAnswered(w.db, k) && IsAnswered(db', k)
      ensures k in w'.answeredBy && Explains(w'.answeredBy[k], db'.submissions[k])
    {
      StepAnswers(cfg, w.db, d, inp, k);
      assert !IsPending(db', k);
    }
    ExplainedNext(w, w');
  }

  lemma StepCommits(cfg: Config, w: World, id: nat, inp: Input)
    requires w.committedBy.Keys == w.db.submissions.Keys && id in w.live
    ensures StepOne(cfg, w, id, inp).committedBy.Keys == StepOne(cfg, w, id, inp).db.submissions.Keys
  {
    StepIsOperation(cfg, w.db, w.live[id], inp);
    hide Apply, Next;
    if OpOf(w.live[id], inp).Some? {
      OnlyCommitAddsInvoices(cfg, w.db, OpOf(w.live[id], inp).value);
    }
  }

  lemma LiveUpdated(db: Db, live: map<nat, Delivery>, id: nat, d: Delivery)
    requires LiveHolding(db, live) && Holding(db, d) && AckedOnce(d)
    ensures LiveHolding(db, live[id := d])
  {
  }

  lemma SubmitsAppended(db: Db, submits: seq<SignedInvoice>, i: SignedInvoice)
    requires SubmitsCarried(db, submits) && Carries(db, i)
    ensures SubmitsCarried(db, submits + [i])
  {
  }

  lemma StepSubmits(cfg: Config, w: World, id: nat, inp: Input)
    requires id in w.live
    ensures var w' := StepOne(cfg, w, id, inp);
      && w'.db == Advance(cfg, w.db, w.live[id], inp).1
      && w'.live == w.live[id := Advance(cfg, w.db, w.live[id], inp).0]
      && (w'.submits == w.submits
          || (w.live[id].pc.AtSubmit? && w'.db == w.db && w'.submits == w.submits + [w.live[id].pc.invoice]))
  {
  }

  lemma StepKeepsSubmits(cfg: Config, w: World, id: nat, inp: Input)
    requires Safe(w) && id in w.live
    ensures var w' := StepOne(cfg, w, id, inp);
      LiveHolding(w'.db, w'.live) && SubmitsCarried(w'.db, w'.submits)
  {
    var w' := StepOne(cfg, w, id, inp);
    var d := w.live[id];
    assert Holding(w.db, d) && AckedOnce(d);
    StepSubmits(cfg, w, id, inp);
    StepEvolves(cfg, w.db, d, inp);
    StepKeepsHolding(cfg, w.db, d, inp);
    StepKeepsAckedOnce(cfg, w.db, d, inp);
    LiveStays(w.db, w'.db, w.live, w.submits);
    LiveUpdated(w'.db, w.live, id, w'.live[id]);
    if w'.submits != w.submits {
      SubmitsAppended(w.db, w.submits, d.pc.invoice);
    }
  }

  lemma StepKeepsSafe(cfg: Config, w: World, id: nat, inp: Input)
    requires Safe(w) && id in w.live
    ensures Safe(StepOne(cfg, w, id, inp))
  {
    StepEvolves(cfg, w.db, w.live[id], inp);
    StepSubmits(cfg, w, id, inp);
    StepKeepsSubmits(cfg, w, id, inp);
    StepExplains(cfg, w, id, inp);
    StepCommits(cfg, w, id, inp);
  }

  lemma TableActionKeepsSafe(cfg: Config, w: World, op: Op, answeredBy: map<int, Source>)
    requires Safe(w)
    requires op.Record? || op.AddBill? || op.AddBranch?
    requires Explained(w.(db := Apply(cfg, w.db, op), answeredBy := answeredBy))
    ensures Safe(w.(db := Apply(cfg, w.db, op), answeredBy := answeredBy))
  {
    hide Apply, Sound, Evolves, LiveHolding, SubmitsCarried, Explained;
    ApplyKeepsSound(cfg, w.db, op);
    ApplyEvolves(cfg, w.db, op);
    LiveStays(w.db, Apply(cfg, w.db, op), w.live, w.submits);
    OnlyCommitAddsInvoices(cfg, w.db, op);
  }

  lemma OperateExplains(cfg: Config, w: World, a: Action)
    requires Safe(w) && a.Operate?
    ensures Explained(Do(cfg, w, a))
  {
    hide Message.Valid, ValidEvidenceText, Sound, LiveHolding, SubmitsCarried, Chain.LogEntry;
    var w' := Do(cfg, w, a);
    if OperatorOutcome(a.outcome) {
      var op := Op.Record(a.invoice, a.outcome, a.fault);
      forall k | IsAnswered(w'.db, k)
        ensures k in w'.answeredBy && Explains(w'.answeredBy[k], w'.db.submissions[k])
      {
        if !IsAnswered(w.db, k) {
          OnlyRecordAnswers(cfg, w.db, op, k);
        }
      }
    }
  }

  lemma DoKeepsSafe(cfg: Config, w: World, a: Action)
    requires Safe(w)
    ensures Safe(Do(cfg, w, a))
  {
    hide Message.Valid;
    match a
    case Deliver(id, msg, exhausted) =>
    case Step(id, inp) => if id in w.live { StepKeepsSafe(cfg, w, id, inp); }
    case Crash(id) =>
    case Operate(invoice, outcome, fault) =>
      OperateExplains(cfg, w, a);
      if OperatorOutcome(outcome) {
        TableActionKeepsSafe(cfg, w, Op.Record(invoice, outcome, fault), Do(cfg, w, a).answeredBy);
      }
    case AddBill(id, bill) => TableActionKeepsSafe(cfg, w, Op.AddBill(id, bill), w.answeredBy);
    case AddBranch(id) => TableActionKeepsSafe(cfg, w, Op.AddBranch(id), w.answeredBy);
  }

  lemma {:induction false} RunIsSafe(cfg: Config, w: World, actions: seq<Action>)
    requires Start(w)
    ensures Safe(Run(cfg, w, actions))
  {
    if actions == [] {
      InitialIsSound(w.db);
    } else {
      RunIsSafe(cfg, w, actions[..|actions| - 1]);
      DoKeepsSafe(cfg, Run(cfg, w, actions[..|actions| - 1]), actions[|actions| - 1]);
    }
  }

  // ---------------------------------------------------------------- results

  ghost predicate SamePayload(a: SignedInvoice, b: SignedInvoice) {
    && a.uuid == b.uuid && a.icv == b.icv && a.pih == b.pih && a.hash == b.hash
    && a.kind == b.kind && a.signedXML == b.signedXML && a.qr == b.qr
  }

  /** Main result: in every interleaved run, all invoices sent to the provider for one bill carry the same UUID, number,
      previous hash, hash, kind, signed XML and QR code, namely those of the committed row of the bill. */
  lemma SubmitsAreTheCommittedInvoice(cfg: Config, w: World, actions: seq<Action>, i: nat, j: nat)
    requires Start(w)
    requires var z := Run(cfg, w, actions);
      i < |z.submits| && j < |z.submits| && z.submits[i].sourceID == z.submits[j].sourceID
    ensures var z := Run(cfg, w, actions);
      && SamePayload(z.submits[i], z.submits[j])
      && z.submits[i].sourceID in z.db.submissions
      && SameInvoice(Chain.NewSubmission(z.submits[i]), z.db.submissions[z.submits[i].sourceID])
  {
    RunIsSafe(cfg, w, actions);
    var z := Run(cfg, w, actions);
    assert Carries(z.db, z.submits[i]) && Carries(z.db, z.submits[j]);
  }

  /** Main result: a bill is issued if and only if its invoice was answered by a provider answer that accepts it, or by
      an operator's external evidence for an acceptance. */
  lemma IssuedOnlyOnEvidence(cfg: Config, w: World, actions: seq<Action>, k: int)
    requires Start(w) && k in Run(cfg, w, actions).db.bills
    ensures var z := Run(cfg, w, actions);
      z.db.bills[k].state == ISSUED <==>
        && IsAnswered(z.db, k) && k in z.answeredBy
        && match z.answeredBy[k]
           case ByProvider(answer) => Provider.Accepts(z.db.submissions[k].kind, answer)
           case ByOperator(evidenceID) => !Blank(evidenceID) && Chain.Issues(z.db.submissions[k].outcomeState)
           case ByDaemon => false
  {
    RunIsSafe(cfg, w, actions);
    var z := Run(cfg, w, actions);
    assert BillShape(z.db, k, z.db.bills[k]);
    if IsAnswered(z.db, k) {
      assert k in z.answeredBy && Explains(z.answeredBy[k], z.db.submissions[k]);
      if z.answeredBy[k].ByProvider? {
        Provider.OnlyAcceptanceIssues(z.db.submissions[k].kind, z.answeredBy[k].answer);
      }
    }
  }

  // ---------------------------------------------------------------- acknowledgements

  /** The request is claimed with other content, or it is not claimed and its event belongs to another request. */
  ghost predicate Conflicts(db: Db, msg: Message) {
    if KeyOf(msg) in db.claims then db.claims[KeyOf(msg)].fingerprint != msg.fingerprint else Claims.EventTaken(db, msg)
  }

  /** The tables held a conflict with this message when it was claimed. */
  ghost predicate Conflicted(cfg: Config, w: World, actions: seq<Action>, msg: Message) {
    exists n :: 0 <= n <= |actions| && Conflicts(Run(cfg, w, actions[..n]).db, msg)
  }

  /** A claim is answered with a conflict only when the tables hold one. */
  lemma ConflictIsReal(cfg: Config, db: Db, d: Delivery, inp: Input)
    requires Advance(cfg, db, d, inp).0.pc == AtAck(Mismatch)
    ensures d.pc.AtClaim? && Conflicts(db, d.msg)
  {
    hide Message.Valid, SignedInvoice.Valid, Provider.Classify, Claims.EventTaken;
  }

  lemma ConflictStays(cfg: Config, w: World, actions: seq<Action>, msg: Message)
    requires actions != [] && Conflicted(cfg, w, actions[..|actions| - 1], msg)
    ensures Conflicted(cfg, w, actions, msg)
  {
    hide Run, Conflicts;
    var prefix := actions[..|actions| - 1];
    var n :| 0 <= n <= |prefix| && Conflicts(Run(cfg, w, prefix[..n]).db, msg);
    assert prefix[..n] == actions[..n];
  }

  /** The action that brings a delivery to the acknowledgement of a conflict is its claim. */
  lemma OnlyClaimsConflict(cfg: Config, w: World, a: Action, id: nat)
    requires id in Do(cfg, w, a).live && Do(cfg, w, a).live[id].pc == AtAck(Mismatch)
    ensures id in w.live && w.live[id].msg == Do(cfg, w, a).live[id].msg
    ensures w.live[id].pc == AtAck(Mismatch) || Conflicts(w.db, w.live[id].msg)
  {
    hide Message.Valid, Conflicts, Next, Chain.Record;
    if a.Step? && a.id == id && id in w.live {
      StepSubmits(cfg, w, id, a.input);
      ConflictIsReal(cfg, w.db, w.live[id], a.input);
    } else if a.Step? && a.id in w.live {
      StepSubmits(cfg, w, a.id, a.input);
    }
  }

  lemma {:induction false} ConflictsAreReal(cfg: Config, w: World, actions: seq<Action>, id: nat)
    requires w.live == map[] && id in Run(cfg, w, actions).live && Run(cfg, w, actions).live[id].pc == AtAck(Mismatch)
    ensures Conflicted(cfg, w, actions, Run(cfg, w, actions).live[id].msg)
  {
    if actions != [] {
      hide Do, Conflicts;
      var prefix := actions[..|actions| - 1];
      OnlyClaimsConflict(cfg, Run(cfg, w, prefix), actions[|actions| - 1], id);
      var d := Run(cfg, w, prefix).live[id];
      if d.pc == AtAck(Mismatch) {
        ConflictsAreReal(cfg, w, prefix, id);
        ConflictStays(cfg, w, actions, d.msg);
      } else {
        assert actions[..|prefix|] == prefix;
      }
    }
  }

  /** A delivery calls ack at most once in HandleMessage and once in its finalization, and only when its claim is
      completed or its claim met a conflict in the tables. */
  lemma AcksAreSafe(cfg: Config, w: World, actions: seq<Action>, id: nat)
    requires Start(w) && id in Run(cfg, w, actions).live
    ensures var z := Run(cfg, w, actions);
      && z.live[id].acks <= 1 && z.live[id].finalAcks <= 1
      && (z.live[id].pc.AtAck? ==>
            if z.live[id].pc.reason.Mismatch? then Conflicted(cfg, w, actions, z.live[id].msg)
            else ClaimCompleted(z.db, z.live[id].msg))
  {
    RunIsSafe(cfg, w, actions);
    var d := Run(cfg, w, actions).live[id];
    assert Holding(Run(cfg, w, actions).db, d);
    if d.pc.AtAck? && d.pc.reason.Mismatch? { ConflictsAreReal(cfg, w, actions, id); }
  }
}
