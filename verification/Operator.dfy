/** The operator's reconcile requests (queue/reconcile.go, handleReconcileRequest of cmd/daemon/reconcile.go). */
module Operator {
  import opened Text
  import opened Tables
  import opened Operations
  import opened ChainSafety
  import opened Evidences
  import opened Outcomes
  import Chain

  datatype ActionKind = Status | Record

  datatype Request = Request(
    tenantKey: string,
    dbName: string,
    branchID: int,
    billID: int,
    action: ActionKind,
    invoiceUUID: string,
    invoiceHash: string,
    state: string,
    providerCode: string,
    message: string,
    evidenceID: string)
  {
    predicate Valid() {
      && ValidIdentityText(tenantKey, 64) && ValidIdentityText(dbName, 64)
      && branchID > 0 && billID > 0
      && (invoiceUUID != "" ==> IsUUID(invoiceUUID))
      && (invoiceHash != "" ==> ValidFingerprint(invoiceHash))
      && (action.Record? ==>
            && (state == ACCEPTED || state == WARNING || state == REJECTED)
            && !Blank(invoiceHash)
            && !Blank(evidenceID) && ValidEvidenceText(evidenceID, 256)
            && ValidEvidenceText(providerCode, 64) && ValidEvidenceText(message, 1024))
    }
  }

  datatype Answer =
    | Refused
    | Accepted(state: string, external: bool, evidenceID: string, invoiceHash: string)

  /** What the request finds: the stored invoice when it names the tenant and the invoice. */
  function Find(db: Db, tenantKey: string, dbName: string, req: Request, fault: Fault): Option<SignedInvoice> {
    if req.tenantKey != tenantKey || req.dbName != dbName then None
    else
      match Chain.Lookup(db, req.billID, fault)
      case Ok(Some(i)) =>
        if (req.invoiceUUID != "" && req.invoiceUUID != i.uuid) || (req.invoiceHash != "" && req.invoiceHash != i.hash)
        then None else Some(i)
      case _ => None
  }

  function StatusOf(i: SignedInvoice): Answer {
    Accepted(if i.outcome == "" then PENDING else i.outcome, i.evidence.External?, i.evidenceID, i.hash)
  }

  function OutcomeOf(req: Request): Outcome {
    Outcome(req.state, req.providerCode, req.message, External, req.evidenceID)
  }

  /** The reply and the tables. The read and the record are two transactions: before is what the read sees, db is what
      the record finds. */
  function Reconcile(before: Db, db: Db, tenantKey: string, dbName: string, req: Request, readFault: Fault,
                     fault: Fault)
    : (Answer, Db)
  {
    var found := Find(before, tenantKey, dbName, req, readFault);
    if found.None? then (Refused, db)
    else if req.action.Status? then (StatusOf(found.value), db)
    else if found.value.outcome != "" && found.value.outcome != AMBIGUOUS then (Refused, db)
    else
      var (reply, db') := Chain.Record(db, found.value, OutcomeOf(req), fault);
      (if reply.Ok? then Accepted(req.state, true, req.evidenceID, found.value.hash) else Refused, db')
  }

  /** What a status request reports. */
  function StatusRead(db: Db, billID: int): Option<Answer> {
    var i := Chain.Stored(db, billID);
    if i.None? then None else Some(StatusOf(i.value))
  }

  // ---------------------------------------------------------------- recorded evidence

  lemma ExternalTextReads(outcome: Outcome, limit: nat)
    requires outcome.evidence.External? && !Blank(outcome.evidenceID) && |outcome.evidenceID| <= 256 && limit >= 512
    ensures var text := NullString(OutcomeText(outcome), limit);
      && text.Some?
      && ('|' in outcome.evidenceID ==> ParseEvidence(text.value).id != outcome.evidenceID)
      && ('|' !in outcome.evidenceID ==>
            ParseEvidence(text.value)
            == Parsed(External, outcome.evidenceID, Truncate(outcome.message, limit - 19 - |outcome.evidenceID|)))
  {
    hide ParseEvidence, Blank, FirstBar;
    if '|' in outcome.evidenceID {
      BarBreaksTheRoundTrip(outcome.evidenceID, outcome.message, limit);
    } else {
      EvidenceRoundTrips(outcome.evidenceID, outcome.message, limit);
    }
  }

  /** What a read sees after the first answer of an invoice. */
  lemma RecordedReads(db: Db, k: int, outcome: Outcome)
    requires k in db.submissions && k in db.bills && db.submissions[k].outcomeState == PENDING
    requires Chain.Recordable(outcome)
    ensures var refused := outcome.state == REJECTED || outcome.state == TERMINAL;
      var parsed := ParseEvidence(OrEmpty(NullString(OutcomeText(outcome), if refused then 512 else 1024)));
      var i := Chain.Stored(Chain.Recorded(db, k, outcome), k);
      && i.Some? && i.value.outcome == outcome.state && i.value.hash == db.submissions[k].hash
      && i.value.providerCode == Truncate(outcome.providerCode, 64)
      && i.value.evidence == parsed.source && i.value.evidenceID == parsed.id
      && i.value.outcomeMessage == parsed.message
  {
    hide ParseEvidence, OutcomeText, Blank, ValidEvidenceText;
    var text := OutcomeText(outcome);
    assert outcome.providerCode == "" ==> Truncate(outcome.providerCode, 64) == "";
  }

  /** A record of external evidence without a bar is read back: state, code, id and the message, cut to 493 - |id|
      characters for a rejection and to 1005 - |id| otherwise. */
  lemma EvidenceIsReadBack(db: Db, k: int, outcome: Outcome)
    requires k in db.submissions && k in db.bills && db.submissions[k].outcomeState == PENDING
    requires Chain.Recordable(outcome) && outcome.evidence.External? && '|' !in outcome.evidenceID
    ensures var refused := outcome.state == REJECTED || outcome.state == TERMINAL;
      var i := Chain.Stored(Chain.Recorded(db, k, outcome), k);
      && i.Some? && i.value.outcome == outcome.state && i.value.hash == db.submissions[k].hash
      && i.value.evidence == External && i.value.evidenceID == outcome.evidenceID
      && i.value.providerCode == Truncate(outcome.providerCode, 64)
      && i.value.outcomeMessage
         == Truncate(outcome.message, (if refused then 493 else 1005) - |outcome.evidenceID|)
  {
    ExternalTextReads(outcome, 512);
    ExternalTextReads(outcome, 1024);
    hide Chain.Stored, Chain.Recorded, ParseEvidence, OutcomeText, Blank, NullString;
    RecordedReads(db, k, outcome);
  }

  lemma BarIsNotReadBack(db: Db, k: int, outcome: Outcome)
    requires k in db.submissions && k in db.bills && db.submissions[k].outcomeState == PENDING
    requires Chain.Recordable(outcome) && outcome.evidence.External? && '|' in outcome.evidenceID
    ensures var i := Chain.Stored(Chain.Recorded(db, k, outcome), k);
      i.Some? && i.value.evidenceID != outcome.evidenceID
  {
    ExternalTextReads(outcome, 512);
    ExternalTextReads(outcome, 1024);
    hide Chain.Stored, Chain.Recorded, ParseEvidence, OutcomeText, Blank, NullString;
    RecordedReads(db, k, outcome);
  }

  /** An answer without external evidence is read back as external exactly when its text starts with the marker. */
  lemma PlainTextPosesAsEvidence(db: Db, k: int, outcome: Outcome)
    requires k in db.submissions && k in db.bills && db.submissions[k].outcomeState == PENDING
    requires Chain.Recordable(outcome) && !outcome.evidence.External?
    ensures Chain.Stored(Chain.Recorded(db, k, outcome), k).value.evidence == External
         <==> HasPrefix(outcome.message, PREFIX)
  {
    RecordedReads(db, k, outcome);
    hide Chain.Stored, Chain.Recorded;
    PrefixSurvives(outcome.message, 512);
    PrefixSurvives(outcome.message, 1024);
  }

  lemma PrefixSurvives(m: string, limit: nat)
    requires limit >= |PREFIX|
    ensures HasPrefix(OrEmpty(NullString(m, limit)), PREFIX) <==> HasPrefix(m, PREFIX)
  {
    if |m| > limit { assert Truncate(m, limit)[..|PREFIX|] == m[..|PREFIX|]; }
  }

  // ---------------------------------------------------------------- which requests are accepted

  /** The request names this tenant and its database, and a committed invoice by its bill and by the UUID and hash it
      gives. */
  ghost predicate Names(req: Request, db: Db, tenantKey: string, dbName: string) {
    && req.tenantKey == tenantKey && req.dbName == dbName
    && req.billID in db.submissions && req.billID in db.bills
    && (req.invoiceUUID == "" || req.invoiceUUID == db.submissions[req.billID].uuid)
    && (req.invoiceHash == "" || req.invoiceHash == db.submissions[req.billID].hash)
  }

  /** A transaction that runs and whose reply arrives. */
  predicate Succeeds(fault: Fault) {
    !fault.Failed? && !fault.ReplyLost?
  }

  /** What the read lets through to the record: the named invoice is pending or ambiguous. */
  ghost predicate Opens(req: Request, db: Db, tenantKey: string, dbName: string) {
    Names(req, db, tenantKey, dbName) && db.submissions[req.billID].outcomeState in {PENDING, AMBIGUOUS}
  }

  lemma FindsTheNamed(db: Db, tenantKey: string, dbName: string, req: Request, fault: Fault)
    requires Sound(db)
    ensures var found := Find(db, tenantKey, dbName, req, fault);
      && (found.Some? <==> Names(req, db, tenantKey, dbName) && Succeeds(fault))
      && (found.Some? ==>
            var row := db.submissions[req.billID];
            && found == Chain.Stored(db, req.billID) && found.value.sourceID == req.billID
            && found.value.hash == row.hash
            && found.value.outcome == (if row.outcomeState == PENDING then "" else row.outcomeState)
            && row.outcomeState != "")
  {
    hide ParseEvidence, LogShape, BillShape, ReservationShape;
    if req.billID in db.submissions { assert SubmissionShape(db, req.billID, db.submissions[req.billID]); }
  }

  /** The tables with the evidence of the request as the first answer of the invoice. */
  ghost function RecordedFor(db: Db, req: Request): Db
    requires CanBeRecorded(OutcomeOf(req)) && req.billID in db.submissions
  {
    RecordableAnswers(OutcomeOf(req));
    Chain.Recorded(db, req.billID, OutcomeOf(req))
  }

  lemma RecordFor(db: Db, invoice: SignedInvoice, req: Request, fault: Fault)
    requires invoice.sourceID == req.billID && req.billID in db.submissions
    ensures var (reply, after) := Chain.Record(db, invoice, OutcomeOf(req), fault);
      && (reply.Ok? <==> CanBeRecorded(OutcomeOf(req)) && Succeeds(fault))
      && after == (if CanBeRecorded(OutcomeOf(req)) && !fault.Failed?
                      && db.submissions[req.billID].outcomeState == PENDING
                   then RecordedFor(db, req) else db)
  {
    RecordableAnswers(OutcomeOf(req));
    hide CanBeRecorded, Chain.Recordable, Chain.Recorded;
  }

  /** Main result on operator records, in terms of the rows: a record request is accepted if and only if it names the
      tenant and an invoice that was pending or ambiguous when it was read, its evidence can be recorded, and both
      transactions succeed. A row is written only for such a request, and only while the invoice is still pending. */
  lemma RecordRequests(before: Db, db: Db, tenantKey: string, dbName: string, req: Request, readFault: Fault,
                       fault: Fault)
    requires Sound(before) && Evolves(before, db) && req.action.Record?
    ensures var (reply, after) := Reconcile(before, db, tenantKey, dbName, req, readFault, fault);
      var opens := Opens(req, before, tenantKey, dbName) && Succeeds(readFault) && CanBeRecorded(OutcomeOf(req));
      && (reply.Accepted? <==> opens && Succeeds(fault))
      && (reply.Accepted? ==>
            reply == Accepted(req.state, true, req.evidenceID, before.submissions[req.billID].hash))
      && after == (if opens && !fault.Failed? && db.submissions[req.billID].outcomeState == PENDING
                   then RecordedFor(db, req) else db)
  {
    assert req.billID in before.submissions ==> req.billID in db.submissions;
    hide Evolves, Find, Sound, CanBeRecorded, Chain.Record, Chain.Stored, RecordedFor;
    FindsTheNamed(before, tenantKey, dbName, req, readFault);
    StatesDiffer();
    var found := Find(before, tenantKey, dbName, req, readFault);
    if found.Some? { RecordFor(db, found.value, req, fault); }
  }

  /** The text in which a row keeps its evidence. */
  function EvidenceText(s: Submission): string {
    match (s.rejectionMsg, s.warningMsg)
    case (Some(text), _) => text
    case (None, Some(text)) => text
    case (None, None) => ""
  }

  lemma StoredEvidence(db: Db, k: int)
    requires k in db.submissions && Chain.Stored(db, k).Some?
    ensures var (i, row) := (Chain.Stored(db, k).value, db.submissions[k]);
      && (i.evidence.External? <==> row.outcomeState != PENDING && HasPrefix(EvidenceText(row), "external-evidence:"))
      && i.evidenceID == (if i.evidence.External? then ParseEvidence(EvidenceText(row)).id else "")
  {
    assert PREFIX == "external-evidence:";
  }

  /** A status request that names the tenant and an invoice reports the state of its row, whether its text starts with
      the marker of external evidence, the id after it, and the stored hash. Any other is refused, and none changes a
      row. */
  lemma StatusRequests(before: Db, db: Db, tenantKey: string, dbName: string, req: Request, readFault: Fault,
                       fault: Fault)
    requires Sound(before) && req.action.Status?
    ensures var (reply, after) := Reconcile(before, db, tenantKey, dbName, req, readFault, fault);
      && after == db
      && if !Names(req, before, tenantKey, dbName) || !Succeeds(readFault) then reply == Refused
         else
           var row := before.submissions[req.billID];
           var external := row.outcomeState != PENDING && HasPrefix(EvidenceText(row), "external-evidence:");
           reply == Accepted(row.outcomeState, external,
                             if external then ParseEvidence(EvidenceText(row)).id else "", row.hash)
  {
    FindsTheNamed(before, tenantKey, dbName, req, readFault);
    hide Find, Sound, Names;
    if Find(before, tenantKey, dbName, req, readFault).Some? { StoredEvidence(before, req.billID); }
  }

  // ---------------------------------------------------------------- replies

  /** The reply of a record request is what every later status read reports. */
  ghost predicate AgreesWith(reply: Answer, db: Db, billID: int) {
    StatusRead(db, billID) == Some(reply)
  }

  lemma AnsweredReadStays(a: Db, b: Db, k: int)
    requires Sound(a) && Sound(b) && Evolves(a, b) && IsAnswered(a, k)
    ensures Chain.Stored(b, k) == Chain.Stored(a, k)
  {
    assert SubmissionShape(a, k, a.submissions[k]) && SubmissionShape(b, k, b.submissions[k]);
  }

  /** What an accepted record request replies and does. */
  lemma AcceptedRecord(before: Db, db: Db, tenantKey: string, dbName: string, req: Request, readFault: Fault,
                       fault: Fault)
    requires Sound(before) && Evolves(before, db) && req.action.Record?
    requires Reconcile(before, db, tenantKey, dbName, req, readFault, fault).0.Accepted?
    ensures var (reply, after) := Reconcile(before, db, tenantKey, dbName, req, readFault, fault);
      && req.billID in db.submissions && req.billID in db.bills && Chain.Recordable(OutcomeOf(req))
      && reply == Accepted(req.state, true, req.evidenceID, db.submissions[req.billID].hash)
      && after == (if db.submissions[req.billID].outcomeState == PENDING
                   then Chain.Recorded(db, req.billID, OutcomeOf(req)) else db)
  {
    hide ParseEvidence, Chain.Recorded, Blank, ValidEvidenceText, Chain.SubmissionStatus;
    assert SameInvoice(before.submissions[req.billID], db.submissions[req.billID]);
  }

  /** A record request names the stored hash as a fingerprint, so nothing is ever recorded for an invoice whose hash is
      stored in another form, whatever state it is in. */
  lemma OtherHashFormsAreRefused(before: Db, db: Db, tenantKey: string, dbName: string, req: Request, readFault: Fault,
                                 fault: Fault)
    requires req.Valid() && req.action.Record?
    requires req.billID in before.submissions ==> !ValidFingerprint(before.submissions[req.billID].hash)
    ensures Reconcile(before, db, tenantKey, dbName, req, readFault, fault) == (Refused, db)
  {
    hide ParseEvidence, ValidEvidenceText, ValidIdentityText, IsUUID, ValidFingerprint, Chain.Record;
    assert req.invoiceHash != "" && ValidFingerprint(req.invoiceHash);
    var i := Chain.Stored(before, req.billID);
    assert i.Some? ==> req.billID in before.submissions && i.value.hash == before.submissions[req.billID].hash;
    hide Chain.Stored;
    assert Find(before, tenantKey, dbName, req, readFault).None?;
  }

  /** Main result on operator records: an accepted reply agrees with every later status read if and only if the invoice
      was still pending when the record ran and the evidence id has no bar, or its stored answer already had the same
      state from external evidence with the same id. */
  lemma AcceptedRepliesAgree(before: Db, db: Db, tenantKey: string, dbName: string, req: Request,
                             readFault: Fault, fault: Fault, later: Db)
    requires Sound(before) && Evolves(before, db) && Sound(db) && req.action.Record?
    requires Reconcile(before, db, tenantKey, dbName, req, readFault, fault).0.Accepted?
    requires Evolves(Reconcile(before, db, tenantKey, dbName, req, readFault, fault).1, later) && Sound(later)
    ensures var reply := Reconcile(before, db, tenantKey, dbName, req, readFault, fault).0;
      AgreesWith(reply, later, req.billID) <==>
        if db.submissions[req.billID].outcomeState == PENDING then '|' !in req.evidenceID
        else
          var i := Chain.Stored(db, req.billID);
          i.Some? && i.value.outcome == req.state && i.value.evidence == External
            && i.value.evidenceID == req.evidenceID
  {
    AcceptedRecord(before, db, tenantKey, dbName, req, readFault, fault);
    var (reply, after) := Reconcile(before, db, tenantKey, dbName, req, readFault, fault);
    if db.submissions[req.billID].outcomeState == PENDING {
      PendingRecordAgrees(db, req, later);
    } else {
      AnsweredReadStays(db, later, req.billID);
      AnsweredReadTells(db, req);
    }
  }

  lemma AnsweredReadTells(db: Db, req: Request)
    requires Sound(db) && req.billID in db.submissions && req.billID in db.bills && Chain.Recordable(OutcomeOf(req))
    requires db.submissions[req.billID].outcomeState != PENDING
    ensures var i := Chain.Stored(db, req.billID);
      StatusRead(db, req.billID) == Some(Accepted(req.state, true, req.evidenceID,
                                                  db.submissions[req.billID].hash)) <==>
      i.Some? && i.value.outcome == req.state && i.value.evidence == External && i.value.evidenceID == req.evidenceID
  {
    hide ParseEvidence, Blank, ValidEvidenceText, LogShape, BillShape, ReservationShape;
    assert SubmissionShape(db, req.billID, db.submissions[req.billID]);
  }

  lemma PendingRecordAgrees(db: Db, req: Request, later: Db)
    requires Sound(db) && Sound(later) && Chain.Recordable(OutcomeOf(req))
    requires req.billID in db.submissions && req.billID in db.bills
    requires db.submissions[req.billID].outcomeState == PENDING
    requires Evolves(Chain.Recorded(db, req.billID, OutcomeOf(req)), later)
    ensures AgreesWith(Accepted(req.state, true, req.evidenceID, db.submissions[req.billID].hash), later, req.billID)
       <==> '|' !in req.evidenceID
  {
    hide Sound, Evolves, Blank, ValidEvidenceText, ParseEvidence, Chain.Stored;
    var k, outcome := req.billID, OutcomeOf(req);
    var after := Chain.Recorded(db, k, outcome);
    RecordKeepsSound(db, k, outcome);
    AnsweredReadStays(after, later, k);
    if '|' in req.evidenceID { BarIsNotReadBack(db, k, outcome); } else { EvidenceIsReadBack(db, k, outcome); }
  }

  /** An ambiguous invoice stays ambiguous, although the request is accepted and the reply names the new state. */
  lemma AmbiguousStaysAmbiguous(db: Db, tenantKey: string, dbName: string, req: Request, later: Db)
    requires Sound(db) && req.Valid() && req.action.Record?
    requires Find(db, tenantKey, dbName, req, Clean).Some?
    requires db.submissions[req.billID].outcomeState == AMBIGUOUS
    requires Evolves(db, later) && Sound(later)
    ensures var (reply, after) := Reconcile(db, db, tenantKey, dbName, req, Clean, Clean);
      && reply.Accepted? && reply.state == req.state != AMBIGUOUS && after == db
      && StatusRead(later, req.billID).Some? && StatusRead(later, req.billID).value.state == AMBIGUOUS
  {
    AmbiguousRead(db, req.billID);
    AmbiguousIsKept(db, tenantKey, dbName, req);
    hide Reconcile, Request.Valid, Sound, Evolves, Chain.Stored, Find;
    AnsweredReadStays(db, later, req.billID);
  }

  lemma AmbiguousRead(db: Db, k: int)
    requires k in db.submissions && k in db.bills && db.submissions[k].outcomeState == AMBIGUOUS
    ensures Chain.Stored(db, k).Some? && Chain.Stored(db, k).value.outcome == AMBIGUOUS
    ensures StatusRead(db, k).Some? && StatusRead(db, k).value.state == AMBIGUOUS
  {
    hide ParseEvidence;
  }

  lemma AmbiguousIsKept(db: Db, tenantKey: string, dbName: string, req: Request)
    requires req.Valid() && req.action.Record? && Find(db, tenantKey, dbName, req, Clean).Some?
    requires db.submissions[req.billID].outcomeState == AMBIGUOUS
    ensures var (reply, after) := Reconcile(db, db, tenantKey, dbName, req, Clean, Clean);
      reply.Accepted? && reply.state == req.state != AMBIGUOUS && after == db
  {
    hide ParseEvidence, Chain.Recorded;
  }
}
