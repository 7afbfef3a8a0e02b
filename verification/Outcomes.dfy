/** What the tables hold of an answer, in the numbers and columns of the schema (queue/chain.go). */
module Outcomes {
  import opened Text
  import opened Messages
  import opened Tables
  import opened Operations
  import opened ChainSafety
  import opened HashChain
  import opened Evidences
  import Chain

  /** The status of a row tells its state, and a row has no other state. */
  predicate StatusTells(s: Submission) {
    && (s.outcomeState == PENDING <==> s.status == 0)
    && (s.outcomeState == AMBIGUOUS <==> s.status == 1)
    && (s.outcomeState == ACCEPTED <==> s.status == 2)
    && (s.outcomeState == REJECTED <==> s.status == 3)
    && (s.outcomeState == WARNING <==> s.status == 4)
    && (s.outcomeState == TERMINAL <==> s.status == 5)
    && 0 <= s.status <= 5
  }

  lemma StatesDiffer()
    ensures PENDING != AMBIGUOUS && PENDING != ACCEPTED && PENDING != REJECTED && PENDING != WARNING
    ensures PENDING != TERMINAL
    ensures AMBIGUOUS != ACCEPTED && AMBIGUOUS != REJECTED && AMBIGUOUS != WARNING && AMBIGUOUS != TERMINAL
    ensures ACCEPTED != REJECTED && ACCEPTED != WARNING && ACCEPTED != TERMINAL
    ensures REJECTED != WARNING && REJECTED != TERMINAL && WARNING != TERMINAL
  {
  }

  lemma SoundStatusTells(db: Db, k: int)
    requires Sound(db) && k in db.submissions
    ensures StatusTells(db.submissions[k])
  {
    hide LogShape, BillShape, ReservationShape;
    StatesDiffer();
    assert SubmissionShape(db, k, db.submissions[k]);
  }

  /** Main result on statuses: in every run from an initial database the status of an invoice is 0 while it is pending,
      1 when its answer is ambiguous, 2 accepted, 3 rejected, 4 accepted with a warning and 5 a terminal failure. */
  lemma StatusesTell(cfg: Config, db: Db, ops: seq<Op>, k: int)
    requires Initial(db) && k in ApplyAll(cfg, db, ops).submissions
    ensures StatusTells(ApplyAll(cfg, db, ops).submissions[k])
  {
    InitialIsSound(db);
    RunIsSound(cfg, db, ops);
    SoundStatusTells(ApplyAll(cfg, db, ops), k);
  }

  // ---------------------------------------------------------------- one record

  /** A nullable column holds a text up to a number of characters, and nothing for the empty text. */
  predicate HoldsText(column: Option<string>, text: string, limit: nat) {
    if text == "" then column == None
    else column.Some? && column.value <= text && |column.value| == (if |text| < limit then |text| else limit)
  }

  /** The five states an answer can have, a known source of evidence, and an id with external evidence. */
  predicate CanBeRecorded(o: Outcome) {
    && o.state in [ACCEPTED, WARNING, REJECTED, AMBIGUOUS, TERMINAL]
    && o.evidence in [Unspecified, Evidence.Provider, External, Local]
    && (o.evidence == External ==> !Blank(o.evidenceID) && ValidEvidenceText(o.evidenceID, 256))
  }

  /** The text of the message columns: with external evidence it starts with the marker, the id and a bar. */
  predicate IsMessageOf(text: string, o: Outcome) {
    if o.evidence == External then
      && |text| == 19 + |o.evidenceID| + |o.message|
      && text[..18] == "external-evidence:" && text[18..18 + |o.evidenceID|] == o.evidenceID
      && text[18 + |o.evidenceID|] == '|' && text[19 + |o.evidenceID|..] == o.message
    else text == o.message
  }

  /** A pending row after its first answer: only rejections and terminal failures carry a rejection, only the other
      answers a warning. */
  ghost predicate AnswersRow(before: Submission, after: Submission, o: Outcome, text: string) {
    var refused := o.state == REJECTED || o.state == TERMINAL;
    && SameInvoice(before, after) && after.outcomeState == o.state && StatusTells(after)
    && HoldsText(after.providerCode, o.providerCode, 64)
    && HoldsText(after.rejectionCode, if refused then o.providerCode else "", 64)
    && HoldsText(after.rejectionMsg, if refused then text else "", 512)
    && HoldsText(after.warningMsg, if refused then "" else text, 1024)
  }

  ghost predicate LogsAnswer(row: LogRow, k: int, o: Outcome, text: string) {
    && row.billID == k && row.state == o.state && HoldsText(row.providerCode, o.providerCode, 64)
    && HoldsText(row.message, if o.evidence != External && (o.state == REJECTED || o.state == TERMINAL) then ""
                 else text,
                 1024)
  }

  lemma MessageOf(o: Outcome) returns (text: string)
    ensures IsMessageOf(text, o) && text == OutcomeText(o)
  {
    text := OutcomeText(o);
    if o.evidence == External {
      assert PREFIX == "external-evidence:" && |PREFIX| == 18;
      assert text == PREFIX + o.evidenceID + "|" + o.message;
      assert text[..18] == PREFIX && text[18..18 + |o.evidenceID|] == o.evidenceID;
      assert text[19 + |o.evidenceID|..] == o.message;
    }
  }

  lemma NullStringHolds(text: string, limit: nat)
    requires limit > 0
    ensures HoldsText(NullString(text, limit), text, limit)
  {
  }

  /** Which answers are refused before the tables are touched. */
  lemma RecordableAnswers(o: Outcome)
    ensures CanBeRecorded(o) <==> Chain.Recordable(o)
  {
    hide Blank, ValidEvidenceText;
  }

  lemma AnswerOfRow(db: Db, k: int, o: Outcome) returns (text: string)
    requires CanBeRecorded(o) && k in db.submissions && Chain.Recordable(o)
    ensures IsMessageOf(text, o)
    ensures AnswersRow(db.submissions[k], Chain.Answered(db.submissions[k], o), o, text)
    ensures LogsAnswer(Chain.LogEntry(k, db.submissions[k], o), k, o, text)
  {
    text := MessageOf(o);
    NullStringHolds(o.providerCode, 64);
    NullStringHolds(text, 512);
    NullStringHolds(text, 1024);
    StatesDiffer();
    hide HoldsText, NullString, OutcomeText, IsMessageOf, Blank, ValidEvidenceText;
    assert HoldsText(None, "", 64) && HoldsText(None, "", 512) && HoldsText(None, "", 1024) by { NothingHeld(); }
  }

  lemma NothingHeld()
    ensures HoldsText(None, "", 64) && HoldsText(None, "", 512) && HoldsText(None, "", 1024)
  {
  }

  /** Main result on one record: it succeeds exactly for an answer that can be recorded on a row that exists, changes
      only a pending row, and then writes the row, one log row and, for an accepted or warned invoice, the issued state
      of the bill. */
  lemma RecordWrites(db: Db, invoice: SignedInvoice, o: Outcome, fault: Fault) returns (text: string)
    ensures var (k, (reply, z)) := (invoice.sourceID, Chain.Record(db, invoice, o, fault));
      && (reply.Ok? <==> CanBeRecorded(o) && k in db.submissions && !fault.Failed? && !fault.ReplyLost?)
      && (if CanBeRecorded(o) && !fault.Failed? && k in db.submissions && db.submissions[k].outcomeState == PENDING then
            && IsMessageOf(text, o)
            && z.submissions.Keys == db.submissions.Keys && AnswersRow(db.submissions[k], z.submissions[k], o, text)
            && z.submissions - {k} == db.submissions - {k}
            && |z.log| == |db.log| + 1 && z.log[..|db.log|] == db.log && LogsAnswer(z.log[|db.log|], k, o, text)
            && z.branches == db.branches && z.claims == db.claims
            && z.bills == (if (o.state == ACCEPTED || o.state == WARNING) && k in db.bills
                           then db.bills[k := db.bills[k].(state := 3)] else db.bills)
          else z == db)
  {
    RecordableAnswers(o);
    text := "";
    if CanBeRecorded(o) && invoice.sourceID in db.submissions { text := AnswerOfRow(db, invoice.sourceID, o); }
    hide CanBeRecorded, Chain.Recordable, Chain.Answered, Chain.LogEntry, IsMessageOf, AnswersRow, LogsAnswer;
    var z := Chain.Record(db, invoice, o, fault).1;
    if z != db { assert z.log[..|db.log|] == db.log; }
  }
}
