/** How an answer of ZATCA becomes an outcome (processor/bill.go). */
module Provider {
  import opened Text
  import opened Tables
  import Chain

  datatype Detail = Detail(code: string, message: string)

  datatype Validation = Validation(errors: seq<Detail>, warnings: seq<Detail>)

  datatype Response = Response(
    status: string,
    clearanceStatus: string,
    reportingStatus: string,
    validation: Option<Validation>,
    warnings: seq<Detail>,
    errors: seq<Detail>)

  /** What came back from the provider: a 2xx answer, an answer outside 2xx, or no usable answer. */
  datatype Answer =
    | Success(response: Response)
    | ApiError(status: int, body: string, parsed: Option<Response>)
    | NoAnswer

  // ---------------------------------------------------------------- classification

  /** The messages, separated by semicolons. */
  function Joined(items: seq<Detail>): string {
    if items == [] then ""
    else if |items| == 1 then items[0].message
    else Joined(items[..|items| - 1]) + "; " + items[|items| - 1].message
  }

  method JoinTexts(items: seq<Detail>) returns (text: string)
    ensures text == Joined(items)
  {
    text := "";
    for i := 0 to |items|
      invariant text == Joined(items[..i])
    {
      assert items[..i + 1][..i] == items[..i];
      text := if i == 0 then items[0].message else text + "; " + items[i].message;
    }
    assert items[..|items|] == items;
  }

  function OrElse(text: string, fallback: string): string {
    if text == "" then fallback else text
  }

  function SuccessStatus(kind: string): string {
    if kind == STANDARD then "CLEARED" else if kind == SIMPLIFIED then "REPORTED" else ""
  }

  function ProviderStatus(kind: string, r: Response): string {
    if kind == STANDARD && r.clearanceStatus != "" then r.clearanceStatus
    else if kind == SIMPLIFIED && r.reportingStatus != "" then r.reportingStatus
    else r.status
  }

  function Plain(state: string, code: string, message: string): Outcome {
    Outcome(state, code, message, Unspecified, "")
  }

  function ResponseOutcome(kind: string, r: Response): Outcome {
    if r.errors != [] then
      Plain(REJECTED, r.errors[0].code, OrElse(Joined(r.errors), "provider returned top-level errors"))
    else if r.validation.Some? && r.validation.value.errors != [] then
      var errors := r.validation.value.errors;
      Plain(REJECTED, errors[0].code, OrElse(Joined(errors), "provider returned validation errors"))
    else if SuccessStatus(kind) == "" then
      Plain(REJECTED, r.status, "unsupported invoice kind \"" + kind + "\"")
    else if ProviderStatus(kind, r) != SuccessStatus(kind) then
      Plain(REJECTED, ProviderStatus(kind, r),
            "the answer status \"" + ProviderStatus(kind, r) + "\" is not " + SuccessStatus(kind))
    else if r.warnings != [] then Plain(WARNING, r.warnings[0].code, r.warnings[0].message)
    else if r.validation.Some? && r.validation.value.warnings != [] then
      Plain(WARNING, r.validation.value.warnings[0].code, r.validation.value.warnings[0].message)
    else Plain(ACCEPTED, "", "")
  }

  predicate IsInvoiceRejection(status: int) {
    status != 401 && status != 403 && status != 408 && status != 429 && 400 <= status < 500
  }

  /** The outcome of an answer and the error returned with it. No outcome means a technical failure. */
  datatype Verdict = Verdict(outcome: Option<Outcome>, errors: Errors)

  function RejectionOutcome(kind: string, status: int, body: string, parsed: Option<Response>): Verdict {
    var held := status == 208 || status == 409;
    var again := if parsed.Some? then ResponseOutcome(kind, parsed.value) else Plain(REJECTED, "", "");
    if held && parsed.Some? && (kind == STANDARD || kind == SIMPLIFIED) && Chain.Issues(again.state) then
      Verdict(Some(again), {})
    else if held then Verdict(Some(Plain(AMBIGUOUS, Decimal(status), body)), {OutcomeAmbiguous})
    else if IsInvoiceRejection(status) then Verdict(Some(Plain(REJECTED, Decimal(status), body)), {})
    else Verdict(None, {Technical})
  }

  function Classify(kind: string, answer: Answer): Verdict {
    match answer
    case Success(r) => Verdict(Some(ResponseOutcome(kind, r)), {})
    case ApiError(status, body, parsed) => RejectionOutcome(kind, status, body, parsed)
    case NoAnswer => Verdict(None, {Technical})
  }

  // ---------------------------------------------------------------- what it means

  /** ZATCA reports no error, and the top-level status is the success value of the invoice's endpoint. */
  ghost predicate Clears(kind: string, r: Response) {
    && |r.errors| == 0
    && (r.validation.Some? ==> |r.validation.value.errors| == 0)
    && ((kind == STANDARD && (r.clearanceStatus == "CLEARED" || (r.clearanceStatus == "" && r.status == "CLEARED")))
        || (kind == SIMPLIFIED && (r.reportingStatus == "REPORTED"
                                   || (r.reportingStatus == "" && r.status == "REPORTED"))))
  }

  /** The answer accepts an invoice: a 2xx answer, or the answer repeated for an invoice ZATCA already holds. */
  ghost predicate Accepts(kind: string, answer: Answer) {
    match answer
    case Success(r) => Clears(kind, r)
    case ApiError(status, _, parsed) => (status == 208 || status == 409) && parsed.Some? && Clears(kind, parsed.value)
    case NoAnswer => false
  }

  predicate Warns(r: Response) {
    r.warnings != [] || (r.validation.Some? && r.validation.value.warnings != [])
  }

  /** An answer is recorded as accepted or warned if and only if it accepts the invoice, and as warned exactly when it
      then carries a warning. */
  lemma OnlyAcceptanceIssues(kind: string, answer: Answer)
    ensures var v := Classify(kind, answer);
      && ((v.outcome.Some? && Chain.Issues(v.outcome.value.state)) <==> Accepts(kind, answer))
      && (Accepts(kind, answer) ==>
            (v.outcome.value.state == WARNING
             <==> Warns(if answer.Success? then answer.response else answer.parsed.value)))
  {
  }

  /** What each outcome of an answer says: its state is final and recordable, a held invoice that is not accepted is
      ambiguous and never rejected, and a technical failure is exactly an answer without an outcome. */
  lemma VerdictsAreRecordable(kind: string, answer: Answer)
    ensures var v := Classify(kind, answer);
      && (v.outcome.None? <==> v.errors == {Technical})
      && (v.outcome.Some? ==> Chain.Recordable(v.outcome.value) && !v.outcome.value.evidence.External?)
      && (v.outcome.Some? ==> v.errors == if v.outcome.value.state == AMBIGUOUS then {OutcomeAmbiguous} else {})
      && (v.outcome.Some? && answer.ApiError? && answer.status == 409 ==> v.outcome.value.state != REJECTED)
      && (v.outcome.Some? && v.outcome.value.state == REJECTED && answer.Success? ==> v.outcome.value.message != "")
  {
  }

  /** Which error statuses decide about an invoice: the other answers of a client error reject it with their code and
      body, 208 and 409 say that it is already held, and only the rest are technical failures, which are retried. */
  lemma StatusesDecide(kind: string, status: int, body: string, parsed: Option<Response>)
    ensures var v := Classify(kind, ApiError(status, body, parsed));
      var rejects := 400 <= status < 500 && status !in {401, 403, 408, 409, 429};
      var held := status == 208 || status == 409;
      && (v.outcome.Some? && v.outcome.value.state == REJECTED <==> rejects)
      && (rejects ==> v == Verdict(Some(Outcome(REJECTED, Decimal(status), body, Unspecified, "")), {}))
      && (v == Verdict(None, {Technical}) <==> !rejects && !held)
      && (held && !Accepts(kind, ApiError(status, body, parsed)) ==>
            v == Verdict(Some(Outcome(AMBIGUOUS, Decimal(status), body, Unspecified, "")), {OutcomeAmbiguous}))
      && (held && Accepts(kind, ApiError(status, body, parsed)) ==>
            v == Classify(kind, Success(parsed.value)))
  {
    hide Decimal;
    if parsed.Some? { OnlyAcceptanceIssues(kind, Success(parsed.value)); }
  }

  /** The first warning of an answer, those of the answer itself before those of its validation. */
  predicate FirstWarning(r: Response, w: Detail) {
    if r.warnings != [] then w == r.warnings[0]
    else r.validation.Some? && r.validation.value.warnings != [] && w == r.validation.value.warnings[0]
  }

  /** The status of the endpoint of this kind; older answers have only the common one. */
  predicate EndpointStatus(kind: string, r: Response, status: string) {
    || (kind == STANDARD && r.clearanceStatus != "" && status == r.clearanceStatus)
    || (kind == SIMPLIFIED && r.reportingStatus != "" && status == r.reportingStatus)
    || (kind == STANDARD && r.clearanceStatus == "" && status == r.status)
    || (kind == SIMPLIFIED && r.reportingStatus == "" && status == r.status)
    || (kind != STANDARD && kind != SIMPLIFIED && status == r.status)
  }

  /** What a 2xx answer without errors says: nothing when it accepts without a warning, its first warning when it has
      one, and otherwise a rejection with the status of its endpoint and a text. */
  lemma SuccessSays(kind: string, r: Response)
    requires r.errors == [] && (r.validation.Some? ==> r.validation.value.errors == [])
    ensures var v := Classify(kind, Success(r));
      && v.errors == {} && v.outcome.Some?
      && var o := v.outcome.value;
         && o.evidence == Unspecified && o.evidenceID == ""
         && (!Clears(kind, r) ==>
               && o.state == REJECTED && EndpointStatus(kind, r, o.providerCode)
               && o.message == (if kind != STANDARD && kind != SIMPLIFIED then "unsupported invoice kind \""
                                + kind + "\""
                                else "the answer status \"" + o.providerCode + "\" is not "
                                     + (if kind == STANDARD then "CLEARED" else "REPORTED")))
         && (Clears(kind, r) && Warns(r) ==>
               o.state == WARNING && FirstWarning(r, Detail(o.providerCode, o.message)))
         && (Clears(kind, r) && !Warns(r) ==> o == Outcome(ACCEPTED, "", "", Unspecified, ""))
  {
  }

  /** The joined text holds every message whole. */
  lemma {:induction false} JoinedHolds(items: seq<Detail>, i: nat) returns (before: string, after: string)
    requires i < |items|
    ensures Joined(items) == before + items[i].message + after
  {
    if |items| == 1 {
      return "", "";
    }
    var front, last := items[..|items| - 1], items[|items| - 1].message;
    if i == |items| - 1 {
      before, after := Joined(front) + "; ", "";
    } else {
      before, after := JoinedHolds(front, i);
      assert before + items[i].message + after + ("; " + last) == before + items[i].message + (after + "; " + last);
      after := after + "; " + last;
    }
  }

  lemma NothingJoined(items: seq<Detail>)
    ensures Joined(items) == "" <==> |items| == 0 || (|items| == 1 && items[0].message == "")
  {
  }

  /** An answer with errors is a rejection with the code of its first error and with every error message in its text.
      The text of a single error without a message says which kind of errors it is from. */
  lemma RejectionsNameTheirErrors(kind: string, r: Response, i: nat) returns (before: string, after: string)
    requires r.errors != [] || (r.validation.Some? && r.validation.value.errors != [])
    requires i < |if r.errors != [] then r.errors else r.validation.value.errors|
    ensures var (o, errors) := (ResponseOutcome(kind, r), if r.errors != [] then r.errors
                                else r.validation.value.errors);
      && o.state == REJECTED && o.providerCode == errors[0].code
      && (errors[i].message != "" ==> o.message == before + errors[i].message + after)
      && (|errors| == 1 && errors[0].message == "" ==>
            o.message == (if r.errors != [] then "provider returned top-level errors"
                          else "provider returned validation errors"))
  {
    NothingJoined(if r.errors != [] then r.errors else r.validation.value.errors);
    before, after := JoinedHolds(if r.errors != [] then r.errors else r.validation.value.errors, i);
  }
}
