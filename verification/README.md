# The invoice-chain protocol of the ZATCA daemon, modelled in Dafny

The daemon takes bills from a queue, books the next invoice number (ICV) of their branch, builds and signs the invoice,
commits it and advances the hash chain, submits it to ZATCA, records the answer, completes the claim of the request and
acknowledges the delivery. Crashes, redeliveries, lease takeovers, lost commit replies and operator records can fall between
any two of these effects. This project models that protocol, the lifecycle of tenants and workers around it, and the
transformations and arithmetic of the invoice itself, and proves what they keep.

`dafny verify dfyconfig.toml` checks the whole project.

## How it is modelled

Three levels, each proved against the next:

1. **Tables and transactions.** `Tables` holds the rows of one tenant database. `Chain` and `Claims` give each SQL transaction
   as a function on the tables. A transaction runs, fails and is not applied, or is applied while its reply is lost. The clock
   is an arbitrary input. `Stores` has the stores in their own form, as classes whose methods read and write rows; each method
   is proved to do exactly what its function says.
2. **Deliveries.** `Stream` gives one delivery as a machine whose steps are the single effects of `handleDelivery`,
   `HandleMessage` and `FinalizePermanentFailure`. `OrderedStreams` has the stream in its own form; its methods are proved to do
   exactly what the machine does when nothing interferes.
3. **Runs.** `Operations` lets any transactions run in any order with any arguments: any number of workers, honest or not.
   `World` interleaves any number of deliveries at every step, with crashes, operator records and rows the backend adds.
   `Serialised` adds the partition lock, and `Overlap` has a run that the lock is there to exclude.

The results over runs are in `HashChain` (level 1, nothing assumed about who books or commits), `WorldSafety` (level 3, no
serialisation assumed), `Serialised` and `Progress`. `Outcomes` says what the tables hold of an answer, `Refusals` what a
delivery answers and leaves behind in each way it can end, `Validity` which envelopes and requests are refused, `Operator` is
the reconcile request, `Leases` says what leases exclude, and `Limits` states, for all inputs, where the code does less than one
might expect.

`Lifecycle` is a step machine of tenant removal, branch stops, worker starts and onboarding, one action for each critical
section; `LifecycleSafety` has its invariant and results. `Topology` is one reconciliation pass as a class with its maps and
loops, and `Registry` the tenant registry. `Tlv`, `Der`, `Amounts`, `Signing` (over `Markup`), `Digest` and `InvoiceXml` are
the transformations: `Payable` measures the amounts of `Amounts` against the columns of a bill, `Markup` is what a text says as
tags and as trees, `Signing` what the two injections do to the text, `Digest` what hashing keeps of the tree, `InvoiceXml` the
sections that `ToXML` writes, on which both meet, and `InvoiceFields` what a reader finds in them.

### Assumptions

- A bill has at most one row in `zatca_submission`, and an `event_id` at most one claim: both are unique keys of the backend.
- A bill the backend adds carries no invoice hash and is not issued, and the backend changes no bill or branch row after adding
  it; `WorldSafety.IssuedOnlyOnEvidence` depends on it.
- Build and Submit never return the rejected-input error; Build leaves the outcome fields at their zero values.
- `reserved_icv` is an unsigned column that is scanned into a signed 64-bit value, so a reserved number above 2^63-1 fails to
  load. `Progress.LastNumberStalls` states what follows from it.
- Whether the driver counts changed or matched rows is a parameter (`Config.countsChangedRows`).
- In `Serialised`: every delivery of a request names the same bill, the requests of one bill name the same branch, one tenant is
  served, and the deliveries of a partition do not overlap. The lock belongs to one worker's stream, so this also needs one
  worker for each branch, which `LifecycleSafety.OneWorkerOutsideWaits` gives outside the waits of the reconciler and
  `LifecycleSafety.TwoWorkersDuringAStop` shows to fail inside one.
- Texts are sequences of characters of valid UTF-8, and text columns compare by equality.
- Errors are modelled by the kinds `errors.Is` finds in them; a joined error has the kinds of all its parts.
- Amounts are exact reals; IEEE rounding is abstracted, and so are negative zero and the range of the int conversion in
  `roundTo2`.
- Canonicalization, hashing and base64 are opaque and deterministic. Of the parser it is assumed that it gives the tree a text
  stands for (`Signing.Parses`) when that tree is clean and it accepts the text; `Signing.ParsesOnce` proves that there is no
  second one. A parser refuses more texts than `Parses` does, such as one with an `&` that starts no reference; escaped fields
  never hold one, the fields written as they are may.
- The fixed texts of the XML (the declaration, the namespaces and the URNs) hold no markup and close their quotations.

### Where the code does less than its names and comments suggest

- `removeTenant` and `reconcileBranches` select workers by the prefix `db_name:`, which also selects workers of a database whose
  name goes on after it with a colon. `Topology.ForeignWorkerSurvives` states exactly which workers survive, and
  `Topology.NestedNamesLoseWorkers` that the registry admits such names.
- A record request must carry a 64-digit hexadecimal hash equal to the stored one, while the code stores whatever hash the
  signing returns, in ZATCA's format a base64 text. `Operator.OtherHashFormsAreRefused` shows that no record of such an invoice
  is ever accepted.
- The operator handler accepts a record for an ambiguous invoice, but the record changes only pending ones.
  `Operator.AcceptedRepliesAgree` states exactly when the reply agrees with later reads, and
  `Operator.AmbiguousStaysAmbiguous` shows the disagreement.
- `roundTo2` cuts toward zero after adding a half, so it moves a negative whole hundredth up by one (`Amounts.RoundsMoney`), and
  `verifyBill` does not refuse negative VAT percents. `Amounts.LinesAddUp` states for every verified bill exactly when each of
  the totals agrees; `Amounts.TwoRatesMiss`, `Amounts.RatesAroundZeroMiss` and `Amounts.NegativeRateMisses` are bills on which
  they do not.
- `taxGroups` groups by a printed text, so a percent that prints as `-0.00` has a group of its own (`Amounts.SameKey`), and it
  never subtracts the document discount (`Amounts.GroupsIgnoreTheDiscount`).
- `appendTLV` has two length forms, and a value over 65535 bytes gets a length that is cut (`Tlv.LongerValuesAreLost`).
- `injectQR` looks for the last id `QR` in the text, so a line whose own id or tax category is `QR` leaves the placeholder empty
  (`InvoiceXml.QrLineKeepsTheCodeOut`). The lines that `buildLines` makes never do (`InvoiceXml.BilledLinesAreNoQrLines`).
- `ToXML` writes some fields without escaping them: the subtype, the currency and the unit codes in attributes, and the previous
  hash, the tax categories and the numbers. The results on `ToXML` are for fields without markup there
  (`InvoiceXml.Invoice.RawClean`).

## Model

| member | source | states |
|---|---|---|
| Messages.RequestKeyIdentifies | queue/message.go:61-92 | two validated messages have the same request key if and only if they have the same POS and request id |
| Messages.PartitionKeyIdentifies | queue/message.go:61-97 | two validated messages share a partition if and only if they are for the same branch of the same tenant |
| Text.NilIsNoUUID | queue/message.go:122-125 | the nil UUID, dashed or undashed, is refused |
| Validity.GoodEnvelope | queue/message.go:60-87 | an envelope is valid if and only if it is a bill with positive numbers, texts of the allowed lengths and characters, the decimal sequence of its branch, a UUID and a 64-digit hexadecimal fingerprint |
| Validity.GoodRequest | queue/reconcile.go:64-103 | the same for a reconcile request, and which fields a record needs |
| Validity.GoodTenant | tenant/tenant.go:27-56 | the same for a tenant, with the environments it may name |
| Stores.SQLChain.Book | queue/chain.go:225-275 | reply and tables are those of the booking transaction, for every row, clock and failure |
| Stores.SQLChain.Release | queue/chain.go:279-288 | reply and tables are those of the release, which touches only the reservation of its own request and event |
| Stores.SQLChain.Commit | queue/chain.go:292-365 | reply and tables are those of the commit transaction: refused without effect, or all three writes |
| Stores.SQLChain.Stored | queue/chain.go:369-408 | the committed invoice of the bill with its recorded answer and evidence |
| Stores.SQLChain.Record | queue/chain.go:413-485 | reply and tables are those of the record, which changes only a pending invoice |
| Stores.SQLClaimStore.Claim | queue/sql_claim_store.go:46-131 | decision and tables are those of the claim transaction, with both unique keys |
| Stores.SQLClaimStore.Release | queue/sql_claim_store.go:136-230 | errors and tables are those of the release update and of the read that may follow it |
| Stores.SQLClaimStore.Complete | queue/sql_claim_store.go:162-230 | errors and tables are those of the completion update and of the read that makes repeating it safe |
| ChainSafety.ApplyKeepsSound | queue/chain.go:225-485 | every operation keeps: a reservation is for the next number, invoices agree with bills and branches, statuses and states agree, bills are issued exactly when accepted, and the log has one row for each answer |
| ChainSafety.ApplyEvolves | queue/chain.go:225-485 | no operation takes back a number, an invoice, an answer, a log row, a fingerprint or a completed claim |
| HashChain.ChainIntegrity | queue/chain.go:199-365 | in every run from an initial database the invoices of a branch are numbered exactly 1..last_icv, the first chains from the genesis hash, each later one from its predecessor, the branch row holds the last hash, and numbers never pass 2^63-1, so they never wrap |
| HashChain.NumberIsCommittedOnce | queue/chain.go:215-365 | after a commit, no commit of the same branch and number ever succeeds again, whatever booking it holds |
| HashChain.TakeoverDisplaces | queue/chain.go:253-270 | after a booking of a branch its holder is exactly the request and event that booked |
| HashChain.DisplacedBookingIsFenced | queue/chain.go:215-365 | a displaced booking neither commits nor clears a reservation until its own request and event book again |
| HashChain.BookAnswer | queue/chain.go:225-263 | on sound tables, which answer Book gives in each case; the guard on a stale reserved number never decides |
| HashChain.BookedCommits | queue/chain.go:292-365 | a fresh booking commits any fitting invoice of its bill if and only if the number is below 2^63 |
| HashChain.CommitsExactly | queue/chain.go:292-365 | a commit goes through if and only if the invoice is that of the booking, the branch row still holds the booking for the number after the last one and the hash it chains from, and the bill is of the branch, without an invoice and with free or equal columns |
| HashChain.OutcomesAreFinal | queue/chain.go:410-503 | over every run the first answer stays with state, code and message, the log has exactly one row if and only if there is an answer, the status is that of the state (`Outcomes.StatusesTell` gives the numbers), and a bill is issued exactly when accepted |
| Outcomes.StatusesTell | queue/chain.go:487-503 | over every run the status of a row is 0 if and only if it is pending, 1 ambiguous, 2 accepted, 3 rejected, 4 accepted with a warning, 5 a terminal failure |
| Outcomes.RecordWrites | queue/chain.go:413-485 | a record succeeds exactly for an answer that can be recorded on a stored row, and on a pending row writes state, status, code, the rejection columns only for rejected and terminal, the warning column only for the others, one log row, and state 3 of the bill only for an acceptance; otherwise it changes nothing |
| HashChain.ClaimsAreFinal | queue/sql_claim_store.go:44-206 | over every run a claim keeps its fingerprint, and a completed claim never changes |
| HashChain.DisplacedClaimIsFenced | queue/sql_claim_store.go:136-230 | a delivery whose claim another event took over neither releases nor completes it until its own event claims again |
| Leases.BookingLasts | queue/chain.go:253-270 | another delivery is told the branch is busy if and only if the lease still runs; afterwards it gets the same number and previous hash |
| Leases.ClaimLasts | queue/sql_claim_store.go:69-131 | another delivery of the request is in flight exactly while the lease runs, then takes the claim over unless its event is taken |
| Limits.LateReleaseDropsAResumedBooking | queue/chain.go:277-288 | a late release of the same request and event drops the booking that a redelivery resumed, and that redelivery cannot commit |
| Limits.RepeatedReleaseErrs | queue/sql_claim_store.go:136-160 | a second release errs exactly when the driver counts changed rows |
| Limits.BusyIsNotFinalised | cmd/daemon/worker.go:173-196 | a delivery that returns a busy chain or claim is not finalized at the delivery limit |
| Limits.LiveClaimIsNotFinalised | queue/ordered_stream.go:83-98 | a delivery that meets the live claim of another one ends unacknowledged with all tables as they were, also on its last attempt |
| Limits.LiveBookingIsNotFinalised | queue/ordered_stream.go:172-201 | a delivery that meets the live booking of another one, or its lock, ends unacknowledged, also on its last attempt and whatever happens to its release; only its own claim may change |
| Limits.FinalizationIgnoresTheUUID | queue/ordered_stream.go:108-136 | a finalization records a terminal failure for an invoice stored under another UUID, although the stored check would refuse it |
| Refusals.BadEnvelopesAreReturned | queue/ordered_stream.go:71-75 | an invalid envelope is returned at once and changes nothing |
| Refusals.BooksVerifiedBills | processor/bill.go:26-57 | a number is booked if and only if the bill exists, is of the branch of the envelope, is final, has no other UUID and passes verification; it is refused or retried otherwise |
| Refusals.UnfitBillsAreRefused | queue/ordered_stream.go:248-265 | a claimed delivery whose bill is missing, of another branch, not final, under another UUID or not verified ends as rejected input: one ack, the claim completed, branches, bills, invoices and log unchanged |
| Refusals.ForeignInvoicesAreNotSubmitted | queue/ordered_stream.go:203-217 | a stored invoice of another UUID or branch is never submitted; the delivery returns unacknowledged and gives its claim back |
| Refusals.OthersAreReleased | queue/ordered_stream.go:183-246 | an invoice is committed if and only if it has the source, branch and UUID of the envelope and the number, hash and UUID of the booking; otherwise booking and claim are given back |
| Refusals.OtherContentIsRefused | queue/ordered_stream.go:83-98 | a delivery with other content than the claimed request, or with the event of another request, is acknowledged once with a conflict and changes nothing |
| Refusals.OnlyOtherErrorsAreFinalised | cmd/daemon/worker.go:173-205 | a returned error is finalized if and only if it is the last attempt and no part of it is one of the six exempt errors; otherwise the delivery ends with the tables as they are |
| Refusals.ExhaustedDeliveriesAreClosed | queue/ordered_stream.go:105-136 | a finalization without a fault records a local terminal failure for an invoice without an answer and leaves any other, completes the claim and acknowledges once |
| Refusals.AnswersAreReported | queue/ordered_stream.go:138-170 | an outcome for a pending invoice is recorded, the claim completed, the delivery acknowledged once, and the recorded state reported: a rejection, an ambiguous answer, or nothing for an acceptance |
| Refusals.NoOutcomeIsRetried | queue/ordered_stream.go:147-150 | an answer without an outcome returns a technical failure unacknowledged and gives the claim back |
| Refusals.CompletionAnswers | queue/sql_claim_store.go:162-230 | completing answers nothing exactly for the claim of this event and content, and repeating it is safe; stale and unknown claims are told apart |
| Refusals.ReleaseAnswers | queue/sql_claim_store.go:136-230 | releasing a claim of another event, or a completed one, answers what completing it answers |
| Refusals.FailedCompletionsAreRetried | queue/ordered_stream.go:161-165 | when the completion of a finished request fails, its claim is given back and the delivery returns unacknowledged |
| Refusals.LostAcksAreReported | queue/ordered_stream.go:83-170 | a lost acknowledgement is reported as a technical failure together with the result, and changes nothing; only a conflict is returned as it is |
| Provider.JoinTexts | processor/bill.go:178-185 | joins the messages with semicolons |
| Provider.RejectionsNameTheirErrors | processor/bill.go:96-111 | an answer with errors is a rejection with the first error's code and every error's message |
| Provider.OnlyAcceptanceIssues | processor/bill.go:93-214 | an answer is recorded as accepted or warned if and only if it has no errors and the success status of the invoice's kind, in a 2xx answer or in the body of a 409, and as warned exactly when it carries a warning |
| Provider.VerdictsAreRecordable | processor/bill.go:187-222 | every outcome can be recorded, a held invoice that is not accepted is ambiguous and never rejected, and no outcome means a technical failure |
| Provider.StatusesDecide | processor/bill.go:187-222 | an error answer rejects the invoice, with its status and body, if and only if 400 <= status < 500 and the status is none of 401, 403, 408, 409 and 429; it has no outcome if and only if it is neither such a status nor 208 or 409 |
| Provider.SuccessSays | processor/bill.go:93-167 | a 2xx answer without errors says nothing when it accepts without a warning, its first warning when it has one, and otherwise rejects with the status of its endpoint |
| Stream.StepsLowerTheRank | queue/ordered_stream.go:72-265 | every step of a delivery goes to a lower rank, so a delivery ends |
| OrderedStreams.OrderedStream.LockFor | queue/ordered_stream.go:60-69 | a partition always gets the same lock, and never that of another partition |
| OrderedStreams.OrderedStream.HandleMessage | queue/ordered_stream.go:71-103 | result, acknowledgements and tables are those of the delivery machine run alone, on every input |
| OrderedStreams.OrderedStream.Process | queue/ordered_stream.go:138-159 | the same from the claim on |
| OrderedStreams.OrderedStream.InvoiceFor | queue/ordered_stream.go:172-201 | the same for reading, preparing, booking, building and committing |
| OrderedStreams.OrderedStream.Finish | queue/ordered_stream.go:161-170 | the same for completing and acknowledging |
| OrderedStreams.OrderedStream.Failed | queue/ordered_stream.go:248-265 | the same for refused inputs and technical failures |
| OrderedStreams.OrderedStream.FinalizePermanentFailure | queue/ordered_stream.go:105-136 | the same for the finalization |
| OrderedStreams.HandleDelivery | cmd/daemon/worker.go:157-208 | a foreign or undecodable envelope is terminated without effect, any other delivery runs the machine to its end |
| WorldSafety.RunIsOperations | queue/ordered_stream.go:71-265 | the tables of an interleaved run are those of its operations, so every result on table runs holds for deliveries |
| WorldSafety.RunIsSafe | queue/ordered_stream.go:71-265 | every interleaved run keeps: what a delivery carries is the committed row, every answer has a source that explains it, ack at most once |
| WorldSafety.SubmitsAreTheCommittedInvoice | queue/ordered_stream.go:138-201 | in every interleaved run all submissions of a bill carry the same UUID, number, previous hash, hash, kind, XML and QR code: those of its committed row |
| WorldSafety.IssuedOnlyOnEvidence | processor/bill.go:93-214 | a bill is in state 3 if and only if its answer came from a provider answer that accepts it or from an operator's external evidence for an acceptance |
| WorldSafety.AcksAreSafe | queue/ordered_stream.go:72-265 | HandleMessage acks at most once, and only with its claim completed or after a conflict that the tables really held |
| Serialised.CompletedRequestsAreAnswered | queue/ordered_stream.go:138-265 | with serialised partitions, once a request's claim is completed no invoice committed under that request is pending |
| Serialised.SubmitsOnlyUnanswered | queue/ordered_stream.go:138-160 | in every serialised run a delivery that is about to submit carries the committed invoice of its bill, and the row is still unanswered unless an operator has answered it |
| Overlap.OverlapLeavesAnInvoicePending | queue/ordered_stream.go:34-69 | without the lock, for every request: a redelivery after the claim lease that is refused completes the claim, the first delivery still commits, and when it crashes the completed request has a pending invoice that nobody sends |
| Progress.NoStateIsWedged | queue/ordered_stream.go:71-265 | after any run, once leases have expired, one fault-free redelivery of a verifiable bill ends with the outcome recorded, the claim completed and one ack |
| Progress.CompletedIsOnlyAcknowledged | queue/ordered_stream.go:83-90 | a redelivery of a completed request is acknowledged and changes nothing |
| Progress.LastNumberStalls | queue/chain.go:172-243 | from number 2^63-1 on, no invoice of the branch is ever committed again |
| Evidences.EvidenceRoundTrips | queue/chain.go:505-531 | evidence without a bar survives the column: the id exactly, the message cut to what is left |
| Evidences.BarBreaksTheRoundTrip | queue/chain.go:521-531 | an id with a bar never comes back |
| Operator.EvidenceIsReadBack | queue/chain.go:396-531 | a record of external evidence is read back with state, code, id and message, the message cut to 493 or 1005 characters less the id |
| Operator.BarIsNotReadBack | queue/chain.go:507-531 | an id with a bar is not read back |
| Operator.PlainTextPosesAsEvidence | queue/chain.go:507-531 | an answer without external evidence is read as external exactly when its message starts with the marker |
| Operator.AcceptedRepliesAgree | cmd/daemon/reconcile.go:492-545 | an accepted reply agrees with every later status read if and only if the row was pending when Record ran and the id has no bar, or its answer already had the same state from external evidence with the same id |
| Operator.RecordRequests | cmd/daemon/reconcile.go:492-545 | a record request is accepted if and only if it names the tenant, its database and an invoice with the UUID and hash it gives that was pending or ambiguous when read, its evidence can be recorded and both transactions succeed; a row changes only for such a request and while it is pending |
| Operator.StatusRequests | cmd/daemon/reconcile.go:492-525 | a status request reports state, external evidence, id and hash of the named row, is refused otherwise, and never changes a row |
| Operator.OtherHashFormsAreRefused | queue/reconcile.go:80-92 | a record request is refused without effect for every invoice whose stored hash is not 64 hexadecimal digits |
| Operator.AmbiguousStaysAmbiguous | cmd/daemon/reconcile.go:526-544 | an ambiguous invoice stays ambiguous for ever while the reply names the new state |
| BranchKeys.BranchIDOfKey | cmd/daemon/reconcile.go:380-386 | a worker key gives back its branch, whatever the database name holds |
| BranchKeys.BranchKeyIdentifies | cmd/daemon/worker.go:63-65 | a worker key names one branch of one database |
| BranchKeys.PrefixSelects | cmd/daemon/reconcile.go:271-278 | which keys a database prefix selects |
| LifecycleSafety.DoKeepsOrdered | cmd/daemon/reconcile.go:260-378 | every action keeps: an unfinished worker is in the map or awaited, a served tenant is not stopping, the wait group counts the admitted onboardings, one starter for each registered worker |
| LifecycleSafety.ClosedTenantIsQuiet | cmd/daemon/reconcile.go:260-378 | under every interleaving, once a tenant's databases are closed and ever after, all its workers have finished and no admitted onboarding runs |
| LifecycleSafety.WaitsAreNeverStuck | cmd/daemon/reconcile.go:295-300 | while a removal or a stop waits, a party it waits for can move |
| LifecycleSafety.WaitingWorkShrinks | cmd/daemon/reconcile.go:289-300 | while a removal or a stop waits no action adds to the steps its parties have left, and each of their steps takes some away |
| LifecycleSafety.WaitsEnd | cmd/daemon/reconcile.go:289-300 | every wait ends: in any run that goes on from it the awaited parties make at most the steps they had left, once they have made them the reconciler can go on, and until it can one of them can move |
| LifecycleSafety.OneWorkerOutsideWaits | cmd/daemon/reconcile.go:310-378 | two unfinished workers of one branch exist only while the reconciler awaits exactly one of them, and never three |
| LifecycleSafety.TwoWorkersDuringAStop | cmd/daemon/reconcile.go:326-378 | a run, for every database and branch, in which an onboarding starts a second worker during a stop |
| Registry.ValidateAll | tenant/tenant.go:58-77 | accepts exactly the lists of valid tenants with distinct keys and distinct databases |
| Registry.Snapshot.Reconcile | tenant/tenant.go:134-165 | a valid snapshot replaces the last one and is split into added, updated, unchanged and removed; an invalid one changes nothing |
| Registry.ChangeIsAPartition | tenant/tenant.go:146-157 | the split holds every tenant of the new snapshot exactly once |
| Topology.Reconciler.StartBranch | cmd/daemon/reconcile.go:354-378 | a worker starts exactly when the tenant is served and the key is free |
| Topology.Reconciler.RemoveTenant | cmd/daemon/reconcile.go:260-308 | the tenant, its subscriptions and the workers under its prefix go, and those workers are stopped |
| Topology.Reconciler.AddTenant | cmd/daemon/reconcile.go:197-258 | the tenant is served with both subscriptions, or not at all |
| Topology.Reconciler.ReconcileBranches | cmd/daemon/reconcile.go:310-352 | the worker keys after a pass over one tenant; running workers that stay are the same ones |
| Topology.Reconciler.Reconcile | cmd/daemon/reconcile.go:129-195 | for every pattern of failures and all names: which tenants are served; workers run for active branches only, a missing one is disturbed by a tenant whose name is a prefix, unreadable tenants get no new one; among unnested names exactly the active branches, and without colons exactly their keys |
| Topology.WorkerKeysAreExact | cmd/daemon/reconcile.go:182-195 | when every served tenant has exactly its active branches, the worker keys are exactly those of the active branches |
| Topology.ForeignWorkerSurvives | cmd/daemon/reconcile.go:329-339 | a pass leaves another tenant's worker alone if and only if the other name does not go on with a colon after its own, or the number is active |
| Topology.NestedNamesLoseWorkers | tenant/tenant.go:58-77 | the registry admits two names of which one goes on with a colon after the other, and a pass over the shorter one stops a worker of the longer one |
| Tlv.AppendTLV | crypto/qr.go:96-111 | appends tag, length field and value |
| Tlv.DecodeTLV | crypto/qr.go:113-152 | on every input, the values of the entries the data is cut into, or failure when it cannot be cut |
| Tlv.EntryHeader | crypto/qr.go:96-111 | an entry has two header bytes if and only if its value has at most 127 bytes, and otherwise four with the marker and the two low bytes of the length |
| Tlv.DecodeInvertsEncode | crypto/qr.go:96-152 | decoding a concatenation of entries with distinct tags and values up to 65535 bytes gives exactly their values |
| Tlv.LongerValuesAreLost | crypto/qr.go:101-107 | a value over 65535 bytes is never read back |
| Tlv.GenerateQR | crypto/qr.go:36-83 | the fields in order, 6 to 9 only with a value; refused without seller name or VAT number |
| Tlv.QrIsReadBack | crypto/qr.go:36-152 | a QR code decodes to exactly its fields |
| Der.IntToASN1 | crypto/sign.go:311-323 | tag, length and content of the number |
| Der.IntegerIsDer | crypto/sign.go:311-323 | it is a DER INTEGER of the number if and only if the number is positive and its content fits the short form (section 8.3 of ITU-T X.690) |
| Der.EncodeECDSASignatureDER | crypto/sign.go:294-309 | a SEQUENCE of the two INTEGERs |
| Der.SignatureIsDer | crypto/sign.go:294-323 | for 0 < r, s < 2^256 the result is minimal short-form DER of the pair, at most 72 bytes (section 2.2.3 of RFC 3279) |
| Der.SignatureIsUnique | crypto/sign.go:294-323 | no other bytes are a DER signature of the pair |
| Der.SignatureDecodes | crypto/sign.go:294-323 | the bytes are a signature of no other pair |
| Der.PublicKeyBytes | crypto/cert.go:237-249 | 0x04 and both coordinates in 32 bytes each |
| Der.KeyRoundTrips | crypto/cert.go:144-159 | every 65-byte key with prefix 0x04 comes back unchanged, nothing else is parsed |
| Der.PointRoundTrips | crypto/cert.go:237-249 | every point with coordinates below 2^256 is parsed back |
| Amounts.RoundsToNearest | invoice/invoice.go:197-199 | an amount that is not negative is rounded to the nearest hundredth |
| Amounts.RoundsMoney | invoice/invoice.go:197-199 | whole hundredths are kept if not negative, and raised by one otherwise |
| Payable.LineAmounts | invoice/invoice.go:71-84 | net, tax and gross amount of a line are the roundings of quantity times price less discount, of the percentage of the net amount, and of the two together, for amounts of either sign |
| Payable.LineExtensionIsNear | invoice/xml.go:367-385 | the printed line extension of every verified bill is within half a hundredth per line of the sum of quantity times price over its columns |
| Payable.PayableIsNear | invoice/xml.go:367-385 | without negative percents the payable amount is within a hundredth per line, and half a hundredth of its percentage, of the price of the products with their tax |
| Payable.DiscountIsTaken | invoice/invoice.go:135-160 | what a document discount takes from the amounts and from the tax |
| Amounts.PercentIsPrinted | invoice/xml.go:347-348 | the percent in a key is its sign, digits, a dot and two digits, together its nearest hundredth |
| Amounts.HundredthsAreNearest | invoice/xml.go:347-348 | the printed hundredth of a percent is the nearest one, and of two the even one |
| Amounts.TaxableAmount | invoice/invoice.go:135-142 | the rounded sum of the line net amounts less the discount |
| Amounts.TotalTax | invoice/invoice.go:144-155 | the rounded sum of the line taxes less the tax of the discount |
| Amounts.TotalWithTax | invoice/invoice.go:157-160 | the rounded sum of both |
| Amounts.LegalMonetaryTotal | invoice/xml.go:367-385 | the printed line, exclusive, inclusive and payable amounts |
| Amounts.TaxGroups | invoice/xml.go:343-365 | one group for each key text, in the order of first lines, with the category and percent of its first line and the rounded sums of its lines |
| Amounts.SameKey | invoice/xml.go:347-348 | two lines share a group if and only if category and sign join to the same text and the printed hundredths are the same |
| Amounts.BuildLines | processor/bill.go:436-460 | the lines of a bill in order, numbered from one, with unit code, name and amounts and the defaults for missing columns |
| Amounts.VerifyLines | processor/bill.go:298-308 | accepts exactly bills with lines, positive quantities and prices that are not negative |
| Amounts.TotalsAgree | invoice/xml.go:301-385 | for verified bills without negative percents: group sums are the document totals, taxable and total amounts are the printed ones, inclusive is exclusive plus tax, and line gross amounts sum to the payable amount (BR-CO-10, 13, 14 and 15 of EN 16931-1) |
| Amounts.GroupTaxIsNear | invoice/xml.go:343-365 | for percents in whole hundredths each group's tax is within 0.005 per line of taxable times percent |
| Amounts.LinesAddUp | invoice/invoice.go:144-160 | for every verified bill, whatever its percents: group taxes sum to the document tax if and only if as many tax groups are negative as the tax sum is (one or none), inclusive is exclusive plus tax if and only if the total is not negative, and line gross amounts sum to the payable amount if and only if as many of them are negative as of the tax sum and the total |
| Amounts.TwoRatesMiss | invoice/xml.go:301-365 | a verified bill with lines at 15 and -5 percent has document tax 10.01 and group taxes of 10.02 |
| Amounts.RatesAroundZeroMiss | invoice/xml.go:343-365 | a verified bill at 0.004 and -0.004 percent has two groups, document tax 0.01 and group taxes of 0.02 |
| Amounts.NegativeRateMisses | invoice/xml.go:367-385 | a verified bill at -15 percent has line gross amounts of 85.01 and the payable amount 85.02 |
| Amounts.GroupsIgnoreTheDiscount | invoice/xml.go:343-365 | with a document discount the taxable sum of the groups is the taxable amount if and only if the discount is at most half a hundredth, or nothing is taxed and it is less than one and a half; and the exact condition for the tax sum |
| Signing.WrittenIsClean | invoice/xml.go:442-450 | an element written around an escaped value brings in no markup, whatever the value |
| Signing.EscapedIsRead | invoice/xml.go:442-450 | reading an escaped value gives the value back, whatever it holds |
| Signing.SigningEditsTwoPlaces | crypto/sign.go:252-292 | on every document of clean sections, the text with both injections is the text of the document with the signature element among those of its signature information and, unless a later section holds an id QR, the code in its QR reference |
| Signing.RootIsClean | crypto/sign.go:252-292 | the document with or without a clean signature and code is a clean tree, and its text stands for it |
| Signing.ParsesOnce | crypto/hash.go:49-52 | a text stands for at most one clean tree |
| Digest.Dom.RemoveChildElement | crypto/hash.go:77-98 | removes exactly the first child of the namespace and name |
| Digest.Dom.RemoveQRReference | crypto/hash.go:115-128 | removes exactly the first document reference with an id QR |
| Digest.Dom.StripForHashing | crypto/hash.go:43-65 | the three removals one after the other |
| Digest.SigningKeepsTheDigestInput | crypto/hash.go:43-75 | the text before and after both injections each stand for one clean tree, and what is canonicalized and hashed of the two is the same |
| InvoiceXml.SectionsAreClean | invoice/xml.go:24-124 | for every invoice whose unescaped fields hold no markup, the sections ToXML writes are clean, hold no other QR reference before the QR reference and no binary object behind it, and hold an id QR behind it exactly when a line is numbered or coded QR |
| InvoiceFields.FieldsAreRead | invoice/xml.go:24-434 | whoever parses the text of an invoice, unsigned or signed, finds every field under its names with its attributes: number, identity, dates, counter, previous hash, each party under its own role, the totals, each tax group in one subtotal, each line in one element, and the QR code |
| InvoiceFields.UnwrittenInvoices | invoice/xml.go:126-146 | there is no text exactly for an invoice without number, identity, lines, supplier VAT number or previous hash, or a standard one without a customer VAT number |
| InvoiceFields.ThreeAreStripped | crypto/hash.go:43-65 | of an invoice, signed or not, exactly three sections are not hashed |
| InvoiceXml.SignedInvoice | crypto/sign.go:252-292 | for every text that ToXML writes of an invoice whose unescaped fields hold no markup, signing puts in the signature and, unless a line is numbered or coded QR, the code, and what is hashed of the one tree that the signed text stands for is what was hashed before |
| InvoiceXml.QrLineKeepsTheCodeOut | crypto/sign.go:280-291 | with a line numbered or coded QR the code is not put in |
| InvoiceXml.BilledLinesAreNoQrLines | processor/bill.go:436-460 | for every bill, no line that shows an item of buildLines is numbered or coded QR |

## Left out

- NATS, JetStream, HTTP, SMTP and the SQL driver: only their results appear, as failures, lost replies and redeliveries.
- The database's collation, invalid UTF-8 and the quoting of texts inside error messages.
- The `fatoora` subprocess, signing, hashing and certificate parsing: Build returns any invoice.
- The rest of `verifyBill` (sequence number, seller VAT, EGS id, dates): a bill passes or is refused as an input of `Stream.Prepare`.
- The 208 branch of `rejectionOutcome`: it is modelled, but the client returns no such error for 200-299.
- Onboarding with ZATCA itself: a linear script of external calls; `Lifecycle` keeps only that it succeeds or fails.
- `activeBranches` marks: only read by `spawnBranchWorkers`, which the reconciler never uses.
- The reconcile callback of an operator: `removeTenant` does not wait for it, so `LifecycleSafety.ClosedTenantIsQuiet` is about
  workers and onboardings only.
- The services cached for branches, readiness, alerts and the shutdown order of `stop`.
- The printing of dates and amounts: `InvoiceXml` takes them as texts, `Amounts` has the values and prints the percents of keys.
- `joinReverse`, `oidToName` and the other certificate helpers.
- Topology.Reconciler.Reconcile: with nested names it bounds the workers from both sides but does not fix them, because the order
  in which the map of tenants is walked decides.
- Scheduling: that a party which can move is run in the end is left to the Go runtime; `LifecycleSafety.WaitsEnd` says how many
  steps it takes.
