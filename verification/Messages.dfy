/** The document envelope of the backend (queue/message.go). */
module Messages {
  import opened Text

  datatype Message = Message(
    docType: string,
    id: int,
    branchID: int,
    dbName: string,
    tenantKey: string,
    posID: string,
    billRequestID: string,
    eventID: string,
    egsSequenceID: string,
    invoiceUUID: string,
    fingerprint: string)
  {
    /** Whether Validate returns no error. */
    predicate Valid() {
      && docType == "bill"
      && id > 0
      && branchID > 0
      && ValidIdentityText(dbName, 64)
      && ValidIdentityText(tenantKey, 64)
      && ValidOpaqueText(posID, 64)
      && ValidOpaqueText(billRequestID, 36)
      && ValidOpaqueText(eventID, 128)
      && egsSequenceID == Decimal(branchID)
      && IsUUID(invoiceUUID)
      && ValidFingerprint(fingerprint)
    }

    function RequestKey(): string {
      posID + [NUL] + billRequestID
    }

    function PartitionKey(): string {
      tenantKey + [NUL] + egsSequenceID
    }
  }

  lemma NoNul(s: string, limit: nat)
    requires ValidOpaqueText(s, limit)
    ensures NUL !in s
  {
    assert IsControl(NUL);
  }

  /** A request key names one (POS, request) pair, because NUL is refused in both parts. */
  lemma RequestKeyIdentifies(a: Message, b: Message)
    requires a.Valid() && b.Valid()
    ensures a.RequestKey() == b.RequestKey() <==> a.posID == b.posID && a.billRequestID == b.billRequestID
  {
    NoNul(a.posID, 64);
    NoNul(b.posID, 64);
    if a.RequestKey() == b.RequestKey() {
      JoinSplitsOnce(a.posID, a.billRequestID, b.posID, b.billRequestID, NUL);
    }
  }

  /** A partition is exactly one branch of one tenant. */
  lemma PartitionKeyIdentifies(a: Message, b: Message)
    requires a.Valid() && b.Valid()
    ensures a.PartitionKey() == b.PartitionKey() <==> a.tenantKey == b.tenantKey && a.branchID == b.branchID
  {
    NoNul(a.tenantKey, 64);
    NoNul(b.tenantKey, 64);
    if a.PartitionKey() == b.PartitionKey() {
      JoinSplitsOnce(a.tenantKey, a.egsSequenceID, b.tenantKey, b.egsSequenceID, NUL);
      DecimalIsInjective(a.branchID, b.branchID);
    }
  }
}
