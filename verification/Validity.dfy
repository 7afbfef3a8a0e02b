/** Which envelopes, reconcile requests and tenants are refused (queue/message.go, queue/reconcile.go,
    tenant/tenant.go), in terms of their characters. */
module Validity {
  import opened Text
  import opened Tables
  import opened Messages
  import Operator
  import Registry

  /** A text that is too long, has nothing in it, has white space at an end, or holds a control character. */
  predicate BadText(s: string, limit: nat) {
    || |s| > limit || s == "" || IsSpace(s[0]) || IsSpace(s[|s| - 1])
    || exists i | 0 <= i < |s| :: (s[i] as int < 32 || s[i] as int == 127)
  }

  /** A bad text, or one that cannot stand in a subject. */
  predicate BadName(s: string, limit: nat) {
    BadText(s, limit) || '*' in s || '>' in s || '.' in s
  }

  ghost predicate BadEnvelope(msg: Message) {
    || msg.docType != "bill" || msg.id <= 0 || msg.branchID <= 0
    || BadName(msg.dbName, 64) || BadName(msg.tenantKey, 64)
    || BadText(msg.posID, 64) || BadText(msg.billRequestID, 36) || BadText(msg.eventID, 128)
    || msg.egsSequenceID != Decimal(msg.branchID)
    || !IsUUID(msg.invoiceUUID)
    || |msg.fingerprint| != 64 || exists i | 0 <= i < |msg.fingerprint| :: !IsHex(msg.fingerprint[i])
  }

  lemma GoodText(s: string, limit: nat)
    ensures ValidOpaqueText(s, limit) <==> !BadText(s, limit)
  {
    if s != "" && !IsSpace(s[0]) { assert !Blank(s); }
  }

  lemma GoodEnvelope(msg: Message)
    ensures msg.Valid() <==> !BadEnvelope(msg)
  {
    GoodText(msg.dbName, 64);
    GoodText(msg.tenantKey, 64);
    GoodText(msg.posID, 64);
    GoodText(msg.billRequestID, 36);
    GoodText(msg.eventID, 128);
    hide ValidOpaqueText, BadText, IsUUID, IsHex, Decimal;
  }

  // ---------------------------------------------------------------- reconcile requests

  /** A text of evidence is too long or holds a control character. It may be empty. */
  predicate BadEvidence(s: string, limit: nat) {
    |s| > limit || exists i | 0 <= i < |s| :: (s[i] as int < 32 || s[i] as int == 127)
  }

  predicate IsDigest(s: string) {
    |s| == 64 && forall i | 0 <= i < |s| :: ('0' <= s[i] <= '9' || 'a' <= s[i] <= 'f' || 'A' <= s[i] <= 'F')
  }

  /** A record names one of the three answers of ZATCA, the hash of the invoice and the id of its evidence. */
  ghost predicate BadRecord(req: Operator.Request) {
    || req.state !in {"accepted", "accepted_with_warning", "rejected"}
    || !IsDigest(req.invoiceHash)
    || (forall i | 0 <= i < |req.evidenceID| :: IsSpace(req.evidenceID[i])) || BadEvidence(req.evidenceID, 256)
    || BadEvidence(req.providerCode, 64) || BadEvidence(req.message, 1024)
  }

  ghost predicate BadRequest(req: Operator.Request) {
    || BadName(req.tenantKey, 64) || BadName(req.dbName, 64) || req.branchID <= 0 || req.billID <= 0
    || (req.invoiceUUID != "" && !IsUUID(req.invoiceUUID)) || (req.invoiceHash != "" && !IsDigest(req.invoiceHash))
    || (req.action.Record? && BadRecord(req))
  }

  lemma GoodRequest(req: Operator.Request)
    ensures req.Valid() <==> !BadRequest(req)
  {
    GoodText(req.tenantKey, 64);
    GoodText(req.dbName, 64);
    GoodEvidence(req.evidenceID, 256);
    GoodEvidence(req.providerCode, 64);
    GoodEvidence(req.message, 1024);
    GoodDigest(req.invoiceHash);
    DigestIsNotBlank(req.invoiceHash);
    hide ValidOpaqueText, BadText, ValidEvidenceText, BadEvidence, IsUUID, ValidFingerprint, IsDigest;
  }

  lemma GoodEvidence(s: string, limit: nat)
    ensures ValidEvidenceText(s, limit) <==> !BadEvidence(s, limit)
  {
  }

  lemma GoodDigest(s: string)
    ensures ValidFingerprint(s) <==> IsDigest(s)
  {
  }

  lemma DigestIsNotBlank(s: string)
    ensures IsDigest(s) ==> s != "" && !Blank(s)
  {
    if IsDigest(s) { assert !IsSpace(s[0]); }
  }

  // ---------------------------------------------------------------- tenants

  ghost predicate BadTenant(t: Registry.Tenant) {
    BadName(t.tenantKey, 64) || BadName(t.dbName, 64) || t.env !in {"", "sandbox", "simulation", "production"}
  }

  lemma GoodTenant(t: Registry.Tenant)
    ensures t.Valid() <==> !BadTenant(t)
  {
    GoodText(t.tenantKey, 64);
    GoodText(t.dbName, 64);
    hide ValidOpaqueText, BadText;
  }
}
