/** How long a booking and a claim keep others out. Chain safety does not depend on it. */
module Leases {
  import opened Text
  import opened Messages
  import opened Tables
  import opened Operations
  import opened ChainSafety
  import Chain
  import Claims

  /** While the lease of a booking runs, no other delivery of the branch books; from its end on any other does, and gets
      the same number and previous hash. */
  lemma BookingLasts(cfg: Config, db: Db, a: Message, b: Message, now: int, later: int)
    requires Sound(db) && Chain.Book(cfg, db, a, now, Clean).0.Ok? && db.branches[a.branchID].lastICV < MAX_INT64
    requires b.branchID == a.branchID && (b.RequestKey() != a.RequestKey() || b.eventID != a.eventID)
    ensures var (mine, booked) := Chain.Book(cfg, db, a, now, Clean);
      var theirs := Chain.Book(cfg, booked, b, later, Clean).0;
      if later < now + cfg.ChainLease() then theirs == Err({ChainBusy})
      else theirs.Ok? && theirs.value.icv == mine.value.icv && theirs.value.pih == mine.value.pih
  {
    hide SubmissionShape, BillShape, LogShape;
    assert ReservationShape(db.branches[a.branchID]);
  }

  /** While the lease of a claim runs, every other delivery of the request is told that it is in flight; from its end on
      a delivery of the same content takes it over, unless its event belongs to another request. */
  lemma ClaimLasts(cfg: Config, db: Db, a: Message, b: Message, now: int, later: int)
    requires a.Valid() && b.Valid() && KeyOf(b) == KeyOf(a) && b.fingerprint == a.fingerprint
    requires Claims.Claim(cfg, db, a, now, Clean).0 == Reply.Ok(Claims.Process)
    ensures var claimed := Claims.Claim(cfg, db, a, now, Clean).1;
      var theirs := Claims.Claim(cfg, claimed, b, later, Clean).0;
      if later < now + cfg.ClaimLease() then theirs == Reply.Ok(Claims.InFlight)
      else if Claims.EventTaken(claimed, b) then theirs == Err({Technical})
      else theirs == Reply.Ok(Claims.Process)
  {
    hide Message.Valid, Claims.EventTaken;
  }
}
