/** The claim of each request (queue/sql_claim_store.go) as functions on the tables. */
module Claims {
  import opened Text
  import opened Messages
  import opened Tables

  datatype Decision = Process | Duplicate | Conflict | InFlight

  predicate LeaseLive(row: ClaimRow, now: int) {
    row.leaseEnd.Some? && row.leaseEnd.value > now
  }

  function Decide(row: ClaimRow, now: int): Decision {
    if row.completed then Duplicate
    else if LeaseLive(row, now) then InFlight
    else Process
  }

  /** The unique key on event_id: another request already carries this event. */
  predicate EventTaken(db: Db, msg: Message) {
    exists k | k in db.claims :: k != KeyOf(msg) && db.claims[k].eventID == msg.eventID
  }

  function Claim(cfg: Config, db: Db, msg: Message, now: int, fault: Fault): (Reply<Decision>, Db) {
    if !msg.Valid() then (Err({InvalidEnvelope}), db)
    else if fault.Failed? then (Err({Technical}), db)
    else
      var key := KeyOf(msg);
      var lease := Some(now + cfg.ClaimLease());
      var lost := fault.ReplyLost?;
      if key !in db.claims then
        if EventTaken(db, msg) then (if lost then Err({Technical}) else Ok(Conflict), db)
        else (if lost then Err({Technical}) else Ok(Process),
              db.(claims := db.claims[key :=
                ClaimRow(msg.eventID, msg.egsSequenceID, msg.fingerprint, false, lease)]))
      else
        var row := db.claims[key];
        if row.fingerprint != msg.fingerprint then (if lost then Err({Technical}) else Ok(Conflict), db)
        else if Decide(row, now) != Process then (if lost then Err({Technical}) else Ok(Decide(row, now)), db)
        else if EventTaken(db, msg) then (Err({Technical}), db)
        else (if lost then Err({Technical}) else Ok(Process),
              db.(claims := db.claims[key :=
                row.(eventID := msg.eventID, egsSequenceID := msg.egsSequenceID, leaseEnd := lease)]))
  }

  /** The rows the update of Release and Complete addresses: this delivery's claim, still being processed. */
  predicate Owns(db: Db, msg: Message) {
    && KeyOf(msg) in db.claims
    && db.claims[KeyOf(msg)].eventID == msg.eventID
    && db.claims[KeyOf(msg)].fingerprint == msg.fingerprint
    && !db.claims[KeyOf(msg)].completed
  }

  /** The update of Release. The value says whether the driver reports an affected row. */
  function ReleaseUpdate(cfg: Config, db: Db, msg: Message, fault: Fault): (Reply<bool>, Db) {
    if !msg.Valid() then (Err({InvalidEnvelope}), db)
    else if fault.Failed? then (Err({Technical}), db)
    else if !Owns(db, msg) then (if fault.ReplyLost? then Err({Technical}) else Ok(false), db)
    else
      var row := db.claims[KeyOf(msg)];
      (if fault.ReplyLost? then Err({Technical}) else Ok(row.leaseEnd.Some? || !cfg.countsChangedRows),
       db.(claims := db.claims[KeyOf(msg) := row.(leaseEnd := None)]))
  }

  /** The update of Complete. */
  function CompleteUpdate(db: Db, msg: Message, fault: Fault): (Reply<bool>, Db) {
    if !msg.Valid() then (Err({InvalidEnvelope}), db)
    else if fault.Failed? then (Err({Technical}), db)
    else if !Owns(db, msg) then (if fault.ReplyLost? then Err({Technical}) else Ok(false), db)
    else
      var row := db.claims[KeyOf(msg)];
      (if fault.ReplyLost? then Err({Technical}) else Ok(true),
       db.(claims := db.claims[KeyOf(msg) := row.(completed := true, leaseEnd := None)]))
  }

  /** The read that follows an update without an affected row: nothing when the claim is this delivery's and
      completed. */
  function Inspect(db: Db, msg: Message, fault: Fault): Errors {
    if fault.Failed? || fault.ReplyLost? then {Technical}
    else if KeyOf(msg) !in db.claims || db.claims[KeyOf(msg)].fingerprint != msg.fingerprint then {ClaimNotFound}
    else if db.claims[KeyOf(msg)].eventID != msg.eventID then {ClaimStale}
    else if db.claims[KeyOf(msg)].completed then {}
    else {ClaimInFlight}
  }

  /** Complete: its update and, when that reports no row, the read that makes repeating it safe. */
  function Completed(db: Db, msg: Message, fault: Fault, readFault: Fault): (Errors, Db) {
    var (reply, db') := CompleteUpdate(db, msg, fault);
    (match reply
     case Err(e) => e
     case Ok(true) => {}
     case Ok(false) => Inspect(db', msg, readFault), db')
  }

  /** Release: its update and, when that reports no row, the read of the owner. */
  function Released(cfg: Config, db: Db, msg: Message, fault: Fault, readFault: Fault): (Errors, Db) {
    var (reply, db') := ReleaseUpdate(cfg, db, msg, fault);
    (match reply
     case Err(e) => e
     case Ok(true) => {}
     case Ok(false) => Inspect(db', msg, readFault), db')
  }
}
