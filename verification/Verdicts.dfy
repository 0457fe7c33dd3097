/**
 What the verification cascade answers and what it counts, stated on the columns it reads:
 the exact case of every verdict, of every counted failure and of every admission.
 */
module Verdicts {
  import opened Domain
  import opened ShareGuards
  import opened Verification
  import opened Tables
  import opened AtomicRuns

  // ---- conditions on columns ----

  ghost predicate Blocks(guard: Option<Guard>, now: int) {
    guard.Some? && guard.value.blockedUntil.Some? && now < guard.value.blockedUntil.value
  }

  /** Nothing known of the ticket before its scan's device, signature and nonce are looked at speaks against it. */
  ghost predicate Usable(t: Ticket, guard: Option<Guard>, now: int) {
    !t.revoked && !Blocks(guard, now) && t.publicKey.Some?
  }

  ghost predicate Signed(t: Ticket, p: Presented) {
    t.publicKey.Some? && p.signer.Some? && p.signer.value == t.publicKey.value
  }

  ghost predicate OnBoundDevice(t: Ticket, p: Presented) {
    t.deviceId.Some? && t.deviceId.value == p.device
  }

  ghost predicate Used(t: Ticket, nonce: int) {
    t.lastNonce.Some? && nonce <= t.lastNonce.value
  }

  ghost predicate Due(t: Ticket, nonce: int) {
    t.nextNonce.Some? && t.nextNonce.value == nonce
  }

  /** The scan comes from the bound device, signed by its key, with the very next nonce. */
  ghost predicate Proven(t: Ticket, nonce: int, p: Presented) {
    Signed(t, p) && OnBoundDevice(t, p) && !Used(t, nonce) && Due(t, nonce)
  }

  /** The guest stands on the side the scan leads to. */
  ghost predicate WrongSide(t: Ticket, direction: Direction) {
    (direction == Entry && t.presence == Inside) || (direction == Exit && t.presence == Outside)
  }

  ghost predicate Late(direction: Direction, endsAt: Option<int>, now: int) {
    direction == Entry && endsAt.Some? && endsAt.value < now
  }

  // ---- the verdicts ----

  /** Scans turned away uncounted: revoked, blocked, unbound, on the wrong side, or after the event. */
  lemma TurnedIff(t: Ticket, guard: Option<Guard>, keyHeld: bool, nonce: int, p: Presented,
      endsAt: Option<int>, now: int)
    ensures var j := Judge(t, guard, keyHeld, nonce, p, endsAt, now);
            var allowed := Usable(t, guard, now) && Proven(t, nonce, p);
            && (j == Turned(Revoked) <==> t.revoked)
            && (j == Turned(Blocked) <==> !t.revoked && Blocks(guard, now))
            && (j == Turned(DeviceMismatch) <==> !t.revoked && !Blocks(guard, now) && t.publicKey.None?)
            && (j == Turned(AlreadyInside) <==> allowed && p.direction == Entry && t.presence == Inside)
            && (j == Turned(NotInside) <==> allowed && p.direction == Exit && t.presence == Outside)
            && (j == Turned(ExpiredEvent) <==>
                  allowed && !WrongSide(t, p.direction) && Late(p.direction, endsAt, now))
            && (j.Turned? ==>
                  j.verdict in {Revoked, Blocked, DeviceMismatch, AlreadyInside, NotInside, ExpiredEvent})
  {
  }

  /**
   Scans counted as failures: each fault has its own verdict, score and reason, and only a wrong
   nonce does not block.
   */
  lemma FaultedIff(t: Ticket, guard: Option<Guard>, keyHeld: bool, nonce: int, p: Presented,
      endsAt: Option<int>, now: int)
    ensures var j := Judge(t, guard, keyHeld, nonce, p, endsAt, now);
            var usable := Usable(t, guard, now);
            && (j == Faulted(DeviceMismatch, Risk(5, true, false, InvalidSignature)) <==> usable && !Signed(t, p))
            && (j == Faulted(DeviceMismatch, Risk(4, true, false, WrongDevice)) <==>
                  usable && Signed(t, p) && !OnBoundDevice(t, p))
            && (j == Faulted(Replay, Risk(3, true, false, ReplayAttack)) <==>
                  && usable && Signed(t, p) && OnBoundDevice(t, p)
                  && (|| Used(t, nonce)
                      || (Due(t, nonce) && !WrongSide(t, p.direction) && !Late(p.direction, endsAt, now) && keyHeld)))
            && (j == Faulted(InvalidNonce, Risk(2, false, false, WrongNonce)) <==>
                  usable && Signed(t, p) && OnBoundDevice(t, p) && !Used(t, nonce) && !Due(t, nonce))
            && (j.Faulted? ==> j.risk in {Risk(5, true, false, InvalidSignature), Risk(4, true, false, WrongDevice),
                                          Risk(3, true, false, ReplayAttack), Risk(2, false, false, WrongNonce)})
            && (j.Faulted? && j.verdict == DeviceMismatch ==> j.risk.score in {5, 4})
  {
  }

  // ---- scans of a run ----

  /** The operation is a scan of this ticket whose token verifies; the ticket exists. */
  ghost predicate Examines(db: Db, op: Op, id: TicketId) {
    && op.Scan? && op.token.Some? && op.token.value.ticketId == id && id in db.tickets
    && Live(op.token.value, db.clock)
  }

  ghost predicate KeyTaken(db: Db, id: TicketId, nonce: int) {
    (id, nonce) in db.keys && db.clock < db.keys[(id, nonce)]
  }

  ghost predicate EventOver(db: Db, t: Ticket, direction: Direction) {
    direction == Entry && t.eventId in db.endsAt && db.endsAt[t.eventId] < db.clock
  }

  /** The scan is one the share guard must count. */
  ghost predicate Offends(db: Db, op: Op, id: TicketId) {
    && Examines(db, op, id)
    && var t, nonce := db.tickets[id], op.token.value.nonce;
       && Usable(t, GuardOf(db, id), db.clock)
       && (|| !Signed(t, op.p) || !OnBoundDevice(t, op.p) || Used(t, nonce) || !Due(t, nonce)
           || (!WrongSide(t, op.p.direction) && !EventOver(db, t, op.p.direction) && KeyTaken(db, id, nonce)))
  }

  /** The scan is one that must be let through. */
  ghost predicate Passes(db: Db, op: Op, id: TicketId) {
    && Examines(db, op, id)
    && var t, nonce := db.tickets[id], op.token.value.nonce;
       && Usable(t, GuardOf(db, id), db.clock) && Proven(t, nonce, op.p)
       && !WrongSide(t, op.p.direction) && !EventOver(db, t, op.p.direction) && !KeyTaken(db, id, nonce)
  }

  /** The fault is grave enough to block by itself: anything but a nonce from the future. */
  ghost predicate Grave(t: Ticket, nonce: int, p: Presented) {
    !Signed(t, p) || !OnBoundDevice(t, p) || Used(t, nonce) || Due(t, nonce)
  }

  /** The judgement of a scan says whether it offends or passes. */
  lemma JudgedByColumns(db: Db, op: Op, id: TicketId)
    requires Examines(db, op, id)
    ensures JudgeScan(db, op.token.value, op.p).Faulted? <==> Offends(db, op, id)
    ensures JudgeScan(db, op.token.value, op.p).Accepted? <==> Passes(db, op, id)
    ensures Offends(db, op, id) ==>
              && !JudgeScan(db, op.token.value, op.p).risk.shouldRevoke
              && (JudgeScan(db, op.token.value, op.p).risk.shouldBlock <==>
                    Grave(db.tickets[id], op.token.value.nonce, op.p))
  {
    var t := db.tickets[id];
    FaultedIff(t, GuardOf(db, id), KeyHeld(db, id, op.token.value.nonce), op.token.value.nonce, op.p,
        EndOf(db, t.eventId), db.clock);
  }

  /** The verdict of a scan, by what it finds first. */
  ghost function VerdictBy(db: Db, t: Ticket, id: TicketId, nonce: int, p: Presented): Verdict {
    if t.revoked then Revoked
    else if Blocks(GuardOf(db, id), db.clock) then Blocked
    else if !Signed(t, p) || !OnBoundDevice(t, p) then DeviceMismatch
    else if Used(t, nonce) then Replay
    else if !Due(t, nonce) then InvalidNonce
    else if WrongSide(t, p.direction) then if p.direction == Entry then AlreadyInside else NotInside
    else if EventOver(db, t, p.direction) then ExpiredEvent
    else if KeyTaken(db, id, nonce) then Replay
    else Ok
  }

  /**
   A scan is answered with that verdict if its token verifies, its ticket exists and the scanner
   is permitted; else it names its error.
   */
  lemma ScanAnswers(db: Db, op: Op)
    requires op.Scan?
    ensures var a, token := ScanReplyOf(db, op.token, op.p, op.permitted), op.token;
            && (a == ScanFailed(TokenInvalid) <==> token.None? || !Live(token.value, db.clock))
            && (a == ScanFailed(TicketNotFound) <==>
                  token.Some? && Live(token.value, db.clock) && token.value.ticketId !in db.tickets)
            && (token.Some? && Examines(db, op, token.value.ticketId) ==>
                  a == if op.permitted
                       then Scanned(VerdictBy(db, db.tickets[token.value.ticketId], token.value.ticketId,
                           token.value.nonce, op.p))
                       else ScanFailed(AccessDenied))
  {
    if op.token.Some? && Examines(db, op, op.token.value.ticketId) {
      var id, nonce := op.token.value.ticketId, op.token.value.nonce;
      var t := db.tickets[id];
      TurnedIff(t, GuardOf(db, id), KeyHeld(db, id, nonce), nonce, op.p, EndOf(db, t.eventId), db.clock);
      FaultedIff(t, GuardOf(db, id), KeyHeld(db, id, nonce), nonce, op.p, EndOf(db, t.eventId), db.clock);
    }
  }

  ghost function FailCount(db: Db, id: TicketId): int {
    if id in db.guards then db.guards[id].failCount else 0
  }

  /**
   A scan that offends is counted, permission or not. Below ten the count goes up by one, the
   time and the reason are noted, and from the third failure on, or at once for a grave
   fault, the ticket is blocked for exactly five minutes. The tenth revokes the ticket.
   */
  lemma OffenceCounts(db: Db, op: Op, id: TicketId)
    requires Offends(db, op, id) && 0 <= FailCount(db, id)
    ensures var n, t, after := FailCount(db, id) + 1, db.tickets[id], Apply(db, op);
            && id in after.guards && id in after.tickets
            && (n < 10 ==>
                  && after.guards[id].failCount == n && after.guards[id].lastFailAt == Some(db.clock)
                  && after.guards[id].reason.Some? && after.tickets[id] == t
                  && after.guards[id].blockedUntil ==
                     (if n >= 3 || Grave(t, op.token.value.nonce, op.p) then Some(db.clock + 300_000)
                      else if id in db.guards then db.guards[id].blockedUntil else None))
            && (n >= 10 ==>
                  && FailCount(after, id) == n - 1
                  && after.tickets[id] ==
                     t.(revoked := true, presence := Outside, revokedAt := Some(db.clock),
                         revokedBy := Some(SYSTEM_ACTOR)))
  {
    JudgedByColumns(db, op, id);
  }

  /** The reason noted names the first thing wrong with the scan. */
  lemma OffenceReason(db: Db, op: Op, id: TicketId)
    requires Offends(db, op, id) && 0 <= FailCount(db, id) < 9
    ensures id in Apply(db, op).guards
    ensures var t, nonce := db.tickets[id], op.token.value.nonce;
            Apply(db, op).guards[id].reason == Some(
              if !Signed(t, op.p) then InvalidSignature
              else if !OnBoundDevice(t, op.p) then WrongDevice
              else if Used(t, nonce) || Due(t, nonce) then ReplayAttack
              else WrongNonce)
  {
    JudgedByColumns(db, op, id);
    var t := db.tickets[id];
    FaultedIff(t, GuardOf(db, id), KeyHeld(db, id, op.token.value.nonce), op.token.value.nonce, op.p,
        EndOf(db, t.eventId), db.clock);
  }

  /** A scan signed by another key is counted, blocks for five minutes, and revokes at the tenth failure. */
  lemma ForgeryCounts(db: Db, op: Op, id: TicketId)
    requires Examines(db, op, id) && Usable(db.tickets[id], GuardOf(db, id), db.clock) && !Signed(db.tickets[id], op.p)
    requires 0 <= FailCount(db, id)
    ensures var after := Apply(db, op);
            && id in after.guards && id in after.tickets
            && (FailCount(db, id) < 9 ==>
                  && after.guards[id].failCount == FailCount(db, id) + 1
                  && after.guards[id].blockedUntil == Some(db.clock + 300_000))
            && (FailCount(db, id) >= 9 ==> after.tickets[id].revoked)
  {
    OffenceCounts(db, op, id);
  }

  /** What a scan that does not offend leaves of the guard: cleared if it passes, else as it was. */
  lemma OthersCountNothing(db: Db, op: Op, id: TicketId)
    requires op.Scan? && id in db.tickets && !Offends(db, op, id)
    ensures id in Apply(db, op).tickets && (id in Apply(db, op).guards <==> id in db.guards)
    ensures id in db.guards ==>
              Apply(db, op).guards[id] ==
              (if Passes(db, op, id) then Guard(0, db.guards[id].lastFailAt, None, None) else db.guards[id])
    ensures Apply(db, op).tickets[id].revoked == db.tickets[id].revoked
  {
    if Examines(db, op, id) {
      JudgedByColumns(db, op, id);
    }
  }

  // ---- the life of a token ----

  /** A token lives through the second it was issued in and 59 more, whatever the moment within that second. */
  lemma LiveIff(token: Token, now: int)
    ensures Live(token, now) <==> now < token.issuedAt - token.issuedAt % 1000 + 60_000
  {
    var issued, current := token.issuedAt / 1000, now / 1000;
    assert token.issuedAt == issued * 1000 + token.issuedAt % 1000 && now == current * 1000 + now % 1000;
  }

  /** So a token no older than 59 seconds is live, and one of a minute is not. */
  lemma LiveBounds(token: Token, now: int)
    ensures now <= token.issuedAt + 59_000 ==> Live(token, now)
    ensures now >= token.issuedAt + 60_000 ==> !Live(token, now)
  {
    LiveIff(token, now);
  }
}
