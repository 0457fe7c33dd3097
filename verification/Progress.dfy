/**
 A guest is never locked out for good: from every reachable state a bounded wait, a fresh
 token and the right gate let an unrevoked ticket with a bound device through.
 */
module Progress {
  import opened Domain
  import opened ShareGuards
  import opened Verification
  import opened Tables
  import opened AtomicRuns
  import opened Ledger
  import opened Verdicts

  /** The scan that asks for the other side with the bound device. */
  ghost predicate RightScan(t: Ticket, p: Presented) {
    && t.publicKey.Some? && t.deviceId == Some(p.device) && p.signer == t.publicKey
    && !WrongSide(t, p.direction)
  }

  /** A token for the ticket's next nonce, generated at most 59 seconds ago. */
  ghost predicate RightToken(t: Ticket, id: TicketId, token: Token, now: int) {
    token.ticketId == id && t.nextNonce == Some(token.nonce) && token.issuedAt <= now <= token.issuedAt + 59_000
  }

  /** The owner can always get one. */
  lemma OwnerGetsRightToken(db: Db, id: TicketId, serial: nat)
    requires Wf(db) && id in db.tickets
    ensures var reply := TokenReplyOf(db, id, db.tickets[id].guestId, serial);
            reply.Issued? && RightToken(db.tickets[id], id, reply.token, db.clock)
  {
    assert RowOk(db.tickets[id]);
  }

  /**
   In a sound database, a right scan with a right token is accepted exactly when no block
   and no replay key stands; nothing else can be in its way.
   */
  lemma OnlyBlocksAndKeysDelay(db: Db, id: TicketId, token: Token, p: Presented)
    requires Wf(db) && id in db.tickets && !db.tickets[id].revoked
    requires RightScan(db.tickets[id], p) && RightToken(db.tickets[id], id, token, db.clock)
    requires !EventOver(db, db.tickets[id], p.direction)
    ensures ScanReplyOf(db, Some(token), p, true) == Scanned(Ok) <==>
              !Blocks(GuardOf(db, id), db.clock) && !KeyTaken(db, id, token.nonce)
  {
    LiveBounds(token, db.clock);
    assert RowOk(db.tickets[id]);
    var op := Op.Scan(Some(token), p, true);
    JudgedByColumns(db, op, id);
    VerdictOkIff(db, token, p);
  }

  lemma WaitClears(db: Db, id: TicketId, nonce: int, ms: nat)
    requires Wf(db) && ms >= 300_000
    ensures var later := Apply(db, Advance(ms));
            !Blocks(GuardOf(later, id), later.clock) && !KeyTaken(later, id, nonce)
  {
    assert id in db.guards ==> GuardOk(db.guards[id], db.clock);
    assert (id, nonce) in db.keys ==> db.keys[(id, nonce)] <= db.clock + 120_000;
  }

  lemma AcceptedMoves(db: Db, token: Token, p: Presented)
    requires ScanReplyOf(db, Some(token), p, true) == Scanned(Ok)
    ensures token.ticketId in AfterScan(db, Some(token), p, true).tickets
    ensures AfterScan(db, Some(token), p, true).tickets[token.ticketId].presence == IntendedState(p.direction)
  {
    VerdictOkIff(db, token, p);
  }

  /**
   Five minutes are always enough: from every reachable state, after at least that, the right
   scan of an unrevoked ticket is let through with any token for its next nonce that is not
   older than 59 seconds, and its owner can get such a token on the spot.
   */
  lemma ProgressLaw(now: int, ops: seq<Op>, id: TicketId, ms: nat, token: Token, p: Presented, serial: nat)
    requires ms >= 300_000
    requires var later := Apply(Run(EmptyDb(now), ops), Advance(ms));
             && id in later.tickets && !later.tickets[id].revoked
             && RightScan(later.tickets[id], p) && RightToken(later.tickets[id], id, token, later.clock)
             && !EventOver(later, later.tickets[id], p.direction)
    ensures var later := Apply(Run(EmptyDb(now), ops), Advance(ms));
            var reply := TokenReplyOf(later, id, later.tickets[id].guestId, serial);
            && reply.Issued? && RightToken(later.tickets[id], id, reply.token, later.clock)
            && ScanReplyOf(later, Some(token), p, true) == Scanned(Ok)
            && id in AfterScan(later, Some(token), p, true).tickets
            && AfterScan(later, Some(token), p, true).tickets[id].presence ==
               (if p.direction == Entry then Inside else Outside)
  {
    var db := Run(EmptyDb(now), ops);
    Reachable(now, ops);
    WfKept(db, Advance(ms));
    var later := Apply(db, Advance(ms));
    OwnerGetsRightToken(later, id, serial);
    WaitClears(db, id, token.nonce, ms);
    OnlyBlocksAndKeysDelay(later, id, token, p);
    AcceptedMoves(later, token, p);
  }
}
