/**
 The share guard with scans served one at a time: when it revokes, and how much time its
 blocks put between the failures it counts.
 */
module GuardTimeline {
  import opened Domain
  import opened ShareGuards
  import opened Verification
  import opened Tables
  import opened AtomicRuns
  import opened Ledger
  import opened Verdicts

  /** The verdict of the cascade if this operation is a scan of this ticket that reaches it. */
  ghost function JudgementOf(db: Db, op: Op, id: TicketId): Option<Judgement> {
    if op.Scan? && Reaches(db, op.token) && op.token.value.ticketId == id
        then Some(JudgeScan(db, op.token.value, op.p)) else None
  }

  /** Times of the offences against a ticket since a scan of it last passed. */
  ghost function Failures(db: Db, ops: seq<Op>, id: TicketId): seq<int> {
    if ops == [] then []
    else
      var n := |ops| - 1;
      var before := Run(db, ops[..n]);
      var earlier := Failures(db, ops[..n], id);
      if Offends(before, ops[n], id) then earlier + [before.clock]
      else if Passes(before, ops[n], id) then []
      else earlier
  }

  lemma Classified(db: Db, op: Op, id: TicketId)
    ensures Offends(db, op, id) <==> JudgementOf(db, op, id).Some? && JudgementOf(db, op, id).value.Faulted?
    ensures Passes(db, op, id) <==> JudgementOf(db, op, id).Some? && JudgementOf(db, op, id).value.Accepted?
  {
    if Examines(db, op, id) {
      JudgedByColumns(db, op, id);
    }
  }

  /**
   The failure times of a ticket explain its guard. From failure number `mild` + 1 on, each
   failure blocks, so the next one is at least a block later; the tenth has revoked the ticket.
   */
  ghost predicate Explains(fails: seq<int>, t: Ticket, guard: Option<Guard>, now: int, mild: nat) {
    && |fails| <= 10
    && (forall i :: 0 <= i < |fails| ==> fails[i] <= now)
    && (forall i :: mild <= i < |fails| - 1 ==> fails[i + 1] >= fails[i] + 300_000)
    && (forall i :: 0 <= i < |fails| - 1 ==> fails[i] <= fails[i + 1])
    && (|fails| < 10 ==> Upserted(guard).failCount == |fails|)
    && (|fails| == 10 ==> t.revoked)
    && (mild < |fails| < 10 ==>
        guard.Some? && guard.value.blockedUntil == Some(fails[|fails| - 1] + 300_000))
  }

  /** Every fault counted for the ticket in this run blocks at once. */
  ghost predicate NoMildFault(db: Db, ops: seq<Op>, id: TicketId) {
    forall n :: 0 <= n < |ops| ==>
      JudgementOf(Run(db, ops[..n]), ops[n], id) != Some(Faulted(InvalidNonce, CalculateRisk(NONCE_RISK)))
  }

  lemma FaultExplained(fails: seq<int>, t: Ticket, guard: Option<Guard>, now: int, mild: nat, risk: Risk)
    requires Explains(fails, t, guard, now, mild) && !t.revoked && !BlockedAt(guard, now)
    requires IsScanRisk(risk) && (mild >= 2 || risk.shouldBlock)
    ensures |fails| < 10
    ensures Revokes(Upserted(guard).failCount, risk) <==> |fails| == 9
    ensures var revokes, g := Revokes(Upserted(guard).failCount, risk), Upserted(guard);
            Explains(fails + [now], if revokes then AutoRevoked(t, now) else t,
                     Some(if revokes then g else Recorded(g, g.failCount, risk, now)), now, mild)
  {
    var more := fails + [now];
    assert forall i :: mild <= i < |more| - 1 ==> more[i + 1] >= more[i] + 300_000;
  }

  /** Tickets of an operation that is not a scan of theirs: never un-revoked, and the guard is left alone. */
  lemma OthersLeaveGuard(db: Db, op: Op, id: TicketId)
    requires id in db.tickets && id in Apply(db, op).tickets && id != db.serial
    requires JudgementOf(db, op, id).None?
    ensures GuardOf(Apply(db, op), id) == GuardOf(db, id)
    ensures db.tickets[id].revoked ==> Apply(db, op).tickets[id].revoked
    ensures db.clock <= Apply(db, op).clock
  {
    if op.Scan? {
      if Reaches(db, op.token) {
        OtherScanGuard(db, op.token.value, op.p, op.permitted, id);
      }
    } else if op.Activate? {
      assert GuardOf(Apply(db, op), id) == GuardOf(db, id);
    }
  }

  lemma OtherScanGuard(db: Db, token: Token, p: Presented, permitted: bool, id: TicketId)
    requires Reaches(db, Some(token)) && id in db.tickets && id != token.ticketId
    ensures var after := AfterScan(db, Some(token), p, permitted);
            GuardOf(after, id) == GuardOf(db, id) && id in after.tickets && after.tickets[id] == db.tickets[id]
                && after.clock == db.clock
  {
    ScanRow(db, token, p, permitted);
  }

  lemma ScanGuard(db: Db, op: Op, id: TicketId)
    requires JudgementOf(db, op, id).Some?
    ensures var j := JudgementOf(db, op, id).value;
            && Apply(db, op).clock == db.clock && id in Apply(db, op).tickets
            && (j.Turned? ==>
                GuardOf(Apply(db, op), id) == GuardOf(db, id) && Apply(db, op).tickets[id] == db.tickets[id])
            && (j.Accepted? ==> Upserted(GuardOf(Apply(db, op), id)).failCount == 0)
            && (j.Faulted? ==>
                  var revokes, g := Revokes(Upserted(GuardOf(db, id)).failCount, j.risk), Upserted(GuardOf(db, id));
                  && Apply(db, op).tickets[id] ==
                      (if revokes then AutoRevoked(db.tickets[id], db.clock) else db.tickets[id])
                  && GuardOf(Apply(db, op), id) ==
                      Some(if revokes then g else Recorded(g, g.failCount, j.risk, db.clock)))
  {
    ScanRow(db, op.token.value, op.p, op.permitted);
  }

  /** A fault is judged only on an unrevoked ticket nobody blocks, and names a single fault. */
  lemma FaultsAreScanRisks(db: Db, op: Op, id: TicketId)
    requires JudgementOf(db, op, id).Some? && JudgementOf(db, op, id).value.Faulted?
    ensures IsScanRisk(JudgementOf(db, op, id).value.risk)
    ensures !db.tickets[id].revoked && !BlockedAt(GuardOf(db, id), db.clock)
    ensures !JudgementOf(db, op, id).value.risk.shouldBlock ==>
              JudgementOf(db, op, id).value == Faulted(InvalidNonce, CalculateRisk(NONCE_RISK))
  {
  }

  lemma TimelineStep(db: Db, op: Op, id: TicketId, fails: seq<int>, mild: nat)
    requires id in db.tickets && id in Apply(db, op).tickets && id != db.serial
    requires Explains(fails, db.tickets[id], GuardOf(db, id), db.clock, mild)
    requires mild >= 2 || JudgementOf(db, op, id) != Some(Faulted(InvalidNonce, CalculateRisk(NONCE_RISK)))
    ensures var fails' := if Offends(db, op, id) then fails + [db.clock]
                          else if Passes(db, op, id) then []
                          else fails;
            Explains(fails', Apply(db, op).tickets[id], GuardOf(Apply(db, op), id), Apply(db, op).clock, mild)
  {
    Classified(db, op, id);
    match JudgementOf(db, op, id)
    case None => OthersLeaveGuard(db, op, id);
    case Some(Turned(_)) => ScanGuard(db, op, id);
    case Some(Accepted) => ScanGuard(db, op, id);
    case Some(Faulted(_, risk)) =>
      ScanGuard(db, op, id);
      FaultsAreScanRisks(db, op, id);
      FaultExplained(fails, db.tickets[id], GuardOf(db, id), db.clock, mild, risk);
  }

  lemma SerialGrows(db: Db, op: Op)
    ensures db.serial <= Apply(db, op).serial
  {
  }

  lemma {:induction false} NoFailuresBeforeCreation(now: int, ops: seq<Op>, id: TicketId)
    requires Run(EmptyDb(now), ops).serial <= id
    ensures Failures(EmptyDb(now), ops, id) == []
  {
    if ops == [] {
    } else {
      var n := |ops| - 1;
      var before := Run(EmptyDb(now), ops[..n]);
      SerialGrows(before, ops[n]);
      Reachable(now, ops[..n]);
      NoFailuresBeforeCreation(now, ops[..n], id);
    }
  }

  lemma NoMildFaultBefore(db: Db, ops: seq<Op>, id: TicketId)
    requires ops != [] && NoMildFault(db, ops, id)
    ensures NoMildFault(db, ops[..|ops| - 1], id)
    ensures JudgementOf(Run(db, ops[..|ops| - 1]), ops[|ops| - 1], id) !=
            Some(Faulted(InvalidNonce, CalculateRisk(NONCE_RISK)))
  {
    var front := ops[..|ops| - 1];
    assert forall i :: 0 <= i < |front| ==> front[..i] == ops[..i] && front[i] == ops[i];
  }

  lemma {:induction false} Timeline(now: int, ops: seq<Op>, id: TicketId, mild: nat)
    requires id in Run(EmptyDb(now), ops).tickets
    requires mild >= 2 || NoMildFault(EmptyDb(now), ops, id)
    ensures var db := Run(EmptyDb(now), ops);
            Explains(Failures(EmptyDb(now), ops, id), db.tickets[id], GuardOf(db, id), db.clock, mild)
  {
    if ops == [] {
    } else {
      var n := |ops| - 1;
      var front, before := ops[..n], Run(EmptyDb(now), ops[..n]);
      if NoMildFault(EmptyDb(now), ops, id) {
        NoMildFaultBefore(EmptyDb(now), ops, id);
      }
      Reachable(now, front);
      if id in before.tickets {
        Timeline(now, front, id, mild);
        TimelineStep(before, ops[n], id, Failures(EmptyDb(now), front, id), mild);
      } else {
        OnlyCreationAdds(before, ops[n], id);
        NoFailuresBeforeCreation(now, front, id);
      }
    }
  }

  /** Failures of the run once one more operation has been served. */
  lemma FailuresMore(db: Db, ops: seq<Op>, op: Op, id: TicketId)
    requires Offends(Run(db, ops), op, id)
    ensures Failures(db, ops + [op], id) == Failures(db, ops, id) + [Run(db, ops).clock]
  {
    assert (ops + [op])[..|ops|] == ops;
  }

  /** One scan of an unrevoked ticket whose failures so far explain its guard. */
  lemma RevokedAtTenth(db: Db, op: Op, id: TicketId, fails: seq<int>)
    requires op.Scan? && id in db.tickets && !db.tickets[id].revoked
    requires Explains(fails, db.tickets[id], GuardOf(db, id), db.clock, 2)
    ensures id in Apply(db, op).tickets
    ensures Apply(db, op).tickets[id].revoked <==>
              Offends(db, op, id) && |fails| == 9
    ensures Apply(db, op).tickets[id].revoked ==> db.clock - fails[2] >= 7 * 300_000
  {
    Classified(db, op, id);
    if Reaches(db, op.token) {
      ScanRow(db, op.token.value, op.p, op.permitted);
    }
    if Offends(db, op, id) {
      FaultsAreScanRisks(db, op, id);
      FaultExplained(fails, db.tickets[id], GuardOf(db, id), db.clock, 2, JudgementOf(db, op, id).value.risk);
      if |fails| == 9 {
        Spread(fails + [db.clock], 2);
      }
    }
  }

  /**
   A scan revokes an unrevoked ticket exactly when it is the tenth failure counted since the
   last reset, and then at least seven blocks have passed since the third.
   */
  lemma TenthFailureLaw(now: int, ops: seq<Op>, op: Op, id: TicketId)
    requires op.Scan? && id in Run(EmptyDb(now), ops).tickets && !Run(EmptyDb(now), ops).tickets[id].revoked
    ensures var db, fails := Run(EmptyDb(now), ops), Failures(EmptyDb(now), ops + [op], id);
            && id in Apply(db, op).tickets
            && (Apply(db, op).tickets[id].revoked <==>
                  Offends(db, op, id) && |fails| == 10)
            && (Apply(db, op).tickets[id].revoked ==> fails[9] - fails[2] >= 7 * 300_000)
  {
    var db := Run(EmptyDb(now), ops);
    Timeline(now, ops, id, 2);
    RevokedAtTenth(db, op, id, Failures(EmptyDb(now), ops, id));
    if Offends(db, op, id) {
      FailuresMore(EmptyDb(now), ops, op, id);
    }
  }

  /** Consecutive gaps add up. */
  lemma {:induction false} Spread(fails: seq<int>, mild: nat)
    requires mild < |fails|
    requires forall i :: mild <= i < |fails| - 1 ==> fails[i + 1] >= fails[i] + 300_000
    ensures fails[|fails| - 1] - fails[mild] >= (|fails| - 1 - mild) * 300_000
  {
    if |fails| - 1 == mild {
    } else {
      Spread(fails[..|fails| - 1], mild);
    }
  }

  // ---- runs that present only issued tokens ----

  ghost function TokensIssued(db: Db, ops: seq<Op>): set<Token> {
    if ops == [] then {}
    else
      var n := |ops| - 1;
      var before := Run(db, ops[..n]);
      TokensIssued(db, ops[..n])
      + (if ops[n].Generate? && TokenReplyOf(before, ops[n].id, ops[n].actor, ops[n].tokenSerial).Issued?
         then {TokenReplyOf(before, ops[n].id, ops[n].actor, ops[n].tokenSerial).token} else {})
  }

  /** Every token that a scan presents was issued earlier in the run. */
  ghost predicate Genuine(db: Db, ops: seq<Op>) {
    forall n :: 0 <= n < |ops| && ops[n].Scan? && ops[n].token.Some? ==>
        ops[n].token.value in TokensIssued(db, ops[..n])
  }

  lemma NonceNeverFalls(db: Db, op: Op, id: TicketId)
    requires id in db.tickets && id < db.serial && RowOk(db.tickets[id]) && id in Apply(db, op).tickets
    ensures Apply(db, op).tickets[id].nextNonce.Some?
        && db.tickets[id].nextNonce.value <= Apply(db, op).tickets[id].nextNonce.value
  {
    if !op.Delete? {
      MovesOrStays(db, op, id);
    }
  }

  /** The token's nonce is not beyond the next one of its ticket, and its ticket's number is taken. */
  ghost predicate NotAhead(db: Db, token: Token) {
    && 1 <= token.nonce && token.ticketId < db.serial
    && (token.ticketId in db.tickets ==>
          db.tickets[token.ticketId].nextNonce.Some? && token.nonce <= db.tickets[token.ticketId].nextNonce.value)
  }

  lemma NotAheadKept(db: Db, op: Op, token: Token)
    requires NotAhead(db, token)
    requires token.ticketId in db.tickets ==> RowOk(db.tickets[token.ticketId])
    ensures NotAhead(Apply(db, op), token)
  {
    assert db.serial <= Apply(db, op).serial;
    if token.ticketId in Apply(db, op).tickets {
      if token.ticketId in db.tickets {
        NonceNeverFalls(db, op, token.ticketId);
      } else {
        OnlyCreationAdds(db, op, token.ticketId);
      }
    }
  }

  lemma {:induction false} IssuedNotAhead(now: int, ops: seq<Op>, token: Token)
    requires token in TokensIssued(EmptyDb(now), ops)
    ensures NotAhead(Run(EmptyDb(now), ops), token)
  {
    var n := |ops| - 1;
    var before := Run(EmptyDb(now), ops[..n]);
    if token.ticketId in before.tickets {
      ReachableRow(now, ops[..n], token.ticketId);
    }
    if token in TokensIssued(EmptyDb(now), ops[..n]) {
      IssuedNotAhead(now, ops[..n], token);
      NotAheadKept(before, ops[n], token);
    }
  }

  /** A token that is not ahead is never judged to carry a wrong nonce: an older one is a replay. */
  lemma NotAheadNeverMild(db: Db, op: Op, id: TicketId)
    requires JudgementOf(db, op, id).Some? && NotAhead(db, op.token.value) && RowOk(db.tickets[id])
    ensures JudgementOf(db, op, id) != Some(Faulted(InvalidNonce, CalculateRisk(NONCE_RISK)))
  {
  }

  lemma GenuineIsNeverMild(now: int, ops: seq<Op>, id: TicketId)
    requires Genuine(EmptyDb(now), ops)
    ensures NoMildFault(EmptyDb(now), ops, id)
  {
    forall n | 0 <= n < |ops|
      ensures JudgementOf(Run(EmptyDb(now), ops[..n]), ops[n], id) !=
          Some(Faulted(InvalidNonce, CalculateRisk(NONCE_RISK)))
    {
      if JudgementOf(Run(EmptyDb(now), ops[..n]), ops[n], id).Some? {
        ReachableRow(now, ops[..n], id);
        IssuedNotAhead(now, ops[..n], ops[n].token.value);
        NotAheadNeverMild(Run(EmptyDb(now), ops[..n]), ops[n], id);
      }
    }
  }

  /**
   When only issued tokens are presented, every counted failure blocks, so the guard cannot
   revoke a ticket within nine blocks of the first failure it counts.
   */
  lemma GenuineRevocationLaw(now: int, ops: seq<Op>, op: Op, id: TicketId)
    requires Genuine(EmptyDb(now), ops + [op])
    requires op.Scan? && id in Run(EmptyDb(now), ops).tickets && !Run(EmptyDb(now), ops).tickets[id].revoked
    requires id in Apply(Run(EmptyDb(now), ops), op).tickets && Apply(Run(EmptyDb(now), ops), op).tickets[id].revoked
    ensures var fails := Failures(EmptyDb(now), ops + [op], id);
            |fails| == 10 && fails[9] - fails[0] >= 9 * 300_000
  {
    TenthFailureLaw(now, ops, op, id);
    assert (ops + [op])[..|ops|] == ops;
    assert Run(EmptyDb(now), ops + [op]) == Apply(Run(EmptyDb(now), ops), op);
    GenuineIsNeverMild(now, ops + [op], id);
    Timeline(now, ops + [op], id, 0);
    Spread(Failures(EmptyDb(now), ops + [op], id), 0);
  }
}
