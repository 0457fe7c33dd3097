/**
 The ledger of atomic runs: for each ticket, the presence column, the OK logs, the
 accepted nonces and the crossing facts in the outbox tell the same story.
 */
module Ledger {
  import opened Domain
  import opened ShareGuards
  import opened Verification
  import opened Tables
  import opened AtomicRuns

  /** Directions of the OK logs of a ticket, gate scans and manual changes alike, oldest first. */
  function OkDirections(logs: seq<ScanLog>, id: TicketId): seq<Presence> {
    if logs == [] then []
    else
      var last := logs[|logs| - 1];
      OkDirections(logs[..|logs| - 1], id)
          + (if last.ticketId == id && last.verdict == Ok then [last.direction] else [])
  }

  /** Nonces of the OK logs of a ticket that carry one, oldest first. */
  function OkNonces(logs: seq<ScanLog>, id: TicketId): seq<int> {
    if logs == [] then []
    else
      var last := logs[|logs| - 1];
      OkNonces(logs[..|logs| - 1], id)
      + (if last.ticketId == id && last.verdict == Ok && last.nonce.Some? then [last.nonce.value] else [])
  }

  function CrossingOf(f: Fact, id: TicketId): seq<Presence> {
    if f.ticketId != id then []
    else if f.kind == CheckedIn then [Inside]
    else if f.kind == CheckedOut then [Outside]
    else []
  }

  /** The check-in and check-out facts of a ticket, oldest first. */
  function Crossings(outbox: seq<Fact>, id: TicketId): seq<Presence> {
    if outbox == [] then []
    else Crossings(outbox[..|outbox| - 1], id) + CrossingOf(outbox[|outbox| - 1], id)
  }

  /** How many facts of one kind the outbox holds for a ticket. */
  function Tally(outbox: seq<Fact>, kind: FactKind, id: TicketId): nat {
    if outbox == [] then 0
    else
      var last := outbox[|outbox| - 1];
      Tally(outbox[..|outbox| - 1], kind, id) + (if last.ticketId == id && last.kind == kind then 1 else 0)
  }

  /** Inside, outside, inside, … */
  ghost predicate Alternates(d: seq<Presence>) {
    forall i :: 0 <= i < |d| ==> d[i] == (if i % 2 == 0 then Inside else Outside)
  }

  /** Where a guest stands after these crossings. */
  function Standing(d: seq<Presence>): Presence {
    if d == [] then Outside else d[|d| - 1]
  }

  lemma AlternatesMore(d: seq<Presence>, p: Presence)
    requires Alternates(d) && p != Standing(d)
    ensures Alternates(d + [p]) && Standing(d + [p]) == p
  {
  }

  /** 1, 2, …, n */
  function UpTo(n: nat): seq<int> {
    seq(n, i => i + 1)
  }

  /** A ticket row agrees with its OK directions, its crossing facts, its accepted nonces and its generated facts. */
  ghost predicate Agrees(t: Ticket, d: seq<Presence>, crossings: seq<Presence>, nonces: seq<int>, generated: nat) {
    && d == crossings
    && Alternates(d)
    && (!t.revoked ==> t.presence == Standing(d))
    && t.nextNonce.Some? && t.nextNonce.value >= 1 && nonces == UpTo(t.nextNonce.value - 1)
    && generated == 1
  }

  ghost predicate LedgerOf(db: Db, id: TicketId)
    requires id in db.tickets
  {
    Agrees(db.tickets[id], OkDirections(db.logs, id), Crossings(db.outbox, id), OkNonces(db.logs, id),
        Tally(db.outbox, TicketGenerated, id))
  }

  ghost predicate LedgerOk(db: Db) {
    forall id :: id in db.tickets ==> LedgerOf(db, id)
  }

  // ---- appending to the log and the outbox ----

  lemma {:induction false} OkDirectionsConcat(a: seq<ScanLog>, b: seq<ScanLog>, id: TicketId)
    ensures OkDirections(a + b, id) == OkDirections(a, id) + OkDirections(b, id)
  {
    if b == [] {
      assert a + b == a;
    } else {
      assert (a + b)[..|a + b| - 1] == a + b[..|b| - 1];
      OkDirectionsConcat(a, b[..|b| - 1], id);
    }
  }

  lemma {:induction false} OkNoncesConcat(a: seq<ScanLog>, b: seq<ScanLog>, id: TicketId)
    ensures OkNonces(a + b, id) == OkNonces(a, id) + OkNonces(b, id)
  {
    if b == [] {
      assert a + b == a;
    } else {
      assert (a + b)[..|a + b| - 1] == a + b[..|b| - 1];
      OkNoncesConcat(a, b[..|b| - 1], id);
    }
  }

  lemma {:induction false} CrossingsConcat(a: seq<Fact>, b: seq<Fact>, id: TicketId)
    ensures Crossings(a + b, id) == Crossings(a, id) + Crossings(b, id)
  {
    if b == [] {
      assert a + b == a;
    } else {
      assert (a + b)[..|a + b| - 1] == a + b[..|b| - 1];
      CrossingsConcat(a, b[..|b| - 1], id);
      assert (a + b)[|a + b| - 1] == b[|b| - 1];
    }
  }

  lemma {:induction false} TallyConcat(a: seq<Fact>, b: seq<Fact>, kind: FactKind, id: TicketId)
    ensures Tally(a + b, kind, id) == Tally(a, kind, id) + Tally(b, kind, id)
  {
    if b == [] {
      assert a + b == a;
    } else {
      assert (a + b)[..|a + b| - 1] == a + b[..|b| - 1];
      TallyConcat(a, b[..|b| - 1], kind, id);
    }
  }

  /** Deleting one ticket's logs leaves every other ticket's story as it was. */
  lemma {:induction false} WithoutLogsFrame(logs: seq<ScanLog>, gone: TicketId, id: TicketId)
    requires id != gone
    ensures OkDirections(WithoutLogsOf(logs, gone), id) == OkDirections(logs, id)
    ensures OkNonces(WithoutLogsOf(logs, gone), id) == OkNonces(logs, id)
  {
    if logs == [] {
    } else {
      var front, last := logs[..|logs| - 1], logs[|logs| - 1];
      WithoutLogsFrame(front, gone, id);
      if last.ticketId == gone {
        assert WithoutLogsOf(logs, gone) == WithoutLogsOf(front, gone);
      } else {
        OkDirectionsConcat(WithoutLogsOf(front, gone), [last], id);
        OkNoncesConcat(WithoutLogsOf(front, gone), [last], id);
        OkDirectionsConcat(front, [last], id);
        OkNoncesConcat(front, [last], id);
        assert front + [last] == logs;
      }
    }
  }

  /** A ticket not yet created has no story. */
  lemma {:induction false} NoStory(logs: seq<ScanLog>, outbox: seq<Fact>, id: TicketId)
    requires forall l :: l in logs ==> l.ticketId != id
    requires forall f :: f in outbox ==> f.ticketId != id
    ensures OkDirections(logs, id) == [] && OkNonces(logs, id) == [] && Crossings(outbox, id) == []
    ensures forall kind :: Tally(outbox, kind, id) == 0
    decreases |logs| + |outbox|
  {
    if logs != [] {
      NoStory(logs[..|logs| - 1], outbox, id);
    } else if outbox != [] {
      NoStory(logs, outbox[..|outbox| - 1], id);
    }
  }

  // ---- the ledger is kept ----

  /** The crossing an operation logs for a ticket, if it logs one. */
  ghost function Crossed(db: Db, op: Op, id: TicketId): seq<Presence> {
    OkDirections(NewLogs(db, op), id)
  }

  lemma ShortOutbox(a: Fact, b: Fact, id: TicketId)
    ensures Crossings([a], id) == CrossingOf(a, id)
    ensures Crossings([a, b], id) == CrossingOf(a, id) + CrossingOf(b, id)
    ensures forall kind :: Tally([a], kind, id) == (if a.ticketId == id && a.kind == kind then 1 else 0)
    ensures forall kind :: Tally([a, b], kind, id) == Tally([a], kind, id) + Tally([b], kind, id)
  {
    assert [a][..0] == [] && [b][..0] == [] && [a, b][..1] == [a];
  }

  lemma ShortLog(l: ScanLog, id: TicketId)
    ensures OkDirections([l], id) == (if l.ticketId == id && l.verdict == Ok then [l.direction] else [])
    ensures OkNonces([l], id) == (if l.ticketId == id && l.verdict == Ok && l.nonce.Some? then [l.nonce.value] else [])
  {
    assert [l][..0] == [];
  }

  /** Whatever an operation logs as a crossing it also sends as one, and only a creation sends a generated fact. */
  lemma FactsFollowLogs(db: Db, op: Op, id: TicketId)
    requires !op.Delete?
    ensures Crossings(NewFacts(db, op), id) == Crossed(db, op, id)
    ensures !op.Create? ==> Tally(NewFacts(db, op), TicketGenerated, id) == 0
  {
    var facts, logs := NewFacts(db, op), NewLogs(db, op);
    if |facts| > 0 {
      ShortOutbox(facts[0], facts[|facts| - 1], id);
      assert |facts| == 1 ==> facts == [facts[0]];
      assert |facts| == 2 ==> facts == [facts[0], facts[1]];
    }
    if |logs| > 0 {
      ShortLog(logs[0], id);
      assert logs == [logs[0]];
    }
  }

  /** The step moved the ticket across the gate, once. */
  ghost predicate Moves(db: Db, op: Op, id: TicketId)
    requires !op.Delete? && id in db.tickets && id in Apply(db, op).tickets
  {
    var t, t' := db.tickets[id], Apply(db, op).tickets[id];
    && !t.revoked && !t'.revoked && t'.presence != t.presence && t.nextNonce.Some?
    && Crossed(db, op, id) == [t'.presence]
    && (if op.Scan?
        then OkNonces(NewLogs(db, op), id) == [t.nextNonce.value] && t'.nextNonce == Some(t.nextNonce.value + 1)
        else OkNonces(NewLogs(db, op), id) == [] && t'.nextNonce == t.nextNonce)
  }

  /** The step left the ticket where it was, or revoked it. */
  ghost predicate Stays(db: Db, op: Op, id: TicketId)
    requires !op.Delete? && id in db.tickets && id in Apply(db, op).tickets
  {
    var t, t' := db.tickets[id], Apply(db, op).tickets[id];
    && Crossed(db, op, id) == [] && OkNonces(NewLogs(db, op), id) == [] && t'.nextNonce == t.nextNonce
    && (t'.revoked || (!t.revoked && t'.presence == t.presence))
  }

  /** A scan's row: admitted, revoked by the guard, or as it was. */
  lemma ScanRow(db: Db, token: Token, p: Presented, permitted: bool)
    requires Reaches(db, Some(token))
    ensures var id, j, after := token.ticketId, JudgeScan(db, token, p), AfterScan(db, Some(token), p, permitted);
            && id in after.tickets
            && after.tickets[id] ==
               if j == Accepted && permitted
                   then Admitted(db.tickets[id], db.tickets[id], token.nonce, p.direction, db.clock)
               else if j.Faulted? && Revokes(Upserted(GuardOf(db, id)).failCount, j.risk)
                   then AutoRevoked(db.tickets[id], db.clock)
               else db.tickets[id]
    ensures forall i :: i in db.tickets && i != token.ticketId ==>
              i in AfterScan(db, Some(token), p, permitted).tickets
                  && AfterScan(db, Some(token), p, permitted).tickets[i] == db.tickets[i]
  {
  }

  lemma ScanMovesOrStays(db: Db, token: Token, p: Presented, permitted: bool)
    requires Reaches(db, Some(token)) && RowOk(db.tickets[token.ticketId])
    ensures var op, id := Op.Scan(Some(token), p, permitted), token.ticketId;
            id in Apply(db, op).tickets && (Moves(db, op, id) || Stays(db, op, id))
  {
    var op, id, t := Op.Scan(Some(token), p, permitted), token.ticketId, db.tickets[token.ticketId];
    ScanRow(db, token, p, permitted);
    AcceptedIff(t, GuardOf(db, id), KeyHeld(db, id, token.nonce), token.nonce, p, EndOf(db, t.eventId), db.clock);
    if permitted {
      var entry := ScanEntry(id, t, token.nonce, p, VerdictOf(JudgeScan(db, token, p)));
      assert NewLogs(db, op) == [entry];
      ShortLog(entry, id);
      VerdictOkIff(db, token, p);
    } else {
      assert NewLogs(db, op) == [];
    }
  }

  lemma VerdictOkIff(db: Db, token: Token, p: Presented)
    requires token.ticketId in db.tickets
    ensures VerdictOf(JudgeScan(db, token, p)) == Ok <==> JudgeScan(db, token, p) == Accepted
  {
  }

  /** A scan of another ticket, or of none. */
  lemma OtherScanStays(db: Db, op: Op, id: TicketId)
    requires op.Scan? && id in db.tickets && RowOk(db.tickets[id])
    requires Reaches(db, op.token) ==> op.token.value.ticketId != id
    ensures id in Apply(db, op).tickets && Stays(db, op, id)
  {
    if Reaches(db, op.token) {
      ScanRow(db, op.token.value, op.p, op.permitted);
    }
    if |NewLogs(db, op)| > 0 {
      assert NewLogs(db, op) == [NewLogs(db, op)[0]];
      ShortLog(NewLogs(db, op)[0], id);
    }
  }

  lemma StaffMovesOrStays(db: Db, op: Op, id: TicketId)
    requires id in db.tickets && RowOk(db.tickets[id])
    requires op.Override? || op.Revoke? || op.ResetBinding?
    ensures id in Apply(db, op).tickets && (Moves(db, op, id) || Stays(db, op, id))
  {
    if |NewLogs(db, op)| > 0 {
      assert NewLogs(db, op) == [NewLogs(db, op)[0]];
      ShortLog(NewLogs(db, op)[0], id);
    }
  }

  lemma MovesOrStays(db: Db, op: Op, id: TicketId)
    requires !op.Delete? && id in db.tickets && id < db.serial && RowOk(db.tickets[id])
    ensures id in Apply(db, op).tickets && (Moves(db, op, id) || Stays(db, op, id))
  {
    if op.Scan? {
      if Reaches(db, op.token) && op.token.value.ticketId == id {
        ScanMovesOrStays(db, op.token.value, op.p, op.permitted);
      } else {
        OtherScanStays(db, op, id);
      }
    } else if op.Override? || op.Revoke? || op.ResetBinding? {
      StaffMovesOrStays(db, op, id);
    } else {
      assert NewLogs(db, op) == [];
    }
  }

  lemma AgreesAfterMove(t: Ticket, t': Ticket, d: seq<Presence>, nonces: seq<int>, more: seq<int>)
    requires Agrees(t, d, d, nonces, 1) && !t.revoked && t'.presence != t.presence
    requires if more == [] then t'.nextNonce == t.nextNonce
             else more == [t.nextNonce.value] && t'.nextNonce == Some(t.nextNonce.value + 1)
    ensures Agrees(t', d + [t'.presence], d + [t'.presence], nonces + more, 1)
  {
    assert UpTo(t.nextNonce.value) == UpTo(t.nextNonce.value - 1) + [t.nextNonce.value];
    assert nonces + [] == nonces;
  }

  lemma LogsSince(db: Db, op: Op, id: TicketId)
    requires !op.Delete?
    ensures OkDirections(Apply(db, op).logs, id) == OkDirections(db.logs, id) + Crossed(db, op, id)
    ensures OkNonces(Apply(db, op).logs, id) == OkNonces(db.logs, id) + OkNonces(NewLogs(db, op), id)
  {
    Appends(db, op);
    OkDirectionsConcat(db.logs, NewLogs(db, op), id);
    OkNoncesConcat(db.logs, NewLogs(db, op), id);
  }

  lemma LedgerStep(db: Db, op: Op, id: TicketId)
    requires !op.Delete? && id in db.tickets && id < db.serial && RowOk(db.tickets[id]) && LedgerOf(db, id)
    ensures id in Apply(db, op).tickets && LedgerOf(Apply(db, op), id)
  {
    MovesOrStays(db, op, id);
    if Moves(db, op, id) {
      LedgerMoves(db, op, id);
    } else {
      LedgerStays(db, op, id);
    }
  }

  lemma LedgerMoves(db: Db, op: Op, id: TicketId)
    requires !op.Delete? && id in db.tickets && id < db.serial && LedgerOf(db, id)
    requires id in Apply(db, op).tickets && Moves(db, op, id)
    ensures LedgerOf(Apply(db, op), id)
  {
    LogsSince(db, op, id);
    FactsSince(db, op, id);
    AgreesAfterMove(db.tickets[id], Apply(db, op).tickets[id], OkDirections(db.logs, id), OkNonces(db.logs, id),
        OkNonces(NewLogs(db, op), id));
  }

  lemma LedgerStays(db: Db, op: Op, id: TicketId)
    requires !op.Delete? && id in db.tickets && id < db.serial && LedgerOf(db, id)
    requires id in Apply(db, op).tickets && Stays(db, op, id)
    ensures LedgerOf(Apply(db, op), id)
  {
    LogsSince(db, op, id);
    FactsSince(db, op, id);
    AgreesAfterStay(db.tickets[id], Apply(db, op).tickets[id], OkDirections(db.logs, id), OkNonces(db.logs, id));
  }

  lemma AgreesAfterStay(t: Ticket, t': Ticket, d: seq<Presence>, nonces: seq<int>)
    requires Agrees(t, d, d, nonces, 1) && t'.nextNonce == t.nextNonce
    requires t'.revoked || (!t.revoked && t'.presence == t.presence)
    ensures Agrees(t', d + [], d + [], nonces + [], 1)
  {
    assert d + [] == d && nonces + [] == nonces;
  }

  lemma FactsSince(db: Db, op: Op, id: TicketId)
    requires !op.Delete? && id < db.serial
    ensures Crossings(Apply(db, op).outbox, id) == Crossings(db.outbox, id) + Crossed(db, op, id)
    ensures Tally(Apply(db, op).outbox, TicketGenerated, id) == Tally(db.outbox, TicketGenerated, id)
  {
    Appends(db, op);
    FactsFollowLogs(db, op, id);
    CrossingsConcat(db.outbox, NewFacts(db, op), id);
    TallyConcat(db.outbox, NewFacts(db, op), TicketGenerated, id);
    if op.Create? && |NewFacts(db, op)| > 0 {
      ShortOutbox(NewFacts(db, op)[0], NewFacts(db, op)[0], id);
    }
  }

  lemma LedgerOfNew(db: Db, m: Mapping)
    requires Wf(db) && CreateReply(db, m) == Done
    ensures LedgerOf(AfterCreate(db, m), db.serial)
  {
    var fact := Fact(TicketGenerated, db.serial, m.eventId, m.guestId);
    NoStory(db.logs, db.outbox, db.serial);
    ShortOutbox(fact, fact, db.serial);
    CrossingsConcat(db.outbox, [fact], db.serial);
    TallyConcat(db.outbox, [fact], TicketGenerated, db.serial);
    assert UpTo(0) == [];
  }

  lemma LedgerAfterDelete(db: Db, op: Op, id: TicketId)
    requires LedgerOk(db) && op.Delete? && id in Apply(db, op).tickets
    ensures LedgerOf(Apply(db, op), id)
  {
    if DeleteReply(db, op.id, op.permitted) == Done {
      WithoutLogsFrame(db.logs, op.id, id);
    }
  }

  lemma OnlyCreationAdds(db: Db, op: Op, id: TicketId)
    requires id !in db.tickets && id in Apply(db, op).tickets
    ensures op.Create? && CreateReply(db, op.m) == Done && id == db.serial && Apply(db, op) == AfterCreate(db, op.m)
  {
  }

  lemma LedgerKept(db: Db, op: Op)
    requires Wf(db) && LedgerOk(db)
    ensures LedgerOk(Apply(db, op))
  {
    var after := Apply(db, op);
    forall id | id in after.tickets
      ensures LedgerOf(after, id)
    {
      if op.Delete? {
        LedgerAfterDelete(db, op, id);
      } else if id in db.tickets {
        LedgerStep(db, op, id);
      } else {
        OnlyCreationAdds(db, op, id);
        LedgerOfNew(db, op.m);
      }
    }
  }

  /** Entries minus exits. */
  function Net(d: seq<Presence>): int {
    if d == [] then 0 else Net(d[..|d| - 1]) + (if d[|d| - 1] == Inside then 1 else -1)
  }

  lemma NetOfOneMore(d: seq<Presence>, p: Presence)
    ensures Net(d + [p]) == Net(d) + (if p == Inside then 1 else -1)
  {
    assert (d + [p])[..|d|] == d;
  }

  lemma {:induction false} NetOfCrossings(outbox: seq<Fact>, id: TicketId)
    ensures Tally(outbox, CheckedIn, id) - Tally(outbox, CheckedOut, id) == Net(Crossings(outbox, id))
  {
    if outbox == [] {
    } else {
      var front, last := outbox[..|outbox| - 1], outbox[|outbox| - 1];
      var d, more := Crossings(front, id), CrossingOf(last, id);
      NetOfCrossings(front, id);
      assert Crossings(outbox, id) == d + more;
      if more == [] {
        assert d + more == d;
      } else {
        NetOfOneMore(d, more[0]);
        assert d + more == d + [more[0]];
      }
    }
  }

  /** Alternating crossings leave a net of one exactly after an odd number of them. */
  lemma {:induction false} NetOfAlternation(d: seq<Presence>)
    requires Alternates(d)
    ensures Net(d) == |d| % 2
    ensures Net(d) == (if Standing(d) == Inside then 1 else 0)
  {
    if d == [] {
    } else {
      NetOfAlternation(d[..|d| - 1]);
    }
  }

  // ---- reachable databases ----

  lemma {:induction false} Reachable(now: int, ops: seq<Op>)
    ensures Wf(Run(EmptyDb(now), ops)) && LedgerOk(Run(EmptyDb(now), ops))
  {
    if ops == [] {
    } else {
      var before, op := Run(EmptyDb(now), ops[..|ops| - 1]), ops[|ops| - 1];
      Reachable(now, ops[..|ops| - 1]);
      WfKept(before, op);
      LedgerKept(before, op);
    }
  }

  lemma ReachableRow(now: int, ops: seq<Op>, id: TicketId)
    requires id in Run(EmptyDb(now), ops).tickets
    ensures id < Run(EmptyDb(now), ops).serial && RowOk(Run(EmptyDb(now), ops).tickets[id])
  {
    Reachable(now, ops);
  }

  /** While a ticket is not revoked, the balance of its crossing facts says where its guest is. */
  ghost predicate Balanced(db: Db, id: TicketId)
    requires id in db.tickets
  {
    var t := db.tickets[id];
    && (t.revoked ==> t.presence == Outside)
    && (!t.revoked ==>
          Tally(db.outbox, CheckedIn, id) - Tally(db.outbox, CheckedOut, id) == (if t.presence == Inside then 1 else 0))
  }

  lemma AgreementBalances(db: Db, id: TicketId)
    requires id in db.tickets && LedgerOf(db, id) && RowOk(db.tickets[id])
    ensures Balanced(db, id)
  {
    NetOfCrossings(db.outbox, id);
    NetOfAlternation(OkDirections(db.logs, id));
  }

  /**
   The ledger law. After any run, for every ticket that exists: its crossing facts are its
   OK logs one for one and in order, starting inside and alternating; the accepted nonces are
   1, 2, …, k with the next nonce k + 1; and while it is not revoked, check-ins minus
   check-outs is one if the guest is inside and zero if outside. A revoked ticket is outside.
   */
  lemma LedgerLaw(now: int, ops: seq<Op>)
    ensures var db := Run(EmptyDb(now), ops);
            forall id :: id in db.tickets ==> RowOk(db.tickets[id]) && LedgerOf(db, id) && Balanced(db, id)
  {
    Reachable(now, ops);
    var db := Run(EmptyDb(now), ops);
    forall id | id in db.tickets
      ensures Balanced(db, id)
    {
      AgreementBalances(db, id);
    }
  }
}
