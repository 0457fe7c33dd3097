/**
 Where everything in the database comes from: each log row, each fact and each column of a
 ticket goes back to the operation of the run that wrote it, with its actor, its time and
 its values; and a deletion takes away the rows of its own ticket only.
 */
module Records {
  import opened Domain
  import opened ShareGuards
  import opened Verification
  import opened Tables
  import opened AtomicRuns
  import opened Verdicts
  import opened Authority
  import opened Ledger

  // ---- what an operation logs ----

  /** Permitted staff clear a binding that is there. */
  ghost predicate Unbinds(db: Db, op: Op) {
    op.ResetBinding? && ResetByStaff(db, op, op.id)
        && (db.tickets[op.id].deviceId.Some? || db.tickets[op.id].publicKey.Some?)
  }

  ghost function Side(direction: Direction): Presence {
    match direction
    case Entry => Inside
    case Exit => Outside
  }

  /** This operation writes this log row. */
  ghost predicate Logs(db: Db, op: Op, l: ScanLog) {
    && l.ticketId in db.tickets && l.eventId == db.tickets[l.ticketId].eventId
    && match op
       case Scan(token, p, permitted) =>
         && permitted && Examines(db, op, l.ticketId)
         && l.direction == Side(p.direction) && l.nonce == Some(token.value.nonce)
         && l.gate == p.gate && l.deviceId == Some(p.device) && l.actorId == p.actor
         && l.verdict == VerdictBy(db, db.tickets[l.ticketId], l.ticketId, token.value.nonce, p)
       case Override(id, state, actor, _) =>
         && id == l.ticketId && Moved(db, op, id) && l.direction == state && l.verdict == Ok
         && l.nonce.None? && l.gate == Some("MANUAL") && l.deviceId.None? && l.actorId == actor
       case Revoke(id, _, actor, _) =>
         && id == l.ticketId && RevokedByStaff(db, op, id) && l.direction == Outside && l.verdict == Verdict.Revoked
         && l.nonce.None? && l.gate.None? && l.deviceId.None? && l.actorId == actor
       case ResetBinding(id, actor, _) =>
         && id == l.ticketId && Unbinds(db, op) && l.direction == Outside && l.verdict == Unknown
         && l.nonce.None? && l.gate == Some("MANUAL") && l.deviceId == db.tickets[id].deviceId && l.actorId == actor
       case _ => false
  }

  /** This operation logs something. */
  ghost predicate Notable(db: Db, op: Op) {
    match op
    case Scan(token, _, permitted) => permitted && token.Some? && Examines(db, op, token.value.ticketId)
    case Override(id, _, _, _) => Moved(db, op, id)
    case Revoke(id, _, _, _) => RevokedByStaff(db, op, id)
    case ResetBinding(_, _, _) => Unbinds(db, op)
    case _ => false
  }

  lemma ScanLogs(db: Db, op: Op)
    requires op.Scan?
    ensures if Notable(db, op) then |NewLogs(db, op)| == 1 && Logs(db, op, NewLogs(db, op)[0])
        else NewLogs(db, op) == []
  {
    ScanAnswers(db, op);
  }

  lemma StaffLogs(db: Db, op: Op)
    requires !op.Scan?
    ensures if Notable(db, op) then |NewLogs(db, op)| == 1 && Logs(db, op, NewLogs(db, op)[0])
        else NewLogs(db, op) == []
  {
  }

  /**
   Every notable operation writes exactly one row at the end of the log, and no other operation
   but a deletion touches it.
   */
  lemma LogGrows(db: Db, op: Op)
    requires !op.Delete?
    ensures if Notable(db, op) then
              exists l :: Logs(db, op, l) && Apply(db, op).logs == db.logs + [l]
            else Apply(db, op).logs == db.logs
  {
    Appends(db, op);
    if op.Scan? {
      ScanLogs(db, op);
    } else {
      StaffLogs(db, op);
    }
    if Notable(db, op) {
      assert NewLogs(db, op) == [NewLogs(db, op)[0]];
    } else {
      assert db.logs + [] == db.logs;
    }
  }

  ghost predicate LoggedAt(db: Db, ops: seq<Op>, n: nat, l: ScanLog) {
    n < |ops| && Logs(Run(db, ops[..n]), ops[n], l)
  }

  /** In every run from the empty database, each log row goes back to the operation that wrote it. */
  lemma {:induction false} LogProvenance(now: int, ops: seq<Op>, l: ScanLog)
    requires l in Run(EmptyDb(now), ops).logs
    ensures exists n: nat :: LoggedAt(EmptyDb(now), ops, n, l)
  {
    var k := |ops| - 1;
    var before := Run(EmptyDb(now), ops[..k]);
    if l in before.logs {
      LogProvenance(now, ops[..k], l);
      var n: nat :| LoggedAt(EmptyDb(now), ops[..k], n, l);
      assert ops[..k][..n] == ops[..n];
      assert LoggedAt(EmptyDb(now), ops, n, l);
    } else {
      if ops[k].Delete? {
        WithoutLogsSound(before.logs, ops[k].id);
      } else {
        LogGrows(before, ops[k]);
      }
      assert LoggedAt(EmptyDb(now), ops, k, l);
    }
  }

  // ---- what a deletion takes away ----

  /** All log rows of one ticket, in order. */
  ghost function LogsOf(logs: seq<ScanLog>, id: TicketId): seq<ScanLog> {
    if logs == [] then []
    else if logs[0].ticketId == id then [logs[0]] + LogsOf(logs[1..], id)
    else LogsOf(logs[1..], id)
  }

  /** `kept` is `logs` at these places, in order. */
  ghost predicate PickedAt(logs: seq<ScanLog>, kept: seq<ScanLog>, places: seq<nat>) {
    && |places| == |kept|
    && (forall k :: 0 <= k < |places| ==> places[k] < |logs| && kept[k] == logs[places[k]])
    && (forall j, k :: 0 <= j < k < |places| ==> places[j] < places[k])
  }

  /** The places of the rows that are not of this ticket. */
  ghost function PlacesOfOthers(logs: seq<ScanLog>, id: TicketId): seq<nat> {
    if logs == [] then []
    else
      var n := |logs| - 1;
      PlacesOfOthers(logs[..n], id) + (if logs[n].ticketId == id then [] else [n])
  }

  lemma {:induction false} PlacesAreOthers(logs: seq<ScanLog>, id: TicketId)
    ensures forall i: nat :: i in PlacesOfOthers(logs, id) <==> i < |logs| && logs[i].ticketId != id
  {
    if logs == [] {
    } else {
      PlacesAreOthers(logs[..|logs| - 1], id);
    }
  }

  lemma {:induction false} KeptAtPlaces(logs: seq<ScanLog>, id: TicketId)
    ensures PickedAt(logs, WithoutLogsOf(logs, id), PlacesOfOthers(logs, id))
    ensures forall k :: 0 <= k < |PlacesOfOthers(logs, id)| ==> PlacesOfOthers(logs, id)[k] < |logs|
  {
    if logs == [] {
    } else {
      var n := |logs| - 1;
      KeptAtPlaces(logs[..n], id);
    }
  }

  lemma {:induction false} LogsOfConcat(a: seq<ScanLog>, b: seq<ScanLog>, id: TicketId)
    ensures LogsOf(a + b, id) == LogsOf(a, id) + LogsOf(b, id)
  {
    if a == [] {
      assert a + b == b;
    } else {
      assert (a + b)[0] == a[0] && (a + b)[1..] == a[1..] + b;
      LogsOfConcat(a[1..], b, id);
    }
  }

  lemma {:induction false} OthersLogsKept(logs: seq<ScanLog>, gone: TicketId, id: TicketId)
    ensures LogsOf(WithoutLogsOf(logs, gone), id) == if id == gone then [] else LogsOf(logs, id)
  {
    if logs == [] {
    } else {
      var n := |logs| - 1;
      var last := [logs[n]];
      OthersLogsKept(logs[..n], gone, id);
      LogsOfConcat(logs[..n], last, id);
      assert logs[..n] + last == logs;
      var kept := WithoutLogsOf(logs[..n], gone);
      if logs[n].ticketId == gone {
        assert WithoutLogsOf(logs, gone) == kept;
      } else {
        LogsOfConcat(kept, last, id);
      }
    }
  }

  /**
   A deletion by permitted staff removes the ticket, its guard and all of its log rows. It
   leaves every other ticket with all its rows, and what is left of the log in its order;
   facts already sent and replay keys stay.
   */
  lemma DeletionLaw(db: Db, id: TicketId, other: TicketId)
    requires id in db.tickets
    ensures var after := AfterDelete(db, id, true);
            && after.tickets == db.tickets - {id} && after.guards == db.guards - {id}
            && LogsOf(after.logs, id) == []
            && (other != id ==> LogsOf(after.logs, other) == LogsOf(db.logs, other))
            && (exists places :: PickedAt(db.logs, after.logs, places) &&
                  forall i: nat :: i in places <==> i < |db.logs| && db.logs[i].ticketId != id)
            && after.outbox == db.outbox && after.keys == db.keys
  {
    OthersLogsKept(db.logs, id, id);
    OthersLogsKept(db.logs, id, other);
    KeptAtPlaces(db.logs, id);
    PlacesAreOthers(db.logs, id);
    var places := PlacesOfOthers(db.logs, id);
    assert PickedAt(db.logs, AfterDelete(db, id, true).logs, places);
  }

  // ---- what an operation sends ----

  /** The facts of this operation, in order. */
  ghost function Told(db: Db, op: Op): seq<Fact> {
    match op
    case Scan(token, p, permitted) =>
      if !permitted || token.None? || !Examines(db, op, token.value.ticketId) then [] else
      var id := token.value.ticketId;
      var t := db.tickets[id];
      if Passes(db, op, id) then
        [Fact(ScanSucceeded(Side(p.direction)), id, t.eventId, t.guestId),
         Fact(if p.direction == Entry then CheckedIn else CheckedOut, id, t.eventId, t.guestId)]
      else
        [Fact(ScanRejected(VerdictBy(db, t, id, token.value.nonce, p), Side(p.direction)), id, t.eventId, t.guestId)]
    case Override(id, state, _, _) =>
      if Moved(db, op, id)
      then [Fact(if state == Inside then CheckedIn else CheckedOut, id, db.tickets[id].eventId, db.tickets[id].guestId)]
      else []
    case Revoke(id, _, _, _) =>
      if RevokedByStaff(db, op, id)
      then [Fact(TicketRevoked, id, db.tickets[id].eventId, db.tickets[id].guestId)] else []
    case Create(m) =>
      if forall id :: id in db.tickets ==> !HasInvitation(db, m, id) && !InTheWay(db.tickets[id], m)
      then [Fact(TicketGenerated, db.serial, m.eventId, m.guestId)] else []
    case _ => []
  }

  lemma ScanTells(db: Db, op: Op)
    requires op.Scan?
    ensures NewFacts(db, op) == Told(db, op)
  {
    ScanAnswers(db, op);
    if op.token.Some? && Examines(db, op, op.token.value.ticketId) {
      JudgedByColumns(db, op, op.token.value.ticketId);
    }
  }

  lemma CreationTells(db: Db, op: Op)
    requires op.Create? && UniqueRows(db.tickets)
    ensures NewFacts(db, op) == Told(db, op)
  {
    CreationAnswers(db, op.m);
  }

  lemma StaffTells(db: Db, op: Op)
    requires !op.Scan? && !op.Create?
    ensures NewFacts(db, op) == Told(db, op)
  {
  }

  /** The outbox only grows, by exactly the facts that the operation has to tell. */
  lemma OutboxGrows(db: Db, op: Op)
    requires UniqueRows(db.tickets)
    ensures Apply(db, op).outbox == db.outbox + Told(db, op)
  {
    if op.Delete? {
      assert db.outbox + [] == db.outbox;
    } else {
      Appends(db, op);
      if op.Scan? {
        ScanTells(db, op);
      } else if op.Create? {
        CreationTells(db, op);
      } else {
        StaffTells(db, op);
      }
    }
  }

  ghost predicate ToldAt(db: Db, ops: seq<Op>, n: nat, f: Fact) {
    n < |ops| && f in Told(Run(db, ops[..n]), ops[n])
  }

  /** In every run from the empty database, each fact goes back to the operation that sent it. */
  lemma {:induction false} FactProvenance(now: int, ops: seq<Op>, f: Fact)
    requires f in Run(EmptyDb(now), ops).outbox
    ensures exists n: nat :: ToldAt(EmptyDb(now), ops, n, f)
  {
    var k := |ops| - 1;
    var before := Run(EmptyDb(now), ops[..k]);
    Reachable(now, ops[..k]);
    OutboxGrows(before, ops[k]);
    if f in before.outbox {
      FactProvenance(now, ops[..k], f);
      var n: nat :| ToldAt(EmptyDb(now), ops[..k], n, f);
      assert ops[..k][..n] == ops[..n];
      assert ToldAt(EmptyDb(now), ops, n, f);
    } else {
      assert ToldAt(EmptyDb(now), ops, k, f);
    }
  }

  // ---- where the columns of a ticket come from ----

  /** This operation creates the ticket with these columns. */
  ghost predicate Makes(db: Db, op: Op, id: TicketId, t: Ticket) {
    op.Create? && id == db.serial && op.m == Mapping(t.eventId, t.invitationId, t.guestId, t.seatId)
  }

  /** This operation binds this key and device to it. */
  ghost predicate Binds(db: Db, op: Op, id: TicketId, t: Ticket) {
    BoundByGuest(db, op, id) && t.guestId == op.actor && t.publicKey == Some(op.key) && t.deviceId == Some(op.device)
  }

  /** This operation gives the ticket this check-in time. */
  ghost predicate ChecksIn(db: Db, op: Op, id: TicketId, t: Ticket) {
    && t.checkedInAt == Some(db.clock)
    && ((Admits(db, op, id) && op.p.direction == Entry) || (Moved(db, op, id) && op.state == Inside))
  }

  /** This operation revokes the ticket, by this actor, at this time, for this reason. */
  ghost predicate Condemns(db: Db, op: Op, id: TicketId, t: Ticket) {
    && t.revokedAt == Some(db.clock)
    && (|| (RevokedByStaff(db, op, id) && t.revokedBy == Some(op.actor)
            && t.revokedReason == Some(if op.reason.Some? then op.reason.value else "Manual revoke"))
        || (RevokedByGuard(db, op, id) && t.revokedBy == Some(SYSTEM_ACTOR) && t.revokedReason.None?))
  }

  ghost predicate At(db: Db, ops: seq<Op>, n: nat, id: TicketId, t: Ticket,
      writes: (Db, Op, TicketId, Ticket) -> bool) {
    n < |ops| && writes(Run(db, ops[..n]), ops[n], id, t)
  }

  ghost predicate Sometime(db: Db, ops: seq<Op>, id: TicketId, t: Ticket, writes: (Db, Op, TicketId, Ticket) -> bool) {
    exists n: nat :: At(db, ops, n, id, t, writes)
  }

  /** Every column that is set goes back to an operation of the run. */
  ghost predicate Sourced(db: Db, ops: seq<Op>, id: TicketId, t: Ticket) {
    && Sometime(db, ops, id, t, Makes)
    && (t.publicKey.Some? || t.deviceId.Some? ==> Sometime(db, ops, id, t, Binds))
    && (t.checkedInAt.Some? ==> Sometime(db, ops, id, t, ChecksIn))
    && (if t.revoked then Sometime(db, ops, id, t, Condemns)
        else t.revokedAt.None? && t.revokedBy.None? && t.revokedReason.None?)
  }

  /** What an operation has written stays written while the columns concerned stay. */
  lemma StillSometime(
    db: Db, ops: seq<Op>, id: TicketId, t: Ticket, t': Ticket, writes: (Db, Op, TicketId, Ticket) -> bool)
    requires ops != [] && Sometime(db, ops[..|ops| - 1], id, t, writes)
    requires forall v, op :: writes(v, op, id, t) ==> writes(v, op, id, t')
    ensures Sometime(db, ops, id, t', writes)
  {
    var n: nat :| At(db, ops[..|ops| - 1], n, id, t, writes);
    assert ops[..|ops| - 1][..n] == ops[..n];
    assert At(db, ops, n, id, t', writes);
  }

  lemma JustNow(db: Db, ops: seq<Op>, id: TicketId, t: Ticket, writes: (Db, Op, TicketId, Ticket) -> bool)
    requires ops != [] && writes(Run(db, ops[..|ops| - 1]), ops[|ops| - 1], id, t)
    ensures Sometime(db, ops, id, t, writes)
  {
    assert At(db, ops, |ops| - 1, id, t, writes);
  }

  /** Each group of columns of the next row is as it was, or has just been written, or is cleared. */
  lemma ColumnsFromStep(db: Db, op: Op, id: TicketId)
    requires id in db.tickets && RowOk(db.tickets[id])
    requires db.tickets[id].revoked
        || (db.tickets[id].revokedReason.None? && db.tickets[id].revokedAt.None? && db.tickets[id].revokedBy.None?)
    ensures var t, t' := db.tickets[id], RowAfter(db, op, id);
            && SameIdentity(t', t)
            && ((t'.publicKey == t.publicKey && t'.deviceId == t.deviceId)
                || (t'.publicKey.None? && t'.deviceId.None?) || Binds(db, op, id, t'))
            && (t'.checkedInAt == t.checkedInAt || ChecksIn(db, op, id, t'))
            && ((t'.revoked == t.revoked && t'.revokedAt == t.revokedAt && t'.revokedBy == t.revokedBy
                 && t'.revokedReason == t.revokedReason) || (t'.revoked && Condemns(db, op, id, t')))
  {
  }

  lemma SourcedStep(db: Db, ops: seq<Op>, id: TicketId)
    requires ops != []
    requires var before := Run(db, ops[..|ops| - 1]);
             && Wf(before) && id in before.tickets && id in Run(db, ops).tickets
             && Sourced(db, ops[..|ops| - 1], id, before.tickets[id])
    ensures Sourced(db, ops, id, Run(db, ops).tickets[id])
  {
    var before, op := Run(db, ops[..|ops| - 1]), ops[|ops| - 1];
    RowBecomes(before, op, id);
    SourcedFrom(db, ops, id);
  }

  lemma SourcedFrom(db: Db, ops: seq<Op>, id: TicketId)
    requires ops != []
    requires var before := Run(db, ops[..|ops| - 1]);
             id in before.tickets && RowOk(before.tickets[id]) && Sourced(db, ops[..|ops| - 1], id, before.tickets[id])
    ensures Sourced(db, ops, id, RowAfter(Run(db, ops[..|ops| - 1]), ops[|ops| - 1], id))
  {
    var before, op := Run(db, ops[..|ops| - 1]), ops[|ops| - 1];
    var t, t' := before.tickets[id], RowAfter(before, op, id);
    ColumnsFromStep(before, op, id);
    StillSometime(db, ops, id, t, t', Makes);
    if t'.publicKey.Some? || t'.deviceId.Some? {
      if Binds(before, op, id, t') {
        JustNow(db, ops, id, t', Binds);
      } else {
        StillSometime(db, ops, id, t, t', Binds);
      }
    }
    if t'.checkedInAt.Some? {
      if ChecksIn(before, op, id, t') {
        JustNow(db, ops, id, t', ChecksIn);
      } else {
        StillSometime(db, ops, id, t, t', ChecksIn);
      }
    }
    if t'.revoked {
      if Condemns(before, op, id, t') {
        JustNow(db, ops, id, t', Condemns);
      } else {
        StillSometime(db, ops, id, t, t', Condemns);
      }
    }
  }

  /**
   In every reachable database, the columns of a ticket go back to operations of the run: its
   identity to the message that created it; a binding to its own guest, who chose that device
   and a valid key; a check-in time to the moment of an entry; and a revocation to permitted
   staff, with their reason, or to the tenth offence, at the time it says.
   */
  lemma {:induction false} RowProvenance(now: int, ops: seq<Op>, id: TicketId)
    requires id in Run(EmptyDb(now), ops).tickets
    ensures Sourced(EmptyDb(now), ops, id, Run(EmptyDb(now), ops).tickets[id])
  {
    var k := |ops| - 1;
    var before := Run(EmptyDb(now), ops[..k]);
    Reachable(now, ops[..k]);
    if id in before.tickets {
      RowProvenance(now, ops[..k], id);
      SourcedStep(EmptyDb(now), ops, id);
    } else {
      OnlyCreationAdds(before, ops[k], id);
      CreationMakes(before, ops[k].m);
      NewRowIsMade(before, ops[k]);
      JustNow(EmptyDb(now), ops, id, Run(EmptyDb(now), ops).tickets[id], Makes);
    }
  }

  lemma NewRowIsMade(db: Db, op: Op)
    requires op.Create? && CreateReply(db, op.m) == Done
    ensures db.serial in Apply(db, op).tickets
    ensures var t := Apply(db, op).tickets[db.serial];
            && Makes(db, op, db.serial, t) && t.publicKey.None? && t.deviceId.None? && t.checkedInAt.None?
            && !t.revoked && t.revokedAt.None? && t.revokedBy.None? && t.revokedReason.None?
  {
  }
}
