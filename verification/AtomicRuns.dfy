/**
 Runs of the service with its operations served one after the other, and the laws that
 hold of every reachable database: row, guard and key bounds, unique rows, and the ledger
 that ties presence, scan logs and outbox facts together.
 */
module AtomicRuns {
  import opened Domain
  import opened ShareGuards
  import opened Verification
  import opened Tables

  datatype Op =
    | Scan(token: Option<Token>, p: Presented, permitted: bool)
    | Override(id: TicketId, state: Presence, actor: UserId, permitted: bool)
    | Revoke(id: TicketId, reason: Option<string>, actor: UserId, permitted: bool)
    | Activate(id: TicketId, device: DeviceId, key: PublicKey, keyValid: bool, actor: UserId)
    | ResetBinding(id: TicketId, actor: UserId, permitted: bool)
    | Create(m: Mapping)
    | Delete(id: TicketId, permitted: bool)
    | Generate(id: TicketId, actor: UserId, tokenSerial: nat)
    | EventEnds(event: EventId, endsAt: Option<int>)
    | Advance(ms: nat)

  function Apply(db: Db, op: Op): Db {
    match op
    case Scan(token, p, permitted) => AfterScan(db, token, p, permitted)
    case Override(id, state, actor, permitted) => AfterPresence(db, id, state, actor, permitted)
    case Revoke(id, reason, actor, permitted) => AfterRevoke(db, id, reason, actor, permitted)
    case Activate(id, device, key, keyValid, actor) => AfterActivate(db, id, device, key, keyValid, actor)
    case ResetBinding(id, actor, permitted) => AfterResetBinding(db, id, actor, permitted)
    case Create(m) => AfterCreate(db, m)
    case Delete(id, permitted) => AfterDelete(db, id, permitted)
    case Generate(_, _, _) => db
    case EventEnds(event, endsAt) =>
      db.(endsAt := if endsAt.Some? then db.endsAt[event := endsAt.value] else db.endsAt - {event})
    case Advance(ms) => db.(clock := db.clock + ms)
  }

  function Run(db: Db, ops: seq<Op>): Db {
    if ops == [] then db else Apply(Run(db, ops[..|ops| - 1]), ops[|ops| - 1])
  }

  function EmptyDb(now: int): Db {
    Db(map[], map[], map[], [], [], map[], 0, now)
  }

  // ---- bounds on rows, guards and keys ----

  ghost predicate RowOk(t: Ticket) {
    && t.nextNonce.Some? && t.nextNonce.value >= 1
    && t.lastNonce == (if t.nextNonce.value == 1 then None else Some(t.nextNonce.value - 1))
    && (t.publicKey.Some? <==> t.deviceId.Some?)
    && (t.presence == Inside ==> t.checkedInAt.Some?)
    && (t.revoked ==> t.presence == Outside)
  }

  ghost predicate GuardOk(g: Guard, now: int) {
    && 0 <= g.failCount < 10
    && (g.blockedUntil.Some? ==> g.blockedUntil.value <= now + 300_000)
  }

  ghost predicate OneTicketPerDevice(tickets: map<TicketId, Ticket>) {
    forall a, b :: a in tickets && b in tickets && a != b && tickets[a].eventId == tickets[b].eventId ==>
      tickets[a].deviceId.None? || tickets[a].deviceId != tickets[b].deviceId
  }

  ghost predicate Wf(db: Db) {
    TicketsOk(db.tickets, db.serial) && GuardsOk(db) && KeysOk(db) && TracesOk(db)
  }

  /** Columns that say whose ticket this is; no operation but creation writes them. */
  ghost predicate SameIdentity(a: Ticket, b: Ticket) {
    a.eventId == b.eventId && a.invitationId == b.invitationId && a.seatId == b.seatId && a.guestId == b.guestId
  }

  ghost predicate TicketsOk(tickets: map<TicketId, Ticket>, serial: nat) {
    && (forall id :: id in tickets ==> id < serial && RowOk(tickets[id]))
    && UniqueRows(tickets)
    && OneTicketPerDevice(tickets)
  }

  /** Replacing one row keeps the table sound if the row keeps its identity and gains no device. */
  lemma RowReplaced(tickets: map<TicketId, Ticket>, serial: nat, id: TicketId, t: Ticket)
    requires TicketsOk(tickets, serial) && id in tickets
    requires RowOk(t) && SameIdentity(t, tickets[id])
    requires t.deviceId.None? || t.deviceId == tickets[id].deviceId
    ensures TicketsOk(tickets[id := t], serial)
  {
  }

  lemma ScanRowsKept(db: Db, token: Token, p: Presented, permitted: bool)
    requires Wf(db) && token.ticketId in db.tickets
    ensures TicketsOk(AfterScan(db, Some(token), p, permitted).tickets, AfterScan(db, Some(token), p, permitted).serial)
  {
    var id := token.ticketId;
    var t := db.tickets[id];
    if Live(token, db.clock) {
      match JudgeScan(db, token, p)
      case Turned(_) =>
      case Faulted(_, _) => RowReplaced(db.tickets, db.serial, id, AutoRevoked(t, db.clock));
      case Accepted =>
        AcceptedIff(t, GuardOf(db, id), KeyHeld(db, id, token.nonce), token.nonce, p, EndOf(db, t.eventId), db.clock);
        RowReplaced(db.tickets, db.serial, id, Admitted(t, t, token.nonce, p.direction, db.clock));
    }
  }

  lemma ActivateRowsKept(db: Db, op: Op)
    requires Wf(db) && op.Activate?
    ensures TicketsOk(Apply(db, op).tickets, Apply(db, op).serial)
  {
    var after := Apply(db, op).tickets;
    if ActivateReply(db, op.id, op.device, op.keyValid, op.actor) == Done {
      var event := db.tickets[op.id].eventId;
      forall i | i in after
        ensures RowOk(after[i]) && SameIdentity(after[i], db.tickets[i])
        ensures i != op.id ==> after[i].deviceId.None? || after[i].deviceId == db.tickets[i].deviceId
        ensures i != op.id && after[i].eventId == event ==> after[i].deviceId != Some(op.device)
      {
      }
      assert UniqueRows(after);
      assert OneTicketPerDevice(after);
    }
  }

  lemma CreateRowsKept(db: Db, m: Mapping)
    requires Wf(db)
    ensures TicketsOk(AfterCreate(db, m).tickets, AfterCreate(db, m).serial)
  {
    if CreateReply(db, m) == Done {
      RowAdded(db.tickets, db.serial, m);
    }
  }

  /** A new row that meets no unique index leaves the table sound. */
  lemma RowAdded(tickets: map<TicketId, Ticket>, serial: nat, m: Mapping)
    requires TicketsOk(tickets, serial)
    requires forall id :: id in tickets ==> !Conflicts(tickets[id], m) && tickets[id].invitationId != m.invitationId
    ensures TicketsOk(tickets[serial := NewTicket(m)], serial + 1)
  {
    var after := tickets[serial := NewTicket(m)];
    assert forall id :: id in after ==> id == serial || (id in tickets && after[id] == tickets[id]);
  }

  lemma StaffRowsKept(db: Db, op: Op)
    requires Wf(db) && (op.Override? || op.Revoke? || op.ResetBinding?)
    ensures TicketsOk(Apply(db, op).tickets, Apply(db, op).serial)
  {
    if op.id in db.tickets {
      var t := db.tickets[op.id];
      match op
      case Override(id, state, _, _) =>
        if !t.revoked {
          RowReplaced(db.tickets, db.serial, id, Overridden(t, t, state, db.clock));
        }
      case Revoke(id, reason, actor, _) =>
          RowReplaced(db.tickets, db.serial, id, RevokedByHand(t, reason, actor, db.clock));
      case ResetBinding(id, _, _) => RowReplaced(db.tickets, db.serial, id, Unbound(t));
    }
  }

  lemma DeleteRowsKept(db: Db, id: TicketId, permitted: bool)
    requires Wf(db)
    ensures TicketsOk(AfterDelete(db, id, permitted).tickets, AfterDelete(db, id, permitted).serial)
  {
    var after := AfterDelete(db, id, permitted).tickets;
    assert forall i :: i in after ==> i in db.tickets && after[i] == db.tickets[i];
  }

  lemma RowsKept(db: Db, op: Op)
    requires Wf(db)
    ensures TicketsOk(Apply(db, op).tickets, Apply(db, op).serial)
  {
    match op
    case Scan(token, p, permitted) =>
      if Reaches(db, token) {
        ScanRowsKept(db, token.value, p, permitted);
      }
    case Create(m) => CreateRowsKept(db, m);
    case Activate(_, _, _, _, _) => ActivateRowsKept(db, op);
    case Override(_, _, _, _) => StaffRowsKept(db, op);
    case Revoke(_, _, _, _) => StaffRowsKept(db, op);
    case ResetBinding(_, _, _) => StaffRowsKept(db, op);
    case Delete(id, permitted) => DeleteRowsKept(db, id, permitted);
    case Generate(_, _, _) =>
    case EventEnds(_, _) =>
    case Advance(_) =>
  }

  lemma {:induction false} WithoutLogsSound(logs: seq<ScanLog>, id: TicketId)
    ensures forall l :: l in WithoutLogsOf(logs, id) ==> l in logs && l.ticketId != id
  {
    if logs == [] {
    } else {
      WithoutLogsSound(logs[..|logs| - 1], id);
    }
  }

  ghost predicate GuardsOk(db: Db) {
    forall id :: id in db.guards ==> id in db.tickets && GuardOk(db.guards[id], db.clock)
  }

  ghost predicate KeysOk(db: Db) {
    forall k :: k in db.keys ==> k.0 < db.serial && db.keys[k] <= db.clock + 120_000
  }

  /** Nothing is written about a ticket before it exists, and no log outlives its ticket. */
  ghost predicate TracesOk(db: Db) {
    && (forall l :: l in db.logs ==> l.ticketId in db.tickets)
    && (forall f :: f in db.outbox ==> f.ticketId < db.serial)
  }

  lemma FaultGuardsKept(db: Db, id: TicketId, risk: Risk)
    requires GuardsOk(db) && id in db.tickets
    ensures GuardsOk(AfterFault(db, id, risk))
  {
  }

  lemma ScanGuardsKept(db: Db, op: Op)
    requires Wf(db) && op.Scan?
    ensures GuardsOk(Apply(db, op))
  {
    if Reaches(db, op.token) {
      match JudgeScan(db, op.token.value, op.p)
      case Turned(_) =>
      case Faulted(_, risk) => FaultGuardsKept(db, op.token.value.ticketId, risk);
      case Accepted =>
    }
  }

  lemma QuietGuardsKept(db: Db, op: Op)
    requires GuardsOk(db) && !op.Scan? && !op.Delete? && !op.Advance?
    ensures GuardsOk(Apply(db, op))
  {
    assert Apply(db, op).guards == db.guards && Apply(db, op).clock == db.clock;
    assert db.tickets.Keys <= Apply(db, op).tickets.Keys;
  }

  lemma GuardsKept(db: Db, op: Op)
    requires Wf(db)
    ensures GuardsOk(Apply(db, op))
  {
    if op.Scan? {
      ScanGuardsKept(db, op);
    } else if !op.Advance? && !op.Delete? {
      QuietGuardsKept(db, op);
    }
  }

  lemma KeysKept(db: Db, op: Op)
    requires Wf(db)
    ensures KeysOk(Apply(db, op))
  {
    if op.Scan? {
      ScanKeysKept(db, op.token, op.p, op.permitted);
    }
  }

  lemma ScanKeysKept(db: Db, token: Option<Token>, p: Presented, permitted: bool)
    requires KeysOk(db) && (Reaches(db, token) ==> token.value.ticketId < db.serial)
    ensures KeysOk(AfterScan(db, token, p, permitted))
  {
    if Reaches(db, token) {
      assert KeysOk(AfterVerify(db, token.value, JudgeScan(db, token.value, p)));
    }
  }

  lemma TracesGrow(db: Db, after: Db, logs: seq<ScanLog>, facts: seq<Fact>)
    requires TracesOk(db)
    requires db.tickets.Keys <= after.tickets.Keys && db.serial <= after.serial
    requires after.logs == db.logs + logs && after.outbox == db.outbox + facts
    requires forall l :: l in logs ==> l.ticketId in after.tickets
    requires forall f :: f in facts ==> f.ticketId < after.serial
    ensures TracesOk(after)
  {
  }

  /** What an operation other than a deletion writes to the log and the outbox. */
  ghost function NewLogs(db: Db, op: Op): seq<ScanLog> {
    match op
    case Scan(token, p, permitted) =>
      if Reaches(db, token) && permitted then
        [ScanEntry(token.value.ticketId, db.tickets[token.value.ticketId], token.value.nonce, p,
            VerdictOf(JudgeScan(db, token.value, p)))]
      else []
    case Override(id, state, actor, permitted) =>
      if PresenceReply(db, id, state, permitted) == Done then [ManualEntry(id, db.tickets[id], state, actor)] else []
    case Revoke(id, _, actor, permitted) =>
      if RevokeReply(db, id, permitted) == Done
      then [ScanLog(id, db.tickets[id].eventId, Outside, Revoked, None, None, None, actor)] else []
    case ResetBinding(id, actor, permitted) =>
      if ResetReply(db, id, permitted) == Done
      then [ScanLog(id, db.tickets[id].eventId, Outside, Unknown, None, MANUAL_GATE,
          db.tickets[id].deviceId, actor)] else []
    case _ => []
  }

  ghost function NewFacts(db: Db, op: Op): seq<Fact> {
    match op
    case Scan(token, p, permitted) =>
      if Reaches(db, token) && permitted then
        ScanFacts(token.value.ticketId, db.tickets[token.value.ticketId], p.direction,
            VerdictOf(JudgeScan(db, token.value, p)))
      else []
    case Override(id, state, actor, permitted) =>
      if PresenceReply(db, id, state, permitted) == Done
      then [Fact(CrossingKind(state), id, db.tickets[id].eventId, db.tickets[id].guestId)] else []
    case Revoke(id, _, actor, permitted) =>
      if RevokeReply(db, id, permitted) == Done
      then [Fact(TicketRevoked, id, db.tickets[id].eventId, db.tickets[id].guestId)] else []
    case Create(m) =>
      if CreateReply(db, m) == Done then [Fact(TicketGenerated, db.serial, m.eventId, m.guestId)] else []
    case _ => []
  }

  lemma Appends(db: Db, op: Op)
    requires !op.Delete?
    ensures Apply(db, op).logs == db.logs + NewLogs(db, op)
    ensures Apply(db, op).outbox == db.outbox + NewFacts(db, op)
    ensures db.tickets.Keys <= Apply(db, op).tickets.Keys && db.serial <= Apply(db, op).serial
  {
    if op.Scan? {
      ScanAppends(db, op.token, op.p, op.permitted);
    } else if op.Override? || op.Revoke? || op.ResetBinding? {
      StaffAppends(db, op);
    }
  }

  lemma ScanAppends(db: Db, token: Option<Token>, p: Presented, permitted: bool)
    ensures AfterScan(db, token, p, permitted).logs == db.logs + NewLogs(db, Op.Scan(token, p, permitted))
    ensures AfterScan(db, token, p, permitted).outbox == db.outbox + NewFacts(db, Op.Scan(token, p, permitted))
    ensures db.tickets.Keys <= AfterScan(db, token, p, permitted).tickets.Keys
        && AfterScan(db, token, p, permitted).serial == db.serial
  {
  }

  lemma StaffAppends(db: Db, op: Op)
    requires op.Override? || op.Revoke? || op.ResetBinding?
    ensures Apply(db, op).logs == db.logs + NewLogs(db, op)
    ensures Apply(db, op).outbox == db.outbox + NewFacts(db, op)
    ensures db.tickets.Keys <= Apply(db, op).tickets.Keys && Apply(db, op).serial == db.serial
  {
  }

  lemma TracesKept(db: Db, op: Op)
    requires Wf(db)
    ensures TracesOk(Apply(db, op))
  {
    if op.Delete? {
      WithoutLogsSound(db.logs, op.id);
    } else {
      Appends(db, op);
      TracesGrow(db, Apply(db, op), NewLogs(db, op), NewFacts(db, op));
    }
  }

  lemma WfKept(db: Db, op: Op)
    requires Wf(db)
    ensures Wf(Apply(db, op))
  {
    RowsKept(db, op);
    GuardsKept(db, op);
    KeysKept(db, op);
    TracesKept(db, op);
  }
}
