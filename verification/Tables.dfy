/**
 The database, the replay cache and the clock as one value, and what each service
 operation, served alone, makes of it. `TicketStore` proves its methods against these
 functions; `AtomicRuns` and its siblings prove the service's laws about them.
 */
module Tables {
  import opened Domain
  import opened ShareGuards
  import opened Verification

  datatype Db = Db(
    tickets: map<TicketId, Ticket>,
    guards: map<TicketId, Guard>,
    keys: map<(TicketId, int), int>,   // replay key -> moment it expires
    logs: seq<ScanLog>,
    outbox: seq<Fact>,
    endsAt: map<EventId, int>,
    serial: nat,                       // identifiers below this one are used up
    clock: int)

  datatype Error =
    | TokenInvalid | TicketNotFound | AccessDenied | NotOwner | TicketIsRevoked
    | AlreadyExists | UniqueViolation | DeviceAlreadyBound | DeviceKeyInvalid | NonceUninitialized

  /** `Unchanged` is an operation that finds nothing to do and succeeds. */
  datatype Reply = Done | Unchanged | Failed(error: Error)
  datatype ScanReply = Scanned(verdict: Verdict) | ScanFailed(error: Error)
  datatype TokenReply = Issued(token: Token) | NotIssued(error: Error)

  function GuardOf(db: Db, id: TicketId): Option<Guard> {
    if id in db.guards then Some(db.guards[id]) else None
  }

  predicate KeyHeld(db: Db, id: TicketId, nonce: int) {
    (id, nonce) in db.keys && db.clock < db.keys[(id, nonce)]
  }

  function EndOf(db: Db, event: EventId): Option<int> {
    if event in db.endsAt then Some(db.endsAt[event]) else None
  }

  // ---- the share guard ----

  function AfterFault(db: Db, id: TicketId, risk: Risk): Db
    requires id in db.tickets
  {
    var guard := Upserted(GuardOf(db, id));
    if Revokes(guard.failCount, risk) then
      db.(guards := db.guards[id := guard], tickets := db.tickets[id := AutoRevoked(db.tickets[id], db.clock)])
    else
      db.(guards := db.guards[id := Recorded(guard, guard.failCount, risk, db.clock)])
  }

  function AfterReset(db: Db, id: TicketId): Db {
    if id in db.guards then db.(guards := db.guards[id := Cleared(db.guards[id])]) else db
  }

  // ---- gate scans ----

  function JudgeScan(db: Db, token: Token, p: Presented): Judgement
    requires token.ticketId in db.tickets
  {
    var t := db.tickets[token.ticketId];
    Judge(t, GuardOf(db, token.ticketId), KeyHeld(db, token.ticketId, token.nonce), token.nonce, p,
        EndOf(db, t.eventId), db.clock)
  }

  /** The effects that stay even if the scan's transaction is rolled back. */
  function AfterVerify(db: Db, token: Token, j: Judgement): Db
    requires token.ticketId in db.tickets
  {
    match j
    case Turned(_) => db
    case Faulted(_, risk) => AfterFault(db, token.ticketId, risk)
    case Accepted =>
        AfterReset(db.(keys := db.keys[(token.ticketId, token.nonce) := db.clock + REPLAY_KEY_TTL_MS]), token.ticketId)
  }

  function VerdictOf(j: Judgement): Verdict {
    match j
    case Turned(v) => v
    case Faulted(v, _) => v
    case Accepted => Ok
  }

  /** The presented token reaches the cascade: it verifies, and its ticket exists. */
  predicate Reaches(db: Db, token: Option<Token>) {
    token.Some? && Live(token.value, db.clock) && token.value.ticketId in db.tickets
  }

  function ScanReplyOf(db: Db, token: Option<Token>, p: Presented, permitted: bool): ScanReply {
    if !Reaches(db, token) then
      ScanFailed(if token.Some? && Live(token.value, db.clock) then TicketNotFound else TokenInvalid)
    else if !permitted then ScanFailed(AccessDenied)
    else Scanned(VerdictOf(JudgeScan(db, token.value, p)))
  }

  function AfterScan(db: Db, token: Option<Token>, p: Presented, permitted: bool): Db {
    if !Reaches(db, token) then db else
    var id, nonce := token.value.ticketId, token.value.nonce;
    var t := db.tickets[id];
    var j := JudgeScan(db, token.value, p);
    var verified := AfterVerify(db, token.value, j);
    if !permitted then verified else
    var rows := if j == Accepted then verified.tickets[id := Admitted(t, t, nonce, p.direction, db.clock)]
        else verified.tickets;
    verified.(
      tickets := rows,
      logs := db.logs + [ScanEntry(id, t, nonce, p, VerdictOf(j))],
      outbox := db.outbox + ScanFacts(id, t, p.direction, VerdictOf(j)))
  }

  // ---- staff operations ----

  function RevokedByHand(t: Ticket, reason: Option<string>, actor: UserId, now: int): Ticket {
    t.(revoked := true, presence := Outside, revokedAt := Some(now), revokedBy := Some(actor),
       revokedReason := if reason.Some? then reason else Some("Manual revoke"))
  }

  function RevokeReply(db: Db, id: TicketId, permitted: bool): Reply {
    if id !in db.tickets then Failed(TicketNotFound)
    else if !permitted then Failed(AccessDenied)
    else if db.tickets[id].revoked then Unchanged
    else Done
  }

  function AfterRevoke(db: Db, id: TicketId, reason: Option<string>, actor: UserId, permitted: bool): Db {
    if RevokeReply(db, id, permitted) != Done then db else
    var t := db.tickets[id];
    db.(
      tickets := db.tickets[id := RevokedByHand(t, reason, actor, db.clock)],
      logs := db.logs + [ScanLog(id, t.eventId, Outside, Revoked, None, None, None, actor)],
      outbox := db.outbox + [Fact(TicketRevoked, id, t.eventId, t.guestId)])
  }

  /** The row a manual presence change writes, deciding on an earlier read of it. */
  function Overridden(row: Ticket, seen: Ticket, state: Presence, now: int): Ticket {
    if state == Inside && seen.checkedInAt.None? then row.(presence := state, checkedInAt := Some(now))
    else row.(presence := state)
  }

  function ManualEntry(id: TicketId, t: Ticket, state: Presence, actor: UserId): ScanLog {
    ScanLog(id, t.eventId, state, Ok, None, MANUAL_GATE, None, actor)
  }

  function PresenceReply(db: Db, id: TicketId, state: Presence, permitted: bool): Reply {
    if id !in db.tickets then Failed(TicketNotFound)
    else if !permitted then Failed(AccessDenied)
    else if db.tickets[id].revoked then Failed(TicketIsRevoked)
    else if db.tickets[id].presence == state then Unchanged
    else Done
  }

  function AfterPresence(db: Db, id: TicketId, state: Presence, actor: UserId, permitted: bool): Db {
    if PresenceReply(db, id, state, permitted) != Done then db else
    var t := db.tickets[id];
    db.(
      tickets := db.tickets[id := Overridden(t, t, state, db.clock)],
      logs := db.logs + [ManualEntry(id, t, state, actor)],
      outbox := db.outbox + [Fact(CrossingKind(state), id, t.eventId, t.guestId)])
  }

  // ---- device binding ----

  function Unbound(t: Ticket): Ticket {
    t.(publicKey := None, deviceId := None)
  }

  function ActivateReply(db: Db, id: TicketId, device: DeviceId, keyValid: bool, actor: UserId): Reply {
    if id !in db.tickets then Failed(TicketNotFound)
    else if db.tickets[id].guestId != actor then Failed(NotOwner)
    else if db.tickets[id].deviceId.Some? && db.tickets[id].publicKey.Some? && db.tickets[id].deviceId.value != device
    then Failed(DeviceAlreadyBound)
    else if !keyValid then Failed(DeviceKeyInvalid)
    else Done
  }

  /** Binding a device takes it away from every other ticket of the same event. */
  function AfterActivate(db: Db, id: TicketId, device: DeviceId, key: PublicKey, keyValid: bool, actor: UserId): Db {
    if ActivateReply(db, id, device, keyValid, actor) != Done then db else
    var event := db.tickets[id].eventId;
    db.(tickets := map i | i in db.tickets ::
      if i == id then db.tickets[i].(publicKey := Some(key), deviceId := Some(device))
      else if db.tickets[i].eventId == event && db.tickets[i].deviceId == Some(device) then Unbound(db.tickets[i])
      else db.tickets[i])
  }

  function ResetReply(db: Db, id: TicketId, permitted: bool): Reply {
    if id !in db.tickets then Failed(TicketNotFound)
    else if !permitted then Failed(AccessDenied)
    else if db.tickets[id].deviceId.None? && db.tickets[id].publicKey.None? then Unchanged
    else Done
  }

  function AfterResetBinding(db: Db, id: TicketId, actor: UserId, permitted: bool): Db {
    if ResetReply(db, id, permitted) != Done then db else
    var t := db.tickets[id];
    db.(
      tickets := db.tickets[id := Unbound(t)],
      logs := db.logs + [ScanLog(id, t.eventId, Outside, Unknown, None, MANUAL_GATE, t.deviceId, actor)])
  }

  // ---- life cycle ----

  /** The three unique indexes of the ticket table. */
  ghost predicate UniqueRows(tickets: map<TicketId, Ticket>) {
    forall a, b :: a in tickets && b in tickets && a != b ==>
      && tickets[a].invitationId != tickets[b].invitationId
      && tickets[a].seatId != tickets[b].seatId
      && (tickets[a].eventId == tickets[b].eventId ==> tickets[a].guestId != tickets[b].guestId)
  }

  predicate Matches(t: Ticket, m: Mapping) {
    t.eventId == m.eventId && t.guestId == m.guestId && t.seatId == m.seatId
  }

  predicate InvitationTaken(db: Db, m: Mapping) {
    exists id :: id in db.tickets && db.tickets[id].invitationId == m.invitationId
  }

  /** A unique index other than the invitation's refuses the row. */
  predicate Conflicts(t: Ticket, m: Mapping) {
    t.seatId == m.seatId || (t.eventId == m.eventId && t.guestId == m.guestId)
  }

  function CreateReply(db: Db, m: Mapping): Reply {
    if InvitationTaken(db, m) then
      if exists id :: id in db.tickets && db.tickets[id].invitationId == m.invitationId && Matches(db.tickets[id], m)
      then Unchanged else Failed(AlreadyExists)
    else if exists id :: id in db.tickets && Conflicts(db.tickets[id], m) then Failed(UniqueViolation)
    else Done
  }

  function AfterCreate(db: Db, m: Mapping): Db {
    if CreateReply(db, m) != Done then db else
    db.(
      tickets := db.tickets[db.serial := NewTicket(m)],
      outbox := db.outbox + [Fact(TicketGenerated, db.serial, m.eventId, m.guestId)],
      serial := db.serial + 1)
  }

  function WithoutLogsOf(logs: seq<ScanLog>, id: TicketId): seq<ScanLog> {
    if logs == [] then []
    else
      var last := logs[|logs| - 1];
      WithoutLogsOf(logs[..|logs| - 1], id) + (if last.ticketId == id then [] else [last])
  }

  function DeleteReply(db: Db, id: TicketId, permitted: bool): Reply {
    if id !in db.tickets then Failed(TicketNotFound)
    else if !permitted then Failed(AccessDenied)
    else Done
  }

  /** Logs and guard go with the ticket; facts already in the outbox and replay keys stay. */
  function AfterDelete(db: Db, id: TicketId, permitted: bool): Db {
    if DeleteReply(db, id, permitted) != Done then db else
    db.(tickets := db.tickets - {id}, guards := db.guards - {id}, logs := WithoutLogsOf(db.logs, id))
  }

  function TokenReplyOf(db: Db, id: TicketId, actor: UserId, serial: nat): TokenReply {
    if id !in db.tickets then NotIssued(TicketNotFound)
    else if db.tickets[id].guestId != actor then NotIssued(NotOwner)
    else if db.tickets[id].nextNonce.None? then NotIssued(NonceUninitialized)
    else Issued(Token(serial, id, db.tickets[id].nextNonce.value, db.clock))
  }
}
