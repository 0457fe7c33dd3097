/**
 The ticket service with its tables as fields, one method per service operation, written
 step by step as the service performs it. Each method is proved to leave the tables as the
 function of the same operation in `Tables` says.
 */
module TicketStore {
  import opened Domain
  import opened ShareGuards
  import opened Verification
  import opened Tables

  class Store {
    var tickets: map<TicketId, Ticket>
    var guards: map<TicketId, Guard>
    var keys: map<(TicketId, int), int>
    var logs: seq<ScanLog>
    var outbox: seq<Fact>
    var endsAt: map<EventId, int>
    var serial: nat
    var clock: int

    function Db(): Db
      reads this
    {
      Tables.Db(tickets, guards, keys, logs, outbox, endsAt, serial, clock)
    }

    constructor (now: int)
      ensures Db() == Tables.Db(map[], map[], map[], [], [], map[], 0, now)
    {
      tickets, guards, keys, logs, outbox, endsAt, serial, clock := map[], map[], map[], [], [], map[], 0, now;
    }

    method Enqueue(kind: FactKind, id: TicketId, event: EventId, subject: UserId)
      modifies this`outbox
      ensures Db() == old(Db()).(outbox := old(outbox) + [Fact(kind, id, event, subject)])
    {
      outbox := outbox + [Fact(kind, id, event, subject)];
    }

    method IsBlocked(id: TicketId) returns (blocked: bool)
      ensures blocked <==> id in guards && guards[id].blockedUntil.Some? && clock < guards[id].blockedUntil.value
    {
      if id !in guards {
        return false;
      }
      var guard := guards[id];
      if guard.blockedUntil.None? {
        return false;
      }
      blocked := guard.blockedUntil.value > clock;
    }

    method ResetShareGuard(id: TicketId)
      modifies this`guards
      ensures Db() == AfterReset(old(Db()), id)
    {
      if id !in guards {
        return;
      }
      var guard := guards[id];
      guards := guards[id := Guard(0, guard.lastFailAt, None, None)];
    }

    method ApplyDecision(id: TicketId, risk: Risk)
      requires id in tickets
      modifies this`guards, this`tickets
      ensures Db() == AfterFault(old(Db()), id, risk)
    {
      var now := clock;
      if id !in guards {
        guards := guards[id := FRESH_GUARD];
      }
      var guard := guards[id];
      var failCount := guard.failCount + 1;
      if risk.shouldRevoke || failCount >= REVOKE_THRESHOLD {
        tickets := tickets[id := tickets[id].(
          revoked := true, presence := Outside, revokedAt := Some(now), revokedBy := Some(SYSTEM_ACTOR))];
        return;
      }
      if risk.shouldBlock || failCount >= BASE_THRESHOLD {
        guards := guards[id := guard.(
          failCount := failCount, lastFailAt := Some(now), blockedUntil := Some(now + BLOCK_TTL_MS),
          reason := Some(risk.reason))];
        return;
      }
      guards := guards[id := guard.(failCount := failCount, lastFailAt := Some(now), reason := Some(risk.reason))];
    }

    /**
     The verification cascade. The row it swaps in goes through the caller's transaction, so
     it is handed back as `write` and becomes visible only when the caller commits.
     */
    method VerifyToken(token: Token, p: Presented) returns (verdict: Verdict, write: Option<Ticket>)
      requires token.ticketId in tickets
      modifies this`guards, this`tickets, this`keys
      ensures var j := JudgeScan(old(Db()), token, p);
              && Db() == AfterVerify(old(Db()), token, j)
              && verdict == VerdictOf(j)
              && write == if j == Accepted
                          then Some(Admitted(old(tickets)[token.ticketId], old(tickets)[token.ticketId], token.nonce,
                              p.direction, clock))
                          else None
    {
      var id := token.ticketId;
      var ticket := tickets[id];
      write := None;

      if ticket.revoked {
        return Revoked, None;
      }
      var blocked := IsBlocked(id);
      if blocked {
        return Blocked, None;
      }
      if ticket.publicKey.None? {
        return DeviceMismatch, None;
      }
      if p.signer != ticket.publicKey {
        ApplyDecision(id, CalculateRisk(SIGNATURE_RISK));
        return DeviceMismatch, None;
      }
      if ticket.deviceId != Some(p.device) {
        ApplyDecision(id, CalculateRisk(DEVICE_RISK));
        return DeviceMismatch, None;
      }
      if ticket.lastNonce.Some? && token.nonce <= ticket.lastNonce.value {
        ApplyDecision(id, CalculateRisk(REPLAY_RISK));
        return Replay, None;
      }
      if ticket.nextNonce != Some(token.nonce) {
        ApplyDecision(id, CalculateRisk(NONCE_RISK));
        return InvalidNonce, None;
      }

      var intended := IntendedState(p.direction);
      if ticket.presence == intended {
        return if intended == Inside then AlreadyInside else NotInside, None;
      }
      if p.direction == Entry {
        if ticket.eventId in endsAt && endsAt[ticket.eventId] < clock {
          return ExpiredEvent, None;
        }
      }

      var replayKey := (id, token.nonce);
      var acquired := !(replayKey in keys && clock < keys[replayKey]);
      if !acquired {
        ApplyDecision(id, CalculateRisk(REPLAY_RISK));
        return Replay, None;
      }
      keys := keys[replayKey := clock + REPLAY_KEY_TTL_MS];
      ResetShareGuard(id);

      // Served alone, the compare-and-swap cannot miss: the row is still the one just checked.
      assert tickets[id].nextNonce == Some(token.nonce);
      var checkedInAt := if intended == Inside then Some(clock) else ticket.checkedInAt;
      write := Some(tickets[id].(
        presence := intended, lastNonce := Some(token.nonce), nextNonce := Some(token.nonce + 1),
        checkedInAt := checkedInAt));
      verdict := Ok;
    }

    method Scan(token: Option<Token>, p: Presented, permitted: bool) returns (reply: ScanReply)
      modifies this
      ensures Db() == AfterScan(old(Db()), token, p, permitted)
      ensures reply == ScanReplyOf(old(Db()), token, p, permitted)
    {
      if token.None? || !Live(token.value, clock) {
        return ScanFailed(TokenInvalid);
      }
      var id := token.value.ticketId;
      if id !in tickets {
        return ScanFailed(TicketNotFound);
      }
      var ticket := tickets[id];
      var verdict, write := VerifyToken(token.value, p);
      if !permitted {
        return ScanFailed(AccessDenied);
      }
      if write.Some? {
        tickets := tickets[id := write.value];
      }
      var to := IntendedState(p.direction);
      logs := logs
          + [ScanLog(id, ticket.eventId, to, verdict, Some(token.value.nonce), p.gate, Some(p.device), p.actor)];
      Enqueue(if verdict == Ok then ScanSucceeded(to)
          else ScanRejected(verdict, to), id, ticket.eventId, ticket.guestId);
      if verdict == Ok {
        var checkedIn := write.Some? && write.value.presence == Inside;
        Enqueue(if checkedIn then CheckedIn else CheckedOut, id, ticket.eventId, ticket.guestId);
      }
      reply := Scanned(verdict);
      assert outbox == old(outbox) + ScanFacts(id, ticket, p.direction, verdict);
    }

    method Revoke(id: TicketId, reason: Option<string>, actor: UserId, permitted: bool) returns (reply: Reply)
      modifies this
      ensures Db() == AfterRevoke(old(Db()), id, reason, actor, permitted)
      ensures reply == RevokeReply(old(Db()), id, permitted)
    {
      var now := clock;
      if id !in tickets {
        return Failed(TicketNotFound);
      }
      var ticket := tickets[id];
      if !permitted {
        return Failed(AccessDenied);
      }
      if ticket.revoked {
        return Unchanged;
      }
      var why := if reason.Some? then reason else Some("Manual revoke");
      tickets := tickets[id := ticket.(
        revoked := true, presence := Outside, revokedAt := Some(now), revokedBy := Some(actor), revokedReason := why)];
      logs := logs + [ScanLog(id, ticket.eventId, Outside, Revoked, None, None, None, actor)];
      Enqueue(TicketRevoked, id, ticket.eventId, ticket.guestId);
      reply := Done;
    }

    method UpdatePresence(id: TicketId, state: Presence, actor: UserId, permitted: bool) returns (reply: Reply)
      modifies this
      ensures Db() == AfterPresence(old(Db()), id, state, actor, permitted)
      ensures reply == PresenceReply(old(Db()), id, state, permitted)
    {
      if id !in tickets {
        return Failed(TicketNotFound);
      }
      var ticket := tickets[id];
      if !permitted {
        return Failed(AccessDenied);
      }
      if ticket.revoked {
        return Failed(TicketIsRevoked);
      }
      if ticket.presence == state {
        return Unchanged;
      }
      tickets := tickets[id := tickets[id].(presence := state)];
      if state == Inside && ticket.checkedInAt.None? {
        tickets := tickets[id := tickets[id].(checkedInAt := Some(clock))];
      }
      logs := logs + [ScanLog(id, ticket.eventId, state, Ok, None, MANUAL_GATE, None, actor)];
      Enqueue(if state == Inside then CheckedIn else CheckedOut, id, ticket.eventId, ticket.guestId);
      reply := Done;
    }

    method ActivateDevice(id: TicketId, device: DeviceId, key: PublicKey, keyValid: bool,
        actor: UserId) returns (reply: Reply)
      modifies this`tickets
      ensures Db() == AfterActivate(old(Db()), id, device, key, keyValid, actor)
      ensures reply == ActivateReply(old(Db()), id, device, keyValid, actor)
    {
      if id !in tickets {
        return Failed(TicketNotFound);
      }
      var ticket := tickets[id];
      if ticket.guestId != actor {
        return Failed(NotOwner);
      }
      if ticket.deviceId.Some? && ticket.publicKey.Some? && ticket.deviceId.value != device {
        return Failed(DeviceAlreadyBound);
      }
      if !keyValid {
        return Failed(DeviceKeyInvalid);
      }
      tickets := tickets[id := ticket.(publicKey := Some(key), deviceId := Some(device))];
      tickets := map i | i in tickets ::
        if tickets[i].eventId == ticket.eventId && tickets[i].deviceId == Some(device) && i != id
        then tickets[i].(publicKey := None, deviceId := None)
        else tickets[i];
      reply := Done;
    }

    method ResetDeviceBinding(id: TicketId, actor: UserId, permitted: bool) returns (reply: Reply)
      modifies this
      ensures Db() == AfterResetBinding(old(Db()), id, actor, permitted)
      ensures reply == ResetReply(old(Db()), id, permitted)
    {
      if id !in tickets {
        return Failed(TicketNotFound);
      }
      var ticket := tickets[id];
      if !permitted {
        return Failed(AccessDenied);
      }
      if ticket.deviceId.None? && ticket.publicKey.None? {
        return Unchanged;
      }
      tickets := tickets[id := ticket.(publicKey := None, deviceId := None)];
      logs := logs + [ScanLog(id, ticket.eventId, Outside, Unknown, None, MANUAL_GATE, ticket.deviceId, actor)];
      reply := Done;
    }

    /** The invitation index is unique, so at most one ticket answers the look-up. */
    method CreateTicket(m: Mapping) returns (reply: Reply)
      requires UniqueRows(tickets)
      modifies this
      ensures Db() == AfterCreate(old(Db()), m)
      ensures UniqueRows(tickets)
      ensures reply == CreateReply(old(Db()), m)
    {
      if existing :| existing in tickets && tickets[existing].invitationId == m.invitationId {
        var ticket := tickets[existing];
        if ticket.eventId != m.eventId || ticket.guestId != m.guestId || ticket.seatId != m.seatId {
          return Failed(AlreadyExists);
        }
        return Unchanged;
      }
      if exists id :: id in tickets && Conflicts(tickets[id], m) {
        return Failed(UniqueViolation);
      }
      tickets := tickets[serial := NewTicket(m)];
      Enqueue(TicketGenerated, serial, m.eventId, m.guestId);
      serial := serial + 1;
      reply := Done;
    }

    method Delete(id: TicketId, permitted: bool) returns (reply: Reply)
      modifies this
      ensures Db() == AfterDelete(old(Db()), id, permitted)
      ensures reply == DeleteReply(old(Db()), id, permitted)
    {
      if id !in tickets {
        return Failed(TicketNotFound);
      }
      if !permitted {
        return Failed(AccessDenied);
      }
      logs := WithoutLogsOf(logs, id);
      guards := guards - {id};
      tickets := tickets - {id};
      reply := Done;
    }

    method GenerateToken(id: TicketId, actor: UserId, tokenSerial: nat) returns (reply: TokenReply)
      ensures reply == TokenReplyOf(Db(), id, actor, tokenSerial)
    {
      if id !in tickets {
        return NotIssued(TicketNotFound);
      }
      var ticket := tickets[id];
      if ticket.guestId != actor {
        return NotIssued(NotOwner);
      }
      if ticket.nextNonce.None? {
        return NotIssued(NonceUninitialized);
      }
      reply := Issued(Token(tokenSerial, id, ticket.nextNonce.value, clock));
    }
  }
}
