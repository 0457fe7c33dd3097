/**
 Who may do what: the exact case of every answer the service gives to staff, owners and
 creation messages, and the exact ways in which each column of a ticket can change.
 */
module Authority {
  import opened Domain
  import opened ShareGuards
  import opened Verification
  import opened Tables
  import opened AtomicRuns
  import opened Verdicts
  import Erasure
  import Ledger

  ghost predicate ByStaff(op: Op) {
    op.Override? || op.Revoke? || op.ResetBinding? || op.Delete?
  }

  /** Nothing is left to do for this operation of permitted staff. */
  ghost predicate Idle(t: Ticket, op: Op) {
    || (op.Revoke? && t.revoked)
    || (op.Override? && !t.revoked && t.presence == op.state)
    || (op.ResetBinding? && t.deviceId.None? && t.publicKey.None?)
  }

  /**
   Staff without permission, or naming a ticket that does not exist, are refused, a revoked
   ticket cannot be moved by hand, and the database changes exactly if the answer is done.
   */
  lemma StaffAnswers(db: Db, op: Op)
    requires ByStaff(op)
    ensures Erasure.AnswerTo(db, op).OpAnswer?
    ensures var a, found := Erasure.AnswerTo(db, op).reply, op.id in db.tickets;
            && (a == Failed(TicketNotFound) <==> !found)
            && (a == Failed(AccessDenied) <==> found && !op.permitted)
            && (a == Failed(TicketIsRevoked) <==> found && op.permitted && op.Override? && db.tickets[op.id].revoked)
            && (a == Unchanged <==> found && op.permitted && Idle(db.tickets[op.id], op))
            && (a.Failed? ==> a.error in {TicketNotFound, AccessDenied, TicketIsRevoked})
            && (a == Done <==> Apply(db, op) != db)
  {
    var after := Apply(db, op);
    if Erasure.AnswerTo(db, op).reply == Done {
      if op.Delete? {
        assert op.id in db.tickets && op.id !in after.tickets;
      } else {
        assert |after.logs| == |db.logs| + 1;
      }
    }
  }

  /**
   Only the guest of a ticket can bind a device to it: with a valid key, and while it is
   unbound or bound to that very device. Any other attempt names its error and changes nothing.
   */
  lemma ActivationAnswers(db: Db, op: Op)
    requires op.Activate?
    ensures Erasure.AnswerTo(db, op).OpAnswer?
    ensures var a := Erasure.AnswerTo(db, op).reply;
            && (op.id !in db.tickets <==> a == Failed(TicketNotFound))
            && (op.id in db.tickets ==>
                  var t := db.tickets[op.id];
                  var owner, foreign := t.guestId == op.actor, BoundElsewhere(t, op.device);
                  && (a == Failed(NotOwner) <==> !owner)
                  && (a == Failed(DeviceAlreadyBound) <==> owner && foreign)
                  && (a == Failed(DeviceKeyInvalid) <==> owner && !foreign && !op.keyValid)
                  && (a == Done <==> owner && !foreign && op.keyValid))
            && (a != Done ==> Apply(db, op) == db)
  {
  }

  ghost predicate BoundElsewhere(t: Ticket, device: DeviceId) {
    t.deviceId.Some? && t.publicKey.Some? && t.deviceId.value != device
  }

  /** Only the guest gets a token, for this ticket, its next nonce and this moment. */
  lemma TokenAnswers(db: Db, id: TicketId, actor: UserId, serial: nat)
    ensures var a := TokenReplyOf(db, id, actor, serial);
            && (a == NotIssued(TicketNotFound) <==> id !in db.tickets)
            && (a == NotIssued(NotOwner) <==> id in db.tickets && db.tickets[id].guestId != actor)
            && (a.Issued? <==> id in db.tickets && db.tickets[id].guestId == actor && db.tickets[id].nextNonce.Some?)
            && (a.Issued? ==>
                  && a.token.ticketId == id && a.token.issuedAt == db.clock && a.token.serial == serial
                  && Due(db.tickets[id], a.token.nonce))
  {
  }

  // ---- creation ----

  ghost predicate HasInvitation(db: Db, m: Mapping, id: TicketId) {
    id in db.tickets && db.tickets[id].invitationId == m.invitationId
  }

  ghost predicate SameRequest(t: Ticket, m: Mapping) {
    t.eventId == m.eventId && t.guestId == m.guestId && t.seatId == m.seatId
  }

  /** Another ticket has the seat, or the guest's place at the event. */
  ghost predicate InTheWay(t: Ticket, m: Mapping) {
    t.seatId == m.seatId || (t.eventId == m.eventId && t.guestId == m.guestId)
  }

  /**
   A creation message for an invitation that has a ticket succeeds idly if it asks for that
   ticket and is refused if it asks for another; without one it is refused if the seat or
   the guest's place is taken, and else makes a ticket with exactly what it asks for.
   */
  lemma CreationAnswers(db: Db, m: Mapping)
    requires UniqueRows(db.tickets)
    ensures var a := CreateReply(db, m);
            && (a == Unchanged <==> exists id :: HasInvitation(db, m, id) && SameRequest(db.tickets[id], m))
            && (a == Failed(AlreadyExists) <==>
                exists id :: HasInvitation(db, m, id) && !SameRequest(db.tickets[id], m))
            && (a == Failed(UniqueViolation) <==>
                  && (forall id :: !HasInvitation(db, m, id))
                  && exists id :: id in db.tickets && InTheWay(db.tickets[id], m))
            && (a == Done <==>
                  forall id :: id in db.tickets ==> !HasInvitation(db, m, id) && !InTheWay(db.tickets[id], m))
            && (a != Done ==> AfterCreate(db, m) == db)
  {
    if id :| HasInvitation(db, m, id) {
      assert InvitationTaken(db, m);
      if SameRequest(db.tickets[id], m) {
        assert Matches(db.tickets[id], m);
      }
    } else if id :| id in db.tickets && InTheWay(db.tickets[id], m) {
      assert Conflicts(db.tickets[id], m);
    }
    assert forall id :: id in db.tickets ==> (Conflicts(db.tickets[id], m) <==> InTheWay(db.tickets[id], m));
  }

  /** The new row and the one fact sent with it. */
  lemma CreationMakes(db: Db, m: Mapping)
    requires CreateReply(db, m) == Done && db.serial !in db.tickets
    ensures var after := AfterCreate(db, m);
            && after.tickets.Keys == db.tickets.Keys + {db.serial}
            && (forall id :: id in db.tickets ==> after.tickets[id] == db.tickets[id])
            && var t := after.tickets[db.serial];
               && t.eventId == m.eventId && t.invitationId == m.invitationId
               && t.seatId == m.seatId && t.guestId == m.guestId
               && t.publicKey.None? && t.deviceId.None? && t.lastNonce.None? && t.nextNonce == Some(1)
               && t.presence == Outside && t.checkedInAt.None? && !t.revoked
    ensures AfterCreate(db, m).outbox == db.outbox + [Fact(TicketGenerated, db.serial, m.eventId, m.guestId)]
    ensures AfterCreate(db, m).logs == db.logs && AfterCreate(db, m).guards == db.guards
        && AfterCreate(db, m).keys == db.keys
  {
  }

  // ---- how the columns of a ticket change ----

  /** A permitted scan of this ticket that passes. */
  ghost predicate Admits(db: Db, op: Op, id: TicketId) {
    Passes(db, op, id) && op.permitted
  }

  /** Permitted staff put an unrevoked ticket on the other side. */
  ghost predicate Moved(db: Db, op: Op, id: TicketId) {
    && op.Override? && op.id == id && op.permitted
    && id in db.tickets && !db.tickets[id].revoked && db.tickets[id].presence != op.state
  }

  /** Permitted staff revoke it for the first time. */
  ghost predicate RevokedByStaff(db: Db, op: Op, id: TicketId) {
    op.Revoke? && op.id == id && op.permitted && id in db.tickets && !db.tickets[id].revoked
  }

  /** A scan is the tenth offence. */
  ghost predicate RevokedByGuard(db: Db, op: Op, id: TicketId) {
    Offends(db, op, id) && FailCount(db, id) >= 9
  }

  /** The guest of the ticket binds this device and key to it, validly. */
  ghost predicate BoundByGuest(db: Db, op: Op, id: TicketId) {
    && op.Activate? && op.id == id && op.keyValid && id in db.tickets && db.tickets[id].guestId == op.actor
    && (db.tickets[id].publicKey.None? || db.tickets[id].deviceId.None? || db.tickets[id].deviceId.value == op.device)
  }

  /** The guest of another ticket of the event binds the device that this one has. */
  ghost predicate DeviceTaken(db: Db, op: Op, id: TicketId) {
    && op.Activate? && op.id != id && BoundByGuest(db, op, op.id) && id in db.tickets
    && db.tickets[id].eventId == db.tickets[op.id].eventId && db.tickets[id].deviceId == Some(op.device)
  }

  ghost predicate ResetByStaff(db: Db, op: Op, id: TicketId) {
    op.ResetBinding? && op.id == id && op.permitted && id in db.tickets
  }

  /** The row of a ticket that stays, as one of seven events leaves it. */
  ghost function RowAfter(db: Db, op: Op, id: TicketId): Ticket
    requires id in db.tickets
  {
    var t := db.tickets[id];
    if Admits(db, op, id) then
      t.(presence := if op.p.direction == Entry then Inside else Outside,
         lastNonce := Some(op.token.value.nonce), nextNonce := Some(op.token.value.nonce + 1),
         checkedInAt := if op.p.direction == Entry then Some(db.clock) else t.checkedInAt)
    else if RevokedByGuard(db, op, id) then
      t.(revoked := true, presence := Outside, revokedAt := Some(db.clock), revokedBy := Some(SYSTEM_ACTOR))
    else if RevokedByStaff(db, op, id) then
      t.(revoked := true, presence := Outside, revokedAt := Some(db.clock), revokedBy := Some(op.actor),
         revokedReason := Some(if op.reason.Some? then op.reason.value else "Manual revoke"))
    else if Moved(db, op, id) then
      t.(presence := op.state,
         checkedInAt := if op.state == Inside && t.checkedInAt.None? then Some(db.clock) else t.checkedInAt)
    else if BoundByGuest(db, op, id) then t.(publicKey := Some(op.key), deviceId := Some(op.device))
    else if DeviceTaken(db, op, id) || ResetByStaff(db, op, id) then t.(publicKey := None, deviceId := None)
    else t
  }

  lemma ScanOfRow(db: Db, op: Op, id: TicketId)
    requires op.Scan? && id in db.tickets && (id in db.guards ==> 0 <= db.guards[id].failCount)
    ensures id in Apply(db, op).tickets && Apply(db, op).tickets[id] == RowAfter(db, op, id)
  {
    if Examines(db, op, id) {
      JudgedByColumns(db, op, id);
      Ledger.ScanRow(db, op.token.value, op.p, op.permitted);
      if Offends(db, op, id) {
        OffenceCounts(db, op, id);
      }
    } else if Reaches(db, op.token) {
      Ledger.ScanRow(db, op.token.value, op.p, op.permitted);
    }
  }

  lemma OverrideOfRow(db: Db, op: Op, id: TicketId)
    requires op.Override? && id in db.tickets
    ensures id in Apply(db, op).tickets && Apply(db, op).tickets[id] == RowAfter(db, op, id)
  {
    assert Apply(db, op) == AfterPresence(db, op.id, op.state, op.actor, op.permitted);
  }

  lemma RevokeOfRow(db: Db, op: Op, id: TicketId)
    requires op.Revoke? && id in db.tickets
    ensures id in Apply(db, op).tickets && Apply(db, op).tickets[id] == RowAfter(db, op, id)
  {
    assert Apply(db, op) == AfterRevoke(db, op.id, op.reason, op.actor, op.permitted);
  }

  lemma ResetOfRow(db: Db, op: Op, id: TicketId)
    requires op.ResetBinding? && id in db.tickets
    ensures id in Apply(db, op).tickets && Apply(db, op).tickets[id] == RowAfter(db, op, id)
  {
    assert Apply(db, op) == AfterResetBinding(db, op.id, op.actor, op.permitted);
  }

  lemma ActivationOfRow(db: Db, op: Op, id: TicketId)
    requires op.Activate? && id in db.tickets
    ensures id in Apply(db, op).tickets && Apply(db, op).tickets[id] == RowAfter(db, op, id)
  {
  }

  lemma QuietOfRow(db: Db, op: Op, id: TicketId)
    requires op.Create? || op.Delete? || op.Generate? || op.EventEnds? || op.Advance?
    requires id in db.tickets && id in Apply(db, op).tickets && id != db.serial
    ensures Apply(db, op).tickets[id] == db.tickets[id] == RowAfter(db, op, id)
  {
  }

  /** Whatever is served, a ticket that stays becomes what its columns, the request and the permission say. */
  lemma RowBecomes(db: Db, op: Op, id: TicketId)
    requires Wf(db) && id in db.tickets && id in Apply(db, op).tickets
    ensures Apply(db, op).tickets[id] == RowAfter(db, op, id)
  {
    assert id in db.guards ==> GuardOk(db.guards[id], db.clock);
    if op.Scan? {
      ScanOfRow(db, op, id);
    } else if op.Override? {
      OverrideOfRow(db, op, id);
    } else if op.Revoke? {
      RevokeOfRow(db, op, id);
    } else if op.ResetBinding? {
      ResetOfRow(db, op, id);
    } else if op.Activate? {
      ActivationOfRow(db, op, id);
    } else {
      QuietOfRow(db, op, id);
    }
  }

  /**
   So the nonces change exactly with an admission, which uses the presented one up; the guest
   changes sides exactly by an admission, by hand, or out of a revoked ticket; revocation is
   final and comes exactly from permitted staff or the tenth offence; and an existing
   check-in time gives way only to an admission.
   */
  lemma ColumnsChangeIff(db: Db, op: Op, id: TicketId)
    requires id in db.tickets && RowOk(db.tickets[id])
    ensures var t, t' := db.tickets[id], RowAfter(db, op, id);
            && (t'.nextNonce != t.nextNonce <==> Admits(db, op, id))
            && (Admits(db, op, id) ==> t'.lastNonce == t.nextNonce == Some(op.token.value.nonce))
            && (t'.presence != t.presence <==>
                  || Admits(db, op, id) || Moved(db, op, id)
                  || (t.presence == Inside && (RevokedByStaff(db, op, id) || RevokedByGuard(db, op, id))))
            && (t'.revoked <==> t.revoked || RevokedByStaff(db, op, id) || RevokedByGuard(db, op, id))
            && (t.checkedInAt.Some? && t'.checkedInAt != t.checkedInAt ==> Admits(db, op, id))
  {
  }

  /**
   A binding is left different only by its guest, by the guest of another ticket of the event
   taking the device, or by staff.
   */
  lemma BindingChangesOnlyBy(db: Db, op: Op, id: TicketId)
    requires id in db.tickets
    ensures var t, t' := db.tickets[id], RowAfter(db, op, id);
            && (t'.publicKey != t.publicKey || t'.deviceId != t.deviceId ==>
                  BoundByGuest(db, op, id) || DeviceTaken(db, op, id) || ResetByStaff(db, op, id))
            && (BoundByGuest(db, op, id) ==> t'.publicKey == Some(op.key) && t'.deviceId == Some(op.device))
            && (DeviceTaken(db, op, id) || ResetByStaff(db, op, id) ==> t'.publicKey.None? && t'.deviceId.None?)
  {
  }

  /** Which tickets exist after an operation other than a creation or a deletion: the same. */
  lemma SameTickets(db: Db, op: Op)
    requires !op.Create? && !op.Delete?
    ensures Apply(db, op).tickets.Keys == db.tickets.Keys
  {
    if op.Scan? {
      if Reaches(db, op.token) {
        Ledger.ScanRow(db, op.token.value, op.p, op.permitted);
        ScanAddsNoTicket(db, op);
      }
    }
  }

  lemma ScanAddsNoTicket(db: Db, op: Op)
    requires op.Scan?
    ensures Apply(db, op).tickets.Keys <= db.tickets.Keys
  {
  }

  /** A ticket disappears exactly by permitted deletion, and appears exactly by a creation. */
  lemma ExistenceIff(db: Db, op: Op, id: TicketId)
    requires Wf(db)
    ensures id in db.tickets ==> (id !in Apply(db, op).tickets <==> op.Delete? && op.id == id && op.permitted)
    ensures id !in db.tickets ==>
              (id in Apply(db, op).tickets <==> op.Create? && CreateReply(db, op.m) == Done && id == db.serial)
  {
    if !op.Create? && !op.Delete? {
      SameTickets(db, op);
      assert id in Apply(db, op).tickets <==> id in Apply(db, op).tickets.Keys;
    }
  }

  lemma OnlyScansTakeKeys(db: Db, op: Op)
    requires !op.Scan?
    ensures Apply(db, op).keys == db.keys
  {
  }

  lemma ScanTakesKey(db: Db, op: Op, id: TicketId)
    requires op.Scan? && op.token.Some? && op.token.value.ticketId == id && id in db.tickets
    ensures Apply(db, op).keys ==
            if Passes(db, op, id) then db.keys[(id, op.token.value.nonce) := db.clock + 120_000] else db.keys
  {
    if Examines(db, op, id) {
      JudgedByColumns(db, op, id);
    }
  }

  lemma OtherScanTakesOtherKey(db: Db, op: Op, id: TicketId, nonce: int)
    requires op.Scan? && (op.token.Some? ==> op.token.value.ticketId != id)
    ensures (id, nonce) in Apply(db, op).keys <==> (id, nonce) in db.keys
    ensures (id, nonce) in db.keys ==> Apply(db, op).keys[(id, nonce)] == db.keys[(id, nonce)]
  {
  }

  /** A replay key is taken exactly by a scan that passes, permission or not, for exactly two minutes. */
  lemma KeyTakenIff(db: Db, op: Op, id: TicketId, nonce: int)
    requires Wf(db) && id in db.tickets
    ensures var passes := Passes(db, op, id) && op.token.value.nonce == nonce;
            && (passes ==> (id, nonce) in Apply(db, op).keys && Apply(db, op).keys[(id, nonce)] == db.clock + 120_000)
            && (!passes ==>
                  && ((id, nonce) in Apply(db, op).keys <==> (id, nonce) in db.keys)
                  && ((id, nonce) in db.keys ==> Apply(db, op).keys[(id, nonce)] == db.keys[(id, nonce)]))
  {
    if !op.Scan? {
      OnlyScansTakeKeys(db, op);
    } else if op.token.Some? && op.token.value.ticketId == id {
      ScanTakesKey(db, op, id);
    } else {
      OtherScanTakesOtherKey(db, op, id, nonce);
    }
  }

  /** The operation names another ticket, or none. */
  ghost predicate Elsewhere(op: Op, id: TicketId) {
    && (op.Scan? && op.token.Some? ==> op.token.value.ticketId != id)
    && (ByStaff(op) || op.Activate? ==> op.id != id)
  }

  lemma GuardUntouched(db: Db, op: Op, id: TicketId)
    requires id in db.tickets && Elsewhere(op, id)
    ensures GuardOf(Apply(db, op), id) == GuardOf(db, id)
  {
  }

  lemma NotConcerned(db: Db, op: Op, id: TicketId)
    requires id in db.tickets && Elsewhere(op, id)
    ensures RowAfter(db, op, id) ==
            if DeviceTaken(db, op, id) then db.tickets[id].(publicKey := None, deviceId := None) else db.tickets[id]
  {
  }

  /** An operation on one ticket leaves the guards of all others alone, and only an activation touches another row. */
  lemma OthersUntouched(db: Db, op: Op, id: TicketId)
    requires Wf(db) && id in db.tickets && Elsewhere(op, id)
    ensures id in Apply(db, op).tickets && GuardOf(Apply(db, op), id) == GuardOf(db, id)
    ensures Apply(db, op).tickets[id] ==
            if DeviceTaken(db, op, id) then db.tickets[id].(publicKey := None, deviceId := None) else db.tickets[id]
  {
    ExistenceIff(db, op, id);
    RowBecomes(db, op, id);
    NotConcerned(db, op, id);
    GuardUntouched(db, op, id);
  }
}
