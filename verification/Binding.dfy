/**
 Device binding: a device serves one ticket of an event at a time, and the exact ways a
 binding can change.
 */
module Binding {
  import opened Domain
  import opened Verification
  import opened Tables
  import opened AtomicRuns
  import opened Ledger
  import opened Authority

  /**
   With operations served one at a time, a device is bound to at most one ticket of an event,
   and key and device come and go together. `BindingRaces` says what overlap does to this.
   */
  lemma OneTicketPerDeviceLaw(now: int, ops: seq<Op>)
    ensures var db := Run(EmptyDb(now), ops);
            && OneTicketPerDevice(db.tickets)
            && forall id :: id in db.tickets ==> (db.tickets[id].publicKey.Some? <==> db.tickets[id].deviceId.Some?)
  {
    Reachable(now, ops);
    assert forall id :: id in Run(EmptyDb(now), ops).tickets ==> RowOk(Run(EmptyDb(now), ops).tickets[id]);
  }

  /** The guest activates this ticket with another key or device. */
  ghost predicate Rebinds(db: Db, op: Op, id: TicketId)
    requires id in db.tickets
  {
    && BoundByGuest(db, op, id)
    && (db.tickets[id].publicKey != Some(op.key) || db.tickets[id].deviceId != Some(op.device))
  }

  /**
   A binding is not immutable. It changes exactly when the owner activates the ticket anew,
   which for a bound ticket means a new key for the same device, when the same device is
   activated for another ticket of the event, or when staff reset it.
   */
  lemma BindingChangesIff(db: Db, op: Op, id: TicketId)
    requires id in db.tickets && id in Apply(db, op).tickets && id != db.serial
    ensures var t, t' := db.tickets[id], Apply(db, op).tickets[id];
            (t'.publicKey != t.publicKey || t'.deviceId != t.deviceId) <==>
              || Rebinds(db, op, id) || DeviceTaken(db, op, id)
              || (ResetByStaff(db, op, id) && (db.tickets[id].publicKey.Some? || db.tickets[id].deviceId.Some?))
  {
    if op.Scan? {
      if Reaches(db, op.token) {
        ScanRow(db, op.token.value, op.p, op.permitted);
      }
    }
  }

  /** The key of a bound ticket is replaced by its guest, with a valid key for the same device, and not otherwise. */
  lemma KeyReplacedIff(db: Db, id: TicketId, device: DeviceId, key: PublicKey, keyValid: bool, actor: UserId)
    requires id in db.tickets && db.tickets[id].deviceId.Some? && db.tickets[id].publicKey.Some?
    ensures var t, after := db.tickets[id], AfterActivate(db, id, device, key, keyValid, actor);
            && id in after.tickets
            && (after.tickets[id].publicKey == Some(key) <==>
                  || t.publicKey == Some(key)
                  || (actor == t.guestId && keyValid && t.deviceId.value == device))
  {
  }
}
