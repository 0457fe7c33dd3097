/**
 What the verification cascade decides, as functions of the values it reads.
 Both the atomic store and the interleaved protocol are built on these decisions.
 */
module Verification {
  import opened Domain
  import opened ShareGuards

  const REPLAY_KEY_TTL_MS := 120_000

  datatype Judgement =
    | Turned(verdict: Verdict)                  // rejected with no trace but the log
    | Faulted(verdict: Verdict, risk: Risk)     // rejected and counted by the share guard
    | Accepted

  /** The checks on device, signature and nonce; None when all of them pass. */
  function DeviceCheck(t: Ticket, nonce: int, p: Presented): Option<Judgement> {
    if t.publicKey.None? then Some(Turned(DeviceMismatch))
    else if p.signer != t.publicKey then Some(Faulted(DeviceMismatch, CalculateRisk(SIGNATURE_RISK)))
    else if t.deviceId != Some(p.device) then Some(Faulted(DeviceMismatch, CalculateRisk(DEVICE_RISK)))
    else if t.lastNonce.Some? && nonce <= t.lastNonce.value then Some(Faulted(Replay, CalculateRisk(REPLAY_RISK)))
    else if t.nextNonce != Some(nonce) then Some(Faulted(InvalidNonce, CalculateRisk(NONCE_RISK)))
    else None
  }

  /** The gate policy: the guest must be on the other side, and an entry must come before the end of the event. */
  function GateCheck(t: Ticket, direction: Direction, endsAt: Option<int>, now: int): Option<Verdict> {
    if t.presence == IntendedState(direction) then Some(if direction == Entry then AlreadyInside else NotInside)
    else if direction == Entry && endsAt.Some? && endsAt.value < now then Some(ExpiredEvent)
    else None
  }

  /** The whole cascade on values read at one moment. */
  function Judge(t: Ticket, guard: Option<Guard>, keyHeld: bool, nonce: int, p: Presented, endsAt: Option<int>,
      now: int): Judgement {
    if t.revoked then Turned(Revoked)
    else if BlockedAt(guard, now) then Turned(Blocked)
    else match DeviceCheck(t, nonce, p)
      case Some(j) => j
      case None =>
        match GateCheck(t, p.direction, endsAt, now)
        case Some(v) => Turned(v)
        case None => if keyHeld then Faulted(Replay, CalculateRisk(REPLAY_RISK)) else Accepted
  }

  /** The row after a successful nonce swap; an exit writes back the check-in time of the snapshot. */
  function Admitted(row: Ticket, snapshot: Ticket, nonce: int, direction: Direction, now: int): Ticket {
    row.(
      presence := IntendedState(direction),
      lastNonce := Some(nonce),
      nextNonce := Some(nonce + 1),
      checkedInAt := if direction == Entry then Some(now) else snapshot.checkedInAt)
  }

  function ScanEntry(id: TicketId, t: Ticket, nonce: int, p: Presented, verdict: Verdict): ScanLog {
    ScanLog(id, t.eventId, IntendedState(p.direction), verdict, Some(nonce), p.gate, Some(p.device), p.actor)
  }

  function CrossingKind(presence: Presence): FactKind {
    if presence == Inside then CheckedIn else CheckedOut
  }

  function ScanFacts(id: TicketId, t: Ticket, direction: Direction, verdict: Verdict): seq<Fact> {
    var to := IntendedState(direction);
    if verdict == Ok then
      [Fact(ScanSucceeded(to), id, t.eventId, t.guestId), Fact(CrossingKind(to), id, t.eventId, t.guestId)]
    else
      [Fact(ScanRejected(verdict, to), id, t.eventId, t.guestId)]
  }

  /**
   A scan is accepted exactly when the ticket is usable, nobody blocks it, the bound device
   signed the very next nonce, the guest is on the other side and no replay key stands.
   */
  lemma AcceptedIff(t: Ticket, guard: Option<Guard>, keyHeld: bool, nonce: int, p: Presented,
      endsAt: Option<int>, now: int)
    ensures Judge(t, guard, keyHeld, nonce, p, endsAt, now) == Accepted <==>
              && !t.revoked && !BlockedAt(guard, now) && !keyHeld
              && t.publicKey.Some? && p.signer == t.publicKey && t.deviceId == Some(p.device)
              && t.nextNonce == Some(nonce) && (t.lastNonce.Some? ==> t.lastNonce.value < nonce)
              && t.presence != IntendedState(p.direction)
              && (p.direction == Entry && endsAt.Some? ==> now <= endsAt.value)
  {
  }
}
