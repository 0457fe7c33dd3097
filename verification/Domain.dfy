/**
 Rows, requests and enumerations shared by every part of the ticket service model.
 Times are milliseconds since the epoch. Identifiers are plain numbers: only their
 equality matters, and a generated uuid is a number not used before.
 */
module Domain {

  datatype Option<+T> = None | Some(value: T)

  type TicketId = nat
  type EventId = nat
  type InvitationId = nat
  type SeatId = nat
  type UserId = nat
  type DeviceId = nat
  type PublicKey = nat

  datatype Presence = Inside | Outside
  datatype Direction = Entry | Exit

  datatype Verdict =
    | Ok | Replay | InvalidNonce | DeviceMismatch | Blocked | Revoked | Unknown
    | ExpiredEvent | AlreadyInside | NotInside

  /** The presence a gate scan asks for. */
  function IntendedState(direction: Direction): Presence {
    if direction == Entry then Inside else Outside
  }

  /** One row of the ticket table; the address columns of the activation are not kept. */
  datatype Ticket = Ticket(
    eventId: EventId,
    invitationId: InvitationId,
    seatId: SeatId,
    guestId: UserId,
    publicKey: Option<PublicKey>,
    deviceId: Option<DeviceId>,
    lastNonce: Option<int>,
    nextNonce: Option<int>,
    checkedInAt: Option<int>,
    presence: Presence,
    revoked: bool,
    revokedAt: Option<int>,
    revokedBy: Option<UserId>,
    revokedReason: Option<string>)

  /** What a `ticket.create` message asks for. */
  datatype Mapping = Mapping(eventId: EventId, invitationId: InvitationId, guestId: UserId, seatId: SeatId)

  /** The row a creation inserts: schema defaults, with the first nonce set. */
  function NewTicket(m: Mapping): Ticket {
    Ticket(m.eventId, m.invitationId, m.seatId, m.guestId, None, None, None, Some(1), None, Outside,
        false, None, None, None)
  }

  datatype ScanLog = ScanLog(
    ticketId: TicketId,
    eventId: EventId,
    direction: Presence,
    verdict: Verdict,
    nonce: Option<int>,
    gate: Option<string>,
    deviceId: Option<DeviceId>,
    actorId: UserId)

  const MANUAL_GATE := Some("MANUAL")

  /** The analytics facts this service enqueues, with the properties that vary. */
  datatype FactKind =
    | TicketGenerated
    | ScanSucceeded(direction: Presence)
    | ScanRejected(verdict: Verdict, direction: Presence)
    | CheckedIn
    | CheckedOut
    | TicketRevoked

  datatype Fact = Fact(kind: FactKind, ticketId: TicketId, eventId: EventId, subjectId: UserId)

  /** A token string that decrypts and whose signature verifies; `serial` tells equal payloads apart. */
  datatype Token = Token(serial: nat, ticketId: TicketId, nonce: int, issuedAt: int)

  const TOKEN_LIFETIME_S := 60

  /** Expiry by section 4.1.4 of RFC 7519: whole seconds, and the expiration second itself is too late. */
  predicate Live(token: Token, now: int) {
    now / 1000 < token.issuedAt / 1000 + TOKEN_LIFETIME_S
  }

  /**
   What a scanner presents beside the token. `signer` is the public key under which the
   signature over token and device verifies, if there is one.
   */
  datatype Presented = Presented(
    device: DeviceId,
    signer: Option<PublicKey>,
    direction: Direction,
    gate: Option<string>,
    actor: UserId)

  /** A live token is less than a minute old. */
  lemma LiveIsYoung(token: Token, now: int)
    requires Live(token, now)
    ensures now < token.issuedAt + 60_000
  {
    assert now < (now / 1000 + 1) * 1000;
    assert token.issuedAt / 1000 * 1000 <= token.issuedAt;
  }
}
