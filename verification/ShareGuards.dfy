/**
 The anti-sharing guard: risk scores, the failure counter and the block window.
 */
module ShareGuards {
  import opened Domain

  const BASE_THRESHOLD := 3
  const BLOCK_TTL_MS := 300_000
  const REVOKE_THRESHOLD := 10
  const SYSTEM_ACTOR: UserId := 0

  datatype Reason = InvalidSignature | WrongDevice | ReplayAttack | WrongNonce | UnknownReason

  datatype RiskInput = RiskInput(
    invalidSignature: bool,
    replay: bool,
    invalidNonce: bool,
    deviceMismatch: bool,
    rapidScan: bool)

  const NO_RISK := RiskInput(false, false, false, false, false)
  const SIGNATURE_RISK := NO_RISK.(invalidSignature := true)
  const DEVICE_RISK := NO_RISK.(deviceMismatch := true)
  const REPLAY_RISK := NO_RISK.(replay := true)
  const NONCE_RISK := NO_RISK.(invalidNonce := true)

  datatype Risk = Risk(score: int, shouldBlock: bool, shouldRevoke: bool, reason: Reason)

  function MapReason(input: RiskInput): Reason {
    if input.invalidSignature then InvalidSignature
    else if input.deviceMismatch then WrongDevice
    else if input.replay then ReplayAttack
    else if input.invalidNonce then WrongNonce
    else UnknownReason
  }

  function CalculateRisk(input: RiskInput): Risk {
    var score :=
      (if input.invalidSignature then 5 else 0)
      + (if input.deviceMismatch then 4 else 0)
      + (if input.replay then 3 else 0)
      + (if input.invalidNonce then 2 else 0)
      + (if input.rapidScan then 2 else 0);
    Risk(score, score >= BASE_THRESHOLD, score >= REVOKE_THRESHOLD, MapReason(input))
  }

  /** The risks the verification cascade can raise: each names one fault only. */
  predicate IsScanRisk(risk: Risk) {
    risk in {CalculateRisk(SIGNATURE_RISK), CalculateRisk(DEVICE_RISK), CalculateRisk(REPLAY_RISK),
        CalculateRisk(NONCE_RISK)}
  }

  /**
   Which faults block and which would revoke: a bad signature, a wrong device or a replay
   blocks on its own, a wrong nonce only together with a rapid scan; revoking takes three
   faults with a bad signature among them and a wrong device or a replay beside it, or all
   four others.
   */
  lemma RiskThresholds(input: RiskInput)
    ensures CalculateRisk(input).shouldBlock <==>
              input.invalidSignature || input.deviceMismatch || input.replay || (input.invalidNonce && input.rapidScan)
    ensures CalculateRisk(input).shouldRevoke <==>
              || (input.invalidSignature && input.deviceMismatch
                  && (input.replay || input.invalidNonce || input.rapidScan))
              || (input.invalidSignature && input.replay && (input.invalidNonce || input.rapidScan))
              || (input.deviceMismatch && input.replay && input.invalidNonce && input.rapidScan)
    ensures CalculateRisk(input).reason == InvalidSignature <==> input.invalidSignature
    ensures CalculateRisk(input).reason == WrongDevice <==> !input.invalidSignature && input.deviceMismatch
    ensures CalculateRisk(input).reason == ReplayAttack <==>
              !input.invalidSignature && !input.deviceMismatch && input.replay
    ensures CalculateRisk(input).reason == UnknownReason <==>
              !input.invalidSignature && !input.deviceMismatch && !input.replay && !input.invalidNonce
  {
  }

  /** No single scan fault revokes by its score, and only a wrong nonce is too mild to block at once. */
  lemma ScanRisksNeverRevoke(risk: Risk)
    requires IsScanRisk(risk)
    ensures !risk.shouldRevoke
    ensures !risk.shouldBlock <==> risk == CalculateRisk(NONCE_RISK)
  {
  }

  datatype Guard = Guard(failCount: int, lastFailAt: Option<int>, blockedUntil: Option<int>, reason: Option<Reason>)

  const FRESH_GUARD := Guard(0, None, None, None)

  /** The guard row an upsert finds or creates. */
  function Upserted(guard: Option<Guard>): Guard {
    if guard.Some? then guard.value else FRESH_GUARD
  }

  predicate BlockedAt(guard: Option<Guard>, now: int) {
    guard.Some? && guard.value.blockedUntil.Some? && guard.value.blockedUntil.value > now
  }

  function Cleared(guard: Guard): Guard {
    guard.(failCount := 0, blockedUntil := None, reason := None)
  }

  predicate Revokes(failsSeen: int, risk: Risk) {
    risk.shouldRevoke || failsSeen + 1 >= REVOKE_THRESHOLD
  }

  /**
   The guard row after a fault that does not revoke. `failsSeen` is the counter as it was
   read, which another scanner may have changed in `guard` since.
   */
  function Recorded(guard: Guard, failsSeen: int, risk: Risk, now: int): Guard {
    var counted := guard.(failCount := failsSeen + 1, lastFailAt := Some(now), reason := Some(risk.reason));
    if risk.shouldBlock || failsSeen + 1 >= BASE_THRESHOLD
    then counted.(blockedUntil := Some(now + BLOCK_TTL_MS))
    else counted
  }

  /** The columns an automatic revocation writes; the reason column stays as it was. */
  function AutoRevoked(ticket: Ticket, now: int): Ticket {
    ticket.(revoked := true, presence := Outside, revokedAt := Some(now), revokedBy := Some(SYSTEM_ACTOR))
  }
}
