/**
 Scans turned away without fault leave no trace outside the log: dropping any of them from
 a run changes no other answer and no ticket, guard or replay key. So a guest who tries the
 wrong gate, or comes after the event, keeps the nonce.
 */
module Erasure {
  import opened Domain
  import opened ShareGuards
  import opened Verification
  import opened Tables
  import opened AtomicRuns
  import opened Verdicts

  /** What the caller of an operation is told. */
  datatype Answer = ScanAnswer(scan: ScanReply) | OpAnswer(reply: Reply) | TokenAnswer(token: TokenReply) | Silence

  function AnswerTo(db: Db, op: Op): Answer {
    match op
    case Scan(token, p, permitted) => ScanAnswer(ScanReplyOf(db, token, p, permitted))
    case Override(id, state, _, permitted) => OpAnswer(PresenceReply(db, id, state, permitted))
    case Revoke(id, _, _, permitted) => OpAnswer(RevokeReply(db, id, permitted))
    case Activate(id, device, _, keyValid, actor) => OpAnswer(ActivateReply(db, id, device, keyValid, actor))
    case ResetBinding(id, _, permitted) => OpAnswer(ResetReply(db, id, permitted))
    case Create(m) => OpAnswer(CreateReply(db, m))
    case Delete(id, permitted) => OpAnswer(DeleteReply(db, id, permitted))
    case Generate(id, actor, serial) => TokenAnswer(TokenReplyOf(db, id, actor, serial))
    case EventEnds(_, _) => Silence
    case Advance(_) => Silence
  }

  /** The database without its audit trail. */
  function Core(db: Db): Db {
    db.(logs := [], outbox := [])
  }

  /** The scan was looked at, and neither let through nor counted as an offence. */
  ghost predicate TurnedAway(db: Db, op: Op) {
    && op.Scan? && Reaches(db, op.token)
    && !Offends(db, op, op.token.value.ticketId) && !Passes(db, op, op.token.value.ticketId)
  }

  /** A guest who tries the wrong gate or comes after the event is turned away, and so is a revoked or blocked one. */
  lemma PolicyRejectionsAreTurnedAway(db: Db, op: Op)
    requires op.Scan? && ScanReplyOf(db, op.token, op.p, op.permitted).Scanned?
    requires ScanReplyOf(db, op.token, op.p, op.permitted).verdict in
               {AlreadyInside, NotInside, ExpiredEvent, Revoked, Blocked}
    ensures TurnedAway(db, op)
  {
    JudgedByColumns(db, op, op.token.value.ticketId);
  }

  lemma TurnedAwayIsTurned(db: Db, op: Op)
    requires TurnedAway(db, op)
    ensures JudgeScan(db, op.token.value, op.p).Turned?
  {
    JudgedByColumns(db, op, op.token.value.ticketId);
  }

  ghost predicate Dropped(db: Db, ops: seq<Op>, drop: seq<bool>)
    requires 0 < |ops| == |drop|
  {
    var n := |ops| - 1;
    drop[n] && TurnedAway(Run(db, ops[..n]), ops[n])
  }

  /** The run without those of its turned-away scans that `drop` marks. */
  ghost function Thinned(db: Db, ops: seq<Op>, drop: seq<bool>): seq<Op>
    requires |ops| == |drop|
  {
    if ops == [] then []
    else
      var n := |ops| - 1;
      Thinned(db, ops[..n], drop[..n]) + (if Dropped(db, ops, drop) then [] else [ops[n]])
  }

  function Answers(db: Db, ops: seq<Op>): seq<Answer> {
    if ops == [] then []
    else
      var n := |ops| - 1;
      Answers(db, ops[..n]) + [AnswerTo(Run(db, ops[..n]), ops[n])]
  }

  /** The answers of the full run to the operations that stay. */
  ghost function AnswersToKept(db: Db, ops: seq<Op>, drop: seq<bool>): seq<Answer>
    requires |ops| == |drop|
  {
    if ops == [] then []
    else
      var n := |ops| - 1;
      AnswersToKept(db, ops[..n], drop[..n])
          + (if Dropped(db, ops, drop) then [] else [AnswerTo(Run(db, ops[..n]), ops[n])])
  }

  /** No operation reads the audit trail. */
  lemma CoreDecides(a: Db, b: Db, op: Op)
    requires Core(a) == Core(b)
    ensures Core(Apply(a, op)) == Core(Apply(b, op))
    ensures AnswerTo(a, op) == AnswerTo(b, op)
  {
    if op.Scan? {
      ScanCoreDecides(a, b, op);
    }
  }

  lemma ScanCoreDecides(a: Db, b: Db, op: Op)
    requires Core(a) == Core(b) && op.Scan?
    ensures Core(Apply(a, op)) == Core(Apply(b, op))
    ensures AnswerTo(a, op) == AnswerTo(b, op)
  {
    assert Reaches(a, op.token) == Reaches(b, op.token);
    if Reaches(a, op.token) {
      var token := op.token.value;
      assert JudgeScan(a, token, op.p) == JudgeScan(b, token, op.p);
      var j := JudgeScan(a, token, op.p);
      assert Core(AfterVerify(a, token, j)) == Core(AfterVerify(b, token, j));
    }
  }

  lemma TurnedAwayLeavesCore(db: Db, op: Op)
    requires TurnedAway(db, op)
    ensures Core(Apply(db, op)) == Core(db)
  {
    TurnedAwayIsTurned(db, op);
  }

  lemma {:induction false} ErasureLaw(db: Db, ops: seq<Op>, drop: seq<bool>)
    requires |ops| == |drop|
    ensures Core(Run(db, Thinned(db, ops, drop))) == Core(Run(db, ops))
    ensures Answers(db, Thinned(db, ops, drop)) == AnswersToKept(db, ops, drop)
  {
    if ops == [] {
    } else {
      var n := |ops| - 1;
      var before, thin := Run(db, ops[..n]), Thinned(db, ops[..n], drop[..n]);
      ErasureLaw(db, ops[..n], drop[..n]);
      if Dropped(db, ops, drop) {
        TurnedAwayLeavesCore(before, ops[n]);
        assert Thinned(db, ops, drop) == thin;
      } else {
        CoreDecides(before, Run(db, thin), ops[n]);
        assert (thin + [ops[n]])[..|thin|] == thin;
      }
    }
  }
}
