/**
 Ticket creation is idempotent: in a run without deletions, serving a `ticket.create`
 message equal to one served before changes nothing at all.
 */
module Creation {
  import opened Domain
  import opened ShareGuards
  import opened Verification
  import opened Tables
  import opened AtomicRuns
  import opened Ledger

  /** An existing ticket holds the invitation of the message, its seat, or its event and guest. */
  ghost predicate Taken(db: Db, m: Mapping) {
    exists id :: id in db.tickets && Holds(db.tickets[id], m)
  }

  predicate Holds(t: Ticket, m: Mapping) {
    t.invitationId == m.invitationId || Conflicts(t, m)
  }

  /** Serving a creation message changes nothing if and only if something of it is taken. */
  lemma CreateIdleIff(db: Db, m: Mapping)
    ensures AfterCreate(db, m) == db <==> Taken(db, m)
  {
    if Taken(db, m) {
      var id :| id in db.tickets && Holds(db.tickets[id], m);
      assert !InvitationTaken(db, m) ==> Conflicts(db.tickets[id], m);
    } else {
      assert forall id :: id in db.tickets ==> !Holds(db.tickets[id], m);
      assert AfterCreate(db, m).serial == db.serial + 1;
    }
  }

  /** Tickets that exist keep their identity columns. */
  ghost predicate IdentityKept(before: Db, after: Db) {
    forall id :: id in before.tickets ==> id in after.tickets && SameIdentity(after.tickets[id], before.tickets[id])
  }

  lemma IdentityNeverChanges(db: Db, op: Op)
    requires !op.Delete? && db.serial !in db.tickets
    ensures IdentityKept(db, Apply(db, op))
  {
    if op.Scan? {
      if Reaches(db, op.token) {
        ScanRow(db, op.token.value, op.p, op.permitted);
      }
    }
  }

  lemma TakenStays(before: Db, after: Db, m: Mapping)
    requires Taken(before, m) && IdentityKept(before, after)
    ensures Taken(after, m)
  {
    var id :| id in before.tickets && Holds(before.tickets[id], m);
    assert id in after.tickets && Holds(after.tickets[id], m);
  }

  lemma CreationTakes(db: Db, m: Mapping)
    ensures Taken(AfterCreate(db, m), m)
  {
    CreateIdleIff(db, m);
    if !Taken(db, m) {
      assert db.serial in AfterCreate(db, m).tickets && Holds(AfterCreate(db, m).tickets[db.serial], m);
    }
  }

  ghost predicate DeleteFree(ops: seq<Op>) {
    forall i :: 0 <= i < |ops| ==> !ops[i].Delete?
  }

  lemma {:induction false} SeenIsTaken(now: int, ops: seq<Op>, m: Mapping)
    requires DeleteFree(ops) && Op.Create(m) in ops
    ensures Taken(Run(EmptyDb(now), ops), m)
  {
    var n := |ops| - 1;
    var before := Run(EmptyDb(now), ops[..n]);
    FreshSerial(now, ops[..n]);
    if ops[n] == Op.Create(m) {
      CreationTakes(before, m);
    } else {
      assert ops == ops[..n] + [ops[n]];
      SeenIsTaken(now, ops[..n], m);
      IdentityNeverChanges(before, ops[n]);
      TakenStays(before, Apply(before, ops[n]), m);
    }
  }

  lemma FreshSerial(now: int, ops: seq<Op>)
    ensures Run(EmptyDb(now), ops).serial !in Run(EmptyDb(now), ops).tickets
  {
    if Run(EmptyDb(now), ops).serial in Run(EmptyDb(now), ops).tickets {
      ReachableRow(now, ops, Run(EmptyDb(now), ops).serial);
    }
  }

  /** The run without the creation messages that repeat an earlier one. */
  function WithoutRepeats(ops: seq<Op>): seq<Op> {
    if ops == [] then []
    else
      var front, last := ops[..|ops| - 1], ops[|ops| - 1];
      WithoutRepeats(front) + (if last.Create? && last in front then [] else [last])
  }

  /** Dropping every repeated creation message leaves the whole database as it was. */
  lemma {:induction false} IdempotenceLaw(now: int, ops: seq<Op>)
    requires DeleteFree(ops)
    ensures Run(EmptyDb(now), WithoutRepeats(ops)) == Run(EmptyDb(now), ops)
  {
    if ops == [] {
    } else {
      var front, last := ops[..|ops| - 1], ops[|ops| - 1];
      IdempotenceLaw(now, front);
      if last.Create? && last in front {
        SeenIsTaken(now, front, last.m);
        CreateIdleIff(Run(EmptyDb(now), front), last.m);
        assert WithoutRepeats(ops) == WithoutRepeats(front);
      } else {
        assert (WithoutRepeats(front) + [last])[..|WithoutRepeats(front)|] == WithoutRepeats(front);
      }
    }
  }

  // ---- with deletions ----

  /** The operations that `drop` does not mark. */
  function Kept(ops: seq<Op>, drop: seq<bool>): seq<Op>
    requires |ops| == |drop|
  {
    if ops == [] then []
    else
      var n := |ops| - 1;
      Kept(ops[..n], drop[..n]) + (if drop[n] then [] else [ops[n]])
  }

  ghost predicate SameAt(db: Db, ops: seq<Op>, drop: seq<bool>, n: nat)
    requires n <= |ops| == |drop|
  {
    Run(db, Kept(ops[..n], drop[..n])) == Run(db, ops[..n])
  }

  /** Dropping the marked operations changes no state the run goes through. */
  ghost predicate SameStates(db: Db, ops: seq<Op>, drop: seq<bool>)
    requires |ops| == |drop|
  {
    forall n :: 0 <= n <= |ops| ==> SameAt(db, ops, drop, n)
  }

  lemma SameAtPrefix(db: Db, ops: seq<Op>, drop: seq<bool>, k: nat, n: nat)
    requires n <= k <= |ops| == |drop|
    ensures SameAt(db, ops[..k], drop[..k], n) == SameAt(db, ops, drop, n)
  {
    assert ops[..k][..n] == ops[..n] && drop[..k][..n] == drop[..n];
  }

  /** Whatever is marked asks for something taken at that moment. */
  ghost predicate DropsTaken(db: Db, ops: seq<Op>, drop: seq<bool>)
    requires |ops| == |drop|
  {
    forall n :: 0 <= n < |ops| && drop[n] ==> ops[n].Create? && Taken(Run(db, ops[..n]), ops[n].m)
  }

  lemma SameStatesMore(db: Db, ops: seq<Op>, drop: seq<bool>)
    requires |ops| == |drop| > 0
    ensures var k := |ops| - 1;
            SameStates(db, ops, drop) <==>
                SameStates(db, ops[..k], drop[..k]) && Run(db, Kept(ops, drop)) == Run(db, ops)
  {
    var k := |ops| - 1;
    assert ops[..|ops|] == ops && drop[..|ops|] == drop;
    assert SameAt(db, ops, drop, |ops|) == (Run(db, Kept(ops, drop)) == Run(db, ops));
    forall n | 0 <= n <= k
      ensures SameAt(db, ops[..k], drop[..k], n) == SameAt(db, ops, drop, n)
    {
      SameAtPrefix(db, ops, drop, k, n);
    }
  }

  lemma DropsTakenMore(db: Db, ops: seq<Op>, drop: seq<bool>)
    requires |ops| == |drop| > 0
    ensures var k := |ops| - 1;
            DropsTaken(db, ops, drop) <==>
              DropsTaken(db, ops[..k], drop[..k]) && (drop[k] ==> ops[k].Create? && Taken(Run(db, ops[..k]), ops[k].m))
  {
    var k := |ops| - 1;
    assert forall n :: 0 <= n < k ==> ops[..k][..n] == ops[..n] && ops[..k][n] == ops[n] && drop[..k][n] == drop[n];
  }

  lemma KeptStep(db: Db, ops: seq<Op>, drop: seq<bool>)
    requires |ops| == |drop| > 0
    requires drop[|ops| - 1] ==> ops[|ops| - 1].Create?
    requires Run(db, Kept(ops[..|ops| - 1], drop[..|ops| - 1])) == Run(db, ops[..|ops| - 1])
    ensures var k := |ops| - 1;
            Run(db, Kept(ops, drop)) == Run(db, ops) <==> (drop[k] ==> Taken(Run(db, ops[..k]), ops[k].m))
  {
    var k := |ops| - 1;
    var before, kept := Run(db, ops[..k]), Kept(ops[..k], drop[..k]);
    if drop[k] {
      assert Kept(ops, drop) == kept;
      CreateIdleIff(before, ops[k].m);
    } else {
      assert Kept(ops, drop) == kept + [ops[k]] && (kept + [ops[k]])[..|kept|] == kept;
    }
  }

  lemma SameAtEnd(db: Db, ops: seq<Op>, drop: seq<bool>)
    requires |ops| == |drop| && SameStates(db, ops, drop)
    ensures Run(db, Kept(ops, drop)) == Run(db, ops)
  {
    assert SameAt(db, ops, drop, |ops|);
    assert ops[..|ops|] == ops && drop[..|ops|] == drop;
  }

  /**
   In any run, deletions included, dropping some of its creation messages changes no state
   it goes through if and only if each of them asks for an invitation, a seat, or a place of
   its guest at the event that a ticket existing at that moment holds.
   */
  lemma {:induction false} DroppedCreationsIff(db: Db, ops: seq<Op>, drop: seq<bool>)
    requires |ops| == |drop| && forall n :: 0 <= n < |ops| && drop[n] ==> ops[n].Create?
    ensures SameStates(db, ops, drop) <==> DropsTaken(db, ops, drop)
  {
    if ops == [] {
    } else {
      var k := |ops| - 1;
      DroppedCreationsIff(db, ops[..k], drop[..k]);
      SameStatesMore(db, ops, drop);
      DropsTakenMore(db, ops, drop);
      if SameStates(db, ops[..k], drop[..k]) {
        SameAtEnd(db, ops[..k], drop[..k]);
        KeptStep(db, ops, drop);
      }
    }
  }

  /**
   Exactly one generated fact exists for every ticket ever created and none for any other
   number, and no two tickets share an invitation, a seat, or an event and guest.
   */
  lemma {:induction false} GeneratedLaw(now: int, ops: seq<Op>, id: TicketId)
    ensures Tally(Run(EmptyDb(now), ops).outbox, TicketGenerated, id) ==
        (if id < Run(EmptyDb(now), ops).serial then 1 else 0)
    ensures UniqueRows(Run(EmptyDb(now), ops).tickets)
  {
    Reachable(now, ops);
    if ops == [] {
    } else {
      var n := |ops| - 1;
      GeneratedLaw(now, ops[..n], id);
      GeneratedStep(Run(EmptyDb(now), ops[..n]), ops[n], id);
    }
  }

  lemma GeneratedStep(db: Db, op: Op, id: TicketId)
    requires Tally(db.outbox, TicketGenerated, id) == (if id < db.serial then 1 else 0)
    ensures Tally(Apply(db, op).outbox, TicketGenerated, id) == (if id < Apply(db, op).serial then 1 else 0)
  {
    if op.Create? && CreateReply(db, op.m) == Done {
      var fact := Fact(TicketGenerated, db.serial, op.m.eventId, op.m.guestId);
      ShortOutbox(fact, fact, id);
      TallyConcat(db.outbox, [fact], TicketGenerated, id);
    } else {
      SerialKept(db, op);
      if !op.Delete? {
        NothingGenerated(db, op, id);
      }
    }
  }

  lemma NothingGenerated(db: Db, op: Op, id: TicketId)
    requires !op.Delete? && (op.Create? ==> CreateReply(db, op.m) != Done)
    ensures Tally(Apply(db, op).outbox, TicketGenerated, id) == Tally(db.outbox, TicketGenerated, id)
  {
    Appends(db, op);
    FactsFollowLogs(db, op, id);
    TallyConcat(db.outbox, NewFacts(db, op), TicketGenerated, id);
  }

  lemma SerialKept(db: Db, op: Op)
    requires op.Create? ==> CreateReply(db, op.m) != Done
    ensures Apply(db, op).serial == db.serial
  {
  }

  /** With deletions the law fails: a message delivered again after its ticket was deleted makes a new ticket. */
  lemma DeletionBreaksIdempotence(now: int, m: Mapping)
    ensures var ops := [Op.Create(m), Op.Delete(0, true), Op.Create(m)];
            Run(EmptyDb(now), WithoutRepeats(ops)) != Run(EmptyDb(now), ops)
  {
    var ops := [Op.Create(m), Op.Delete(0, true), Op.Create(m)];
    var db0 := EmptyDb(now);
    var db1 := Apply(db0, ops[0]);
    var db2 := Apply(db1, ops[1]);
    assert ops[..1] == [ops[0]] && ops[..2] == [ops[0], ops[1]];
    assert [ops[0]][..0] == [] && [ops[0], ops[1]][..1] == [ops[0]];
    assert Run(db0, ops[..1]) == db1 && Run(db0, ops[..2]) == db2;
    assert WithoutRepeats(ops[..1]) == [ops[0]] && WithoutRepeats(ops[..2]) == ops[..2];
    assert db2.tickets == map[] && 1 in Apply(db2, ops[2]).tickets;
  }
}
