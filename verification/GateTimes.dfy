/**
 Times and actors under interleaving: a request decides at the moment it reads, and what it
 writes later still bears that moment. So every revocation, failure and block in a cell goes
 back to the reading statement of the request that caused it.
 */
module GateTimes {
  import opened Domain
  import opened ShareGuards
  import opened Verification
  import opened GateProtocol
  import opened GateInvariants

  /** A guard of this ticket was read for counting at time `t`, as event `n` of the run. */
  ghost predicate CountsAt(now: int, es: seq<Event>, id: TicketId, n: nat, t: int) {
    && n < |es| && es[n].On? && es[n].id == id && es[n].l.ReadGuard?
    && Play(EmptyWorld(now), es[..n]).Some? && Play(EmptyWorld(now), es[..n]).value.now == t
  }

  /** Staff asked to revoke this ticket at time `t`, as event `n` of the run. */
  ghost predicate AsksAt(now: int, es: seq<Event>, id: TicketId, n: nat, t: int,
      reason: Option<string>, actor: UserId) {
    && n < |es| && es[n].On? && es[n].id == id && es[n].l.LookToRevoke?
    && es[n].l.reason == reason && es[n].l.actor == actor
    && Play(EmptyWorld(now), es[..n]).Some? && Play(EmptyWorld(now), es[..n]).value.now == t
  }

  ghost predicate Counted(now: int, es: seq<Event>, id: TicketId, t: int) {
    exists n: nat :: CountsAt(now, es, id, n, t)
  }

  ghost predicate Asked(now: int, es: seq<Event>, id: TicketId, t: int, reason: Option<string>, actor: UserId) {
    exists n: nat :: AsksAt(now, es, id, n, t, reason, actor)
  }

  ghost predicate PcTimed(now: int, es: seq<Event>, id: TicketId, pc: Pc) {
    match pc
    case Counting(_, _, _, _, _, since) => Counted(now, es, id, since)
    case Revoking(_, reason, actor, since) => Asked(now, es, id, since, reason, actor)
    case _ => true
  }

  /**
   The time of its last failure is one at which the guard was read, and its block ends five
   minutes after such a time.
   */
  ghost predicate GuardTimed(now: int, es: seq<Event>, id: TicketId, g: Guard) {
    && (g.lastFailAt.Some? ==> Counted(now, es, id, g.lastFailAt.value))
    && (g.blockedUntil.Some? ==> Counted(now, es, id, g.blockedUntil.value - 300_000))
  }

  /**
   A revoked ticket names the tenth failure's time and the system, or time, actor and reason of
   the staff who asked.
   */
  ghost predicate RowTimed(now: int, es: seq<Event>, id: TicketId, row: Ticket) {
    row.revoked ==>
      && row.revokedAt.Some? && row.revokedBy.Some?
      && (|| (row.revokedBy.value == SYSTEM_ACTOR && Counted(now, es, id, row.revokedAt.value))
          || exists reason :: Gives(reason, row.revokedReason)
               && Asked(now, es, id, row.revokedAt.value, reason, row.revokedBy.value))
  }

  ghost predicate Gives(reason: Option<string>, written: Option<string>) {
    written == (if reason.Some? then reason else Some("Manual revoke"))
  }

  ghost predicate CellTimed(now: int, es: seq<Event>, c: Cell) {
    && RowTimed(now, es, c.id, c.row)
    && (c.guard.Some? ==> GuardTimed(now, es, c.id, c.guard.value))
    && (forall pid :: pid in c.procs ==> PcTimed(now, es, c.id, c.procs[pid]))
  }

  // ---- what happened stays so ----

  lemma CountedEarlier(now: int, es: seq<Event>, id: TicketId, t: int)
    requires es != [] && Counted(now, es[..|es| - 1], id, t)
    ensures Counted(now, es, id, t)
  {
    var n: nat :| CountsAt(now, es[..|es| - 1], id, n, t);
    assert es[..|es| - 1][..n] == es[..n];
    assert CountsAt(now, es, id, n, t);
  }

  lemma AskedEarlier(now: int, es: seq<Event>, id: TicketId, t: int, reason: Option<string>, actor: UserId)
    requires es != [] && Asked(now, es[..|es| - 1], id, t, reason, actor)
    ensures Asked(now, es, id, t, reason, actor)
  {
    var n: nat :| AsksAt(now, es[..|es| - 1], id, n, t, reason, actor);
    assert es[..|es| - 1][..n] == es[..n];
    assert AsksAt(now, es, id, n, t, reason, actor);
  }

  lemma TimedEarlier(now: int, es: seq<Event>, c: Cell)
    requires es != [] && CellTimed(now, es[..|es| - 1], c)
    ensures CellTimed(now, es, c)
  {
    forall t | Counted(now, es[..|es| - 1], c.id, t)
      ensures Counted(now, es, c.id, t)
    {
      CountedEarlier(now, es, c.id, t);
    }
    forall t, reason, actor | Asked(now, es[..|es| - 1], c.id, t, reason, actor)
      ensures Asked(now, es, c.id, t, reason, actor)
    {
      AskedEarlier(now, es, c.id, t, reason, actor);
    }
  }

  // ---- steps ----

  lemma RowStep(now: int, es: seq<Event>, c: Cell, at: int, l: Label)
    requires Sound(c) && CellTimed(now, es, c) && Step(c, at, l).Some?
    ensures RowTimed(now, es, c.id, Step(c, at, l).value.row)
  {
    if !StartsOrEnvironment(l) {
      assert PcSound(l.pid, c.procs[l.pid], c.row, c.holder) && PcTimed(now, es, c.id, c.procs[l.pid]);
      if l.CommitRevoke? {
        var reason := c.procs[l.pid].reason;
        assert Gives(reason, Step(c, at, l).value.row.revokedReason);
      }
    }
  }

  lemma GuardStep(now: int, es: seq<Event>, c: Cell, at: int, l: Label)
    requires CellTimed(now, es, c) && Step(c, at, l).Some? && Step(c, at, l).value.guard.Some?
    ensures GuardTimed(now, es, c.id, Step(c, at, l).value.guard.value)
  {
    if !StartsOrEnvironment(l) {
      assert PcTimed(now, es, c.id, c.procs[l.pid]);
    }
  }

  lemma PcStep(now: int, es: seq<Event>, c: Cell, at: int, l: Label, pid: Pid)
    requires CellTimed(now, es, c) && Step(c, at, l).Some? && pid in Step(c, at, l).value.procs
    requires l.ReadGuard? ==> Counted(now, es, c.id, at)
    requires l.LookToRevoke? ==> Asked(now, es, c.id, at, l.reason, l.actor)
    ensures PcTimed(now, es, c.id, Step(c, at, l).value.procs[pid])
  {
    if pid in c.procs {
      assert PcTimed(now, es, c.id, c.procs[pid]);
    }
  }

  lemma TimedStep(now: int, es: seq<Event>, c: Cell, at: int, l: Label)
    requires Sound(c) && CellTimed(now, es, c) && Step(c, at, l).Some?
    requires l.ReadGuard? ==> Counted(now, es, c.id, at)
    requires l.LookToRevoke? ==> Asked(now, es, c.id, at, l.reason, l.actor)
    ensures CellTimed(now, es, Step(c, at, l).value)
  {
    var c' := Step(c, at, l).value;
    SoundKept(c, at, l);
    RowStep(now, es, c, at, l);
    if c'.guard.Some? {
      GuardStep(now, es, c, at, l);
    }
    forall pid | pid in c'.procs
      ensures PcTimed(now, es, c.id, c'.procs[pid])
    {
      PcStep(now, es, c, at, l, pid);
    }
  }

  lemma JustNow(now: int, es: seq<Event>)
    requires es != [] && es[|es| - 1].On? && Play(EmptyWorld(now), es[..|es| - 1]).Some?
    ensures var e, at := es[|es| - 1], Play(EmptyWorld(now), es[..|es| - 1]).value.now;
            && (e.l.ReadGuard? ==> Counted(now, es, e.id, at))
            && (e.l.LookToRevoke? ==> Asked(now, es, e.id, at, e.l.reason, e.l.actor))
  {
    var n, e, at := |es| - 1, es[|es| - 1], Play(EmptyWorld(now), es[..|es| - 1]).value.now;
    assert e.l.ReadGuard? ==> CountsAt(now, es, e.id, n, at);
    assert e.l.LookToRevoke? ==> AsksAt(now, es, e.id, n, at, e.l.reason, e.l.actor);
  }

  ghost predicate AllTimed(now: int, es: seq<Event>, w: World) {
    forall id :: id in w.cells ==> w.cells[id].id == id && CellTimed(now, es, w.cells[id])
  }

  lemma NextTimed(now: int, es: seq<Event>, v: World, e: Event)
    requires WorldSound(v) && AllTimed(now, es, v) && Next(v, e).Some?
    requires e.On? && e.l.ReadGuard? ==> Counted(now, es, e.id, v.now)
    requires e.On? && e.l.LookToRevoke? ==> Asked(now, es, e.id, v.now, e.l.reason, e.l.actor)
    ensures AllTimed(now, es, Next(v, e).value)
  {
    match e
    case On(id, l) =>
      TimedStep(now, es, v.cells[id], v.now, l);
      SoundKept(v.cells[id], v.now, l);
    case Tick(_) =>
    case Open(id, m) =>
  }

  /**
   In every interleaving, a revoked ticket names the moment, the actor and the reason of a
   request that asked for it, or the moment at which the failure was counted that revoked it;
   and a block ends exactly five minutes after a failure was counted, however late it was written.
   */
  lemma {:induction false} TimesLaw(now: int, es: seq<Event>)
    requires Play(EmptyWorld(now), es).Some?
    ensures AllTimed(now, es, Play(EmptyWorld(now), es).value)
  {
    if es == [] {
    } else {
      var front, e := es[..|es| - 1], es[|es| - 1];
      TimesLaw(now, front);
      PlaySound(EmptyWorld(now), front);
      var v := Play(EmptyWorld(now), front).value;
      forall id | id in v.cells
        ensures CellTimed(now, es, v.cells[id])
      {
        TimedEarlier(now, es, v.cells[id]);
      }
      if e.On? {
        JustNow(now, es);
      }
      NextTimed(now, es, v, e);
    }
  }
}
