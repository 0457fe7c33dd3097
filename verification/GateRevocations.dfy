/**
 Revoked tickets under interleaving: exactly which requests in flight can still put the guest
 of a revoked ticket inside. Neither the nonce swap nor a manual presence change tests the
 revocation again, so what counts is what was read before it.
 */
module GateRevocations {
  import opened Domain
  import opened ShareGuards
  import opened Verification
  import opened GateProtocol
  import opened GateInvariants
  import opened GateLaws
  import GateLimits

  /** An entry whose checks pass on its snapshot, with the nonce the row still expects. */
  ghost predicate EntersOn(job: Job, snap: Ticket, row: Ticket) {
    && job.p.direction == Entry && row.nextNonce == Some(job.token.nonce)
    && DeviceCheck(snap, job.token.nonce, job.p) == None && snap.presence == Outside
  }

  ghost predicate Expected(job: Job, row: Ticket) {
    job.p.direction == Entry && row.nextNonce == Some(job.token.nonce)
  }

  /** The request can still commit an entry, if nothing comes in its way. */
  ghost predicate CanStillEnter(pc: Pc, row: Ticket) {
    match pc
    case Looked(job, snap) => EntersOn(job, snap, row)
    case Unblocked(job, snap) => EntersOn(job, snap, row)
    case Clear(job, _) => Expected(job, row)
    case Keyed(job, _) => Expected(job, row)
    case Resetting(job, _) => Expected(job, row)
    case Ready(job, _) => Expected(job, row)
    case Swapped(job, _, _) => job.p.direction == Entry
    case Overriding(_, state, _) => state == Inside
    case _ => false
  }

  ghost predicate Threatened(c: Cell) {
    exists pid :: pid in c.procs && CanStillEnter(c.procs[pid], c.row)
  }

  // ---- without such a request the ticket stays outside ----

  ghost predicate Barred(c: Cell) {
    Sound(c) && c.row.revoked && c.row.presence == Outside && !Threatened(c)
  }

  /** A process not acting can enter after a step only if it could before: no snapshot knows a later nonce. */
  lemma BystanderBarred(c: Cell, c': Cell, pid: Pid)
    requires Sound(c) && Later(c.row, c'.row) && pid in c.procs && !CanStillEnter(c.procs[pid], c.row)
    ensures !CanStillEnter(c.procs[pid], c'.row)
  {
    assert PcSound(pid, c.procs[pid], c.row, c.holder);
  }

  /** A step that writes no row gives a scan no chance it had not before: it goes on with its snapshot. */
  lemma ScannerBarred(c: Cell, now: int, l: Label, pid: Pid)
    requires Sound(c) && c.row.revoked && pid in c.procs && ScanStep(c, now, l, pid, c.procs[pid]).Some?
    requires PcSound(pid, c.procs[pid], c.row, c.holder) && !CanStillEnter(c.procs[pid], c.row)
    requires !l.Commit? && !l.Penalise?
    ensures var c' := ScanStep(c, now, l, pid, c.procs[pid]).value;
            pid in c'.procs && !CanStillEnter(c'.procs[pid], c'.row)
  {
  }

  /** Nor does a step of somebody else, and nothing that starts now reads an unrevoked row. */
  lemma NobodyElseEnters(c: Cell, now: int, l: Label, pid: Pid)
    requires c.row.revoked && Step(c, now, l).Some? && pid in Step(c, now, l).value.procs
    requires StartsOrEnvironment(l) || l.Abort? || l.Issue? || pid != l.pid
    requires pid in c.procs ==> !CanStillEnter(c.procs[pid], c.row)
    requires !l.Commit? && !l.CommitOverride? && !l.CommitRevoke? && !l.Penalise? && !l.Rebind?
    ensures !CanStillEnter(Step(c, now, l).value.procs[pid], Step(c, now, l).value.row)
  {
  }

  lemma ActorBarred(c: Cell, now: int, l: Label, pid: Pid)
    requires Sound(c) && c.row.revoked && Step(c, now, l).Some? && pid in Step(c, now, l).value.procs
    requires pid in c.procs ==> !CanStillEnter(c.procs[pid], c.row)
    requires !l.Commit? && !l.CommitOverride? && !l.CommitRevoke? && !l.Penalise? && !l.Rebind?
    ensures !CanStillEnter(Step(c, now, l).value.procs[pid], Step(c, now, l).value.row)
  {
    if StartsOrEnvironment(l) || l.Abort? || l.Issue? || pid != l.pid {
      NobodyElseEnters(c, now, l, pid);
    } else {
      assert PcSound(pid, c.procs[pid], c.row, c.holder);
      ScannerBarred(c, now, l, pid);
    }
  }

  /** The steps that write the row move no process that goes on. */
  lemma WriterMovesNobody(c: Cell, now: int, l: Label, pid: Pid)
    requires Step(c, now, l).Some? && pid in Step(c, now, l).value.procs
    requires l.Commit? || l.CommitOverride? || l.CommitRevoke? || l.Penalise? || l.Rebind?
    ensures pid in c.procs
    ensures Step(c, now, l).value.procs[pid] == c.procs[pid] || Step(c, now, l).value.procs[pid].Rejected?
  {
  }

  lemma StaysOutside(c: Cell, now: int, l: Label)
    requires Barred(c) && Step(c, now, l).Some?
    ensures Step(c, now, l).value.row.presence == Outside
  {
    SoundKept(c, now, l);
    GateLimits.RevokedIsOutsideKeptIff(c, now, l);
    if l.CommitOverride? || Accepts(c, l) {
      assert l.pid in c.procs && !CanStillEnter(c.procs[l.pid], c.row);
    }
  }

  lemma BarredStep(c: Cell, now: int, l: Label)
    requires Barred(c) && Step(c, now, l).Some?
    ensures Barred(Step(c, now, l).value)
  {
    var c' := Step(c, now, l).value;
    SoundKept(c, now, l);
    StaysOutside(c, now, l);
    forall pid | pid in c'.procs
      ensures !CanStillEnter(c'.procs[pid], c'.row)
    {
      if l.Commit? || l.CommitOverride? || l.CommitRevoke? || l.Penalise? || l.Rebind? {
        WriterMovesNobody(c, now, l, pid);
        BystanderBarred(c, c', pid);
      } else {
        ActorBarred(c, now, l, pid);
      }
    }
  }

  lemma {:induction false} BarredRun(w: World, more: seq<Event>, id: TicketId)
    requires id in w.cells && Barred(w.cells[id]) && Play(w, more).Some?
    ensures id in Play(w, more).value.cells && Barred(Play(w, more).value.cells[id])
  {
    if more == [] {
    } else {
      var front, e := more[..|more| - 1], more[|more| - 1];
      BarredRun(w, front, id);
      var v := Play(w, front).value;
      if e.On? && e.id == id {
        BarredStep(v.cells[id], v.now, e.l);
      }
    }
  }

  // ---- with one, it can get inside ----

  ghost predicate EndsInside(w: World, more: seq<Event>, id: TicketId) {
    && Play(w, more).Some? && id in Play(w, more).value.cells
    && Play(w, more).value.cells[id].row.revoked && Play(w, more).value.cells[id].row.presence == Inside
  }

  lemma {:induction false} PlayFirst(w: World, e: Event, more: seq<Event>)
    requires Next(w, e).Some?
    ensures Play(w, [e] + more) == Play(Next(w, e).value, more)
  {
    if more == [] {
      assert [e] + more == [e] && [e][..0] == [];
    } else {
      assert ([e] + more)[..|more|] == [e] + more[..|more| - 1];
      PlayFirst(w, e, more[..|more| - 1]);
    }
  }

  lemma OneMoreEvent(w: World, e: Event, id: TicketId)
    requires Next(w, e).Some? && exists more :: EndsInside(Next(w, e).value, more, id)
    ensures exists more :: EndsInside(w, more, id)
  {
    var more :| EndsInside(Next(w, e).value, more, id);
    PlayFirst(w, e, more);
    assert EndsInside(w, [e] + more, id);
  }

  /** What helps the request on: first out of the way with what blocks it, then its own next step. */
  ghost function Helpful(c: Cell, now: int, pid: Pid): Event
    requires pid in c.procs && CanStillEnter(c.procs[pid], c.row)
  {
    match c.procs[pid]
    case Looked(_, _) =>
      if BlockedAt(c.guard, now) then Tick(c.guard.value.blockedUntil.value - now) else On(c.id, CheckBlock(pid))
    case Unblocked(_, _) => On(c.id, if c.endsAt.Some? then EventEnds(None) else Screen(pid))
    case Clear(job, _) => On(c.id, if job.token.nonce in c.keys then Evict(job.token.nonce) else TakeKey(pid))
    case Keyed(_, _) => On(c.id, FindGuard(pid))
    case Resetting(_, _) => On(c.id, ResetGuard(pid))
    case Ready(_, _) => On(c.id, if c.holder.Some? then Abort(c.holder.value) else Swap(pid))
    case Swapped(_, _, _) => On(c.id, Commit(pid))
    case Overriding(_, _, _) => On(c.id, if c.holder.Some? then Abort(c.holder.value) else CommitOverride(pid))
  }

  /** How many such events are left at most. */
  ghost function Distance(c: Cell, now: int, pid: Pid): nat
    requires pid in c.procs
  {
    match c.procs[pid]
    case Looked(_, _) => if BlockedAt(c.guard, now) then 12 else 11
    case Unblocked(_, _) => if c.endsAt.Some? then 10 else 9
    case Clear(job, _) => if job.token.nonce in c.keys then 8 else 7
    case Keyed(_, _) => 6
    case Resetting(_, _) => 5
    case Ready(_, _) => if c.holder.Some? then 4 else 3
    case Swapped(_, _, _) => 2
    case Overriding(_, _, _) => if c.holder.Some? then 2 else 1
    case _ => 0
  }

  /** A step of the request or of its surroundings brings it nearer, or inside. */
  ghost predicate Nearer(c: Cell, now: int, c': Cell, now': int, pid: Pid)
    requires pid in c.procs
  {
    && c'.row.revoked && c'.id == c.id
    && (|| c'.row.presence == Inside
        || (pid in c'.procs && CanStillEnter(c'.procs[pid], c'.row) && Distance(c', now', pid) < Distance(c, now, pid)))
  }

  // One lemma a stage of the request.

  lemma HelpsCheck(c: Cell, now: int, pid: Pid)
    requires Sound(c) && c.row.revoked && pid in c.procs && CanStillEnter(c.procs[pid], c.row)
    requires Helpful(c, now, pid).On? && (c.procs[pid].Looked? || c.procs[pid].Unblocked?)
    ensures var l := Helpful(c, now, pid).l; Step(c, now, l).Some? && Nearer(c, now, Step(c, now, l).value, now, pid)
  {
    assert PcSound(pid, c.procs[pid], c.row, c.holder);
  }

  lemma HelpsToKey(c: Cell, now: int, pid: Pid)
    requires Sound(c) && c.row.revoked && pid in c.procs && CanStillEnter(c.procs[pid], c.row)
    requires Helpful(c, now, pid).On? && (c.procs[pid].Clear? || c.procs[pid].Keyed? || c.procs[pid].Resetting?)
    ensures var l := Helpful(c, now, pid).l; Step(c, now, l).Some? && Nearer(c, now, Step(c, now, l).value, now, pid)
  {
    assert PcSound(pid, c.procs[pid], c.row, c.holder);
  }

  lemma HelpsAlone(c: Cell, now: int, pid: Pid)
    requires Sound(c) && c.row.revoked && pid in c.procs && CanStillEnter(c.procs[pid], c.row)
    requires Helpful(c, now, pid).On? && (c.holder == None && (c.procs[pid].Ready? || c.procs[pid].Overriding?))
    ensures var l := Helpful(c, now, pid).l; Step(c, now, l).Some? && Nearer(c, now, Step(c, now, l).value, now, pid)
  {
    assert PcSound(pid, c.procs[pid], c.row, c.holder);
  }

  lemma HelpsCommit(c: Cell, now: int, pid: Pid)
    requires Sound(c) && c.row.revoked && pid in c.procs && CanStillEnter(c.procs[pid], c.row)
    requires Helpful(c, now, pid).On? && (c.procs[pid].Swapped?)
    ensures var l := Helpful(c, now, pid).l; Step(c, now, l).Some? && Nearer(c, now, Step(c, now, l).value, now, pid)
  {
    assert PcSound(pid, c.procs[pid], c.row, c.holder);
  }

  /** The holder of the row lock may be rolled back. */
  lemma HelpsByAbort(c: Cell, now: int, pid: Pid)
    requires Sound(c) && c.row.revoked && pid in c.procs && CanStillEnter(c.procs[pid], c.row)
    requires c.holder.Some? && (c.procs[pid].Ready? || c.procs[pid].Overriding?)
    ensures var l := Helpful(c, now, pid).l; Step(c, now, l).Some? && Nearer(c, now, Step(c, now, l).value, now, pid)
  {
    assert c.procs[c.holder.value].Swapped?;
  }

  lemma Helps(c: Cell, now: int, pid: Pid)
    requires Sound(c) && c.row.revoked && pid in c.procs && CanStillEnter(c.procs[pid], c.row)
    requires Helpful(c, now, pid).On?
    ensures var l := Helpful(c, now, pid).l; Step(c, now, l).Some? && Nearer(c, now, Step(c, now, l).value, now, pid)
  {
    if c.procs[pid].Looked? || c.procs[pid].Unblocked? {
      HelpsCheck(c, now, pid);
    } else if c.procs[pid].Clear? || c.procs[pid].Keyed? || c.procs[pid].Resetting? {
      HelpsToKey(c, now, pid);
    } else if c.procs[pid].Swapped? {
      HelpsCommit(c, now, pid);
    } else if c.holder.Some? {
      HelpsByAbort(c, now, pid);
    } else {
      HelpsAlone(c, now, pid);
    }
  }

  lemma {:induction false} ThreatEnters(w: World, id: TicketId, pid: Pid)
    requires WorldSound(w) && id in w.cells && w.cells[id].row.revoked && pid in w.cells[id].procs
    requires CanStillEnter(w.cells[id].procs[pid], w.cells[id].row)
    ensures exists more :: EndsInside(w, more, id)
    decreases Distance(w.cells[id], w.now, pid)
  {
    var c := w.cells[id];
    var e := Helpful(c, w.now, pid);
    if e.On? {
      Helps(c, w.now, pid);
    }
    WorldStep(w, e);
    var v := Next(w, e).value;
    if v.cells[id].row.presence == Inside {
      assert EndsInside(v, [], id);
    } else {
      ThreatEnters(v, id, pid);
    }
    OneMoreEvent(w, e, id);
  }

  /**
   From any reachable state of a revoked ticket whose guest is outside, some continuation
   puts the guest inside if and only if one of these is in flight: a manual entry decided
   before the revocation, or an entry scan that read the row before it, passes its checks on
   what it read, and holds the nonce the row still expects.
   */
  lemma RevokedGetsInsideIff(now: int, es: seq<Event>, id: TicketId)
    requires Play(EmptyWorld(now), es).Some? && id in Play(EmptyWorld(now), es).value.cells
    requires Play(EmptyWorld(now), es).value.cells[id].row.revoked
    requires Play(EmptyWorld(now), es).value.cells[id].row.presence == Outside
    ensures var w := Play(EmptyWorld(now), es).value;
            (exists more :: EndsInside(w, more, id)) <==> Threatened(w.cells[id])
  {
    PlaySound(EmptyWorld(now), es);
    var w := Play(EmptyWorld(now), es).value;
    if Threatened(w.cells[id]) {
      var pid :| pid in w.cells[id].procs && CanStillEnter(w.cells[id].procs[pid], w.cells[id].row);
      ThreatEnters(w, id, pid);
    } else {
      forall more | Play(w, more).Some?
        ensures !EndsInside(w, more, id)
      {
        BarredRun(w, more, id);
      }
    }
  }
}
