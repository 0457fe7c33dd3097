/**
 The laws of the gate under every interleaving of any number of requests, with aborts at
 any moment and replay keys that may vanish early: nonces, check-in times, and what can
 still happen after a revocation.
 */
module GateLaws {
  import opened Domain
  import opened ShareGuards
  import opened Verification
  import opened GateProtocol
  import opened GateInvariants
  import Tables
  import Ledger

  /**
   In every interleaving, the nonces of a ticket's committed acceptances are exactly
   1, 2, …, k in commit order, so no nonce is accepted twice; the row then holds k as its
   last nonce, none if k is 0, and k + 1 as its next; and the stored failure count stays
   within 0 to 9.
   */
  lemma NonceLaw(now: int, es: seq<Event>, id: TicketId)
    requires Play(EmptyWorld(now), es).Some? && id in Play(EmptyWorld(now), es).value.cells
    ensures var c := Play(EmptyWorld(now), es).value.cells[id];
            var k := |Ledger.OkNonces(c.log, id)|;
            && Ledger.OkNonces(c.log, id) == Ledger.UpTo(k)
            && c.row.nextNonce == Some(k + 1)
            && c.row.lastNonce == (if k == 0 then None else Some(k))
            && (c.guard.Some? ==> 0 <= c.guard.value.failCount < 10)
  {
    PlaySound(EmptyWorld(now), es);
    SoundNonces(Play(EmptyWorld(now), es).value.cells[id]);
  }

  lemma SoundNonces(c: Cell)
    requires Sound(c)
    ensures var k := |Ledger.OkNonces(c.log, c.id)|;
            && Ledger.OkNonces(c.log, c.id) == Ledger.UpTo(k)
            && c.row.nextNonce == Some(k + 1) && c.row.lastNonce == (if k == 0 then None else Some(k))
  {
    assert |Ledger.UpTo(c.row.nextNonce.value - 1)| == c.row.nextNonce.value - 1;
  }

  /** A guest inside always has a check-in time, and once there is one there always is one. */
  lemma CheckInLaw(now: int, es: seq<Event>, more: seq<Event>, id: TicketId)
    requires Play(EmptyWorld(now), es).Some? && id in Play(EmptyWorld(now), es).value.cells
    requires Play(Play(EmptyWorld(now), es).value, more).Some?
    ensures var w := Play(EmptyWorld(now), es).value;
            var w' := Play(w, more).value;
            && id in w'.cells
            && (w'.cells[id].row.presence == Inside ==> w'.cells[id].row.checkedInAt.Some?)
            && (w.cells[id].row.checkedInAt.Some? ==> w'.cells[id].row.checkedInAt.Some?)
            && (w.cells[id].row.revoked ==> w'.cells[id].row.revoked)
  {
    PlaySound(EmptyWorld(now), es);
    PlaySound(Play(EmptyWorld(now), es).value, more);
    assert Sound(Play(Play(EmptyWorld(now), es).value, more).value.cells[id]);
  }

  // ---- after a revocation ----

  /** The snapshot a scan still goes on with. */
  ghost function SnapOf(pc: Pc): Option<Ticket> {
    match pc
    case Looked(_, snap) => Some(snap)
    case Unblocked(_, snap) => Some(snap)
    case Faulty(_, snap, _, _) => Some(snap)
    case Counting(_, snap, _, _, _, _) => Some(snap)
    case Clear(_, snap) => Some(snap)
    case Keyed(_, snap) => Some(snap)
    case Resetting(_, snap) => Some(snap)
    case Ready(_, snap) => Some(snap)
    case Swapped(_, snap, _) => Some(snap)
    case _ => None
  }

  /** Since its revocation, when the row expected nonce `n`: nobody in flight knows a later nonce. */
  ghost predicate Closing(c: Cell, n: int) {
    && c.row.revoked && c.row.nextNonce.Some? && n <= c.row.nextNonce.value <= n + 1
    && forall pid :: pid in c.procs && SnapOf(c.procs[pid]).Some? ==>
         SnapOf(c.procs[pid]).value.nextNonce.Some? && SnapOf(c.procs[pid]).value.nextNonce.value <= n
  }

  lemma RevocationCloses(c: Cell)
    requires Sound(c) && c.row.revoked
    ensures Closing(c, c.row.nextNonce.value)
  {
    forall pid | pid in c.procs && SnapOf(c.procs[pid]).Some?
      ensures SnapSound(SnapOf(c.procs[pid]).value, c.row)
    {
      assert PcSound(pid, c.procs[pid], c.row, c.holder);
    }
  }

  /** A step moves no process but its own, and gives it no newer snapshot unless it reads an unrevoked row. */
  lemma SnapMoves(c: Cell, now: int, l: Label, pid: Pid)
    requires Step(c, now, l).Some? && pid in Step(c, now, l).value.procs
    ensures var pc' := Step(c, now, l).value.procs[pid];
            SnapOf(pc').Some? ==>
              || (pid in c.procs && SnapOf(c.procs[pid]) == SnapOf(pc'))
              || (!c.row.revoked && SnapOf(pc') == Some(c.row))
  {
  }

  lemma ClosingKept(c: Cell, now: int, l: Label, n: int)
    requires Sound(c) && Closing(c, n) && Step(c, now, l).Some?
    ensures Closing(Step(c, now, l).value, n)
  {
    var c' := Step(c, now, l).value;
    SoundKept(c, now, l);
    NonceMoves(c, now, l);
    forall pid | pid in c'.procs && SnapOf(c'.procs[pid]).Some?
      ensures SnapOf(c'.procs[pid]).value.nextNonce.Some? && SnapOf(c'.procs[pid]).value.nextNonce.value <= n
    {
      SnapMoves(c, now, l, pid);
    }
    if Accepts(c, l) {
      assert PcSound(l.pid, c.procs[l.pid], c.row, c.holder);
    }
  }

  lemma {:induction false} PlayCloses(w: World, es: seq<Event>, id: TicketId, n: int)
    requires WorldSound(w) && id in w.cells && Closing(w.cells[id], n) && Play(w, es).Some?
    ensures id in Play(w, es).value.cells && Closing(Play(w, es).value.cells[id], n)
  {
    if es == [] {
    } else {
      var front, e := es[..|es| - 1], es[|es| - 1];
      PlaySound(w, front);
      PlayCloses(w, front, id, n);
      var v := Play(w, front).value;
      if e.On? && e.id == id {
        ClosingKept(v.cells[id], v.now, e.l, n);
      }
    }
  }

  /** However many scans are in flight, at most one more is accepted once a revocation has committed. */
  lemma RevocationLaw(now: int, es: seq<Event>, more: seq<Event>, id: TicketId)
    requires Play(EmptyWorld(now), es).Some? && id in Play(EmptyWorld(now), es).value.cells
    requires Play(EmptyWorld(now), es).value.cells[id].row.revoked
    requires Play(Play(EmptyWorld(now), es).value, more).Some?
    ensures var w := Play(EmptyWorld(now), es).value;
            var w' := Play(w, more).value;
            && id in w'.cells && w'.cells[id].row.revoked
            && |Ledger.OkNonces(w'.cells[id].log, id)| <= |Ledger.OkNonces(w.cells[id].log, id)| + 1
  {
    var w := Play(EmptyWorld(now), es).value;
    PlaySound(EmptyWorld(now), es);
    RevocationCloses(w.cells[id]);
    PlayCloses(w, more, id, w.cells[id].row.nextNonce.value);
    PlaySound(w, more);
    assert Sound(Play(w, more).value.cells[id]);
  }

  // ---- alternation ----

  ghost predicate OverrideFree(es: seq<Event>) {
    forall i :: 0 <= i < |es| && es[i].On? ==> !es[i].l.LookToOverride?
  }

  /** The snapshot knows the nonce that the row expects. */
  ghost predicate Current(snap: Option<Ticket>, row: Ticket) {
    snap.Some? && snap.value.nextNonce == row.nextNonce
  }

  /**
   Without manual overrides the last crossing is known to every snapshot that can still win:
   one that knows the current nonce has seen the presence the last acceptance wrote.
   */
  ghost predicate Alternating(c: Cell) {
    var d := Ledger.OkDirections(c.log, c.id);
    && Ledger.Alternates(d)
    && (!c.row.revoked ==> c.row.presence == Ledger.Standing(d))
    && (forall pid :: pid in c.procs ==> !c.procs[pid].Overriding?)
    && (forall pid :: pid in c.procs && Current(SnapOf(c.procs[pid]), c.row) ==>
          SnapOf(c.procs[pid]).value.presence == Ledger.Standing(d))
  }

  lemma DirectionsStep(c: Cell, now: int, l: Label)
    requires Sound(c) && Alternating(c) && Step(c, now, l).Some? && !l.LookToOverride?
    ensures var d, c' := Ledger.OkDirections(c.log, c.id), Step(c, now, l).value;
            if Accepts(c, l) then
              c'.row.presence != Ledger.Standing(d) && Ledger.OkDirections(c'.log, c.id) == d + [c'.row.presence]
            else Ledger.OkDirections(c'.log, c.id) == d
  {
    StepWrites(c, now, l);
    NonceMoves(c, now, l);
    Ledger.OkDirectionsConcat(c.log, Written(c, now, l), c.id);
    var d := Ledger.OkDirections(c.log, c.id);
    if Accepts(c, l) {
      assert PcSound(l.pid, c.procs[l.pid], c.row, c.holder);
      Ledger.ShortLog(Written(c, now, l)[0], c.id);
    } else {
      OtherWritings(c, now, l);
      assert d + [] == d;
    }
  }

  lemma PresenceMoves(c: Cell, now: int, l: Label)
    requires Step(c, now, l).Some? && !Accepts(c, l) && !l.CommitOverride?
    ensures Step(c, now, l).value.row.revoked
        || (!c.row.revoked && Step(c, now, l).value.row.presence == c.row.presence)
  {
  }

  lemma NoOverrideStarts(c: Cell, now: int, l: Label, pid: Pid)
    requires Step(c, now, l).Some? && !l.LookToOverride? && pid in Step(c, now, l).value.procs
    requires pid in c.procs ==> !c.procs[pid].Overriding?
    ensures !Step(c, now, l).value.procs[pid].Overriding?
  {
  }

  lemma AlternatingKept(c: Cell, now: int, l: Label)
    requires Sound(c) && Alternating(c) && Step(c, now, l).Some? && !l.LookToOverride?
    ensures Alternating(Step(c, now, l).value)
  {
    var c', d := Step(c, now, l).value, Ledger.OkDirections(c.log, c.id);
    SoundKept(c, now, l);
    NonceMoves(c, now, l);
    DirectionsStep(c, now, l);
    if Accepts(c, l) {
      Ledger.AlternatesMore(d, c'.row.presence);
    } else {
      PresenceMoves(c, now, l);
    }
    forall pid | pid in c'.procs
      ensures !c'.procs[pid].Overriding?
      ensures Current(SnapOf(c'.procs[pid]), c'.row) ==>
                SnapOf(c'.procs[pid]).value.presence == Ledger.Standing(Ledger.OkDirections(c'.log, c'.id))
    {
      NoOverrideStarts(c, now, l, pid);
      if Current(SnapOf(c'.procs[pid]), c'.row) {
        CurrentSnap(c, now, l, pid);
      }
    }
  }

  /** A snapshot current after a step was current before, or has just been taken; an acceptance leaves none. */
  lemma CurrentSnap(c: Cell, now: int, l: Label, pid: Pid)
    requires Sound(c) && Step(c, now, l).Some? && pid in Step(c, now, l).value.procs
    requires Current(SnapOf(Step(c, now, l).value.procs[pid]), Step(c, now, l).value.row)
    ensures !Accepts(c, l)
    ensures var snap := SnapOf(Step(c, now, l).value.procs[pid]);
            || (pid in c.procs && SnapOf(c.procs[pid]) == snap && Current(snap, c.row))
            || (!c.row.revoked && snap == Some(c.row))
  {
    SnapMoves(c, now, l, pid);
    NonceMoves(c, now, l);
    if pid in c.procs {
      assert PcSound(pid, c.procs[pid], c.row, c.holder);
    }
  }

  /** In every interleaving of scans and revocations, a ticket's OK logs read inside, outside, inside, … */
  lemma {:induction false} AlternationLaw(now: int, es: seq<Event>)
    requires Play(EmptyWorld(now), es).Some? && OverrideFree(es)
    ensures var w := Play(EmptyWorld(now), es).value;
            forall id :: id in w.cells ==> Alternating(w.cells[id])
  {
    if es == [] {
    } else {
      var front, e := es[..|es| - 1], es[|es| - 1];
      AlternationLaw(now, front);
      PlaySound(EmptyWorld(now), front);
      var v := Play(EmptyWorld(now), front).value;
      match e
      case On(id, l) => AlternatingKept(v.cells[id], v.now, l);
      case Tick(_) =>
      case Open(id, m) =>
    }
  }
}
