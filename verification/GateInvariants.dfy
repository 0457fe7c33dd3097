/**
 What every step of the gate-scan protocol keeps, whatever the interleaving, and how it
 lifts to whole runs of a world.
 */
module GateInvariants {
  import opened Domain
  import opened ShareGuards
  import opened Verification
  import opened GateProtocol
  import Tables
  import Ledger

  /** The nonce columns count the accepted scans, and a guest inside has a check-in time. */
  ghost predicate RowSound(row: Ticket) {
    && row.nextNonce.Some? && row.nextNonce.value >= 1
    && row.lastNonce == (if row.nextNonce.value == 1 then None else Some(row.nextNonce.value - 1))
    && (row.presence == Inside ==> row.checkedInAt.Some?)
  }

  /** `b` is the row at a later moment than `a`. */
  ghost predicate Later(a: Ticket, b: Ticket) {
    && a.nextNonce.Some? && b.nextNonce.Some? && a.nextNonce.value <= b.nextNonce.value
    && (a.checkedInAt.Some? ==> b.checkedInAt.Some?)
    && (a.revoked ==> b.revoked)
  }

  /** A snapshot a scan goes on with: the row as it was at some moment before its revocation. */
  ghost predicate SnapSound(snap: Ticket, row: Ticket) {
    !snap.revoked && RowSound(snap) && Later(snap, row)
  }

  /** A scan that passed the checks has a token for the snapshot's next nonce and asks for the other side. */
  ghost predicate Passed(job: Job, snap: Ticket) {
    snap.nextNonce == Some(job.token.nonce) && snap.presence != IntendedState(job.p.direction)
  }

  ghost predicate PcSound(pid: Pid, pc: Pc, row: Ticket, holder: Option<Pid>) {
    match pc
    case Verified(_) => true
    case Looked(_, snap) => SnapSound(snap, row)
    case Unblocked(_, snap) => SnapSound(snap, row)
    case Faulty(_, snap, v, risk) => SnapSound(snap, row) && v != Ok && IsScanRisk(risk)
    case Counting(_, snap, v, risk, failsSeen, _) =>
      SnapSound(snap, row) && v != Ok && IsScanRisk(risk) && 0 <= failsSeen < 10
    case Clear(job, snap) => SnapSound(snap, row) && Passed(job, snap)
    case Keyed(job, snap) => SnapSound(snap, row) && Passed(job, snap)
    case Resetting(job, snap) => SnapSound(snap, row) && Passed(job, snap)
    case Ready(job, snap) => SnapSound(snap, row) && Passed(job, snap)
    case Swapped(job, snap, write) =>
      && SnapSound(snap, row) && Passed(job, snap) && holder == Some(pid)
      && row.nextNonce == Some(job.token.nonce)
      && write == row.(presence := IntendedState(job.p.direction), lastNonce := Some(job.token.nonce),
                       nextNonce := Some(job.token.nonce + 1), checkedInAt := write.checkedInAt)
      && write.checkedInAt.Some?
    case Rejected(_, _, v) => v != Ok
    case Revoking(_, _, _, _) => true
    case Overriding(snap, _, _) => snap.checkedInAt.Some? ==> row.checkedInAt.Some?
    case Issuing(nonce) => row.nextNonce.Some? && 1 <= nonce <= row.nextNonce.value
  }

  ghost predicate ProcsSound(c: Cell) {
    && (c.holder.Some? ==> c.holder.value in c.procs && c.procs[c.holder.value].Swapped?)
    && (forall pid :: pid in c.procs ==> PcSound(pid, c.procs[pid], c.row, c.holder))
  }

  ghost predicate GuardSound(guard: Option<Guard>) {
    guard.Some? ==> 0 <= guard.value.failCount < 10
  }

  /** The accepted nonces are 1, 2, …, k and the row expects k + 1. */
  ghost predicate LogSound(c: Cell) {
    RowSound(c.row) && Ledger.OkNonces(c.log, c.id) == Ledger.UpTo(c.row.nextNonce.value - 1)
  }

  ghost predicate Sound(c: Cell) {
    LogSound(c) && GuardSound(c.guard) && ProcsSound(c)
  }

  // ---- single steps ----

  /** A process not holding the lock does not mind the row moving on. */
  lemma PcSoundLater(pid: Pid, pc: Pc, row: Ticket, holder: Option<Pid>, row': Ticket, holder': Option<Pid>)
    requires PcSound(pid, pc, row, holder) && Later(row, row')
    requires pc.Swapped? ==> row' == row && holder' == holder
    ensures PcSound(pid, pc, row', holder')
  {
  }

  /** Processes other than `pid` stay sound when the row moves on or the lock changes hands among those not swapped. */
  lemma OthersStaySound(c: Cell, c': Cell, pid: Pid)
    requires ProcsSound(c) && Later(c.row, c'.row)
    requires c.procs - {pid} == c'.procs - {pid}
    requires (c.row == c'.row && c.holder == c'.holder) || c.holder == None || c.holder == Some(pid)
    ensures forall i :: i in c'.procs && i != pid ==> i in c.procs && PcSound(i, c'.procs[i], c'.row, c'.holder)
  {
    forall i | i in c'.procs && i != pid
      ensures i in c.procs && PcSound(i, c'.procs[i], c'.row, c'.holder)
    {
      assert i in c'.procs - {pid};
      assert c.procs[i] == (c.procs - {pid})[i] == (c'.procs - {pid})[i] == c'.procs[i];
      PcSoundLater(i, c.procs[i], c.row, c.holder, c'.row, c'.holder);
    }
  }

  /** Moving one process to a sound point keeps all processes sound. */
  lemma Replaced(c: Cell, c': Cell, pid: Pid)
    requires ProcsSound(c) && Later(c.row, c'.row)
    requires c'.procs - {pid} == c.procs - {pid}
    requires (c.row == c'.row && c.holder == c'.holder) || c.holder == None || c.holder == Some(pid)
    requires pid in c'.procs ==> PcSound(pid, c'.procs[pid], c'.row, c'.holder)
    requires c'.holder.Some? ==> c'.holder.value in c'.procs && c'.procs[c'.holder.value].Swapped?
    ensures ProcsSound(c')
  {
    OthersStaySound(c, c', pid);
  }

  lemma ScanPcSound(c: Cell, now: int, l: Label, pid: Pid)
    requires Sound(c) && pid in c.procs && ScanStep(c, now, l, pid, c.procs[pid]).Some?
    ensures var c' := ScanStep(c, now, l, pid, c.procs[pid]).value;
            && RowSound(c'.row) && Later(c.row, c'.row) && GuardSound(c'.guard)
            && (pid in c'.procs ==> PcSound(pid, c'.procs[pid], c'.row, c'.holder))
  {
    assert PcSound(pid, c.procs[pid], c.row, c.holder);
    if l.Penalise? || l.Swap? || l.Commit? {
      RowWriteSound(c, now, l, pid);
    } else {
      DecisionSound(c, now, l, pid);
    }
  }

  lemma RowWriteSound(c: Cell, now: int, l: Label, pid: Pid)
    requires Sound(c) && pid in c.procs && ScanStep(c, now, l, pid, c.procs[pid]).Some?
    requires PcSound(pid, c.procs[pid], c.row, c.holder) && (l.Penalise? || l.Swap? || l.Commit?)
    ensures var c' := ScanStep(c, now, l, pid, c.procs[pid]).value;
            && RowSound(c'.row) && Later(c.row, c'.row) && GuardSound(c'.guard)
            && (pid in c'.procs ==> PcSound(pid, c'.procs[pid], c'.row, c'.holder))
  {
  }

  lemma DecisionSound(c: Cell, now: int, l: Label, pid: Pid)
    requires Sound(c) && pid in c.procs && ScanStep(c, now, l, pid, c.procs[pid]).Some?
    requires PcSound(pid, c.procs[pid], c.row, c.holder) && !l.Penalise? && !l.Swap? && !l.Commit?
    ensures var c' := ScanStep(c, now, l, pid, c.procs[pid]).value;
            && c'.row == c.row && c'.holder == c.holder && GuardSound(c'.guard)
            && (pid in c'.procs ==> PcSound(pid, c'.procs[pid], c.row, c.holder))
  {
  }

  lemma ScanFrame(c: Cell, now: int, l: Label, pid: Pid)
    requires Sound(c) && pid in c.procs && ScanStep(c, now, l, pid, c.procs[pid]).Some?
    ensures var c' := ScanStep(c, now, l, pid, c.procs[pid]).value;
            && c'.id == c.id && c'.procs - {pid} == c.procs - {pid}
            && ((c.row == c'.row && c.holder == c'.holder) || c.holder == None || c.holder == Some(pid))
            && (c'.holder.Some? ==> c'.holder.value in c'.procs && c'.procs[c'.holder.value].Swapped?)
  {
    assert PcSound(pid, c.procs[pid], c.row, c.holder);
  }

  lemma OtherSound(c: Cell, now: int, l: Label, pid: Pid)
    requires Sound(c) && pid in c.procs && OtherStep(c, now, l, pid, c.procs[pid]).Some?
    ensures var c' := OtherStep(c, now, l, pid, c.procs[pid]).value;
            RowSound(c'.row) && Later(c.row, c'.row) && GuardSound(c'.guard) && ProcsSound(c')
  {
    assert PcSound(pid, c.procs[pid], c.row, c.holder);
    Replaced(c, OtherStep(c, now, l, pid, c.procs[pid]).value, pid);
  }

  lemma OpenSound(c: Cell, now: int, l: Label)
    requires Sound(c) && OpenStep(c, now, l).Some?
    ensures var c' := OpenStep(c, now, l).value;
            RowSound(c'.row) && Later(c.row, c'.row) && GuardSound(c'.guard) && ProcsSound(c')
  {
    var c' := OpenStep(c, now, l).value;
    if l.Rebind? {
      forall i | i in c'.procs
        ensures PcSound(i, c'.procs[i], c'.row, c'.holder)
      {
        PcSoundLater(i, c.procs[i], c.row, c.holder, c'.row, c'.holder);
      }
    } else if !l.Evict? && !l.EventEnds? {
      Replaced(c, c', l.pid);
    }
  }

  lemma AbortSound(c: Cell, pid: Pid)
    requires Sound(c) && pid in c.procs
    ensures ProcsSound(Gone(c, pid))
  {
    Replaced(c, Gone(c, pid), pid);
  }

  lemma StepSound(c: Cell, now: int, l: Label)
    requires Sound(c) && Step(c, now, l).Some?
    ensures var c' := Step(c, now, l).value;
            RowSound(c'.row) && Later(c.row, c'.row) && GuardSound(c'.guard) && ProcsSound(c')
  {
    if StartsOrEnvironment(l) {
      OpenSound(c, now, l);
    } else if l.Abort? {
      AbortSound(c, l.pid);
    } else if l.CommitRevoke? || l.CommitOverride? || l.Issue? {
      OtherSound(c, now, l, l.pid);
    } else {
      ScanPcSound(c, now, l, l.pid);
      ScanFrame(c, now, l, l.pid);
      Replaced(c, ScanStep(c, now, l, l.pid, c.procs[l.pid]).value, l.pid);
    }
  }

  // ---- the log ----

  /** This step commits an accepted scan. */
  ghost predicate Accepts(c: Cell, l: Label) {
    l.Commit? && l.pid in c.procs && c.procs[l.pid].Swapped?
  }

  /** What a step appends to the committed log. */
  ghost function Written(c: Cell, now: int, l: Label): seq<ScanLog>
    requires Step(c, now, l).Some?
  {
    if !StartsOrEnvironment(l) && l.Commit? then
      match c.procs[l.pid]
      case Swapped(job, snap, _) => [ScanEntry(c.id, snap, job.token.nonce, job.p, Ok)]
      case Rejected(job, snap, v) => [ScanEntry(c.id, snap, job.token.nonce, job.p, v)]
      case _ => []
    else if l.CommitRevoke? then
      match c.procs[l.pid]
      case Revoking(snap, _, actor, _) =>
          [ScanLog(c.id, snap.eventId, Outside, Verdict.Revoked, None, None, None, actor)]
      case _ => []
    else if l.CommitOverride? then
      match c.procs[l.pid]
      case Overriding(snap, state, actor) => [Tables.ManualEntry(c.id, snap, state, actor)]
      case _ => []
    else []
  }

  lemma StepWrites(c: Cell, now: int, l: Label)
    requires Step(c, now, l).Some?
    ensures Step(c, now, l).value.log == c.log + Written(c, now, l)
    ensures Step(c, now, l).value.id == c.id
  {
    assert c.log + [] == c.log;
  }

  /** Only a committed acceptance moves the nonce columns. */
  lemma NonceMoves(c: Cell, now: int, l: Label)
    requires Sound(c) && Step(c, now, l).Some?
    ensures var c' := Step(c, now, l).value;
            if Accepts(c, l) then
              && c'.row == c.procs[l.pid].write && c'.row.presence == IntendedState(c.procs[l.pid].job.p.direction)
              && Written(c, now, l) ==
                  [ScanEntry(c.id, c.procs[l.pid].snap, c.row.nextNonce.value, c.procs[l.pid].job.p, Ok)]
              && c'.row.nextNonce == Some(c.row.nextNonce.value + 1)
            else c'.row.nextNonce == c.row.nextNonce && c'.row.lastNonce == c.row.lastNonce
  {
    if !StartsOrEnvironment(l) {
      assert PcSound(l.pid, c.procs[l.pid], c.row, c.holder);
    }
  }

  /** Without an acceptance, what is written carries no accepted nonce. */
  lemma OtherWritings(c: Cell, now: int, l: Label)
    requires Sound(c) && Step(c, now, l).Some? && !Accepts(c, l)
    ensures Ledger.OkNonces(Written(c, now, l), c.id) == []
    ensures !l.CommitOverride? ==> Ledger.OkDirections(Written(c, now, l), c.id) == []
  {
    var logs := Written(c, now, l);
    if |logs| > 0 {
      assert PcSound(l.pid, c.procs[l.pid], c.row, c.holder);
      Ledger.ShortLog(logs[0], c.id);
      assert logs == [logs[0]];
    }
  }

  lemma LogStep(c: Cell, now: int, l: Label)
    requires Sound(c) && Step(c, now, l).Some?
    ensures Ledger.OkNonces(Step(c, now, l).value.log, c.id) ==
        Ledger.UpTo(Step(c, now, l).value.row.nextNonce.value - 1)
  {
    StepWrites(c, now, l);
    NonceMoves(c, now, l);
    Ledger.OkNoncesConcat(c.log, Written(c, now, l), c.id);
    if Accepts(c, l) {
      Ledger.ShortLog(Written(c, now, l)[0], c.id);
      var k := c.row.nextNonce.value;
      assert Ledger.UpTo(k) == Ledger.UpTo(k - 1) + [k];
    } else {
      OtherWritings(c, now, l);
      assert Ledger.OkNonces(c.log, c.id) + [] == Ledger.OkNonces(c.log, c.id);
    }
  }

  /** Every step keeps a sound cell sound and moves its row on. */
  lemma SoundKept(c: Cell, now: int, l: Label)
    requires Sound(c) && Step(c, now, l).Some?
    ensures Sound(Step(c, now, l).value) && Later(c.row, Step(c, now, l).value.row) && Step(c, now, l).value.id == c.id
  {
    StepSound(c, now, l);
    StepWrites(c, now, l);
    LogStep(c, now, l);
  }

  // ---- worlds ----

  ghost predicate WorldSound(w: World) {
    forall id :: id in w.cells ==> w.cells[id].id == id && Sound(w.cells[id])
  }

  lemma NewCellSound(id: TicketId, m: Mapping, endsAt: Option<int>)
    ensures Sound(NewCell(id, m, endsAt))
  {
    assert Ledger.UpTo(0) == [];
  }

  lemma WorldStep(w: World, e: Event)
    requires WorldSound(w) && Next(w, e).Some?
    ensures WorldSound(Next(w, e).value)
    ensures forall id :: id in w.cells ==>
        id in Next(w, e).value.cells && Later(w.cells[id].row, Next(w, e).value.cells[id].row)
  {
    match e
    case On(id, l) => SoundKept(w.cells[id], w.now, l);
    case Tick(_) =>
    case Open(id, m) => NewCellSound(id, m, None);
  }

  /** Playing on from a sound world: it stays sound, and every row only moves on. */
  lemma {:induction false} PlaySound(w: World, es: seq<Event>)
    requires WorldSound(w) && Play(w, es).Some?
    ensures WorldSound(Play(w, es).value)
    ensures forall id :: id in w.cells ==>
        id in Play(w, es).value.cells && Later(w.cells[id].row, Play(w, es).value.cells[id].row)
  {
    if es == [] {
    } else {
      PlaySound(w, es[..|es| - 1]);
      WorldStep(Play(w, es[..|es| - 1]).value, es[|es| - 1]);
    }
  }
}
