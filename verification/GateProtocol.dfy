/**
 The gate-scan protocol as interleaved steps, one database or cache statement a step.

 A cell holds everything that concerns one ticket: the committed row, who holds the row
 lock, the guard, the replay keys, the committed log and facts, and the requests in flight.
 Row reads see committed data; a statement that writes the row waits for the lock. Guard
 writes, replay keys and automatic revocations go round the scan's transaction and stay if
 it is rolled back. A world is any number of cells under one clock.
 */
module GateProtocol {
  import opened Domain
  import opened ShareGuards
  import opened Verification
  import Tables

  type Pid = nat

  /** A scan request whose token has been verified. */
  datatype Job = Job(token: Token, p: Presented, verifiedAt: int)

  /** Where a request stands; `snap` is the row as it was read. */
  datatype Pc =
    | Verified(job: Job)
    | Looked(job: Job, snap: Ticket)
    | Unblocked(job: Job, snap: Ticket)
    | Faulty(job: Job, snap: Ticket, verdict: Verdict, risk: Risk)
    | Counting(job: Job, snap: Ticket, verdict: Verdict, risk: Risk, failsSeen: int, since: int)
    | Clear(job: Job, snap: Ticket)
    | Keyed(job: Job, snap: Ticket)
    | Resetting(job: Job, snap: Ticket)
    | Ready(job: Job, snap: Ticket)
    | Swapped(job: Job, snap: Ticket, write: Ticket)
    | Rejected(job: Job, snap: Ticket, verdict: Verdict)
    | Revoking(snap: Ticket, reason: Option<string>, actor: UserId, since: int)
    | Overriding(snap: Ticket, state: Presence, actor: UserId)
    | Issuing(nonce: int)

  /** An acquisition of a replay key. */
  datatype Grab = Grab(token: Token, at: int)

  datatype Cell = Cell(
    id: TicketId,
    row: Ticket,
    holder: Option<Pid>,
    guard: Option<Guard>,
    keys: map<int, int>,
    endsAt: Option<int>,
    log: seq<ScanLog>,
    outbox: seq<Fact>,
    procs: map<Pid, Pc>,
    issued: set<Token>,     // history: every token generated
    grabs: seq<Grab>)       // history: every replay key acquisition

  datatype Label =
    | Present(pid: Pid, token: Token, p: Presented)
    | Look(pid: Pid)
    | CheckBlock(pid: Pid)
    | Screen(pid: Pid)
    | ReadGuard(pid: Pid)
    | Penalise(pid: Pid)
    | TakeKey(pid: Pid)
    | FindGuard(pid: Pid)
    | ResetGuard(pid: Pid)
    | Swap(pid: Pid)
    | Commit(pid: Pid)
    | Abort(pid: Pid)                                   // permission refused, time-out or crash
    | LookToRevoke(pid: Pid, reason: Option<string>, actor: UserId)
    | CommitRevoke(pid: Pid)
    | LookToOverride(pid: Pid, state: Presence, actor: UserId)
    | CommitOverride(pid: Pid)
    | LookToIssue(pid: Pid)
    | Issue(pid: Pid, serial: nat)
    | Rebind(publicKey: Option<PublicKey>, deviceId: Option<DeviceId>)
    | Evict(nonce: int)                                 // the cache loses a replay key early
    | EventEnds(endsAt: Option<int>)

  function At(c: Cell, pid: Pid, pc: Pc): Cell {
    c.(procs := c.procs[pid := pc])
  }

  function Gone(c: Cell, pid: Pid): Cell {
    c.(procs := c.procs - {pid}, holder := if c.holder == Some(pid) then None else c.holder)
  }

  function Screened(c: Cell, now: int, job: Job, snap: Ticket): Pc {
    match DeviceCheck(snap, job.token.nonce, job.p)
    case Some(Turned(v)) => Rejected(job, snap, v)
    case Some(Faulted(v, risk)) => Faulty(job, snap, v, risk)
    case Some(Accepted) => Clear(job, snap)
    case None =>
      match GateCheck(snap, job.p.direction, c.endsAt, now)
      case Some(v) => Rejected(job, snap, v)
      case None => Clear(job, snap)
  }

  /** The cell after a committed scan: its row, its log and its facts appear together. */
  function Committed(c: Cell, pid: Pid, row: Ticket, job: Job, snap: Ticket, verdict: Verdict): Cell {
    Gone(c, pid).(
      row := row,
      log := c.log + [ScanEntry(c.id, snap, job.token.nonce, job.p, verdict)],
      outbox := c.outbox + ScanFacts(c.id, snap, job.p.direction, verdict))
  }

  /** Steps of a scan, the process being at `pc`. */
  function ScanStep(c: Cell, now: int, l: Label, pid: Pid, pc: Pc): Option<Cell> {
    match (l, pc)
    case (Look(_), Verified(job)) =>
      Some(At(c, pid, if c.row.revoked then Rejected(job, c.row, Verdict.Revoked) else Looked(job, c.row)))
    case (CheckBlock(_), Looked(job, snap)) =>
      Some(At(c, pid, if BlockedAt(c.guard, now) then Rejected(job, snap, Blocked) else Unblocked(job, snap)))
    case (Screen(_), Unblocked(job, snap)) => Some(At(c, pid, Screened(c, now, job, snap)))
    case (ReadGuard(_), Faulty(job, snap, v, risk)) =>
      var guard := Upserted(c.guard);
      Some(At(c.(guard := Some(guard)), pid, Counting(job, snap, v, risk, guard.failCount, now)))
    case (Penalise(_), Counting(job, snap, v, risk, failsSeen, since)) =>
      if Revokes(failsSeen, risk) then
        if c.holder.Some? then None
        else Some(At(c.(row := AutoRevoked(c.row, since)), pid, Rejected(job, snap, v)))
      else
        Some(At(c.(guard := Some(Recorded(Upserted(c.guard), failsSeen, risk, since))), pid, Rejected(job, snap, v)))
    case (TakeKey(_), Clear(job, snap)) =>
      var nonce := job.token.nonce;
      if nonce in c.keys && now < c.keys[nonce] then
        Some(At(c, pid, Faulty(job, snap, Replay, CalculateRisk(REPLAY_RISK))))
      else
        Some(At(c.(keys := c.keys[nonce := now + REPLAY_KEY_TTL_MS], grabs := c.grabs + [Grab(job.token, now)]), pid,
            Keyed(job, snap)))
    case (FindGuard(_), Keyed(job, snap)) =>
      Some(At(c, pid, if c.guard.Some? then Resetting(job, snap) else Ready(job, snap)))
    case (ResetGuard(_), Resetting(job, snap)) =>
      Some(At(c.(guard := Some(Cleared(Upserted(c.guard)))), pid, Ready(job, snap)))
    case (Swap(_), Ready(job, snap)) =>
      if c.row.nextNonce != Some(job.token.nonce) then Some(At(c, pid, Rejected(job, snap, Replay)))
      else if c.holder.Some? then None
      else Some(At(c.(holder := Some(pid)), pid,
          Swapped(job, snap, Admitted(c.row, snap, job.token.nonce, job.p.direction, now))))
    case (Commit(_), Swapped(job, snap, write)) => Some(Committed(c, pid, write, job, snap, Ok))
    case (Commit(_), Rejected(job, snap, v)) => Some(Committed(c, pid, c.row, job, snap, v))
    case _ => None
  }

  /** Steps of staff requests and of token generation. */
  function OtherStep(c: Cell, now: int, l: Label, pid: Pid, pc: Pc): Option<Cell> {
    match (l, pc)
    case (CommitRevoke(_), Revoking(snap, reason, actor, since)) =>
      if c.holder.Some? then None
      else Some(Gone(c, pid).(
        row := Tables.RevokedByHand(c.row, reason, actor, since),
        log := c.log + [ScanLog(c.id, snap.eventId, Outside, Verdict.Revoked, None, None, None, actor)],
        outbox := c.outbox + [Fact(TicketRevoked, c.id, snap.eventId, snap.guestId)]))
    case (CommitOverride(_), Overriding(snap, state, actor)) =>
      if c.holder.Some? then None
      else Some(Gone(c, pid).(
        row := Tables.Overridden(c.row, snap, state, now),
        log := c.log + [Tables.ManualEntry(c.id, snap, state, actor)],
        outbox := c.outbox + [Fact(CrossingKind(state), c.id, snap.eventId, snap.guestId)]))
    case (Issue(_, serial), Issuing(nonce)) =>
        Some(Gone(c, pid).(issued := c.issued + {Token(serial, c.id, nonce, now)}))
    case _ => None
  }

  /** A step that starts a request, or one of the environment. */
  function OpenStep(c: Cell, now: int, l: Label): Option<Cell> {
    match l
    case Present(pid, token, p) =>
      if pid !in c.procs && token.ticketId == c.id && Live(token, now)
      then Some(At(c, pid, Verified(Job(token, p, now)))) else None
    case LookToRevoke(pid, reason, actor) =>
      if pid !in c.procs && !c.row.revoked then Some(At(c, pid, Revoking(c.row, reason, actor, now))) else None
    case LookToOverride(pid, state, actor) =>
      if pid !in c.procs && !c.row.revoked && c.row.presence != state
      then Some(At(c, pid, Overriding(c.row, state, actor))) else None
    case LookToIssue(pid) =>
      if pid !in c.procs && c.row.nextNonce.Some? then Some(At(c, pid, Issuing(c.row.nextNonce.value))) else None
    case Rebind(publicKey, deviceId) =>
      if c.holder.None? then Some(c.(row := c.row.(publicKey := publicKey, deviceId := deviceId))) else None
    case Evict(nonce) => Some(c.(keys := c.keys - {nonce}))
    case EventEnds(endsAt) => Some(c.(endsAt := endsAt))
    case _ => None
  }

  predicate StartsOrEnvironment(l: Label) {
    l.Present? || l.LookToRevoke? || l.LookToOverride? || l.LookToIssue? || l.Rebind? || l.Evict? || l.EventEnds?
  }

  /** One step of a cell, or None if it cannot be taken now. */
  function Step(c: Cell, now: int, l: Label): Option<Cell> {
    if StartsOrEnvironment(l) then OpenStep(c, now, l)
    else if l.pid !in c.procs then None
    else if l.Abort? then Some(Gone(c, l.pid))
    else if l.CommitRevoke? || l.CommitOverride? || l.Issue? then OtherStep(c, now, l, l.pid, c.procs[l.pid])
    else ScanStep(c, now, l, l.pid, c.procs[l.pid])
  }

  /** A sequence of steps of one cell, all at the same moment. */
  function RunCell(c: Cell, now: int, ls: seq<Label>): Option<Cell> {
    if ls == [] then Some(c)
    else
      var v := RunCell(c, now, ls[..|ls| - 1]);
      if v.None? then None else Step(v.value, now, ls[|ls| - 1])
  }

  lemma RunMore(c: Cell, now: int, ls: seq<Label>, l: Label)
    ensures RunCell(c, now, ls + [l]) ==
        (if RunCell(c, now, ls).None? then None else Step(RunCell(c, now, ls).value, now, l))
  {
    assert (ls + [l])[..|ls|] == ls;
  }

  // ---- worlds ----

  datatype World = World(cells: map<TicketId, Cell>, now: int)

  datatype Event =
    | On(id: TicketId, l: Label)
    | Tick(ms: nat)
    | Open(id: TicketId, m: Mapping)

  function NewCell(id: TicketId, m: Mapping, endsAt: Option<int>): Cell {
    Cell(id, NewTicket(m), None, None, map[], endsAt, [], [], map[], {}, [])
  }

  function Next(w: World, e: Event): Option<World> {
    match e
    case On(id, l) =>
      if id !in w.cells then None else
      var next := Step(w.cells[id], w.now, l);
      if next.None? then None else Some(w.(cells := w.cells[id := next.value]))
    case Tick(ms) => Some(w.(now := w.now + ms))
    case Open(id, m) => if id in w.cells then None else Some(w.(cells := w.cells[id := NewCell(id, m, None)]))
  }

  /** The world after a sequence of events, if each can happen in its turn. */
  function Play(w: World, es: seq<Event>): Option<World> {
    if es == [] then Some(w)
    else
      var v := Play(w, es[..|es| - 1]);
      if v.None? then None else Next(v.value, es[|es| - 1])
  }

  function EmptyWorld(now: int): World {
    World(map[], now)
  }
}
