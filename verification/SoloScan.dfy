/**
 The two models agree: a request whose steps run through without interference does to its
 cell what the atomic operation does to the database.
 */
module SoloScan {
  import opened Domain
  import opened ShareGuards
  import opened Verification
  import opened GateProtocol
  import Tables
  import AtomicRuns

  /** The cell holds what the database holds about its ticket; nobody holds the row lock. */
  ghost predicate Mirrors(c: Cell, db: Tables.Db) {
    && c.id in db.tickets && c.row == db.tickets[c.id] && c.holder.None?
    && c.guard == Tables.GuardOf(db, c.id)
    && c.endsAt == Tables.EndOf(db, c.row.eventId)
    && (forall n :: n in c.keys <==> (c.id, n) in db.keys)
    && (forall n :: n in c.keys ==> c.keys[n] == db.keys[(c.id, n)])
  }

  /** `c'` and `db'` come from mirrors by the same writings, and no process is left over. */
  ghost predicate SameEffect(c: Cell, db: Tables.Db, c': Cell, op: AtomicRuns.Op) {
    && Mirrors(c', AtomicRuns.Apply(db, op))
    && c'.log == c.log + AtomicRuns.NewLogs(db, op)
    && c'.outbox == c.outbox + AtomicRuns.NewFacts(db, op)
    && c'.procs == c.procs && c'.id == c.id
  }

  function JudgeCell(c: Cell, now: int, token: Token, p: Presented): Judgement {
    Judge(c.row, c.guard, token.nonce in c.keys && now < c.keys[token.nonce], token.nonce, p, c.endsAt, now)
  }

  /** The steps of an undisturbed scan up to its verdict. */
  function VerifyLabels(c: Cell, now: int, pid: Pid, token: Token, p: Presented): seq<Label> {
    var opening := [Label.Present(pid, token, p), Look(pid)];
    var screened := [Label.Present(pid, token, p), Look(pid), CheckBlock(pid), Screen(pid)];
    if c.row.revoked then opening
    else if BlockedAt(c.guard, now) then opening + [CheckBlock(pid)]
    else match Screened(c, now, Job(token, p, now), c.row)
      case Clear(_, _) =>
        if token.nonce in c.keys && now < c.keys[token.nonce]
        then screened + [TakeKey(pid), ReadGuard(pid), Penalise(pid)]
        else screened + [TakeKey(pid), FindGuard(pid)] + (if c.guard.Some? then [ResetGuard(pid)] else []) + [Swap(pid)]
      case Faulty(_, _, _, _) => screened + [ReadGuard(pid), Penalise(pid)]
      case _ => screened
  }

  function Penalised(c: Cell, now: int, pid: Pid, job: Job, v: Verdict, risk: Risk): Cell {
    var g := Upserted(c.guard);
    if Revokes(g.failCount, risk)
    then At(c.(guard := Some(g), row := AutoRevoked(c.row, now)), pid, Rejected(job, c.row, v))
    else At(c.(guard := Some(Recorded(g, g.failCount, risk, now))), pid, Rejected(job, c.row, v))
  }

  function Swapping(c: Cell, now: int, pid: Pid, job: Job): Cell {
    At(c.(
      keys := c.keys[job.token.nonce := now + REPLAY_KEY_TTL_MS],
      grabs := c.grabs + [Grab(job.token, now)],
      guard := if c.guard.Some? then Some(ShareGuards.Cleared(c.guard.value)) else None,
      holder := Some(pid)), pid, Swapped(job, c.row, Admitted(c.row, c.row, job.token.nonce, job.p.direction, now)))
  }

  /** The cell when the undisturbed scan has its verdict. */
  function Verdicted(c: Cell, now: int, pid: Pid, token: Token, p: Presented): Cell {
    var job := Job(token, p, now);
    match JudgeCell(c, now, token, p)
    case Turned(v) => At(c, pid, Rejected(job, c.row, v))
    case Faulted(v, risk) => Penalised(c, now, pid, job, v, risk)
    case Accepted => Swapping(c, now, pid, job)
  }

  ghost predicate CanStart(c: Cell, now: int, pid: Pid, token: Token) {
    pid !in c.procs && c.holder.None? && token.ticketId == c.id && Live(token, now)
  }

  /** Only the last point of a process counts. */
  lemma Overwrites(d: Cell, pid: Pid, x: Pc, y: Pc)
    ensures At(At(d, pid, x), pid, y) == At(d, pid, y)
  {
    assert d.procs[pid := x][pid := y] == d.procs[pid := y];
  }

  // One lemma a step: where the process and the cell stand after it.

  lemma Looks(c: Cell, now: int, ls: seq<Label>, d: Cell, pid: Pid, job: Job)
    requires RunCell(c, now, ls) == Some(At(d, pid, Verified(job)))
    ensures RunCell(c, now, ls + [Look(pid)]) ==
            Some(At(d, pid, if d.row.revoked then Rejected(job, d.row, Verdict.Revoked) else Looked(job, d.row)))
  {
    RunMore(c, now, ls, Look(pid));
    Overwrites(d, pid, Verified(job), if d.row.revoked then Rejected(job, d.row, Verdict.Revoked)
        else Looked(job, d.row));
  }

  lemma ChecksBlock(c: Cell, now: int, ls: seq<Label>, d: Cell, pid: Pid, job: Job, snap: Ticket)
    requires RunCell(c, now, ls) == Some(At(d, pid, Looked(job, snap)))
    ensures RunCell(c, now, ls + [CheckBlock(pid)]) ==
            Some(At(d, pid, if BlockedAt(d.guard, now) then Rejected(job, snap, Blocked) else Unblocked(job, snap)))
  {
    RunMore(c, now, ls, CheckBlock(pid));
    Overwrites(d, pid, Looked(job, snap), if BlockedAt(d.guard, now) then Rejected(job, snap, Blocked)
        else Unblocked(job, snap));
  }

  lemma Screens(c: Cell, now: int, ls: seq<Label>, d: Cell, pid: Pid, job: Job, snap: Ticket)
    requires RunCell(c, now, ls) == Some(At(d, pid, Unblocked(job, snap)))
    ensures RunCell(c, now, ls + [Screen(pid)]) == Some(At(d, pid, Screened(d, now, job, snap)))
  {
    RunMore(c, now, ls, Screen(pid));
    Overwrites(d, pid, Unblocked(job, snap), Screened(d, now, job, snap));
  }

  lemma ReadsGuard(c: Cell, now: int, ls: seq<Label>, d: Cell, pid: Pid, job: Job, snap: Ticket, v: Verdict, risk: Risk)
    requires RunCell(c, now, ls) == Some(At(d, pid, Faulty(job, snap, v, risk)))
    ensures RunCell(c, now, ls + [ReadGuard(pid)]) ==
            Some(At(d.(guard := Some(Upserted(d.guard))), pid,
                Counting(job, snap, v, risk, Upserted(d.guard).failCount, now)))
  {
    RunMore(c, now, ls, ReadGuard(pid));
    Overwrites(d, pid, Faulty(job, snap, v, risk), Counting(job, snap, v, risk, Upserted(d.guard).failCount, now));
  }

  lemma Penalises(c: Cell, now: int, ls: seq<Label>, d: Cell, pid: Pid, job: Job, snap: Ticket, v: Verdict, risk: Risk)
    requires d.guard.Some? && d.holder.None?
    requires RunCell(c, now, ls) == Some(At(d, pid, Counting(job, snap, v, risk, d.guard.value.failCount, now)))
    ensures RunCell(c, now, ls + [Penalise(pid)]) ==
            Some(At(if Revokes(d.guard.value.failCount, risk) then d.(row := AutoRevoked(d.row, now))
                    else d.(guard := Some(Recorded(d.guard.value, d.guard.value.failCount, risk, now))),
                    pid, Rejected(job, snap, v)))
  {
    RunMore(c, now, ls, Penalise(pid));
    Overwrites(d, pid, Counting(job, snap, v, risk, d.guard.value.failCount, now), Rejected(job, snap, v));
  }

  lemma TakesKey(c: Cell, now: int, ls: seq<Label>, d: Cell, pid: Pid, job: Job, snap: Ticket)
    requires RunCell(c, now, ls) == Some(At(d, pid, Clear(job, snap)))
    ensures var nonce := job.token.nonce;
            RunCell(c, now, ls + [TakeKey(pid)]) ==
            Some(if nonce in d.keys && now < d.keys[nonce]
                 then At(d, pid, Faulty(job, snap, Replay, CalculateRisk(REPLAY_RISK)))
                 else At(d.(keys := d.keys[nonce := now + REPLAY_KEY_TTL_MS],
                     grabs := d.grabs + [Grab(job.token, now)]), pid, Keyed(job, snap)))
  {
    RunMore(c, now, ls, TakeKey(pid));
    Overwrites(d, pid, Clear(job, snap), Faulty(job, snap, Replay, CalculateRisk(REPLAY_RISK)));
    Overwrites(d, pid, Clear(job, snap), Keyed(job, snap));
  }

  lemma FindsGuard(c: Cell, now: int, ls: seq<Label>, d: Cell, pid: Pid, job: Job, snap: Ticket)
    requires RunCell(c, now, ls) == Some(At(d, pid, Keyed(job, snap)))
    ensures RunCell(c, now, ls + [FindGuard(pid)]) ==
        Some(At(d, pid, if d.guard.Some? then Resetting(job, snap) else Ready(job, snap)))
  {
    RunMore(c, now, ls, FindGuard(pid));
    Overwrites(d, pid, Keyed(job, snap), if d.guard.Some? then Resetting(job, snap) else Ready(job, snap));
  }

  lemma ResetsGuard(c: Cell, now: int, ls: seq<Label>, d: Cell, pid: Pid, job: Job, snap: Ticket)
    requires RunCell(c, now, ls) == Some(At(d, pid, Resetting(job, snap)))
    ensures RunCell(c, now, ls + [ResetGuard(pid)]) ==
            Some(At(d.(guard := Some(ShareGuards.Cleared(Upserted(d.guard)))), pid, Ready(job, snap)))
  {
    RunMore(c, now, ls, ResetGuard(pid));
    Overwrites(d, pid, Resetting(job, snap), Ready(job, snap));
  }

  lemma Swaps(c: Cell, now: int, ls: seq<Label>, d: Cell, pid: Pid, job: Job, snap: Ticket)
    requires RunCell(c, now, ls) == Some(At(d, pid, Ready(job, snap)))
    requires d.row.nextNonce == Some(job.token.nonce) && d.holder.None?
    ensures RunCell(c, now, ls + [Swap(pid)]) ==
            Some(At(d.(holder := Some(pid)), pid,
                Swapped(job, snap, Admitted(d.row, snap, job.token.nonce, job.p.direction, now))))
  {
    RunMore(c, now, ls, Swap(pid));
    Overwrites(d, pid, Ready(job, snap),
        Swapped(job, snap, Admitted(d.row, snap, job.token.nonce, job.p.direction, now)));
  }

  // ---- from the first step to the verdict ----

  lemma OpeningRuns(c: Cell, now: int, pid: Pid, token: Token, p: Presented)
    requires CanStart(c, now, pid, token)
    ensures RunCell(c, now, [Label.Present(pid, token, p), Look(pid)]) ==
            Some(At(c, pid, if c.row.revoked then Rejected(Job(token, p, now), c.row, Verdict.Revoked)
                else Looked(Job(token, p, now), c.row)))
  {
    RunMore(c, now, [], Label.Present(pid, token, p));
    Looks(c, now, [] + [Label.Present(pid, token, p)], c, pid, Job(token, p, now));
    assert [] + [Label.Present(pid, token, p)] + [Look(pid)] == [Label.Present(pid, token, p), Look(pid)];
  }

  lemma ScreeningRuns(c: Cell, now: int, pid: Pid, token: Token, p: Presented)
    requires CanStart(c, now, pid, token) && !c.row.revoked && !BlockedAt(c.guard, now)
    ensures RunCell(c, now, [Label.Present(pid, token, p), Look(pid), CheckBlock(pid), Screen(pid)]) ==
            Some(At(c, pid, Screened(c, now, Job(token, p, now), c.row)))
  {
    var opening, job := [Label.Present(pid, token, p), Look(pid)], Job(token, p, now);
    OpeningRuns(c, now, pid, token, p);
    ChecksBlock(c, now, opening, c, pid, job, c.row);
    Screens(c, now, opening + [CheckBlock(pid)], c, pid, job, c.row);
    assert opening + [CheckBlock(pid)] + [Screen(pid)] ==
        [Label.Present(pid, token, p), Look(pid), CheckBlock(pid), Screen(pid)];
  }

  lemma PenaltyRuns(c: Cell, now: int, pid: Pid, ls: seq<Label>, job: Job, v: Verdict, risk: Risk)
    requires RunCell(c, now, ls) == Some(At(c, pid, Faulty(job, c.row, v, risk))) && c.holder.None?
    ensures RunCell(c, now, ls + [ReadGuard(pid), Penalise(pid)]) == Some(Penalised(c, now, pid, job, v, risk))
  {
    ReadsGuard(c, now, ls, c, pid, job, c.row, v, risk);
    Penalises(c, now, ls + [ReadGuard(pid)], c.(guard := Some(Upserted(c.guard))), pid, job, c.row, v, risk);
    assert ls + [ReadGuard(pid)] + [Penalise(pid)] == ls + [ReadGuard(pid), Penalise(pid)];
  }

  lemma AcceptanceRuns(c: Cell, now: int, pid: Pid, ls: seq<Label>, job: Job)
    requires RunCell(c, now, ls) == Some(At(c, pid, Clear(job, c.row))) && c.holder.None?
    requires c.row.nextNonce == Some(job.token.nonce)
    requires !(job.token.nonce in c.keys && now < c.keys[job.token.nonce])
    ensures RunCell(c, now,
        ls + [TakeKey(pid), FindGuard(pid)] + (if c.guard.Some? then [ResetGuard(pid)] else []) + [Swap(pid)]) ==
            Some(Swapping(c, now, pid, job))
  {
    var d := c.(keys := c.keys[job.token.nonce := now + REPLAY_KEY_TTL_MS], grabs := c.grabs + [Grab(job.token, now)]);
    TakesKey(c, now, ls, c, pid, job, c.row);
    FindsGuard(c, now, ls + [TakeKey(pid)], d, pid, job, c.row);
    var ls' := ls + [TakeKey(pid), FindGuard(pid)];
    assert ls + [TakeKey(pid)] + [FindGuard(pid)] == ls';
    if c.guard.Some? {
      ResetsGuard(c, now, ls', d, pid, job, c.row);
      Swaps(c, now, ls' + [ResetGuard(pid)],
          d.(guard := Some(ShareGuards.Cleared(Upserted(d.guard)))), pid, job, c.row);
    } else {
      Swaps(c, now, ls', d, pid, job, c.row);
      assert ls' + [] == ls';
    }
  }

  lemma VerifyRuns(c: Cell, now: int, pid: Pid, token: Token, p: Presented)
    requires CanStart(c, now, pid, token)
    ensures RunCell(c, now, VerifyLabels(c, now, pid, token, p)) == Some(Verdicted(c, now, pid, token, p))
  {
    var opening, job := [Label.Present(pid, token, p), Look(pid)], Job(token, p, now);
    OpeningRuns(c, now, pid, token, p);
    if c.row.revoked {
    } else if BlockedAt(c.guard, now) {
      ChecksBlock(c, now, opening, c, pid, job, c.row);
    } else {
      ScreeningRuns(c, now, pid, token, p);
      ScreenedRuns(c, now, pid, token, p);
    }
  }

  /** Past the block check, the judgement is what screening and the replay key say. */
  lemma JudgedByScreen(c: Cell, now: int, token: Token, p: Presented)
    requires !c.row.revoked && !BlockedAt(c.guard, now)
    ensures var pc := Screened(c, now, Job(token, p, now), c.row);
            var held := token.nonce in c.keys && now < c.keys[token.nonce];
            match JudgeCell(c, now, token, p)
            case Turned(v) => pc == Rejected(Job(token, p, now), c.row, v)
            case Accepted => pc == Clear(Job(token, p, now), c.row) && !held && c.row.nextNonce == Some(token.nonce)
            case Faulted(v, risk) =>
              || pc == Faulty(Job(token, p, now), c.row, v, risk)
              || (pc == Clear(Job(token, p, now), c.row) && held && v == Replay && risk == CalculateRisk(REPLAY_RISK))
  {
  }

  lemma ScreenedRuns(c: Cell, now: int, pid: Pid, token: Token, p: Presented)
    requires CanStart(c, now, pid, token) && !c.row.revoked && !BlockedAt(c.guard, now)
    requires var screened := [Label.Present(pid, token, p), Look(pid), CheckBlock(pid), Screen(pid)];
             RunCell(c, now, screened) == Some(At(c, pid, Screened(c, now, Job(token, p, now), c.row)))
    ensures RunCell(c, now, VerifyLabels(c, now, pid, token, p)) == Some(Verdicted(c, now, pid, token, p))
  {
    var screened, job := [Label.Present(pid, token, p), Look(pid), CheckBlock(pid), Screen(pid)], Job(token, p, now);
    JudgedByScreen(c, now, token, p);
    match JudgeCell(c, now, token, p)
    case Turned(_) =>
    case Accepted => AcceptanceRuns(c, now, pid, screened, job);
    case Faulted(v, risk) =>
      if Screened(c, now, job, c.row).Faulty? {
        PenaltyRuns(c, now, pid, screened, job, v, risk);
      } else {
        HeldKeyRuns(c, now, pid, screened, job);
      }
  }

  lemma HeldKeyRuns(c: Cell, now: int, pid: Pid, ls: seq<Label>, job: Job)
    requires RunCell(c, now, ls) == Some(At(c, pid, Clear(job, c.row))) && c.holder.None?
    requires job.token.nonce in c.keys && now < c.keys[job.token.nonce]
    ensures RunCell(c, now, ls + [TakeKey(pid), ReadGuard(pid), Penalise(pid)]) ==
            Some(Penalised(c, now, pid, job, Replay, CalculateRisk(REPLAY_RISK)))
  {
    TakesKey(c, now, ls, c, pid, job, c.row);
    PenaltyRuns(c, now, pid, ls + [TakeKey(pid)], job, Replay, CalculateRisk(REPLAY_RISK));
    assert ls + [TakeKey(pid)] + [ReadGuard(pid), Penalise(pid)] == ls + [TakeKey(pid), ReadGuard(pid), Penalise(pid)];
  }

  // ---- the end of the transaction ----

  /** The cell after the undisturbed scan. */
  function Ended(c: Cell, now: int, pid: Pid, token: Token, p: Presented, permitted: bool): Cell {
    var j, v := JudgeCell(c, now, token, p), Verdicted(c, now, pid, token, p);
    var quiet := v.(procs := c.procs, holder := None);
    if permitted then
      quiet.(
        row := if j == Accepted then Admitted(c.row, c.row, token.nonce, p.direction, now) else v.row,
        log := c.log + [ScanEntry(c.id, c.row, token.nonce, p, Tables.VerdictOf(j))],
        outbox := c.outbox + ScanFacts(c.id, c.row, p.direction, Tables.VerdictOf(j)))
    else quiet
  }

  lemma CommitsRejection(d: Cell, now: int, pid: Pid, job: Job, snap: Ticket, v: Verdict)
    ensures var x := At(d, pid, Rejected(job, snap, v));
            Step(x, now, Commit(pid)) == Some(Committed(x, pid, d.row, job, snap, v))
  {
  }

  lemma CommitsAcceptance(d: Cell, now: int, pid: Pid, job: Job, snap: Ticket, write: Ticket)
    ensures var x := At(d, pid, Swapped(job, snap, write));
            Step(x, now, Commit(pid)) == Some(Committed(x, pid, write, job, snap, Ok))
  {
  }

  lemma TransactionEnds(c: Cell, now: int, pid: Pid, token: Token, p: Presented, permitted: bool)
    requires CanStart(c, now, pid, token)
    ensures Step(Verdicted(c, now, pid, token, p), now, if permitted then Commit(pid) else Abort(pid)) ==
            Some(Ended(c, now, pid, token, p, permitted))
  {
    var v, job := Verdicted(c, now, pid, token, p), Job(token, p, now);
    StandsAtVerdict(c, now, pid, token, p);
    if permitted {
      match v.procs[pid] {
        case Rejected(_, _, verdict) => CommitsRejection(v, now, pid, job, c.row, verdict);
        case Swapped(_, _, write) => CommitsAcceptance(v, now, pid, job, c.row, write);
      }
    }
  }

  lemma StandsAtVerdict(c: Cell, now: int, pid: Pid, token: Token, p: Presented)
    requires CanStart(c, now, pid, token)
    ensures var v, j, job := Verdicted(c, now, pid, token, p), JudgeCell(c, now, token, p), Job(token, p, now);
            && pid in v.procs && v.procs - {pid} == c.procs && v == At(v, pid, v.procs[pid])
            && v.log == c.log && v.outbox == c.outbox && v.id == c.id
            && (if j == Accepted
                then v.procs[pid] == Swapped(job, c.row, Admitted(c.row, c.row, token.nonce, p.direction, now))
                    && v.holder == Some(pid)
                else v.procs[pid] == Rejected(job, c.row, Tables.VerdictOf(j)) && v.holder.None?)
  {
  }

  lemma MirrorsVerify(c: Cell, db: Tables.Db, pid: Pid, token: Token, p: Presented)
    requires Mirrors(c, db) && CanStart(c, db.clock, pid, token)
    ensures JudgeCell(c, db.clock, token, p) == Tables.JudgeScan(db, token, p)
    ensures Mirrors(Verdicted(c, db.clock, pid, token, p).(holder := None),
        Tables.AfterVerify(db, token, Tables.JudgeScan(db, token, p)))
  {
    match Tables.JudgeScan(db, token, p)
    case Turned(_) =>
    case Faulted(v, risk) => MirrorsFault(c, db, pid, Job(token, p, db.clock), v, risk);
    case Accepted =>
  }

  lemma MirrorsFault(c: Cell, db: Tables.Db, pid: Pid, job: Job, v: Verdict, risk: Risk)
    requires Mirrors(c, db)
    ensures Mirrors(Penalised(c, db.clock, pid, job, v, risk).(holder := None), Tables.AfterFault(db, c.id, risk))
  {
  }

  lemma SameScanWritings(c: Cell, db: Tables.Db, pid: Pid, token: Token, p: Presented, permitted: bool)
    requires Mirrors(c, db) && CanStart(c, db.clock, pid, token)
    ensures var op, end := AtomicRuns.Op.Scan(Some(token), p, permitted), Ended(c, db.clock, pid, token, p, permitted);
            end.log == c.log + AtomicRuns.NewLogs(db, op) && end.outbox == c.outbox + AtomicRuns.NewFacts(db, op)
  {
    MirrorsVerify(c, db, pid, token, p);
    assert c.log + [] == c.log && c.outbox + [] == c.outbox;
  }

  lemma MirrorsAlso(d: Cell, db: Tables.Db, e: Cell, db': Tables.Db)
    requires Mirrors(d, db)
    requires e.id == d.id && e.guard == d.guard && e.keys == d.keys && e.endsAt == d.endsAt && e.holder.None?
    requires db'.guards == db.guards && db'.keys == db.keys && db'.endsAt == db.endsAt
    requires e.id in db'.tickets && e.row == db'.tickets[e.id] && e.row.eventId == d.row.eventId
    ensures Mirrors(e, db')
  {
  }

  lemma ScanKeepsTables(db: Tables.Db, token: Token, p: Presented, permitted: bool)
    requires Tables.Reaches(db, Some(token))
    ensures var v, after := Tables.AfterVerify(db, token, Tables.JudgeScan(db, token, p)),
        Tables.AfterScan(db, Some(token), p, permitted);
            && after.guards == v.guards && after.keys == v.keys && after.endsAt == v.endsAt
            && token.ticketId in after.tickets && token.ticketId in v.tickets
            && after.tickets[token.ticketId] ==
               (if permitted && Tables.JudgeScan(db, token, p) == Accepted
                then Admitted(db.tickets[token.ticketId], db.tickets[token.ticketId], token.nonce,
                    p.direction, db.clock)
                else v.tickets[token.ticketId])
  {
  }

  lemma EndMirrors(c: Cell, db: Tables.Db, pid: Pid, token: Token, p: Presented, permitted: bool)
    requires Mirrors(c, db) && CanStart(c, db.clock, pid, token)
    ensures Mirrors(Ended(c, db.clock, pid, token, p, permitted), Tables.AfterScan(db, Some(token), p, permitted))
  {
    MirrorsVerify(c, db, pid, token, p);
    ScanKeepsTables(db, token, p, permitted);
    MirrorsAlso(Verdicted(c, db.clock, pid, token, p).(holder := None),
        Tables.AfterVerify(db, token, Tables.JudgeScan(db, token, p)),
                Ended(c, db.clock, pid, token, p, permitted), Tables.AfterScan(db, Some(token), p, permitted));
  }

  lemma EndsAlike(c: Cell, db: Tables.Db, pid: Pid, token: Token, p: Presented, permitted: bool)
    requires Mirrors(c, db) && CanStart(c, db.clock, pid, token)
    ensures SameEffect(c, db, Ended(c, db.clock, pid, token, p, permitted),
        AtomicRuns.Op.Scan(Some(token), p, permitted))
  {
    EndMirrors(c, db, pid, token, p, permitted);
    SameScanWritings(c, db, pid, token, p, permitted);
    EndedKeeps(c, db.clock, pid, token, p, permitted);
    ScanApplies(db, token, p, permitted);
  }

  lemma EndedKeeps(c: Cell, now: int, pid: Pid, token: Token, p: Presented, permitted: bool)
    ensures Ended(c, now, pid, token, p, permitted).procs == c.procs
        && Ended(c, now, pid, token, p, permitted).id == c.id
  {
  }

  lemma ScanApplies(db: Tables.Db, token: Token, p: Presented, permitted: bool)
    ensures AtomicRuns.Apply(db, AtomicRuns.Op.Scan(Some(token), p, permitted)) ==
        Tables.AfterScan(db, Some(token), p, permitted)
  {
  }

  /**
   An undisturbed scan of the protocol, committed if the scanner has permission and rolled
   back if not, has exactly the effect of the atomic scan.
   */
  lemma SoloScanLaw(c: Cell, db: Tables.Db, pid: Pid, token: Token, p: Presented, permitted: bool)
    requires Mirrors(c, db) && CanStart(c, db.clock, pid, token)
    ensures var last := if permitted then Commit(pid) else Abort(pid);
            RunCell(c, db.clock, VerifyLabels(c, db.clock, pid, token, p) + [last]) ==
                Some(Ended(c, db.clock, pid, token, p, permitted))
    ensures SameEffect(c, db, Ended(c, db.clock, pid, token, p, permitted),
        AtomicRuns.Op.Scan(Some(token), p, permitted))
  {
    VerifyRuns(c, db.clock, pid, token, p);
    RunMore(c, db.clock, VerifyLabels(c, db.clock, pid, token, p), if permitted then Commit(pid) else Abort(pid));
    TransactionEnds(c, db.clock, pid, token, p, permitted);
    EndsAlike(c, db, pid, token, p, permitted);
  }

  function RevokedCell(c: Cell, reason: Option<string>, actor: UserId, now: int): Cell {
    c.(row := Tables.RevokedByHand(c.row, reason, actor, now),
       log := c.log + [ScanLog(c.id, c.row.eventId, Outside, Verdict.Revoked, None, None, None, actor)],
       outbox := c.outbox + [Fact(TicketRevoked, c.id, c.row.eventId, c.row.guestId)])
  }

  lemma RevokeRuns(c: Cell, now: int, pid: Pid, reason: Option<string>, actor: UserId)
    requires c.holder.None? && pid !in c.procs && !c.row.revoked
    ensures RunCell(c, now, [LookToRevoke(pid, reason, actor), CommitRevoke(pid)]) ==
        Some(RevokedCell(c, reason, actor, now))
  {
    RunMore(c, now, [], LookToRevoke(pid, reason, actor));
    RunMore(c, now, [] + [LookToRevoke(pid, reason, actor)], CommitRevoke(pid));
    assert [] + [LookToRevoke(pid, reason, actor)] + [CommitRevoke(pid)] ==
        [LookToRevoke(pid, reason, actor), CommitRevoke(pid)];
    assert c.procs[pid := Revoking(c.row, reason, actor, now)] - {pid} == c.procs;
  }

  /** So has an undisturbed manual revocation. */
  lemma SoloRevokeLaw(c: Cell, db: Tables.Db, pid: Pid, reason: Option<string>, actor: UserId)
    requires Mirrors(c, db) && pid !in c.procs && !c.row.revoked
    ensures RunCell(c, db.clock, [LookToRevoke(pid, reason, actor), CommitRevoke(pid)]) ==
        Some(RevokedCell(c, reason, actor, db.clock))
    ensures SameEffect(c, db, RevokedCell(c, reason, actor, db.clock), AtomicRuns.Op.Revoke(c.id, reason, actor, true))
  {
    RevokeRuns(c, db.clock, pid, reason, actor);
    MirrorsAlso(c, db, RevokedCell(c, reason, actor, db.clock), Tables.AfterRevoke(db, c.id, reason, actor, true));
  }

  function OverrodeCell(c: Cell, state: Presence, actor: UserId, now: int): Cell {
    c.(row := Tables.Overridden(c.row, c.row, state, now),
       log := c.log + [Tables.ManualEntry(c.id, c.row, state, actor)],
       outbox := c.outbox + [Fact(CrossingKind(state), c.id, c.row.eventId, c.row.guestId)])
  }

  lemma OverrideRuns(c: Cell, now: int, pid: Pid, state: Presence, actor: UserId)
    requires c.holder.None? && pid !in c.procs && !c.row.revoked && c.row.presence != state
    ensures RunCell(c, now, [LookToOverride(pid, state, actor), CommitOverride(pid)]) ==
        Some(OverrodeCell(c, state, actor, now))
  {
    RunMore(c, now, [], LookToOverride(pid, state, actor));
    RunMore(c, now, [] + [LookToOverride(pid, state, actor)], CommitOverride(pid));
    assert [] + [LookToOverride(pid, state, actor)] + [CommitOverride(pid)] ==
        [LookToOverride(pid, state, actor), CommitOverride(pid)];
    assert c.procs[pid := Overriding(c.row, state, actor)] - {pid} == c.procs;
  }

  /** And an undisturbed manual presence change. */
  lemma SoloOverrideLaw(c: Cell, db: Tables.Db, pid: Pid, state: Presence, actor: UserId)
    requires Mirrors(c, db) && pid !in c.procs && !c.row.revoked && c.row.presence != state
    ensures RunCell(c, db.clock, [LookToOverride(pid, state, actor), CommitOverride(pid)]) ==
        Some(OverrodeCell(c, state, actor, db.clock))
    ensures SameEffect(c, db, OverrodeCell(c, state, actor, db.clock), AtomicRuns.Op.Override(c.id, state, actor, true))
  {
    OverrideRuns(c, db.clock, pid, state, actor);
    MirrorsAlso(c, db, OverrodeCell(c, state, actor, db.clock), Tables.AfterPresence(db, c.id, state, actor, true));
  }
}
