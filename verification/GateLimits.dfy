/**
 What interleaving costs: laws that hold of operations served one at a time and fail, or
 hold only under a condition, when requests overlap.
 */
module GateLimits {
  import opened Domain
  import opened ShareGuards
  import opened Verification
  import opened GateProtocol
  import opened GateInvariants
  import opened GateLaws
  import Tables
  import Ledger
  import SoloScan

  // ---- facts and logs ----

  /** What a step appends to the committed facts. */
  ghost function Sent(c: Cell, now: int, l: Label): seq<Fact>
    requires Step(c, now, l).Some?
  {
    if !StartsOrEnvironment(l) && l.Commit? then
      match c.procs[l.pid]
      case Swapped(job, snap, _) => ScanFacts(c.id, snap, job.p.direction, Ok)
      case Rejected(job, snap, v) => ScanFacts(c.id, snap, job.p.direction, v)
      case _ => []
    else if l.CommitRevoke? then
      match c.procs[l.pid]
      case Revoking(snap, _, actor, _) => [Fact(TicketRevoked, c.id, snap.eventId, snap.guestId)]
      case _ => []
    else if l.CommitOverride? then
      match c.procs[l.pid]
      case Overriding(snap, state, actor) => [Fact(CrossingKind(state), c.id, snap.eventId, snap.guestId)]
      case _ => []
    else []
  }

  lemma StepSends(c: Cell, now: int, l: Label)
    requires Step(c, now, l).Some?
    ensures Step(c, now, l).value.outbox == c.outbox + Sent(c, now, l)
  {
    assert c.outbox + [] == c.outbox;
  }

  /** A short log and the facts written with it tell of the same crossings. */
  lemma ShortCrossings(facts: seq<Fact>, l: ScanLog, id: TicketId)
    requires 1 <= |facts| <= 2
    requires CrossingsAgree(facts, l, id)
    ensures Ledger.Crossings(facts, id) == Ledger.OkDirections([l], id)
  {
    Ledger.ShortLog(l, id);
    Ledger.ShortOutbox(facts[0], facts[|facts| - 1], id);
    assert |facts| == 1 ==> facts == [facts[0]];
    assert |facts| == 2 ==> facts == [facts[0], facts[1]];
  }

  ghost predicate CrossingsAgree(facts: seq<Fact>, l: ScanLog, id: TicketId)
    requires |facts| > 0
  {
    (if |facts| == 1 then Ledger.CrossingOf(facts[0], id)
        else Ledger.CrossingOf(facts[0], id) + Ledger.CrossingOf(facts[1], id))
    == (if l.ticketId == id && l.verdict == Ok then [l.direction] else [])
  }

  lemma CommitCrossings(c: Cell, now: int, l: Label)
    requires Sound(c) && Step(c, now, l).Some? && l.Commit?
    ensures Ledger.Crossings(Sent(c, now, l), c.id) == Ledger.OkDirections(Written(c, now, l), c.id)
    ensures Ledger.OkDirections(Written(c, now, l), c.id) ==
            (if Accepts(c, l) then [IntendedState(c.procs[l.pid].job.p.direction)] else [])
  {
    assert PcSound(l.pid, c.procs[l.pid], c.row, c.holder);
    ShortCrossings(Sent(c, now, l), Written(c, now, l)[0], c.id);
    Ledger.ShortLog(Written(c, now, l)[0], c.id);
    assert Written(c, now, l) == [Written(c, now, l)[0]];
  }

  lemma StaffCrossings(c: Cell, now: int, l: Label)
    requires Step(c, now, l).Some? && (l.CommitRevoke? || l.CommitOverride?)
    ensures Ledger.Crossings(Sent(c, now, l), c.id) == Ledger.OkDirections(Written(c, now, l), c.id)
    ensures Ledger.OkDirections(Written(c, now, l), c.id) == (if l.CommitOverride? then [c.procs[l.pid].state] else [])
  {
    ShortCrossings(Sent(c, now, l), Written(c, now, l)[0], c.id);
    Ledger.ShortLog(Written(c, now, l)[0], c.id);
    assert Written(c, now, l) == [Written(c, now, l)[0]];
  }

  /** The crossing this step commits, if it commits one. */
  ghost function CrossingCommitted(c: Cell, l: Label): seq<Presence> {
    if Accepts(c, l) then [IntendedState(c.procs[l.pid].job.p.direction)]
    else if l.CommitOverride? && l.pid in c.procs && c.procs[l.pid].Overriding? then [c.procs[l.pid].state]
    else []
  }

  /** The crossing a step commits, in the log and in the facts alike. */
  lemma CrossingsFollowLogs(c: Cell, now: int, l: Label)
    requires Sound(c) && Step(c, now, l).Some?
    ensures Ledger.Crossings(Sent(c, now, l), c.id) == Ledger.OkDirections(Written(c, now, l), c.id) ==
        CrossingCommitted(c, l)
  {
    if l.Commit? {
      CommitCrossings(c, now, l);
    } else if l.CommitRevoke? || l.CommitOverride? {
      StaffCrossings(c, now, l);
    }
  }

  ghost predicate FactsMatch(c: Cell) {
    Ledger.Crossings(c.outbox, c.id) == Ledger.OkDirections(c.log, c.id)
  }

  lemma FactsMatchKept(c: Cell, now: int, l: Label)
    requires Sound(c) && FactsMatch(c) && Step(c, now, l).Some?
    ensures FactsMatch(Step(c, now, l).value)
  {
    StepWrites(c, now, l);
    StepSends(c, now, l);
    CrossingsFollowLogs(c, now, l);
    Ledger.OkDirectionsConcat(c.log, Written(c, now, l), c.id);
    Ledger.CrossingsConcat(c.outbox, Sent(c, now, l), c.id);
  }

  /** In every interleaving, overrides included, crossing facts and OK logs match one for one and in order. */
  lemma {:induction false} FactsMatchLaw(now: int, es: seq<Event>)
    requires Play(EmptyWorld(now), es).Some?
    ensures var w := Play(EmptyWorld(now), es).value;
            forall id :: id in w.cells ==> FactsMatch(w.cells[id])
  {
    if es == [] {
    } else {
      var front, e := es[..|es| - 1], es[|es| - 1];
      FactsMatchLaw(now, front);
      PlaySound(EmptyWorld(now), front);
      var v := Play(EmptyWorld(now), front).value;
      match e
      case On(id, l) => FactsMatchKept(v.cells[id], v.now, l);
      case Tick(_) =>
      case Open(id, m) =>
    }
  }

  /** While the ticket is not revoked, its balance of crossings says where the guest is. */
  ghost predicate Balanced(c: Cell) {
    !c.row.revoked ==>
      Ledger.Tally(c.outbox, CheckedIn, c.id) - Ledger.Tally(c.outbox, CheckedOut, c.id) ==
          (if c.row.presence == Inside then 1 else 0)
  }

  lemma AlternationBalances(c: Cell)
    requires Alternating(c) && FactsMatch(c)
    ensures Balanced(c)
  {
    Ledger.NetOfCrossings(c.outbox, c.id);
    Ledger.NetOfAlternation(Ledger.OkDirections(c.log, c.id));
  }

  /** The balance survives every interleaving of scans and revocations. */
  lemma InterleavedLedgerLaw(now: int, es: seq<Event>)
    requires Play(EmptyWorld(now), es).Some? && OverrideFree(es)
    ensures var w := Play(EmptyWorld(now), es).value;
            forall id :: id in w.cells ==> w.cells[id].id == id && Balanced(w.cells[id])
  {
    AlternationLaw(now, es);
    FactsMatchLaw(now, es);
    PlaySound(EmptyWorld(now), es);
    var w := Play(EmptyWorld(now), es).value;
    forall id | id in w.cells
      ensures Balanced(w.cells[id])
    {
      AlternationBalances(w.cells[id]);
    }
  }

  lemma NetSent(c: Cell, now: int, l: Label)
    requires Sound(c) && Step(c, now, l).Some?
    ensures Ledger.Crossings(Step(c, now, l).value.outbox, c.id) ==
        Ledger.Crossings(c.outbox, c.id) + CrossingCommitted(c, l)
  {
    StepSends(c, now, l);
    CrossingsFollowLogs(c, now, l);
    Ledger.CrossingsConcat(c.outbox, Sent(c, now, l), c.id);
  }

  lemma PresenceAfter(c: Cell, now: int, l: Label)
    requires Sound(c) && Step(c, now, l).Some? && !c.row.revoked && !Step(c, now, l).value.row.revoked
    ensures Step(c, now, l).value.row.presence ==
        (if CrossingCommitted(c, l) == [] then c.row.presence else CrossingCommitted(c, l)[0])
    ensures Step(c, now, l).value.id == c.id
  {
    NonceMoves(c, now, l);
  }

  /**
   With overrides, a step upsets the balance exactly when it commits a crossing to the side
   the guest is already on: its decision was taken on a presence that has moved since.
   */
  lemma BalanceKeptIff(c: Cell, now: int, l: Label)
    requires Sound(c) && Balanced(c) && !c.row.revoked && Step(c, now, l).Some? && !Step(c, now, l).value.row.revoked
    ensures Balanced(Step(c, now, l).value) <==> CrossingCommitted(c, l) != [c.row.presence]
  {
    NetSent(c, now, l);
    PresenceAfter(c, now, l);
    BalanceShifts(c, Step(c, now, l).value, CrossingCommitted(c, l));
  }

  lemma BalanceShifts(c: Cell, c': Cell, more: seq<Presence>)
    requires Balanced(c) && !c.row.revoked && !c'.row.revoked && c'.id == c.id && |more| <= 1
    requires Ledger.Crossings(c'.outbox, c.id) == Ledger.Crossings(c.outbox, c.id) + more
    requires c'.row.presence == (if more == [] then c.row.presence else more[0])
    ensures Balanced(c') <==> more != [c.row.presence]
  {
    BalancedByNet(c);
    BalancedByNet(c');
    NetShifts(Ledger.Crossings(c.outbox, c.id), more);
  }

  lemma BalancedByNet(c: Cell)
    ensures Balanced(c) <==>
        c.row.revoked || Ledger.Net(Ledger.Crossings(c.outbox, c.id)) == (if c.row.presence == Inside then 1 else 0)
  {
    Ledger.NetOfCrossings(c.outbox, c.id);
  }

  lemma NetShifts(d: seq<Presence>, more: seq<Presence>)
    requires |more| <= 1
    ensures Ledger.Net(d + more) == Ledger.Net(d) + (if more == [] then 0 else if more[0] == Inside then 1 else -1)
  {
    if more == [] {
      assert d + more == d;
    } else {
      assert more == [more[0]];
      Ledger.NetOfOneMore(d, more[0]);
    }
  }

  // ---- revoked tickets ----

  ghost predicate RevokedIsOutside(c: Cell) {
    c.row.revoked ==> c.row.presence == Outside
  }

  /**
   A step puts a revoked ticket inside exactly when it commits an entry, scanned or manual,
   decided before the revocation: neither statement tests the revocation again.
   */
  lemma RevokedIsOutsideKeptIff(c: Cell, now: int, l: Label)
    requires Sound(c) && RevokedIsOutside(c) && Step(c, now, l).Some?
    ensures RevokedIsOutside(Step(c, now, l).value) <==>
              && !(Accepts(c, l) && c.row.revoked && c.procs[l.pid].job.p.direction == Entry)
              && !(l.CommitOverride? && c.row.revoked && c.procs[l.pid].state == Inside)
  {
    NonceMoves(c, now, l);
    if Accepts(c, l) {
      assert PcSound(l.pid, c.procs[l.pid], c.row, c.holder);
    } else {
      RevokedRow(c, now, l);
    }
  }

  lemma RevokedRow(c: Cell, now: int, l: Label)
    requires Step(c, now, l).Some? && !Accepts(c, l)
    ensures var row := Step(c, now, l).value.row;
            if l.CommitOverride? then row.revoked == c.row.revoked && row.presence == c.procs[l.pid].state
            else
              || (row.revoked == c.row.revoked && row.presence == c.row.presence)
              || (row.revoked && row.presence == Outside)
  {
  }

  // ---- runs that show the limits ----

  // One lemma a step, on cells of any content.

  lemma OverrideStarts(c: Cell, now: int, ls: seq<Label>, d: Cell, pid: Pid, state: Presence, actor: UserId)
    requires RunCell(c, now, ls) == Some(d) && pid !in d.procs && !d.row.revoked && d.row.presence != state
    ensures RunCell(c, now, ls + [LookToOverride(pid, state, actor)]) ==
        Some(At(d, pid, Overriding(d.row, state, actor)))
  {
    RunMore(c, now, ls, LookToOverride(pid, state, actor));
  }

  lemma RevocationStarts(c: Cell, now: int, ls: seq<Label>, d: Cell, pid: Pid, actor: UserId)
    requires RunCell(c, now, ls) == Some(d) && pid !in d.procs && !d.row.revoked
    ensures RunCell(c, now, ls + [LookToRevoke(pid, None, actor)]) ==
        Some(At(d, pid, Revoking(d.row, None, actor, now)))
  {
    RunMore(c, now, ls, LookToRevoke(pid, None, actor));
  }

  function Overrode(d: Cell, now: int, pid: Pid, snap: Ticket, state: Presence, actor: UserId): Cell {
    d.(procs := d.procs - {pid},
       row := Tables.Overridden(d.row, snap, state, now),
       log := d.log + [Tables.ManualEntry(d.id, snap, state, actor)],
       outbox := d.outbox + [Fact(CrossingKind(state), d.id, snap.eventId, snap.guestId)])
  }

  lemma OverrideCommits(c: Cell, now: int, ls: seq<Label>, d: Cell, pid: Pid, snap: Ticket,
      state: Presence, actor: UserId)
    requires RunCell(c, now, ls) == Some(d) && d.holder.None?
    requires pid in d.procs && d.procs[pid] == Overriding(snap, state, actor)
    ensures RunCell(c, now, ls + [CommitOverride(pid)]) == Some(Overrode(d, now, pid, snap, state, actor))
  {
    RunMore(c, now, ls, CommitOverride(pid));
  }

  lemma RevocationCommits(c: Cell, now: int, ls: seq<Label>, d: Cell, pid: Pid, snap: Ticket, actor: UserId)
    requires RunCell(c, now, ls) == Some(d) && d.holder.None?
    requires pid in d.procs && d.procs[pid] == Revoking(snap, None, actor, now)
    ensures RunCell(c, now, ls + [CommitRevoke(pid)]).Some?
    ensures var e := RunCell(c, now, ls + [CommitRevoke(pid)]).value;
            e.procs == d.procs - {pid} && e.row == Tables.RevokedByHand(d.row, None, actor, now) && e.holder.None?
  {
    RunMore(c, now, ls, CommitRevoke(pid));
  }

  /** Two staff members have seen the guest outside and are about to let the guest in. */
  lemma TwoOverridesStart(id: TicketId, m: Mapping, now: int)
    ensures var c0 := NewCell(id, m, None);
            RunCell(c0, now, [LookToOverride(1, Inside, 7), LookToOverride(2, Inside, 8)]) ==
            Some(c0.(procs := map[1 := Overriding(c0.row, Inside, 7), 2 := Overriding(c0.row, Inside, 8)]))
  {
    var c0 := NewCell(id, m, None);
    OverrideStarts(c0, now, [], c0, 1, Inside, 7);
    OverrideStarts(c0, now, [] + [LookToOverride(1, Inside, 7)],
        At(c0, 1, Overriding(c0.row, Inside, 7)), 2, Inside, 8);
    assert [] + [LookToOverride(1, Inside, 7)] + [LookToOverride(2, Inside, 8)] ==
        [LookToOverride(1, Inside, 7), LookToOverride(2, Inside, 8)];
  }

  /** Both commit: two check-ins for one guest inside. */
  lemma TwoOverridesUpsetTheBalance(id: TicketId, m: Mapping, now: int)
    ensures var ls := [LookToOverride(1, Inside, 7), LookToOverride(2, Inside, 8)] + [CommitOverride(1)]
        + [CommitOverride(2)];
            var end := RunCell(NewCell(id, m, None), now, ls);
            end.Some? && !end.value.row.revoked && end.value.row.presence == Inside
            && Ledger.Tally(end.value.outbox, CheckedIn, id) == 2 && Ledger.Tally(end.value.outbox, CheckedOut, id) == 0
  {
    var c0 := NewCell(id, m, None);
    var ls := [LookToOverride(1, Inside, 7), LookToOverride(2, Inside, 8)];
    TwoOverridesStart(id, m, now);
    var c2 := c0.(procs := map[1 := Overriding(c0.row, Inside, 7), 2 := Overriding(c0.row, Inside, 8)]);
    OverrideCommits(c0, now, ls, c2, 1, c0.row, Inside, 7);
    OverrideCommits(c0, now, ls + [CommitOverride(1)], Overrode(c2, now, 1, c0.row, Inside, 7), 2, c0.row, Inside, 8);
    var fact := Fact(CheckedIn, id, m.eventId, m.guestId);
    assert [] + [fact] + [fact] == [fact, fact];
    Ledger.ShortOutbox(fact, fact, id);
  }

  lemma OverrideAndRevocationStart(id: TicketId, m: Mapping, now: int)
    ensures var c0 := NewCell(id, m, None);
            RunCell(c0, now, [LookToOverride(1, Inside, 7), LookToRevoke(2, None, 8)]) ==
            Some(c0.(procs := map[1 := Overriding(c0.row, Inside, 7), 2 := Revoking(c0.row, None, 8, now)]))
  {
    var c0 := NewCell(id, m, None);
    OverrideStarts(c0, now, [], c0, 1, Inside, 7);
    RevocationStarts(c0, now, [] + [LookToOverride(1, Inside, 7)], At(c0, 1, Overriding(c0.row, Inside, 7)), 2, 8);
    assert [] + [LookToOverride(1, Inside, 7)] + [LookToRevoke(2, None, 8)] ==
        [LookToOverride(1, Inside, 7), LookToRevoke(2, None, 8)];
  }

  /** A manual entry decided before a revocation and committed after it leaves a revoked ticket inside. */
  lemma OvertakenOverrideEndsInside(id: TicketId, m: Mapping, now: int)
    ensures var ls := [LookToOverride(1, Inside, 7), LookToRevoke(2, None, 8)] + [CommitRevoke(2)]
        + [CommitOverride(1)];
            var end := RunCell(NewCell(id, m, None), now, ls);
            end.Some? && !RevokedIsOutside(end.value)
  {
    var c0 := NewCell(id, m, None);
    var ls := [LookToOverride(1, Inside, 7), LookToRevoke(2, None, 8)];
    OverrideAndRevocationStart(id, m, now);
    var c2 := c0.(procs := map[1 := Overriding(c0.row, Inside, 7), 2 := Revoking(c0.row, None, 8, now)]);
    RevocationCommits(c0, now, ls, c2, 2, c0.row, 8);
    var c3 := RunCell(c0, now, ls + [CommitRevoke(2)]).value;
    assert c3.procs[1] == Overriding(c0.row, Inside, 7);
    OverrideCommits(c0, now, ls + [CommitRevoke(2)], c3, 1, c0.row, Inside, 7);
  }

  // ---- a scan overtaken by a revocation ----

  ghost predicate Acceptable(c: Cell, now: int, pid: Pid, token: Token, p: Presented) {
    SoloScan.CanStart(c, now, pid, token) && SoloScan.JudgeCell(c, now, token, p) == Accepted
  }

  /** The steps of an acceptable scan up to its nonce swap. */
  function ReadyLabels(c: Cell, pid: Pid, token: Token, p: Presented): seq<Label> {
    var keyed := [Label.Present(pid, token, p), Look(pid), CheckBlock(pid), Screen(pid)] + [TakeKey(pid)]
        + [FindGuard(pid)];
    if c.guard.Some? then keyed + [ResetGuard(pid)] else keyed
  }

  function ReadyCell(c: Cell, now: int, token: Token): Cell {
    c.(keys := c.keys[token.nonce := now + REPLAY_KEY_TTL_MS],
       grabs := c.grabs + [Grab(token, now)],
       guard := if c.guard.Some? then Some(ShareGuards.Cleared(c.guard.value)) else None)
  }

  lemma ReadyRuns(c: Cell, now: int, pid: Pid, token: Token, p: Presented)
    requires Acceptable(c, now, pid, token, p)
    ensures RunCell(c, now, ReadyLabels(c, pid, token, p)) ==
            Some(At(ReadyCell(c, now, token), pid, Ready(Job(token, p, now), c.row)))
  {
    var screened, job := [Label.Present(pid, token, p), Look(pid), CheckBlock(pid), Screen(pid)], Job(token, p, now);
    var keyed := c.(keys := c.keys[token.nonce := now + REPLAY_KEY_TTL_MS], grabs := c.grabs + [Grab(token, now)]);
    SoloScan.ScreeningRuns(c, now, pid, token, p);
    SoloScan.JudgedByScreen(c, now, token, p);
    SoloScan.TakesKey(c, now, screened, c, pid, job, c.row);
    SoloScan.FindsGuard(c, now, screened + [TakeKey(pid)], keyed, pid, job, c.row);
    if c.guard.Some? {
      SoloScan.ResetsGuard(c, now, screened + [TakeKey(pid)] + [FindGuard(pid)], keyed, pid, job, c.row);
    }
  }

  /** A cell with a scan ready to swap and a revocation committed over it. */
  ghost predicate Overtaken(d: Cell, pid: Pid, job: Job, snap: Ticket) {
    && d.row.revoked && d.holder.None? && d.row.nextNonce == Some(job.token.nonce)
    && pid in d.procs && d.procs[pid] == Ready(job, snap)
  }

  lemma RevocationOvertakes(c: Cell, now: int, ls: seq<Label>, d: Cell, pid: Pid, other: Pid, job: Job,
      snap: Ticket, actor: UserId)
    requires RunCell(c, now, ls) == Some(At(d, pid, Ready(job, snap))) && d.holder.None? && !d.row.revoked
    requires d.row.nextNonce == Some(job.token.nonce) && other !in d.procs && other != pid
    ensures RunCell(c, now, ls + [LookToRevoke(other, None, actor)] + [CommitRevoke(other)]).Some?
    ensures var overtaken := RunCell(c, now, ls + [LookToRevoke(other, None, actor)] + [CommitRevoke(other)]);
            Overtaken(overtaken.value, pid, job, snap)
  {
    var ready := At(d, pid, Ready(job, snap));
    RevocationStarts(c, now, ls, ready, other, actor);
    RevocationCommits(c, now, ls + [LookToRevoke(other, None, actor)],
        At(ready, other, Revoking(d.row, None, actor, now)), other, d.row, actor);
  }

  /** The revoked row with its nonce spent and the guest on the side the scan asked for. */
  ghost predicate WonAnyway(row: Ticket, job: Job) {
    row.revoked && row.presence == IntendedState(job.p.direction) && row.nextNonce == Some(job.token.nonce + 1)
  }

  lemma OvertakenScanSwaps(c: Cell, now: int, ls: seq<Label>, pid: Pid, job: Job, snap: Ticket)
    requires RunCell(c, now, ls).Some? && Overtaken(RunCell(c, now, ls).value, pid, job, snap)
    ensures RunCell(c, now, ls + [Swap(pid)]).Some?
    ensures var e := RunCell(c, now, ls + [Swap(pid)]).value;
            pid in e.procs && e.procs[pid].Swapped? && WonAnyway(e.procs[pid].write, job)
  {
    var d := RunCell(c, now, ls).value;
    assert d == At(d, pid, Ready(job, snap));
    SoloScan.Swaps(c, now, ls, d, pid, job, snap);
  }

  lemma OvertakenScanCommits(c: Cell, now: int, ls: seq<Label>, pid: Pid, job: Job)
    requires RunCell(c, now, ls).Some? && pid in RunCell(c, now, ls).value.procs
    requires RunCell(c, now, ls).value.procs[pid].Swapped? && WonAnyway(RunCell(c, now, ls).value.procs[pid].write, job)
    ensures RunCell(c, now, ls + [Commit(pid)]).Some? && WonAnyway(RunCell(c, now, ls + [Commit(pid)]).value.row, job)
  {
    RunMore(c, now, ls, Commit(pid));
    CommitWrites(RunCell(c, now, ls).value, now, pid);
  }

  lemma CommitWrites(d: Cell, now: int, pid: Pid)
    requires pid in d.procs && d.procs[pid].Swapped?
    ensures Step(d, now, Commit(pid)).Some? && Step(d, now, Commit(pid)).value.row == d.procs[pid].write
  {
  }

  /** The scan is ready, then the revocation commits. */
  function LateLabels(c: Cell, pid: Pid, other: Pid, token: Token, p: Presented, actor: UserId): seq<Label> {
    ReadyLabels(c, pid, token, p) + [LookToRevoke(other, None, actor)] + [CommitRevoke(other)]
  }

  lemma LateRevocation(c: Cell, now: int, pid: Pid, other: Pid, token: Token, p: Presented, actor: UserId)
    requires Acceptable(c, now, pid, token, p) && other !in c.procs && other != pid
    ensures RunCell(c, now, LateLabels(c, pid, other, token, p, actor)).Some?
    ensures Overtaken(RunCell(c, now, LateLabels(c, pid, other, token, p, actor)).value, pid, Job(token, p, now), c.row)
  {
    ReadyRuns(c, now, pid, token, p);
    AcceptedIff(c.row, c.guard, token.nonce in c.keys && now < c.keys[token.nonce], token.nonce, p, c.endsAt, now);
    RevocationOvertakes(c, now, ReadyLabels(c, pid, token, p), ReadyCell(c, now, token), pid, other,
        Job(token, p, now), c.row, actor);
  }

  /**
   The one late acceptance of the revocation law does happen: whenever a scan would be
   accepted, a revocation can commit between its checks and its swap, as `LateRevocation`
   shows, and the scan is still accepted; an entry then leaves the revoked ticket inside.
   */
  lemma LateAcceptance(c: Cell, now: int, pid: Pid, other: Pid, token: Token, p: Presented, actor: UserId)
    requires Acceptable(c, now, pid, token, p) && other !in c.procs && other != pid
    ensures var end := RunCell(c, now, LateLabels(c, pid, other, token, p, actor) + [Swap(pid)] + [Commit(pid)]);
            end.Some? && WonAnyway(end.value.row, Job(token, p, now))
  {
    var ls := LateLabels(c, pid, other, token, p, actor);
    LateRevocation(c, now, pid, other, token, p, actor);
    OvertakenScanSwaps(c, now, ls, pid, Job(token, p, now), c.row);
    OvertakenScanCommits(c, now, ls + [Swap(pid)], pid, Job(token, p, now));
  }

  // ---- the same from the creation of a ticket on ----

  /** A device is bound to a new ticket, and a first token is generated for it. */
  function OpeningLabels(key: PublicKey, device: DeviceId): seq<Label> {
    [] + [Rebind(Some(key), Some(device))] + [LookToIssue(3)] + [Issue(3, 0)]
  }

  function BoundCell(id: TicketId, m: Mapping, key: PublicKey, device: DeviceId, now: int): Cell {
    var c := NewCell(id, m, None);
    c.(row := c.row.(publicKey := Some(key), deviceId := Some(device)), issued := {Token(0, id, 1, now)})
  }

  lemma OpeningRuns(now: int, id: TicketId, m: Mapping, key: PublicKey, device: DeviceId)
    ensures RunCell(NewCell(id, m, None), now, OpeningLabels(key, device)) == Some(BoundCell(id, m, key, device, now))
  {
    var c0, l1 := NewCell(id, m, None), Rebind(Some(key), Some(device));
    var c1 := c0.(row := c0.row.(publicKey := Some(key), deviceId := Some(device)));
    RunMore(c0, now, [], l1);
    RunMore(c0, now, [] + [l1], LookToIssue(3));
    RunMore(c0, now, [] + [l1] + [LookToIssue(3)], Issue(3, 0));
    assert RunCell(c0, now, [] + [l1]) == Some(c1);
    Issues(c1, now, 3);
    assert c1.issued + {Token(0, id, 1, now)} == {Token(0, id, 1, now)};
  }

  lemma Issues(c: Cell, now: int, pid: Pid)
    requires pid !in c.procs && c.row.nextNonce.Some? && c.holder.None?
    ensures var d := Step(c, now, LookToIssue(pid));
            d.Some? && Step(d.value, now, Issue(pid, 0)) ==
                       Some(c.(issued := c.issued + {Token(0, c.id, c.row.nextNonce.value, now)}))
  {
    var d := Step(c, now, LookToIssue(pid)).value;
    assert d.procs - {pid} == c.procs;
  }

  /** A late acceptance is reachable: the first entry of a new ticket, overtaken by a revocation, leaves it inside. */
  lemma LateEntryIsReachable(
    now: int, id: TicketId, m: Mapping, key: PublicKey, device: DeviceId, gate: Option<string>)
    ensures RunCell(NewCell(id, m, None), now, OpeningLabels(key, device)).Some?
    ensures var c := RunCell(NewCell(id, m, None), now, OpeningLabels(key, device)).value;
            var token, p := Token(0, id, 1, now), Presented(device, Some(key), Entry, gate, 5);
            && token in c.issued && Acceptable(c, now, 1, token, p)
            && var end := RunCell(c, now, LateLabels(c, 1, 2, token, p, 8) + [Swap(1)] + [Commit(1)]);
               end.Some? && !RevokedIsOutside(end.value)
  {
    OpeningRuns(now, id, m, key, device);
    var token, p := Token(0, id, 1, now), Presented(device, Some(key), Entry, gate, 5);
    var c := BoundCell(id, m, key, device, now);
    AcceptedIff(c.row, c.guard, false, 1, p, c.endsAt, now);
    LateAcceptance(c, now, 1, 2, token, p, 8);
  }
}
