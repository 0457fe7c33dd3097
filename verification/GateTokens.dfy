/**
 Interleaved runs in which every presented token is one the service generated: what its
 nonce can be by the time it is read, and how often it can take a replay key.
 */
module GateTokens {
  import opened Domain
  import opened ShareGuards
  import opened Verification
  import opened GateProtocol
  import opened GateInvariants
  import opened GateLaws

  /** This event presents only a token generated before. */
  ghost predicate PresentsIssued(w: World, e: Event) {
    e.On? && e.l.Present? && e.id in w.cells ==> e.l.token in w.cells[e.id].issued
  }

  ghost predicate GenuinePlay(w: World, es: seq<Event>) {
    forall n :: 0 <= n < |es| && Play(w, es[..n]).Some? ==> PresentsIssued(Play(w, es[..n]).value, es[n])
  }

  ghost function JobOf(pc: Pc): Option<Job> {
    match pc
    case Verified(job) => Some(job)
    case Looked(job, _) => Some(job)
    case Unblocked(job, _) => Some(job)
    case Faulty(job, _, _, _) => Some(job)
    case Counting(job, _, _, _, _, _) => Some(job)
    case Clear(job, _) => Some(job)
    case Keyed(job, _) => Some(job)
    case Resetting(job, _) => Some(job)
    case Ready(job, _) => Some(job)
    case Swapped(job, _, _) => Some(job)
    case Rejected(job, _, _) => Some(job)
    case _ => None
  }

  /** The verdict a scan is about to log. */
  ghost function VerdictDue(pc: Pc): Option<Verdict> {
    match pc
    case Faulty(_, _, v, _) => Some(v)
    case Counting(_, _, v, _, _, _) => Some(v)
    case Rejected(_, _, v) => Some(v)
    case _ => None
  }

  ghost predicate TokenGenuine(token: Token, row: Ticket, now: int) {
    row.nextNonce.Some? && 1 <= token.nonce <= row.nextNonce.value && token.issuedAt <= now
  }

  ghost predicate PcGenuine(pc: Pc, issued: set<Token>, now: int) {
    && (JobOf(pc).Some? ==>
          JobOf(pc).value.token in issued && Live(JobOf(pc).value.token, JobOf(pc).value.verifiedAt)
              && JobOf(pc).value.verifiedAt <= now)
    && (SnapOf(pc).Some? && JobOf(pc).Some? && SnapOf(pc).value.nextNonce.Some? ==>
          1 <= JobOf(pc).value.token.nonce <= SnapOf(pc).value.nextNonce.value)
    && VerdictDue(pc) != Some(InvalidNonce)
  }

  ghost predicate GenuineCell(c: Cell, now: int) {
    && (forall token :: token in c.issued ==> TokenGenuine(token, c.row, now))
    && (forall pid :: pid in c.procs ==> PcGenuine(c.procs[pid], c.issued, now))
    && (forall l :: l in c.log ==> l.verdict != InvalidNonce)
  }

  lemma ScanPcGenuine(c: Cell, now: int, l: Label, pid: Pid)
    requires pid in c.procs && PcSound(pid, c.procs[pid], c.row, c.holder) && RowSound(c.row)
    requires PcGenuine(c.procs[pid], c.issued, now)
    requires JobOf(c.procs[pid]).Some? ==> TokenGenuine(JobOf(c.procs[pid]).value.token, c.row, now)
    requires ScanStep(c, now, l, pid, c.procs[pid]).Some? && pid in ScanStep(c, now, l, pid, c.procs[pid]).value.procs
    ensures PcGenuine(ScanStep(c, now, l, pid, c.procs[pid]).value.procs[pid], c.issued, now)
  {
    var pc' := ScanStep(c, now, l, pid, c.procs[pid]).value.procs[pid];
    if l.Screen? {
      ScreenedGenuine(c, now, c.procs[pid].job, c.procs[pid].snap);
    } else {
      CarriesOn(c, now, l, pid);
    }
  }

  /**
   A step other than screening keeps the job, and the snapshot it has; the only new verdicts are
   the block's, the revocation's and a replay.
   */
  lemma CarriesOn(c: Cell, now: int, l: Label, pid: Pid)
    requires pid in c.procs && !l.Screen?
    requires ScanStep(c, now, l, pid, c.procs[pid]).Some? && pid in ScanStep(c, now, l, pid, c.procs[pid]).value.procs
    ensures var pc, pc' := c.procs[pid], ScanStep(c, now, l, pid, c.procs[pid]).value.procs[pid];
            && JobOf(pc') == JobOf(pc)
            && (SnapOf(pc').Some? ==> SnapOf(pc') == SnapOf(pc) || (pc.Verified? && SnapOf(pc') == Some(c.row)))
            && (VerdictDue(pc') == Some(InvalidNonce) ==> VerdictDue(pc) == Some(InvalidNonce))
  {
  }

  /** An issued nonce that is not the snapshot's next one has been used. */
  lemma ScreenedGenuine(c: Cell, now: int, job: Job, snap: Ticket)
    requires RowSound(snap) && 1 <= job.token.nonce <= snap.nextNonce.value
    ensures var pc := Screened(c, now, job, snap);
            VerdictDue(pc) != Some(InvalidNonce) && JobOf(pc) == Some(job)
                && (SnapOf(pc).Some? ==> SnapOf(pc) == Some(snap))
  {
  }

  lemma StepFrame(c: Cell, now: int, l: Label, pid: Pid)
    requires Step(c, now, l).Some? && pid in Step(c, now, l).value.procs
    requires !StartsOrEnvironment(l) ==> pid != l.pid
    requires l.Present? || l.LookToRevoke? || l.LookToOverride? || l.LookToIssue? ==> pid != l.pid
    ensures pid in c.procs && Step(c, now, l).value.procs[pid] == c.procs[pid]
  {
  }

  /** Whatever process is looked at after a step, it carries only issued tokens. */
  lemma AnyPcGenuine(c: Cell, now: int, l: Label, pid: Pid)
    requires Sound(c) && GenuineCell(c, now) && Step(c, now, l).Some? && pid in Step(c, now, l).value.procs
    requires l.Present? ==> l.token in c.issued
    ensures PcGenuine(Step(c, now, l).value.procs[pid], Step(c, now, l).value.issued, now)
  {
    if !l.Rebind? && !l.Evict? && !l.EventEnds? && pid == l.pid {
      if !StartsOrEnvironment(l) {
        assert PcSound(pid, c.procs[pid], c.row, c.holder);
        assert !l.Abort? && !l.CommitRevoke? && !l.CommitOverride? && !l.Issue?;
        ScanPcGenuine(c, now, l, pid);
        assert Step(c, now, l).value.issued == c.issued;
      }
    } else {
      StepFrame(c, now, l, pid);
      assert c.issued <= Step(c, now, l).value.issued;
    }
  }

  lemma IssuedGrows(c: Cell, now: int, l: Label)
    requires Step(c, now, l).Some?
    ensures var c' := Step(c, now, l).value;
            if l.Issue? then
              && l.pid in c.procs && c.procs[l.pid].Issuing?
              && c'.issued == c.issued + {Token(l.serial, c.id, c.procs[l.pid].nonce, now)}
            else c'.issued == c.issued
  {
  }

  lemma IssuedGenuine(c: Cell, now: int, l: Label)
    requires Sound(c) && GenuineCell(c, now) && Step(c, now, l).Some?
    ensures forall token :: token in Step(c, now, l).value.issued ==>
        TokenGenuine(token, Step(c, now, l).value.row, now)
    ensures c.issued <= Step(c, now, l).value.issued
  {
    SoundKept(c, now, l);
    IssuedGrows(c, now, l);
    if l.Issue? {
      assert PcSound(l.pid, c.procs[l.pid], c.row, c.holder);
    }
  }

  lemma GenuineKept(c: Cell, now: int, l: Label)
    requires Sound(c) && GenuineCell(c, now) && Step(c, now, l).Some?
    requires l.Present? ==> l.token in c.issued
    ensures GenuineCell(Step(c, now, l).value, now)
  {
    var c' := Step(c, now, l).value;
    IssuedGenuine(c, now, l);
    forall pid | pid in c'.procs
      ensures PcGenuine(c'.procs[pid], c'.issued, now)
    {
      AnyPcGenuine(c, now, l, pid);
    }
    StepWrites(c, now, l);
    forall e | e in Written(c, now, l)
      ensures e.verdict != InvalidNonce
    {
      assert PcGenuine(c.procs[l.pid], c.issued, now);
    }
  }

  lemma GenuineWaits(c: Cell, now: int, later: int)
    requires GenuineCell(c, now) && now <= later
    ensures GenuineCell(c, later)
  {
  }

  /**
   When every presented token was generated by the service, no interleaving can log
   INVALID_NONCE: by the time a token is read its nonce is the next one or already used.
   */
  lemma {:induction false} NoInvalidNonceLaw(now: int, es: seq<Event>)
    requires Play(EmptyWorld(now), es).Some? && GenuinePlay(EmptyWorld(now), es)
    ensures var w := Play(EmptyWorld(now), es).value;
            forall id :: id in w.cells ==> GenuineCell(w.cells[id], w.now)
  {
    if es == [] {
    } else {
      var front, e := es[..|es| - 1], es[|es| - 1];
      var v := Play(EmptyWorld(now), front).value;
      assert forall n :: 0 <= n < |front| ==> front[..n] == es[..n] && front[n] == es[n];
      NoInvalidNonceLaw(now, front);
      PlaySound(EmptyWorld(now), front);
      assert PresentsIssued(v, e);
      match e
      case On(id, l) => GenuineKept(v.cells[id], v.now, l);
      case Tick(ms) =>
        forall id | id in v.cells
          ensures GenuineCell(v.cells[id], v.now + ms)
        {
          GenuineWaits(v.cells[id], v.now, v.now + ms);
        }
      case Open(id, m) =>
    }
  }

  // ---- one replay key a token ----

  /** No replay key is lost early, and a verified scan asks for its key within a minute. */
  ghost predicate KeepsTime(w: World, e: Event) {
    e.On? && e.id in w.cells ==>
      && !e.l.Evict?
      && (e.l.TakeKey? && e.l.pid in w.cells[e.id].procs && JobOf(w.cells[e.id].procs[e.l.pid]).Some? ==>
            w.now < JobOf(w.cells[e.id].procs[e.l.pid]).value.verifiedAt + 60_000)
  }

  ghost predicate TimelyPlay(w: World, es: seq<Event>) {
    forall n :: 0 <= n < |es| && Play(w, es[..n]).Some? ==> KeepsTime(Play(w, es[..n]).value, es[n])
  }

  /** An acquisition's key stands for its full time, and no token appears twice. */
  ghost predicate KeysOnce(c: Cell, now: int) {
    GrabsSound(c.grabs, c.keys, now)
  }

  ghost predicate GrabsSound(grabs: seq<Grab>, keys: map<int, int>, now: int) {
    && (forall i :: 0 <= i < |grabs| ==>
          var g := grabs[i];
          && g.token.issuedAt <= g.at <= now
          && g.token.nonce in keys && g.at + 120_000 <= keys[g.token.nonce])
    && (forall i, j :: 0 <= i < j < |grabs| ==> grabs[i].token != grabs[j].token)
  }

  lemma KeysOnceKept(c: Cell, now: int, l: Label)
    requires Sound(c) && GenuineCell(c, now) && KeysOnce(c, now) && Step(c, now, l).Some? && !l.Evict?
    requires l.TakeKey? && l.pid in c.procs && JobOf(c.procs[l.pid]).Some? ==>
        now < JobOf(c.procs[l.pid]).value.verifiedAt + 60_000
    ensures KeysOnce(Step(c, now, l).value, now)
  {
    if l.TakeKey? {
      var job := JobOf(c.procs[l.pid]).value;
      assert PcGenuine(c.procs[l.pid], c.issued, now);
      LiveIsYoung(job.token, job.verifiedAt);
      assert TokenGenuine(job.token, c.row, now);
      if !(job.token.nonce in c.keys && now < c.keys[job.token.nonce]) {
        GrabbedOnce(c.grabs, c.keys, job.token, now);
      }
    } else {
      KeysUntouched(c, now, l);
    }
  }

  lemma KeysUntouched(c: Cell, now: int, l: Label)
    requires Step(c, now, l).Some? && !l.TakeKey? && !l.Evict?
    ensures Step(c, now, l).value.keys == c.keys && Step(c, now, l).value.grabs == c.grabs
  {
  }

  /** A token young enough to be presented finds its own earlier key still standing. */
  lemma GrabbedOnce(grabs: seq<Grab>, keys: map<int, int>, token: Token, now: int)
    requires GrabsSound(grabs, keys, now) && token.issuedAt <= now < token.issuedAt + 120_000
    requires !(token.nonce in keys && now < keys[token.nonce])
    ensures GrabsSound(grabs + [Grab(token, now)], keys[token.nonce := now + 120_000], now)
  {
  }

  /**
   A generated token takes the replay key of its nonce at most once in its whole life, even
   if the scan that took it is rolled back: the token dies within a minute, a scan asks for
   the key within another, and the key stands for two.
   */
  lemma {:induction false} OneKeyPerTokenLaw(now: int, es: seq<Event>)
    requires Play(EmptyWorld(now), es).Some?
    requires GenuinePlay(EmptyWorld(now), es) && TimelyPlay(EmptyWorld(now), es)
    ensures var w := Play(EmptyWorld(now), es).value;
            forall id :: id in w.cells ==> KeysOnce(w.cells[id], w.now)
  {
    if es == [] {
    } else {
      var front, e := es[..|es| - 1], es[|es| - 1];
      var v := Play(EmptyWorld(now), front).value;
      assert forall n :: 0 <= n < |front| ==> front[..n] == es[..n] && front[n] == es[n];
      OneKeyPerTokenLaw(now, front);
      NoInvalidNonceLaw(now, front);
      PlaySound(EmptyWorld(now), front);
      assert PresentsIssued(v, e) && KeepsTime(v, e);
      match e
      case On(id, l) => KeysOnceKept(v.cells[id], v.now, l);
      case Tick(ms) =>
      case Open(id, m) =>
    }
  }
}
