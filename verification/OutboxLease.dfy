/**
 Any number of publisher instances over one outbox, one database or broker call a step.
 An instance polls a batch, claims record by record, reads the claimed record, sends it and
 settles it; it may crash at any moment, and a send may fail or succeed without the
 publisher being able to note it.
 */
module OutboxLease {
  import opened Domain
  import opened OutboxRows

  datatype Phase =
    | Batch(todo: seq<nat>)                                        // between records; idle when nothing is left
    | Claimed(id: nat, since: int, todo: seq<nat>)
    | Loaded(id: nat, since: int, seen: nat, todo: seq<nat>)
    | Sent(id: nat, since: int, seen: nat, todo: seq<nat>)
    | Failing(id: nat, since: int, seen: nat, todo: seq<nat>)

  datatype Bus = Bus(
    rows: seq<Record>,
    procs: map<Instance, Phase>,
    now: int,
    delivered: set<nat>,            // history: records the broker has accepted
    failures: seq<seq<int>>,        // history: times of each record's failed settlements
    sends: seq<nat>)                // history: how often each record was sent

  datatype Act =
    | Enqueue
    | Tick(ms: nat)
    | Poll(inst: Instance, found: seq<nat>)
    | TryClaim(inst: Instance)
    | Load(inst: Instance)
    | Send(inst: Instance, ok: bool)
    | LoseUpdate(inst: Instance)      // the broker accepted, but marking the record published fails
    | SettlePublished(inst: Instance)
    | SettleFailed(inst: Instance)
    | Crash(inst: Instance)

  function PhaseOf(b: Bus, inst: Instance): Phase {
    if inst in b.procs then b.procs[inst] else Batch([])
  }

  predicate Distinct(ids: seq<nat>) {
    forall i, j :: 0 <= i < j < |ids| ==> ids[i] != ids[j]
  }

  /** What the polling query may return: at most one batch of distinct ready records. */
  predicate Pollable(b: Bus, found: seq<nat>) {
    && |found| <= BATCH_SIZE && Distinct(found)
    && (forall i :: 0 <= i < |found| ==> found[i] < |b.rows| && Ready(b.rows[found[i]], b.now))
  }

  function Move(b: Bus, inst: Instance, phase: Phase): Bus {
    b.(procs := b.procs[inst := phase])
  }

  predicate Wide(b: Bus) {
    |b.failures| == |b.rows| && |b.sends| == |b.rows|
  }

  function Do(b: Bus, a: Act): Option<Bus>
    requires Wide(b)
  {
    match a
    case Enqueue =>
      Some(b.(rows := b.rows + [NewRecord(b.now)], failures := b.failures + [[]], sends := b.sends + [0]))
    case Tick(ms) => Some(b.(now := b.now + ms))
    case Poll(inst, found) =>
      if PhaseOf(b, inst) == Batch([]) && Pollable(b, found) then Some(Move(b, inst, Batch(found))) else None
    case Crash(inst) => Some(Move(b, inst, Batch([])))
    case _ => DoOnRecord(b, a, PhaseOf(b, a.inst))
  }

  /** Steps of an instance on the record it is at. */
  function DoOnRecord(b: Bus, a: Act, phase: Phase): Option<Bus>
    requires Wide(b)
  {
    match (a, phase)
    case (TryClaim(inst), Batch(todo)) =>
      if todo == [] || todo[0] >= |b.rows| then None
      else if Claimable(b.rows[todo[0]], b.now) then
        var claimed := b.rows[todo[0] := Claim(b.rows[todo[0]], inst, b.now)];
        Some(Move(b, inst, Claimed(todo[0], b.now, todo[1..])).(rows := claimed))
      else Some(Move(b, inst, Batch(todo[1..])))
    case (Load(inst), Claimed(id, since, todo)) =>
      if id >= |b.rows| then None else Some(Move(b, inst, Loaded(id, since, b.rows[id].attempts, todo)))
    case (Send(inst, ok), Loaded(id, since, seen, todo)) =>
      if id >= |b.rows| then None else
      var sent := Move(b, inst, if ok then Sent(id, since, seen, todo) else Failing(id, since, seen, todo));
      Some(sent.(sends := b.sends[id := b.sends[id] + 1], delivered := if ok then b.delivered + {id} else b.delivered))
    case (LoseUpdate(inst), Sent(id, since, seen, todo)) => Some(Move(b, inst, Failing(id, since, seen, todo)))
    case (SettlePublished(inst), Sent(id, since, seen, todo)) =>
      if id >= |b.rows| then None else
      Some(Move(b, inst, Batch(todo)).(rows := b.rows[id := MarkPublished(b.rows[id], b.now)]))
    case (SettleFailed(inst), Failing(id, since, seen, todo)) =>
      if id >= |b.rows| then None else
      Some(Move(b, inst, Batch(todo)).(
        rows := b.rows[id := MarkFailed(b.rows[id], seen, b.now)],
        failures := b.failures[id := b.failures[id] + [b.now]]))
    case _ => None
  }

  function Play(b: Bus, acts: seq<Act>): (r: Option<Bus>)
    requires Wide(b)
    ensures r.Some? ==> Wide(r.value)
  {
    if acts == [] then Some(b)
    else
      var v := Play(b, acts[..|acts| - 1]);
      if v.None? then None else Do(v.value, acts[|acts| - 1])
  }

  lemma PlayMore(b: Bus, acts: seq<Act>, a: Act)
    requires Wide(b)
    ensures Play(b, acts + [a]) == (if Play(b, acts).None? then None else Do(Play(b, acts).value, a))
  {
    assert (acts + [a])[..|acts|] == acts;
  }

  lemma {:induction false} PlayOn(b: Bus, acts: seq<Act>, more: seq<Act>)
    requires Wide(b) && Play(b, acts).Some?
    ensures Play(b, acts + more) == Play(Play(b, acts).value, more)
  {
    if more == [] {
      assert acts + more == acts;
    } else {
      assert (acts + more)[..|acts + more| - 1] == acts + more[..|more| - 1];
      PlayOn(b, acts, more[..|more| - 1]);
    }
  }

  function EmptyBus(now: int): Bus {
    Bus([], map[], now, {}, [], [])
  }

  /** The record an instance has claimed and not settled yet, and since when. */
  ghost function Active(phase: Phase): Option<(nat, int)> {
    match phase
    case Batch(_) => None
    case Claimed(id, since, _) => Some((id, since))
    case Loaded(id, since, _, _) => Some((id, since))
    case Sent(id, since, _, _) => Some((id, since))
    case Failing(id, since, _, _) => Some((id, since))
  }

  // ---- what a run keeps, and what breaks it ----

  /** `holds` is true before, between and after these acts. */
  ghost predicate Always(b: Bus, acts: seq<Act>, holds: Bus -> bool)
    requires Wide(b)
  {
    && (acts == [] || Always(b, acts[..|acts| - 1], holds))
    && (Play(b, acts).Some? ==> holds(Play(b, acts).value))
  }

  /** None of these acts is a `breach` in the state it meets. */
  ghost predicate Never(b: Bus, acts: seq<Act>, breach: (Bus, Act) -> bool)
    requires Wide(b)
  {
    if acts == [] then true
    else
      var k := |acts| - 1;
      Never(b, acts[..k], breach) && (Play(b, acts[..k]).Some? ==> !breach(Play(b, acts[..k]).value, acts[k]))
  }

  /**
   If what can be seen follows from what holds, and in a state where it holds exactly the
   breaches make it fail to be seen, then a run always shows it if and only if none of its
   acts is a breach, and then it still holds at the end.
   */
  lemma {:induction false} AlwaysIffNever(
    b: Bus, acts: seq<Act>, holds: Bus -> bool, seen: Bus -> bool, breach: (Bus, Act) -> bool)
    requires Wide(b) && Play(b, acts).Some? && holds(b)
    requires forall v :: holds(v) ==> seen(v)
    requires forall v, a :: Wide(v) && holds(v) && Do(v, a).Some? ==>
               if breach(v, a) then !seen(Do(v, a).value) else holds(Do(v, a).value)
    ensures Always(b, acts, seen) <==> Never(b, acts, breach)
    ensures Never(b, acts, breach) ==> holds(Play(b, acts).value)
  {
    if acts == [] {
    } else {
      AlwaysIffNever(b, acts[..|acts| - 1], holds, seen, breach);
    }
  }

  // ---- what holds of every run, crashes and stale leases included ----

  ghost predicate RecordSound(b: Bus, id: nat)
    requires id < |b.rows|
  {
    var r := b.rows[id];
    && (r.publishedAt.Some? ==> id in b.delivered)
    && r.nextAttemptAt <= b.now + 300_000
    && (r.lockedAt.Some? ==> r.lockedAt.value <= b.now)
    && (r.attempts >= 10 ==> r.deadLetteredAt.Some?)
  }

  ghost predicate BusSound(b: Bus) {
    && Wide(b)
    && (forall id :: 0 <= id < |b.rows| ==> RecordSound(b, id))
    && (forall i :: i in b.procs && b.procs[i].Sent? ==> b.procs[i].id in b.delivered)
  }

  /** A mark, once set, stays set. */
  ghost predicate MarksKept(b: Bus, c: Bus) {
    && |b.rows| <= |c.rows| && b.delivered <= c.delivered
    && (forall id :: 0 <= id < |b.rows| ==>
          && (b.rows[id].publishedAt.Some? ==> c.rows[id].publishedAt.Some?)
          && (b.rows[id].deadLetteredAt.Some? ==> c.rows[id].deadLetteredAt.Some?))
  }

  lemma SoundStep(b: Bus, a: Act)
    requires BusSound(b) && Do(b, a).Some?
    ensures BusSound(Do(b, a).value) && MarksKept(b, Do(b, a).value)
  {
    var c := Do(b, a).value;
    if a.SettleFailed? {
      BackoffBounds(PhaseOf(b, a.inst).seen + 1);
    }
    forall id | 0 <= id < |c.rows|
      ensures RecordSound(c, id)
    {
      if id < |b.rows| {
        assert RecordSound(b, id);
      }
    }
  }

  lemma {:induction false} SoundRun(b: Bus, acts: seq<Act>)
    requires BusSound(b) && Play(b, acts).Some?
    ensures BusSound(Play(b, acts).value) && MarksKept(b, Play(b, acts).value)
  {
    if acts == [] {
    } else {
      SoundRun(b, acts[..|acts| - 1]);
      SoundStep(Play(b, acts[..|acts| - 1]).value, acts[|acts| - 1]);
    }
  }

  /** After the first `n` of these acts the record is settled, or an instance could claim it. */
  ghost predicate Offered(b: Bus, acts: seq<Act>, n: nat, id: nat)
    requires Wide(b)
  {
    && n <= |acts| && Play(b, acts[..n]).Some?
    && var v := Play(b, acts[..n]).value;
       id < |v.rows| && (Settled(v.rows[id]) || Claimable(v.rows[id], v.now))
  }

  /** Whoever writes a row finds it claimable or settled, or leaves it so. */
  lemma TouchOffers(b: Bus, a: Act, id: nat)
    requires Wide(b) && Do(b, a).Some? && id < |b.rows|
    requires Do(b, a).value.rows[id] != b.rows[id]
    ensures var c := Do(b, a).value;
            Settled(b.rows[id]) || Claimable(b.rows[id], b.now) || Settled(c.rows[id]) || Claimable(c.rows[id], c.now)
  {
  }

  lemma OfferedEarlier(b: Bus, acts: seq<Act>, n: nat, id: nat)
    requires Wide(b) && acts != [] && Offered(b, acts[..|acts| - 1], n, id)
    ensures Offered(b, acts, n, id)
  {
    assert acts[..|acts| - 1][..n] == acts[..n];
  }

  /** A run offers the record at some moment, or nobody writes its row. */
  lemma {:induction false} OfferedOrUntouched(b: Bus, acts: seq<Act>, id: nat)
    requires Wide(b) && Play(b, acts).Some? && id < |b.rows|
    ensures id < |Play(b, acts).value.rows|
    ensures (exists n: nat :: Offered(b, acts, n, id)) || Play(b, acts).value.rows[id] == b.rows[id]
  {
    if acts == [] {
    } else {
      var k := |acts| - 1;
      OfferedOrUntouched(b, acts[..k], id);
      var v := Play(b, acts[..k]).value;
      if n: nat :| Offered(b, acts[..k], n, id) {
        OfferedEarlier(b, acts, n, id);
      } else if Do(v, acts[k]).value.rows[id] != v.rows[id] {
        TouchOffers(v, acts[k], id);
        assert acts[..|acts|] == acts;
        assert Offered(b, acts, k, id) || Offered(b, acts, |acts|, id);
      }
    }
  }

  /** Not more than a lease has passed before the last of the first `n` acts. */
  ghost predicate WithinLease(b: Bus, acts: seq<Act>, n: nat)
    requires Wide(b)
  {
    n == 0 || (n <= |acts| && Play(b, acts[..n - 1]).Some? && Play(b, acts[..n - 1]).value.now <= b.now + 60_000)
  }

  lemma {:induction false} ClockNeverFalls(b: Bus, acts: seq<Act>, n: nat)
    requires Wide(b) && n <= |acts| && Play(b, acts).Some?
    ensures Play(b, acts[..n]).Some? && Play(b, acts[..n]).value.now <= Play(b, acts).value.now
  {
    if n == |acts| {
      assert acts[..n] == acts;
    } else {
      assert acts[..|acts| - 1][..n] == acts[..n];
      ClockNeverFalls(b, acts[..|acts| - 1], n);
    }
  }

  /**
   A record nobody is working on, or whose claim is not newer than `b`, is offered again when
   its lease has run out.
   */
  lemma {:induction false} OfferedSoon(b: Bus, acts: seq<Act>, id: nat)
    requires Wide(b) && Play(b, acts).Some? && id < |b.rows| && RecordSound(b, id)
    requires Play(b, acts).value.now > b.now + 60_000
    ensures exists n: nat :: Offered(b, acts, n, id) && WithinLease(b, acts, n)
  {
    var k := |acts| - 1;
    if Play(b, acts[..k]).value.now > b.now + 60_000 {
      OfferedSoon(b, acts[..k], id);
      var n: nat :| Offered(b, acts[..k], n, id) && WithinLease(b, acts[..k], n);
      OfferedEarlier(b, acts, n, id);
      assert n > 0 ==> acts[..k][..n - 1] == acts[..n - 1];
      assert WithinLease(b, acts, n);
    } else {
      OfferedOrUntouched(b, acts, id);
      assert acts[..|acts|] == acts;
      assert Play(b, acts).value.rows[id] == b.rows[id] ==> Offered(b, acts, |acts|, id);
      var n: nat :| Offered(b, acts, n, id);
      if n > 0 {
        assert acts[..k][..n - 1] == acts[..n - 1];
        ClockNeverFalls(b, acts[..k], n - 1);
      }
      assert WithinLease(b, acts, n);
    }
  }

  /**
   In every run, crashes and stale leases included, a record marked published was accepted by
   the broker before, and no mark is ever cleared. From any reachable moment on, every record
   is settled or claimable at some moment before or as soon as more than a lease has passed,
   well within five minutes; if nobody touches it, after five minutes it is ready to be polled.
   */
  lemma MarksLaw(now: int, acts: seq<Act>, more: seq<Act>, id: nat)
    requires Play(EmptyBus(now), acts).Some? && id < |Play(EmptyBus(now), acts).value.rows|
    requires Play(Play(EmptyBus(now), acts).value, more).Some?
    ensures var b := Play(EmptyBus(now), acts).value;
            var c := Play(b, more).value;
            && id < |c.rows|
            && (b.rows[id].publishedAt.Some? ==> id in b.delivered && c.rows[id].publishedAt.Some?)
            && (b.rows[id].deadLetteredAt.Some? ==> c.rows[id].deadLetteredAt.Some?)
            && (c.now > b.now + 60_000 ==> exists n: nat :: Offered(b, more, n, id) && WithinLease(b, more, n))
            && (c.rows[id] == b.rows[id] && c.now >= b.now + 300_000 ==>
                  Settled(c.rows[id]) || Ready(c.rows[id], c.now))
  {
    SoundRun(EmptyBus(now), acts);
    var b := Play(EmptyBus(now), acts).value;
    assert RecordSound(b, id);
    SoundRun(b, more);
    if Play(b, more).value.now > b.now + 60_000 {
      OfferedSoon(b, more, id);
    }
  }

  // ---- when every claimed record is settled within the lease ----

  /** Nobody has been between claim and settlement for longer than the lease. */
  ghost predicate Prompt(b: Bus) {
    forall i :: i in b.procs && Active(b.procs[i]).Some? ==> b.now <= Active(b.procs[i]).value.1 + 60_000
  }

  ghost predicate PromptRun(b: Bus, acts: seq<Act>)
    requires Wide(b)
  {
    Always(b, acts, Prompt)
  }

  /** Instance `j` still works on this record although its lease has run out. */
  ghost predicate Overdue(b: Bus, j: Instance, id: nat) {
    j in b.procs && Active(b.procs[j]).Some? && Active(b.procs[j]).value.0 == id
    && Active(b.procs[j]).value.1 + 60_000 < b.now
  }

  /** This act claims a record that an overdue instance still works on. */
  ghost predicate Takeover(b: Bus, a: Act) {
    && a.TryClaim? && PhaseOf(b, a.inst).Batch?
    && var todo := PhaseOf(b, a.inst).todo;
       todo != [] && todo[0] < |b.rows| && Claimable(b.rows[todo[0]], b.now) && exists j :: Overdue(b, j, todo[0])
  }

  ghost predicate TakeoverFree(b: Bus, acts: seq<Act>)
    requires Wide(b)
  {
    Never(b, acts, Takeover)
  }

  ghost predicate CountSound(b: Bus, id: nat)
    requires Wide(b) && id < |b.rows|
  {
    var r := b.rows[id];
    && r.attempts == |b.failures[id]| <= 10
    && (r.deadLetteredAt.Some? <==> r.attempts == 10)
    && !(r.publishedAt.Some? && r.deadLetteredAt.Some?)
    && (Settled(r) ==> r.lockedAt.None? && r.lockedBy.None?)
  }

  /** What an instance has claimed is unsettled and bears its lock, and what it has read of it is still true. */
  ghost predicate Owns(b: Bus, i: Instance)
    requires i in b.procs
  {
    var phase := b.procs[i];
    Active(phase).Some? ==>
      var id := Active(phase).value.0;
      && id < |b.rows| && !Settled(b.rows[id])
      && b.rows[id].lockedBy == Some(i) && b.rows[id].lockedAt == Some(Active(phase).value.1)
      && (phase.Loaded? ==> phase.seen == b.rows[id].attempts)
      && (phase.Sent? ==> phase.seen == b.rows[id].attempts)
      && (phase.Failing? ==> phase.seen == b.rows[id].attempts)
  }

  ghost predicate LeaseSound(b: Bus) {
    && Wide(b)
    && (forall id :: 0 <= id < |b.rows| ==> CountSound(b, id))
    && (forall i :: i in b.procs ==> Owns(b, i))
  }

  lemma CountsStep(b: Bus, a: Act)
    requires LeaseSound(b) && Do(b, a).Some?
    ensures forall id :: 0 <= id < |Do(b, a).value.rows| ==> CountSound(Do(b, a).value, id)
  {
    var c := Do(b, a).value;
    forall id | 0 <= id < |c.rows|
      ensures CountSound(c, id)
    {
      if id < |b.rows| {
        assert CountSound(b, id);
      }
      if !a.Enqueue? && !a.Tick? && a.inst in b.procs {
        assert Owns(b, a.inst);
      }
    }
  }

  lemma OwnsStep(b: Bus, a: Act, i: Instance)
    requires LeaseSound(b) && Do(b, a).Some? && !Takeover(b, a) && i in Do(b, a).value.procs
    ensures Owns(Do(b, a).value, i)
  {
    var c := Do(b, a).value;
    if i in b.procs {
      assert Owns(b, i);
    }
    if !a.Enqueue? && !a.Tick? && a.inst in b.procs {
      assert Owns(b, a.inst);
    }
    if a.TryClaim? && i != a.inst {
      assert c.procs[i] == b.procs[i];
      assert !Overdue(b, i, PhaseOf(b, a.inst).todo[0]);
    }
  }

  lemma LeaseStep(b: Bus, a: Act)
    requires LeaseSound(b) && Do(b, a).Some? && !Takeover(b, a)
    ensures LeaseSound(Do(b, a).value)
  {
    CountsStep(b, a);
    forall i | i in Do(b, a).value.procs
      ensures Owns(Do(b, a).value, i)
    {
      OwnsStep(b, a, i);
    }
  }

  /** No two instances are between claim and settlement of the same record. */
  ghost predicate Exclusive(b: Bus) {
    forall i, j :: i in b.procs && j in b.procs && Active(b.procs[i]).Some? && Active(b.procs[j]).Some? && i != j ==>
      Active(b.procs[i]).value.0 != Active(b.procs[j]).value.0
  }

  lemma OwnersAreExclusive(b: Bus)
    requires LeaseSound(b)
    ensures Exclusive(b)
  {
    forall i, j | i in b.procs && j in b.procs && Active(b.procs[i]).Some? && Active(b.procs[j]).Some? && i != j
      ensures Active(b.procs[i]).value.0 != Active(b.procs[j]).value.0
    {
      assert Owns(b, i) && Owns(b, j);
    }
  }

  lemma TakeoverShares(b: Bus, a: Act)
    requires Wide(b) && Do(b, a).Some? && Takeover(b, a)
    ensures !Exclusive(Do(b, a).value)
  {
    var c, id := Do(b, a).value, PhaseOf(b, a.inst).todo[0];
    var j :| Overdue(b, j, id);
    assert c.procs[j] == b.procs[j] && Active(c.procs[a.inst]) == Some((id, b.now));
  }

  /**
   The exact condition, for any run at all: at most one instance at a time works on a record
   if and only if nobody claims a record from an instance whose lease has run out. As long
   as that does not happen, `attempts` counts the failed settlements and never passes ten, a
   record is dead-lettered exactly at ten, and it is never both published and dead-lettered.
   */
  lemma ExclusiveIff(now: int, acts: seq<Act>)
    requires Play(EmptyBus(now), acts).Some?
    ensures Always(EmptyBus(now), acts, Exclusive) <==> TakeoverFree(EmptyBus(now), acts)
    ensures TakeoverFree(EmptyBus(now), acts) ==> LeaseSound(Play(EmptyBus(now), acts).value)
  {
    forall v | LeaseSound(v)
      ensures Exclusive(v)
    {
      OwnersAreExclusive(v);
    }
    forall v, a | Wide(v) && LeaseSound(v) && Do(v, a).Some?
      ensures if Takeover(v, a) then !Exclusive(Do(v, a).value) else LeaseSound(Do(v, a).value)
    {
      if Takeover(v, a) {
        TakeoverShares(v, a);
      } else {
        LeaseStep(v, a);
      }
    }
    AlwaysIffNever(EmptyBus(now), acts, LeaseSound, Exclusive, Takeover);
  }

  /** Where claimed records are settled within the lease, nothing is there to be taken over. */
  lemma {:induction false} PromptIsTakeoverFree(b: Bus, acts: seq<Act>)
    requires Wide(b) && PromptRun(b, acts)
    ensures TakeoverFree(b, acts)
  {
    if acts == [] {
    } else {
      PromptIsTakeoverFree(b, acts[..|acts| - 1]);
    }
  }

  /**
   If every claimed record is settled, or its publisher gone, within the lease, then with
   any number of instances at most one works on a record at a time, `attempts` counts its
   failed settlements and never passes ten, it is dead-lettered exactly at ten, and never
   both published and dead-lettered.
   */
  lemma LeaseLaw(now: int, acts: seq<Act>)
    requires Play(EmptyBus(now), acts).Some? && PromptRun(EmptyBus(now), acts)
    ensures var b := Play(EmptyBus(now), acts).value;
            && Exclusive(b)
            && forall id :: 0 <= id < |b.rows| ==> CountSound(b, id)
  {
    PromptIsTakeoverFree(EmptyBus(now), acts);
    ExclusiveIff(now, acts);
    OwnersAreExclusive(Play(EmptyBus(now), acts).value);
  }

  // ---- who holds a lock ----

  /** This instance is between claim and settlement of the record. */
  ghost predicate AtWork(b: Bus, i: Instance, id: nat) {
    i in b.procs && Active(b.procs[i]).Some? && Active(b.procs[i]).value.0 == id
  }

  ghost predicate LockHeld(b: Bus, id: nat)
    requires id < |b.rows|
  {
    b.rows[id].lockedAt.Some? ==> exists i :: AtWork(b, i, id)
  }

  lemma LockStep(b: Bus, a: Act, id: nat)
    requires Wide(b) && Do(b, a).Some? && !a.Crash? && id < |Do(b, a).value.rows|
    requires id < |b.rows| ==> LockHeld(b, id)
    ensures LockHeld(Do(b, a).value, id)
  {
    var c := Do(b, a).value;
    if c.rows[id].lockedAt.Some? {
      if a.TryClaim? && AtWork(c, a.inst, id) {
      } else {
        var i :| AtWork(b, i, id);
        assert AtWork(c, i, id);
      }
    }
  }

  lemma {:induction false} LockRun(now: int, acts: seq<Act>)
    requires Play(EmptyBus(now), acts).Some? && forall n :: 0 <= n < |acts| ==> !acts[n].Crash?
    ensures var b := Play(EmptyBus(now), acts).value; forall id :: 0 <= id < |b.rows| ==> LockHeld(b, id)
  {
    if acts == [] {
    } else {
      var k := |acts| - 1;
      LockRun(now, acts[..k]);
      var b := Play(EmptyBus(now), acts[..k]).value;
      forall id | 0 <= id < |Do(b, acts[k]).value.rows|
        ensures LockHeld(Do(b, acts[k]).value, id)
      {
        LockStep(b, acts[k], id);
      }
    }
  }

  /**
   Without crashes and takeovers, a record bears a lock if and only if the instance named in
   it is at work on it, since the time it says: every settlement gives the lock back.
   */
  lemma LockLaw(now: int, acts: seq<Act>, id: nat, i: Instance)
    requires Play(EmptyBus(now), acts).Some? && TakeoverFree(EmptyBus(now), acts)
    requires forall n :: 0 <= n < |acts| ==> !acts[n].Crash?
    requires id < |Play(EmptyBus(now), acts).value.rows|
    ensures var b := Play(EmptyBus(now), acts).value;
            && (b.rows[id].lockedAt.Some? && b.rows[id].lockedBy == Some(i) <==> AtWork(b, i, id))
            && (AtWork(b, i, id) ==> b.rows[id].lockedAt == Some(Active(b.procs[i]).value.1))
            && (b.rows[id].lockedAt.Some? ==> b.rows[id].lockedBy.Some?)
  {
    LockRun(now, acts);
    ExclusiveIff(now, acts);
    var b := Play(EmptyBus(now), acts).value;
    assert AtWork(b, i, id) ==> Owns(b, i);
    if b.rows[id].lockedAt.Some? {
      assert LockHeld(b, id);
      var j :| AtWork(b, j, id);
      assert Owns(b, j);
    }
  }

  // ---- how often a record is sent ----

  /** The record this instance has sent and not settled yet. */
  ghost predicate SentBy(b: Bus, i: Instance, id: nat) {
    i in b.procs && (b.procs[i].Sent? || b.procs[i].Failing?) && b.procs[i].id == id
  }

  ghost predicate InFlight(b: Bus, id: nat) {
    exists i :: SentBy(b, i, id)
  }

  /** Every send but the one in flight has been settled. */
  ghost predicate SendsSound(b: Bus, id: nat)
    requires Wide(b) && id < |b.rows|
  {
    b.sends[id] ==
        b.rows[id].attempts + (if b.rows[id].publishedAt.Some? then 1 else 0) + (if InFlight(b, id) then 1 else 0)
  }

  lemma OwnersAreUnique(b: Bus, i: Instance, j: Instance)
    requires LeaseSound(b) && i in b.procs && j in b.procs && Active(b.procs[i]).Some? && Active(b.procs[j]).Some?
    requires Active(b.procs[i]).value.0 == Active(b.procs[j]).value.0
    ensures i == j
  {
    assert Owns(b, i) && Owns(b, j);
  }

  /** The instance that acts decides whether its record is in flight; for every other record nothing changes. */
  lemma FlightStep(b: Bus, a: Act, id: nat)
    requires LeaseSound(b) && Do(b, a).Some? && !a.Crash? && !a.Enqueue? && !a.Tick?
    ensures var own := Active(PhaseOf(b, a.inst)).Some? && Active(PhaseOf(b, a.inst)).value.0 == id;
            InFlight(Do(b, a).value, id) == (if own then SentBy(Do(b, a).value, a.inst, id) else InFlight(b, id))
  {
    var c := Do(b, a).value;
    forall i | i != a.inst
      ensures SentBy(c, i, id) == SentBy(b, i, id)
    {
    }
    if Active(PhaseOf(b, a.inst)).Some? && Active(PhaseOf(b, a.inst)).value.0 == id {
      forall i | SentBy(b, i, id)
        ensures i == a.inst
      {
        OwnersAreUnique(b, i, a.inst);
      }
    } else {
      assert !SentBy(b, a.inst, id) && !SentBy(c, a.inst, id);
    }
  }

  lemma SettledIsNotInFlight(b: Bus, id: nat)
    requires LeaseSound(b) && id < |b.rows| && InFlight(b, id)
    ensures !Settled(b.rows[id])
  {
    var i :| SentBy(b, i, id);
    assert Owns(b, i);
  }

  lemma SendsStep(b: Bus, a: Act, id: nat)
    requires LeaseSound(b) && Do(b, a).Some? && !a.Crash? && id < |Do(b, a).value.rows|
    requires id < |b.rows| ==> SendsSound(b, id)
    ensures SendsSound(Do(b, a).value, id)
  {
    var c := Do(b, a).value;
    if a.Enqueue? || a.Tick? {
      assert forall i :: SentBy(c, i, id) == SentBy(b, i, id);
      if InFlight(b, id) {
        var i :| SentBy(b, i, id);
        assert Owns(b, i) && SentBy(c, i, id);
      }
    } else {
      FlightStep(b, a, id);
      if a.inst in b.procs {
        assert Owns(b, a.inst);
        assert SentBy(b, a.inst, id) ==> InFlight(b, id);
      }
      if Active(PhaseOf(b, a.inst)).Some? && Active(PhaseOf(b, a.inst)).value.0 == id && InFlight(b, id) {
        var i :| SentBy(b, i, id);
        OwnersAreUnique(b, i, a.inst);
      }
    }
  }

  lemma {:induction false} SendsRun(now: int, acts: seq<Act>)
    requires Play(EmptyBus(now), acts).Some? && TakeoverFree(EmptyBus(now), acts)
    requires forall n :: 0 <= n < |acts| ==> !acts[n].Crash?
    ensures var b := Play(EmptyBus(now), acts).value;
            forall id :: 0 <= id < |b.rows| ==> SendsSound(b, id)
  {
    if acts == [] {
    } else {
      var n := |acts| - 1;
      SendsRun(now, acts[..n]);
      ExclusiveIff(now, acts[..n]);
      var b := Play(EmptyBus(now), acts[..n]).value;
      forall id | 0 <= id < |Do(b, acts[n]).value.rows|
        ensures SendsSound(Do(b, acts[n]).value, id)
      {
        SendsStep(b, acts[n], id);
      }
    }
  }

  /**
   Without crashes, and as long as nobody takes a record over, no record is sent more than
   ten times, however many instances there are.
   */
  lemma SendBoundLaw(now: int, acts: seq<Act>, id: nat)
    requires Play(EmptyBus(now), acts).Some? && TakeoverFree(EmptyBus(now), acts)
    requires forall n :: 0 <= n < |acts| ==> !acts[n].Crash?
    requires id < |Play(EmptyBus(now), acts).value.rows|
    ensures var b := Play(EmptyBus(now), acts).value;
            && b.sends[id] <= 10
            && (!InFlight(b, id) ==> b.sends[id] == |b.failures[id]| + (if b.rows[id].publishedAt.Some? then 1 else 0))
  {
    SendsRun(now, acts);
    ExclusiveIff(now, acts);
    var b := Play(EmptyBus(now), acts).value;
    assert SendsSound(b, id) && CountSound(b, id);
    if InFlight(b, id) {
      SettledIsNotInFlight(b, id);
    }
  }
}
