/**
 Retry times of the outbox with any number of publisher instances: exactly when each failure
 keeps its distance from the one before, and why a single instance always keeps it.
 */
module OutboxTiming {
  import opened Domain
  import opened OutboxRows
  import opened OutboxLease

  /** Each failure comes at least the due delay after the one before: 2 s, 4 s, …, 256 s, 300 s. */
  ghost predicate Spaced(f: seq<int>) {
    forall k :: 1 <= k < |f| ==> f[k] >= f[k - 1] + Delay(k)
  }

  ghost predicate AllSpaced(b: Bus)
    requires Wide(b)
  {
    forall id :: 0 <= id < |b.rows| ==> Spaced(b.failures[id])
  }

  /** The retry time is a back-off after the last failure. */
  ghost predicate Timed(b: Bus, id: nat)
    requires Wide(b) && id < |b.rows|
  {
    var r, f := b.rows[id], b.failures[id];
    && (|f| == 0 ==> r.nextAttemptAt <= b.now)
    && (1 <= |f| < 10 ==> r.nextAttemptAt == f[|f| - 1] + Delay(|f|))
  }

  ghost predicate AllTimed(b: Bus)
    requires Wide(b)
  {
    forall id :: 0 <= id < |b.rows| ==> Timed(b, id)
  }

  /** This act settles a failure before the retry time of its record. */
  ghost predicate TooEarly(b: Bus, a: Act) {
    && a.SettleFailed? && PhaseOf(b, a.inst).Failing?
    && var id := PhaseOf(b, a.inst).id; id < |b.rows| && b.now < b.rows[id].nextAttemptAt
  }

  /** This act claims a record before its retry time; the claim does not test that time again. */
  ghost predicate EarlyClaim(b: Bus, a: Act) {
    && a.TryClaim? && PhaseOf(b, a.inst).Batch?
    && var todo := PhaseOf(b, a.inst).todo;
       && todo != [] && todo[0] < |b.rows|
       && Claimable(b.rows[todo[0]], b.now) && b.now < b.rows[todo[0]].nextAttemptAt
  }

  ghost predicate Due(b: Bus, id: nat) {
    id < |b.rows| && b.rows[id].nextAttemptAt <= b.now
  }

  // ---- how failures are spaced, with any number of instances ----

  lemma TimedStep(b: Bus, a: Act)
    requires LeaseSound(b) && AllTimed(b) && Do(b, a).Some?
    ensures AllTimed(Do(b, a).value)
  {
    var c := Do(b, a).value;
    forall id | 0 <= id < |c.rows|
      ensures Timed(c, id)
    {
      if id < |b.rows| {
        assert Timed(b, id) && CountSound(b, id);
      }
      if !a.Enqueue? && !a.Tick? && a.inst in b.procs {
        assert Owns(b, a.inst);
      }
      if a.SettleFailed? {
        BackoffIsDelay(PhaseOf(b, a.inst).seen + 1);
      }
    }
  }

  lemma OneMoreFailure(f: seq<int>, now: int)
    ensures Spaced(f + [now]) <==> Spaced(f) && (|f| > 0 ==> now >= f[|f| - 1] + Delay(|f|))
  {
    var g := f + [now];
    assert forall k :: 0 <= k < |f| ==> g[k] == f[k];
    assert |f| > 0 && Spaced(g) ==> g[|f|] >= g[|f| - 1] + Delay(|f|);
  }

  /** A step keeps the failures spaced exactly if it does not settle one too early. */
  lemma SpacedStep(b: Bus, a: Act)
    requires LeaseSound(b) && AllTimed(b) && Do(b, a).Some?
    ensures AllSpaced(Do(b, a).value) <==> AllSpaced(b) && !TooEarly(b, a)
  {
    var c := Do(b, a).value;
    if a.SettleFailed? {
      var id := PhaseOf(b, a.inst).id;
      assert Owns(b, a.inst) && CountSound(b, id) && Timed(b, id);
      OneMoreFailure(b.failures[id], b.now);
      assert c.failures[id] == b.failures[id] + [b.now];
      assert forall i :: 0 <= i < |b.rows| && i != id ==> c.failures[i] == b.failures[i];
    } else if a.Enqueue? {
      assert forall i :: 0 <= i < |b.rows| ==> c.failures[i] == b.failures[i];
      assert c.failures[|b.rows|] == [];
    } else {
      assert c.failures == b.failures;
    }
  }

  /**
   As long as nobody takes a record over, the failures of every record are spaced by its
   back-off if and only if no failure is settled before the retry time.
   */
  lemma {:induction false} SpacedIff(now: int, acts: seq<Act>)
    requires Play(EmptyBus(now), acts).Some? && TakeoverFree(EmptyBus(now), acts)
    ensures AllTimed(Play(EmptyBus(now), acts).value)
    ensures AllSpaced(Play(EmptyBus(now), acts).value) <==> Never(EmptyBus(now), acts, TooEarly)
  {
    if acts == [] {
    } else {
      var k := |acts| - 1;
      SpacedIff(now, acts[..k]);
      ExclusiveIff(now, acts[..k]);
      TimedStep(Play(EmptyBus(now), acts[..k]).value, acts[k]);
      SpacedStep(Play(EmptyBus(now), acts[..k]).value, acts[k]);
    }
  }

  // ---- punctual claims ----

  ghost predicate ActivesDue(b: Bus) {
    forall i :: i in b.procs && Active(b.procs[i]).Some? ==> Due(b, Active(b.procs[i]).value.0)
  }

  lemma DueStep(b: Bus, a: Act)
    requires LeaseSound(b) && ActivesDue(b) && Do(b, a).Some? && !Takeover(b, a) && !EarlyClaim(b, a)
    ensures ActivesDue(Do(b, a).value) && !TooEarly(b, a)
  {
    var c := Do(b, a).value;
    forall i | i in c.procs && Active(c.procs[i]).Some?
      ensures Due(c, Active(c.procs[i]).value.0)
    {
      if a.SettleFailed? {
        OwnersAreExclusive(b);
      }
    }
  }

  lemma {:induction false} PunctualRun(now: int, acts: seq<Act>)
    requires Play(EmptyBus(now), acts).Some?
    requires TakeoverFree(EmptyBus(now), acts) && Never(EmptyBus(now), acts, EarlyClaim)
    ensures ActivesDue(Play(EmptyBus(now), acts).value) && Never(EmptyBus(now), acts, TooEarly)
  {
    if acts == [] {
    } else {
      var k := |acts| - 1;
      PunctualRun(now, acts[..k]);
      ExclusiveIff(now, acts[..k]);
      DueStep(Play(EmptyBus(now), acts[..k]).value, acts[k]);
    }
  }

  lemma {:induction false} SpacedSpan(f: seq<int>)
    requires Spaced(f) && |f| > 0
    ensures f[|f| - 1] - f[0] >= BackoffSum(|f| - 1)
  {
    if |f| == 1 {
    } else {
      SpacedSpan(f[..|f| - 1]);
      BackoffIsDelay(|f| - 1);
    }
  }

  /**
   With any number of instances, if every claim comes at or after the retry time of its
   record and nobody takes a record over, failure a + 1 comes at least min(300 s, 2^a s)
   after failure a, so no record is dead-lettered sooner than 810 seconds after it first failed.
   */
  lemma PunctualLaw(now: int, acts: seq<Act>, id: nat)
    requires Play(EmptyBus(now), acts).Some? && id < |Play(EmptyBus(now), acts).value.rows|
    requires TakeoverFree(EmptyBus(now), acts) && Never(EmptyBus(now), acts, EarlyClaim)
    ensures var b := Play(EmptyBus(now), acts).value;
            && Spaced(b.failures[id]) && Timed(b, id)
            && (b.rows[id].deadLetteredAt.Some? ==>
                  |b.failures[id]| == 10 && b.failures[id][9] - b.failures[id][0] >= 810_000)
  {
    PunctualRun(now, acts);
    SpacedIff(now, acts);
    ExclusiveIff(now, acts);
    var b := Play(EmptyBus(now), acts).value;
    assert CountSound(b, id) && Timed(b, id);
    if b.rows[id].deadLetteredAt.Some? {
      SpacedSpan(b.failures[id]);
      NineBackoffs();
    }
  }

  // ---- where an early claim comes from ----

  /** Since instance `i` last polled in this run, another one has settled the record as failed. */
  ghost predicate FailedSincePoll(b: Bus, acts: seq<Act>, i: Instance, id: nat)
    requires Wide(b)
  {
    if acts == [] then false
    else
      var k := |acts| - 1;
      var v := Play(b, acts[..k]);
      && !(acts[k].Poll? && acts[k].inst == i)
      && (FailedSincePoll(b, acts[..k], i, id)
          || (v.Some? && acts[k].SettleFailed? && acts[k].inst != i
              && PhaseOf(v.value, acts[k].inst).Failing? && PhaseOf(v.value, acts[k].inst).id == id))
  }

  ghost function TodoOf(phase: Phase): seq<nat> {
    phase.todo
  }

  /** What an instance has still to do is distinct from what it is at. */
  ghost predicate Orderly(phase: Phase) {
    && Distinct(TodoOf(phase))
    && (Active(phase).Some? ==> Active(phase).value.0 !in TodoOf(phase))
  }

  lemma OrderlyStep(b: Bus, a: Act, i: Instance)
    requires Wide(b) && Orderly(PhaseOf(b, i)) && Do(b, a).Some?
    ensures Orderly(PhaseOf(Do(b, a).value, i))
  {
  }

  lemma {:induction false} OrderlyRun(now: int, acts: seq<Act>, i: Instance)
    requires Play(EmptyBus(now), acts).Some?
    ensures Orderly(PhaseOf(Play(EmptyBus(now), acts).value, i))
  {
    if acts == [] {
    } else {
      OrderlyRun(now, acts[..|acts| - 1], i);
      OrderlyStep(Play(EmptyBus(now), acts[..|acts| - 1]).value, acts[|acts| - 1], i);
    }
  }

  /** A step moves the retry time of a record in a batch only by another instance's failed settlement. */
  lemma TodoStep(b: Bus, a: Act, i: Instance, id: nat)
    requires Wide(b) && Orderly(PhaseOf(b, i)) && Do(b, a).Some? && id in TodoOf(PhaseOf(Do(b, a).value, i))
    ensures if a.Poll? && a.inst == i then Due(Do(b, a).value, id)
            else
              && id in TodoOf(PhaseOf(b, i))
              && (Due(b, id) ==>
                    || Due(Do(b, a).value, id)
                    || (a.SettleFailed? && a.inst != i && PhaseOf(b, a.inst).Failing? && PhaseOf(b, a.inst).id == id))
  {
  }

  lemma {:induction false} TodoRun(now: int, acts: seq<Act>, i: Instance, id: nat)
    requires Play(EmptyBus(now), acts).Some? && id in TodoOf(PhaseOf(Play(EmptyBus(now), acts).value, i))
    ensures Due(Play(EmptyBus(now), acts).value, id) || FailedSincePoll(EmptyBus(now), acts, i, id)
  {
    if acts == [] {
    } else {
      var k := |acts| - 1;
      var b := Play(EmptyBus(now), acts[..k]).value;
      OrderlyRun(now, acts[..k], i);
      TodoStep(b, acts[k], i, id);
      if !(acts[k].Poll? && acts[k].inst == i) {
        TodoRun(now, acts[..k], i, id);
      }
    }
  }

  /**
   The exact condition of an early claim, while nobody takes a record over: the record is
   claimable, another instance has settled it as failed since this one polled, and less than
   the back-off has passed since its last failure.
   */
  lemma EarlyClaimIff(now: int, acts: seq<Act>, i: Instance, id: nat, rest: seq<nat>)
    requires Play(EmptyBus(now), acts).Some? && TakeoverFree(EmptyBus(now), acts)
    requires PhaseOf(Play(EmptyBus(now), acts).value, i) == Batch([id] + rest)
    requires id < |Play(EmptyBus(now), acts).value.rows|
    ensures var b := Play(EmptyBus(now), acts).value;
            var f := b.failures[id];
            EarlyClaim(b, TryClaim(i)) <==>
              && Claimable(b.rows[id], b.now)
              && FailedSincePoll(EmptyBus(now), acts, i, id)
              && |f| > 0 && b.now < f[|f| - 1] + Delay(|f|)
  {
    var b := Play(EmptyBus(now), acts).value;
    var r, f := b.rows[id], b.failures[id];
    SpacedIff(now, acts);
    ExclusiveIff(now, acts);
    assert PhaseOf(b, i).todo[0] == id;
    TodoRun(now, acts, i, id);
    if !Settled(r) {
      assert CountSound(b, id) && Timed(b, id);
      EarlyByTimes(b, id);
    }
    assert EarlyClaim(b, TryClaim(i)) <==> Claimable(r, b.now) && b.now < r.nextAttemptAt;
  }

  lemma EarlyByTimes(b: Bus, id: nat)
    requires Wide(b) && id < |b.rows| && CountSound(b, id) && Timed(b, id) && !Settled(b.rows[id])
    ensures var f := b.failures[id];
            b.now < b.rows[id].nextAttemptAt <==> |f| > 0 && b.now < f[|f| - 1] + Delay(|f|)
  {
  }

  // ---- a run in which the back-off is lost ----

  /** Instance `j` claims the record at the head of its batch, fails to send it and settles that. */
  function Retry(j: Instance): seq<Act> {
    [] + [TryClaim(j)] + [Load(j)] + [Send(j, false)] + [SettleFailed(j)]
  }

  lemma ClaimsAndReads(b: Bus, j: Instance, id: nat, rest: seq<nat>)
    requires Wide(b) && id < |b.rows| && Claimable(b.rows[id], b.now) && PhaseOf(b, j) == Batch([id] + rest)
    ensures Play(b, [] + [TryClaim(j)] + [Load(j)]).Some?
    ensures var c := Play(b, [] + [TryClaim(j)] + [Load(j)]).value;
            && |c.rows| == |b.rows| && c.failures == b.failures && c.now == b.now
            && PhaseOf(c, j) == Loaded(id, b.now, b.rows[id].attempts, rest)
  {
    assert ([id] + rest)[1..] == rest;
    PlayMore(b, [], TryClaim(j));
    PlayMore(b, [] + [TryClaim(j)], Load(j));
  }

  lemma SendsInVain(c: Bus, j: Instance, id: nat, seen: nat, rest: seq<nat>)
    requires Wide(c) && id < |c.rows| && PhaseOf(c, j) == Loaded(id, c.now, seen, rest)
    ensures Do(c, Send(j, false)).Some?
    ensures var d := Do(c, Send(j, false)).value;
            && d.rows == c.rows && d.failures == c.failures && d.now == c.now
            && PhaseOf(d, j) == Failing(id, c.now, seen, rest)
  {
  }

  lemma SettlesFailure(d: Bus, j: Instance, id: nat, since: int, seen: nat, rest: seq<nat>)
    requires Wide(d) && id < |d.rows| && PhaseOf(d, j) == Failing(id, since, seen, rest)
    ensures Do(d, SettleFailed(j)).Some?
    ensures var e := Do(d, SettleFailed(j)).value;
            |e.rows| == |d.rows| && e.failures == d.failures[id := d.failures[id] + [d.now]]
  {
  }

  lemma FailsAtOnce(b: Bus, acts: seq<Act>, c: Bus, j: Instance, id: nat, seen: nat, rest: seq<nat>)
    requires Wide(b) && Play(b, acts) == Some(c) && id < |c.rows| && PhaseOf(c, j) == Loaded(id, c.now, seen, rest)
    ensures Play(b, acts + [Send(j, false)] + [SettleFailed(j)]).Some?
    ensures var d := Play(b, acts + [Send(j, false)] + [SettleFailed(j)]).value;
            |d.rows| == |c.rows| && d.failures == c.failures[id := c.failures[id] + [c.now]]
  {
    SendsInVain(c, j, id, seen, rest);
    SettlesFailure(Do(c, Send(j, false)).value, j, id, c.now, seen, rest);
    PlayMore(b, acts, Send(j, false));
    PlayMore(b, acts + [Send(j, false)], SettleFailed(j));
  }

  /**
   The claim does not test the retry time, so the back-off is lost as soon as a second
   instance still has the record in its batch: the moment the first one settles a failure,
   the second retries, and both failures bear the same time.
   */
  lemma StaleBatchRetriesAtOnce(
    b: Bus, i: Instance, j: Instance, id: nat, since: int, seen: nat, todo: seq<nat>, rest: seq<nat>)
    requires Wide(b) && id < |b.rows| && !Settled(b.rows[id]) && i != j
    requires PhaseOf(b, i) == Failing(id, since, seen, todo) && seen + 1 < 10
    requires PhaseOf(b, j) == Batch([id] + rest)
    ensures Play(b, [SettleFailed(i)] + Retry(j)).Some?
    ensures var c := Play(b, [SettleFailed(i)] + Retry(j)).value;
            && |c.rows| == |b.rows| && c.failures == b.failures[id := b.failures[id] + [b.now, b.now]]
            && !Spaced(c.failures[id])
  {
    PlayMore(b, [], SettleFailed(i));
    assert [] + [SettleFailed(i)] == [SettleFailed(i)];
    var failed := Do(b, SettleFailed(i)).value;
    ClaimsAndReads(failed, j, id, rest);
    var acts := [] + [TryClaim(j)] + [Load(j)];
    FailsAtOnce(failed, acts, Play(failed, acts).value, j, id, failed.rows[id].attempts, rest);
    PlayOn(b, [SettleFailed(i)], Retry(j));
    TwiceAtOnce(b.failures, id, b.now);
  }

  lemma TwiceAtOnce(failures: seq<seq<int>>, id: nat, now: int)
    requires id < |failures|
    ensures var once := failures[id := failures[id] + [now]];
            once[id := once[id] + [now]] == failures[id := failures[id] + [now, now]]
    ensures !Spaced(failures[id] + [now, now])
  {
    assert failures[id] + [now] + [now] == failures[id] + [now, now];
    OneMoreFailure(failures[id] + [now], now);
  }

  /** Both instances poll the one record; the first claims it, reads it and fails to send it. */
  function BothPoll(): seq<Act> {
    [] + [Enqueue] + [Poll(1, [0])] + [Poll(2, [0])] + [TryClaim(1)] + [Load(1)] + [Send(1, false)]
  }

  lemma BothPolled(now: int)
    ensures Play(EmptyBus(now), BothPoll()).Some?
    ensures var b := Play(EmptyBus(now), BothPoll()).value;
            && b.now == now && |b.rows| == 1 && !Settled(b.rows[0]) && b.failures == [[]]
            && 1 in b.procs && b.procs[1] == Failing(0, now, 0, [])
            && 2 in b.procs && b.procs[2] == Batch([0] + [])
  {
    var a1 := [] + [Enqueue];
    var a2 := a1 + [Poll(1, [0])];
    var a3 := a2 + [Poll(2, [0])];
    var a4 := a3 + [TryClaim(1)];
    PlayMore(EmptyBus(now), [], Enqueue);
    PlayMore(EmptyBus(now), a1, Poll(1, [0]));
    PlayMore(EmptyBus(now), a2, Poll(2, [0]));
    PlayMore(EmptyBus(now), a3, TryClaim(1));
    PlayMore(EmptyBus(now), a4, Load(1));
    PlayMore(EmptyBus(now), a4 + [Load(1)], Send(1, false));
    assert [0][1..] == [] && [0] + [] == [0];
  }

  /** A run of two instances in which one record fails twice at the same moment. */
  lemma BackoffLost(now: int)
    ensures var end := Play(EmptyBus(now), BothPoll() + ([SettleFailed(1)] + Retry(2)));
            end.Some? && end.value.failures == [[now, now]] && !AllSpaced(end.value)
  {
    BothPolled(now);
    StaleBatchRetriesAtOnce(Play(EmptyBus(now), BothPoll()).value, 1, 2, 0, now, 0, [], []);
    PlayOn(EmptyBus(now), BothPoll(), [SettleFailed(1)] + Retry(2));
    assert [] + [now, now] == [now, now];
  }

  // ---- one instance ----

  /** Every act of a publisher is one of this instance. */
  ghost predicate OnlyBy(acts: seq<Act>, i: Instance) {
    forall n :: 0 <= n < |acts| ==> acts[n].Enqueue? || acts[n].Tick? || acts[n].inst == i
  }

  /** Nobody else is there, and what the instance has polled stays due until it settles it itself. */
  ghost predicate SoleSound(b: Bus, i: Instance) {
    && Wide(b)
    && (forall j :: j in b.procs ==> j == i)
    && Orderly(PhaseOf(b, i))
    && (forall k :: 0 <= k < |TodoOf(PhaseOf(b, i))| ==> Due(b, TodoOf(PhaseOf(b, i))[k]))
  }

  lemma SoleStep(b: Bus, a: Act, i: Instance)
    requires SoleSound(b, i) && Do(b, a).Some? && (a.Enqueue? || a.Tick? || a.inst == i)
    ensures SoleSound(Do(b, a).value, i) && !Takeover(b, a) && !EarlyClaim(b, a)
  {
    var c := Do(b, a).value;
    OrderlyStep(b, a, i);
    if !a.Poll? && !a.Crash? {
      assert forall k :: 0 <= k < |TodoOf(PhaseOf(c, i))| ==> TodoOf(PhaseOf(c, i))[k] in TodoOf(PhaseOf(b, i));
    }
  }

  lemma {:induction false} SoleRun(now: int, acts: seq<Act>, i: Instance)
    requires Play(EmptyBus(now), acts).Some? && OnlyBy(acts, i)
    ensures SoleSound(Play(EmptyBus(now), acts).value, i)
    ensures TakeoverFree(EmptyBus(now), acts) && Never(EmptyBus(now), acts, EarlyClaim)
  {
    if acts == [] {
    } else {
      var k := |acts| - 1;
      SoleRun(now, acts[..k], i);
      SoleStep(Play(EmptyBus(now), acts[..k]).value, acts[k], i);
    }
  }

  /**
   With a single publisher instance, crashes included, failure a + 1 of a record comes at
   least min(300 s, 2^a s) after failure a, so a record is never dead-lettered sooner than
   810 seconds after it first failed.
   */
  lemma BackoffLaw(now: int, acts: seq<Act>, i: Instance, id: nat)
    requires Play(EmptyBus(now), acts).Some? && OnlyBy(acts, i)
    requires id < |Play(EmptyBus(now), acts).value.rows|
    ensures var b := Play(EmptyBus(now), acts).value;
            && Spaced(b.failures[id]) && Timed(b, id)
            && (b.rows[id].deadLetteredAt.Some? ==>
                  |b.failures[id]| == 10 && b.failures[id][9] - b.failures[id][0] >= 810_000)
  {
    SoleRun(now, acts, i);
    PunctualLaw(now, acts, id);
  }
}
