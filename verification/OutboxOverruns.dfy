/**
 What a publisher that outlives its lease can do to a record, and exactly when it does.
 */
module OutboxOverruns {
  import opened Domain
  import opened OutboxRows
  import opened OutboxLease

  ghost predicate BothMarks(b: Bus, id: nat) {
    id < |b.rows| && b.rows[id].publishedAt.Some? && b.rows[id].deadLetteredAt.Some?
  }

  // ---- what each kind of late settlement breaks, over whole runs ----

  /** This act settles a failure of this record. */
  ghost predicate Fails(b: Bus, a: Act, id: nat) {
    a.SettleFailed? && PhaseOf(b, a.inst).Failing? && PhaseOf(b, a.inst).id == id && id < |b.rows|
  }

  ghost predicate CountsTrue(b: Bus) {
    Wide(b) && forall id :: 0 <= id < |b.rows| ==> b.rows[id].attempts == |b.failures[id]|
  }

  /** A failure is settled although the record's count has changed since it was read. */
  ghost predicate LateCount(b: Bus, a: Act) {
    exists id: nat :: Fails(b, a, id) && PhaseOf(b, a.inst).seen != b.rows[id].attempts
  }

  /** In any run, `attempts` counts the failed settlements if and only if none settles a count that has changed. */
  lemma CountsTrueIff(now: int, acts: seq<Act>)
    requires Play(EmptyBus(now), acts).Some?
    ensures Always(EmptyBus(now), acts, CountsTrue) <==> Never(EmptyBus(now), acts, LateCount)
  {
    forall v, a | Wide(v) && CountsTrue(v) && Do(v, a).Some?
      ensures if LateCount(v, a) then !CountsTrue(Do(v, a).value) else CountsTrue(Do(v, a).value)
    {
      CountsStep(v, a);
    }
    AlwaysIffNever(EmptyBus(now), acts, CountsTrue, CountsTrue, LateCount);
  }

  lemma CountsStep(b: Bus, a: Act)
    requires CountsTrue(b) && Do(b, a).Some?
    ensures CountsTrue(Do(b, a).value) <==> !LateCount(b, a)
  {
    var c := Do(b, a).value;
    if a.SettleFailed? {
      var id := PhaseOf(b, a.inst).id;
      assert Fails(b, a, id);
      assert c.failures[id] == b.failures[id] + [b.now];
    }
  }

  ghost predicate DeadAtTen(b: Bus) {
    && Wide(b)
    && forall id :: 0 <= id < |b.rows| ==>
         b.rows[id].attempts <= 10
             && (b.rows[id].deadLetteredAt.Some? <==> b.rows[id].attempts == 10)
  }

  /** A failure is settled that was counted from ten, or from less than nine on a record already dead-lettered. */
  ghost predicate LateDeath(b: Bus, a: Act) {
    exists id: nat :: Fails(b, a, id) &&
      var attempts := PhaseOf(b, a.inst).seen + 1;
      attempts > 10 || (b.rows[id].deadLetteredAt.Some? && attempts < 10)
  }

  /**
   In any run, records are dead-lettered exactly at ten attempts, never more, if and only if no
   such settlement occurs.
   */
  lemma DeadAtTenIff(now: int, acts: seq<Act>)
    requires Play(EmptyBus(now), acts).Some?
    ensures Always(EmptyBus(now), acts, DeadAtTen) <==> Never(EmptyBus(now), acts, LateDeath)
  {
    forall v, a | Wide(v) && DeadAtTen(v) && Do(v, a).Some?
      ensures if LateDeath(v, a) then !DeadAtTen(Do(v, a).value) else DeadAtTen(Do(v, a).value)
    {
      DeathStep(v, a);
    }
    AlwaysIffNever(EmptyBus(now), acts, DeadAtTen, DeadAtTen, LateDeath);
  }

  lemma DeathStep(b: Bus, a: Act)
    requires DeadAtTen(b) && Do(b, a).Some?
    ensures DeadAtTen(Do(b, a).value) <==> !LateDeath(b, a)
  {
    var c := Do(b, a).value;
    if a.SettleFailed? {
      var id := PhaseOf(b, a.inst).id;
      assert Fails(b, a, id);
      assert forall i :: 0 <= i < |c.rows| && i != id ==> c.rows[i] == b.rows[i];
      assert c.rows[id] == MarkFailed(b.rows[id], PhaseOf(b, a.inst).seen, b.now);
    } else {
      assert forall i :: 0 <= i < |b.rows| ==>
          c.rows[i].attempts == b.rows[i].attempts && c.rows[i].deadLetteredAt == b.rows[i].deadLetteredAt;
    }
  }

  // ---- the second mark ----

  /** The instance has claimed the record and read it. */
  ghost predicate HasRead(b: Bus, i: Instance, id: nat) {
    i in b.procs && (b.procs[i].Loaded? || b.procs[i].Sent? || b.procs[i].Failing?) && b.procs[i].id == id
  }

  ghost predicate HasClaimed(b: Bus, i: Instance, id: nat) {
    i in b.procs && b.procs[i].Claimed? && b.procs[i].id == id
  }

  /** The instances that have claimed the record and not read it yet. */
  ghost function Claimers(b: Bus, id: nat): set<Instance> {
    set i | i in b.procs && HasClaimed(b, i, id)
  }

  /**
   The late failures in flight can still add up to ten: each instance that has yet to read the
   count can raise it by one, starting from the count or from what another one will write.
   */
  ghost predicate CanFailOut(b: Bus, id: nat)
    requires id < |b.rows|
  {
    || b.rows[id].attempts + |Claimers(b, id)| >= 10
    || exists i :: HasRead(b, i, id) && b.procs[i].seen + 1 + |Claimers(b, id)| >= 10
  }

  /** An instance in flight can still have the record accepted by the broker. */
  ghost predicate CanBePublished(b: Bus, id: nat) {
    exists i :: (HasClaimed(b, i, id) || HasRead(b, i, id)) && !b.procs[i].Failing?
  }

  ghost predicate SecondMarkAhead(b: Bus, id: nat)
    requires id < |b.rows|
  {
    if b.rows[id].publishedAt.Some? then CanFailOut(b, id) else CanBePublished(b, id)
  }

  ghost predicate EndsWithBoth(b: Bus, more: seq<Act>, id: nat)
    requires Wide(b)
  {
    Play(b, more).Some? && BothMarks(Play(b, more).value, id)
  }

  // Without such instances the single mark is final.

  ghost predicate Final(b: Bus, id: nat) {
    id < |b.rows| && Settled(b.rows[id]) && !BothMarks(b, id) && !SecondMarkAhead(b, id)
  }

  lemma FewerClaimers(b: Bus, a: Act, id: nat)
    requires Wide(b) && Do(b, a).Some? && id < |b.rows| && Settled(b.rows[id])
    ensures Claimers(Do(b, a).value, id) <= Claimers(b, id)
    ensures |Claimers(Do(b, a).value, id)| <= |Claimers(b, id)|
    ensures a.Load? && HasClaimed(b, a.inst, id) ==> |Claimers(Do(b, a).value, id)| + 1 == |Claimers(b, id)|
  {
    var c := Do(b, a).value;
    Subset(Claimers(c, id), Claimers(b, id));
    if a.Load? && HasClaimed(b, a.inst, id) {
      assert Claimers(c, id) == Claimers(b, id) - {a.inst};
    }
  }

  lemma Subset(x: set<Instance>, y: set<Instance>)
    requires x <= y
    ensures |x| <= |y|
  {
    assert y == x + (y - x);
  }

  lemma FinalStep(b: Bus, a: Act, id: nat)
    requires Wide(b) && Final(b, id) && Do(b, a).Some?
    ensures Final(Do(b, a).value, id)
  {
    var c := Do(b, a).value;
    FewerClaimers(b, a, id);
    if b.rows[id].publishedAt.Some? {
      forall i | HasRead(c, i, id)
        ensures c.procs[i].seen + 1 + |Claimers(c, id)| < 10
      {
        assert HasRead(b, i, id) || HasClaimed(b, i, id);
      }
      assert Fails(b, a, id) ==> HasRead(b, a.inst, id);
    } else {
      forall i | HasClaimed(c, i, id) || HasRead(c, i, id)
        ensures c.procs[i].Failing?
      {
        assert HasRead(b, i, id) || HasClaimed(b, i, id);
      }
    }
  }

  lemma {:induction false} FinalRun(b: Bus, more: seq<Act>, id: nat)
    requires Wide(b) && Final(b, id) && Play(b, more).Some?
    ensures Final(Play(b, more).value, id)
  {
    if more == [] {
    } else {
      FinalRun(b, more[..|more| - 1], id);
      FinalStep(Play(b, more[..|more| - 1]).value, more[|more| - 1], id);
    }
  }

  // With them it is not: they act one after the other.

  lemma OneMoreAct(b: Bus, a: Act, id: nat)
    requires Wide(b) && Do(b, a).Some? && exists more :: EndsWithBoth(Do(b, a).value, more, id)
    ensures exists more :: EndsWithBoth(b, more, id)
  {
    var c := Do(b, a).value;
    var more :| EndsWithBoth(c, more, id);
    PlayMore(b, [], a);
    assert [] + [a] == [a];
    PlayOn(b, [a], more);
    assert EndsWithBoth(b, [a] + more, id);
  }

  lemma NoMoreActs(b: Bus, id: nat)
    requires Wide(b) && BothMarks(b, id)
    ensures exists more :: EndsWithBoth(b, more, id)
  {
    assert EndsWithBoth(b, [], id);
  }

  lemma {:induction false} SentIsPublished(b: Bus, i: Instance, id: nat)
    requires Wide(b) && id < |b.rows| && b.rows[id].deadLetteredAt.Some?
    requires (HasClaimed(b, i, id) || HasRead(b, i, id)) && !b.procs[i].Failing?
    ensures exists more :: EndsWithBoth(b, more, id)
    decreases if b.procs[i].Claimed? then 2 else if b.procs[i].Loaded? then 1 else 0
  {
    var a := if b.procs[i].Claimed? then Load(i) else if b.procs[i].Loaded? then Send(i, true) else SettlePublished(i);
    var c := Do(b, a).value;
    if a.SettlePublished? {
      NoMoreActs(c, id);
    } else {
      SentIsPublished(c, i, id);
    }
    OneMoreAct(b, a, id);
  }

  /** The reader settles as failed, whatever has become of its send. */
  lemma {:induction false} ReaderFails(b: Bus, i: Instance, id: nat)
    requires Wide(b) && id < |b.rows| && b.rows[id].publishedAt.Some? && HasRead(b, i, id)
    requires b.procs[i].seen + 1 + |Claimers(b, id)| >= 10
    ensures exists more :: EndsWithBoth(b, more, id)
    decreases |Claimers(b, id)|, 1, if b.procs[i].Failing? then 0 else 1
  {
    var a := if b.procs[i].Loaded? then Send(i, false) else if b.procs[i].Sent? then LoseUpdate(i) else SettleFailed(i);
    var c := Do(b, a).value;
    assert Claimers(c, id) == Claimers(b, id);
    if a.SettleFailed? {
      if c.rows[id].deadLetteredAt.Some? {
        NoMoreActs(c, id);
      } else {
        ClaimersFail(c, id);
      }
    } else {
      ReaderFails(c, i, id);
    }
    OneMoreAct(b, a, id);
  }

  /** The next claimer reads the count as it is. */
  lemma {:induction false} ClaimersFail(b: Bus, id: nat)
    requires Wide(b) && id < |b.rows| && b.rows[id].publishedAt.Some?
    requires b.rows[id].attempts < 10 <= b.rows[id].attempts + |Claimers(b, id)|
    ensures exists more :: EndsWithBoth(b, more, id)
    decreases |Claimers(b, id)|, 0, 0
  {
    var i :| i in Claimers(b, id);
    var c := Do(b, Load(i)).value;
    FewerClaimers(b, Load(i), id);
    ReaderFails(c, i, id);
    OneMoreAct(b, Load(i), id);
  }

  /**
   From any reachable state, a record that bears one mark can get the other in some
   continuation if and only if enough late publishers are still in flight: for a
   dead-lettered record, one that may yet succeed; for a published one, so many that their
   counts add up to ten. Nothing else matters, since a settled record is never claimed again.
   */
  lemma BothMarksIff(now: int, acts: seq<Act>, id: nat)
    requires Play(EmptyBus(now), acts).Some? && id < |Play(EmptyBus(now), acts).value.rows|
    requires var b := Play(EmptyBus(now), acts).value; Settled(b.rows[id]) && !BothMarks(b, id)
    ensures var b := Play(EmptyBus(now), acts).value;
            (exists more :: EndsWithBoth(b, more, id)) <==> SecondMarkAhead(b, id)
  {
    SoundRun(EmptyBus(now), acts);
    var b := Play(EmptyBus(now), acts).value;
    assert RecordSound(b, id);
    if !SecondMarkAhead(b, id) {
      forall more | Play(b, more).Some?
        ensures !EndsWithBoth(b, more, id)
      {
        FinalRun(b, more, id);
      }
    } else if b.rows[id].deadLetteredAt.Some? {
      var i :| (HasClaimed(b, i, id) || HasRead(b, i, id)) && !b.procs[i].Failing?;
      SentIsPublished(b, i, id);
    } else if b.rows[id].attempts + |Claimers(b, id)| >= 10 {
      ClaimersFail(b, id);
    } else {
      var i :| HasRead(b, i, id) && b.procs[i].seen + 1 + |Claimers(b, id)| >= 10;
      ReaderFails(b, i, id);
    }
  }

  // ---- runs in which it happens ----

  /** One unsettled record that failed `n` times, and two instances at these points. */
  ghost predicate Stage(b: Bus, n: nat, one: Phase, two: Phase) {
    && Wide(b) && |b.rows| == 1 && b.rows[0].attempts == n && !Settled(b.rows[0])
    && 1 in b.procs && b.procs[1] == one && 2 in b.procs && b.procs[2] == two
  }

  ghost predicate Resting(b: Bus, n: nat) {
    && Stage(b, n, Batch([]), Batch([]))
    && b.rows[0].lockedAt.None? && b.rows[0].nextAttemptAt <= b.now + 300_000
  }

  /** The first instance has just read the record it claimed. */
  ghost predicate Holding(b: Bus, n: nat) {
    && Stage(b, n, Loaded(0, b.now, n, []), Batch([]))
    && b.rows[0].lockedAt == Some(b.now) && b.rows[0].nextAttemptAt <= b.now
  }

  /** Instance `i` polls the record, claims it and reads it. */
  function PickUp(i: Instance, wait: nat): seq<Act> {
    [] + [Tick(wait)] + [Poll(i, [0])] + [TryClaim(i)] + [Load(i)]
  }

  lemma PicksUp(b: Bus, i: Instance, wait: nat)
    requires Wide(b) && |b.rows| == 1 && PhaseOf(b, i) == Batch([]) && Ready(b.rows[0], b.now + wait)
    ensures Play(b, PickUp(i, wait)).Some?
    ensures var c := Play(b, PickUp(i, wait)).value;
            && c.now == b.now + wait && |c.rows| == 1 && c.rows[0] == Claim(b.rows[0], i, c.now)
                && c.failures == b.failures
            && i in c.procs && c.procs[i] == Loaded(0, c.now, b.rows[0].attempts, [])
            && (forall j :: j in b.procs && j != i ==> j in c.procs && c.procs[j] == b.procs[j])
  {
    PlayMore(b, [], Tick(wait));
    PlayMore(b, [] + [Tick(wait)], Poll(i, [0]));
    PlayMore(b, [] + [Tick(wait)] + [Poll(i, [0])], TryClaim(i));
    PlayMore(b, [] + [Tick(wait)] + [Poll(i, [0])] + [TryClaim(i)], Load(i));
  }

  lemma FailsOnce(b: Bus, n: nat)
    requires Resting(b, n) && n + 1 < 10
    ensures var end := Play(b, PickUp(1, 300_000) + [Send(1, false)] + [SettleFailed(1)]);
            end.Some? && Resting(end.value, n + 1)
  {
    PicksUp(b, 1, 300_000);
    PlayMore(b, PickUp(1, 300_000), Send(1, false));
    PlayMore(b, PickUp(1, 300_000) + [Send(1, false)], SettleFailed(1));
    BackoffBounds(n + 1);
  }

  function Start(): seq<Act> {
    [] + [Enqueue] + [Crash(1)] + [Crash(2)]
  }

  lemma Starts(now: int)
    ensures Play(EmptyBus(now), Start()).Some? && Resting(Play(EmptyBus(now), Start()).value, 0)
    ensures Play(EmptyBus(now), Start()).value.failures == [[]]
  {
    PlayMore(EmptyBus(now), [], Enqueue);
    PlayMore(EmptyBus(now), [] + [Enqueue], Crash(1));
    PlayMore(EmptyBus(now), [] + [Enqueue] + [Crash(1)], Crash(2));
  }

  /** The run in which the only record fails `n` times. */
  function FailRun(n: nat): seq<Act> {
    if n == 0 then Start() else FailRun(n - 1) + (PickUp(1, 300_000) + [Send(1, false)] + [SettleFailed(1)])
  }

  lemma {:induction false} FailsOften(now: int, n: nat)
    requires n < 10
    ensures Play(EmptyBus(now), FailRun(n)).Some? && Resting(Play(EmptyBus(now), FailRun(n)).value, n)
  {
    if n == 0 {
      Starts(now);
    } else {
      FailsOften(now, n - 1);
      FailsOnce(Play(EmptyBus(now), FailRun(n - 1)).value, n - 1);
      PlayOn(EmptyBus(now), FailRun(n - 1), PickUp(1, 300_000) + [Send(1, false)] + [SettleFailed(1)]);
    }
  }

  /** Instance 2 sends and settles, then so does instance 1. */
  function SettleBoth(): seq<Act> {
    [] + [Send(2, true)] + [SettlePublished(2)] + [Send(1, false)] + [SettleFailed(1)]
  }

  lemma SettlesBoth(b: Bus, since: int, later: int)
    requires Stage(b, 9, Loaded(0, since, 9, []), Loaded(0, later, 9, []))
    ensures Play(b, SettleBoth()).Some? && BothMarks(Play(b, SettleBoth()).value, 0)
  {
    PlayMore(b, [], Send(2, true));
    PlayMore(b, [] + [Send(2, true)], SettlePublished(2));
    PlayMore(b, [] + [Send(2, true)] + [SettlePublished(2)], Send(1, false));
    PlayMore(b, [] + [Send(2, true)] + [SettlePublished(2)] + [Send(1, false)], SettleFailed(1));
  }

  /**
   A send that outlives its lease can leave a record both published and dead-lettered: after
   nine failures the first instance hangs for a minute, the second takes the record over and
   publishes it, and then the first one's send fails.
   */
  lemma OverrunMarksBoth(now: int)
    ensures var end := Play(EmptyBus(now),
        FailRun(9) + (PickUp(1, 300_000) + (PickUp(2, 60_000 + 1) + SettleBoth())));
            end.Some? && BothMarks(end.value, 0)
  {
    FailsOften(now, 9);
    var b := Play(EmptyBus(now), FailRun(9)).value;
    PicksUp(b, 1, 300_000);
    var c := Play(b, PickUp(1, 300_000)).value;
    assert Holding(c, 9);
    PicksUp(c, 2, 60_000 + 1);
    var d := Play(c, PickUp(2, 60_000 + 1)).value;
    SettlesBoth(d, c.now, d.now);
    PlayOn(c, PickUp(2, 60_000 + 1), SettleBoth());
    PlayOn(b, PickUp(1, 300_000), PickUp(2, 60_000 + 1) + SettleBoth());
    PlayOn(EmptyBus(now), FailRun(9), PickUp(1, 300_000) + (PickUp(2, 60_000 + 1) + SettleBoth()));
  }

  /** Both instances settle the same failure count. */
  function FailBoth(): seq<Act> {
    [] + [Send(1, false)] + [SettleFailed(1)] + [Send(2, false)] + [SettleFailed(2)]
  }

  lemma FailsBoth(b: Bus, since: int, later: int)
    requires Stage(b, 0, Loaded(0, since, 0, []), Loaded(0, later, 0, [])) && |b.failures[0]| == 0
    ensures Play(b, FailBoth()).Some?
    ensures var c := Play(b, FailBoth()).value;
            |c.rows| == 1 && c.rows[0].attempts == 1 && |c.failures[0]| == 2
  {
    PlayMore(b, [], Send(1, false));
    PlayMore(b, [] + [Send(1, false)], SettleFailed(1));
    PlayMore(b, [] + [Send(1, false)] + [SettleFailed(1)], Send(2, false));
    PlayMore(b, [] + [Send(1, false)] + [SettleFailed(1)] + [Send(2, false)], SettleFailed(2));
  }

  /** Two instances at work on one record, each past the other's lease: two failures count as one. */
  lemma OverrunLosesCount(now: int)
    ensures var met := Play(EmptyBus(now), Start() + (PickUp(1, 300_000) + PickUp(2, 60_000 + 1)));
            met.Some? && !Exclusive(met.value)
    ensures var end := Play(EmptyBus(now),
        Start() + (PickUp(1, 300_000) + (PickUp(2, 60_000 + 1) + FailBoth())));
            end.Some? && |end.value.rows| == 1 && end.value.rows[0].attempts == 1 && |end.value.failures[0]| == 2
  {
    Starts(now);
    var b := Play(EmptyBus(now), Start()).value;
    PicksUp(b, 1, 300_000);
    var c := Play(b, PickUp(1, 300_000)).value;
    assert Holding(c, 0);
    PicksUp(c, 2, 60_000 + 1);
    var d := Play(c, PickUp(2, 60_000 + 1)).value;
    PlayOn(b, PickUp(1, 300_000), PickUp(2, 60_000 + 1));
    PlayOn(EmptyBus(now), Start(), PickUp(1, 300_000) + PickUp(2, 60_000 + 1));
    assert Active(d.procs[1]) == Some((0, c.now)) && Active(d.procs[2]) == Some((0, d.now));
    FailsBoth(d, c.now, d.now);
    PlayOn(c, PickUp(2, 60_000 + 1), FailBoth());
    PlayOn(b, PickUp(1, 300_000), PickUp(2, 60_000 + 1) + FailBoth());
    PlayOn(EmptyBus(now), Start(), PickUp(1, 300_000) + (PickUp(2, 60_000 + 1) + FailBoth()));
  }
}
