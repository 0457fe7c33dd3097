/**
 One publisher instance as the object it is: the `running` flag, the poll, and the loop that
 claims, sends and settles record by record, with the clock standing still during a pass.
 */
module OutboxPublisher {
  import opened Domain
  import opened OutboxRows
  import Lease = OutboxLease

  /** The first `limit` ready records from position `from` on, oldest first. */
  function Candidates(rows: seq<Record>, now: int, from: nat, limit: nat): seq<nat>
    requires from <= |rows|
    decreases |rows| - from
  {
    if from == |rows| || limit == 0 then []
    else if Ready(rows[from], now) then [from] + Candidates(rows, now, from + 1, limit - 1)
    else Candidates(rows, now, from + 1, limit)
  }

  ghost predicate Increasing(ids: seq<nat>) {
    forall i, j :: 0 <= i < j < |ids| ==> ids[i] < ids[j]
  }

  /**
   `found` holds only ready records, oldest first, and a ready record is missing only if the
   batch is full of older ones.
   */
  ghost predicate OldestReady(rows: seq<Record>, now: int, from: nat, limit: nat, found: seq<nat>) {
    && |found| <= limit && Increasing(found)
    && (forall k :: 0 <= k < |found| ==> from <= found[k] < |rows| && Ready(rows[found[k]], now))
    && (forall id :: from <= id < |rows| && Ready(rows[id], now) && id !in found ==>
        |found| == limit && Before(found, id))
  }

  ghost predicate Before(found: seq<nat>, id: nat) {
    forall k :: 0 <= k < |found| ==> found[k] < id
  }

  lemma BatchGrows(rows: seq<Record>, now: int, from: nat, limit: nat, rest: seq<nat>)
    requires from < |rows| && Ready(rows[from], now) && OldestReady(rows, now, from + 1, limit, rest)
    ensures OldestReady(rows, now, from, limit + 1, [from] + rest)
  {
    var found := [from] + rest;
    assert forall k :: 1 <= k < |found| ==> found[k] == rest[k - 1];
    forall id | from <= id < |rows| && Ready(rows[id], now) && id !in found
      ensures |found| == limit + 1 && Before(found, id)
    {
      assert found[0] == from && from in found;
      assert forall x :: x in rest ==> x in found;
    }
  }

  lemma BatchSkips(rows: seq<Record>, now: int, from: nat, limit: nat, found: seq<nat>)
    requires from < |rows| && !Ready(rows[from], now) && OldestReady(rows, now, from + 1, limit, found)
    ensures OldestReady(rows, now, from, limit, found)
  {
    forall id | from <= id < |rows| && Ready(rows[id], now) && id !in found
      ensures |found| == limit && Before(found, id)
    {
      assert from + 1 <= id;
    }
  }

  lemma NothingFound(rows: seq<Record>, now: int, from: nat, limit: nat)
    requires from == |rows| || limit == 0
    ensures OldestReady(rows, now, from, limit, [])
  {
  }

  lemma {:induction false} CandidatesAre(rows: seq<Record>, now: int, from: nat, limit: nat)
    requires from <= |rows|
    ensures OldestReady(rows, now, from, limit, Candidates(rows, now, from, limit))
    decreases |rows| - from
  {
    if from == |rows| || limit == 0 {
      NothingFound(rows, now, from, limit);
    } else if Ready(rows[from], now) {
      CandidatesAre(rows, now, from + 1, limit - 1);
      BatchGrows(rows, now, from, limit - 1, Candidates(rows, now, from + 1, limit - 1));
    } else {
      CandidatesAre(rows, now, from + 1, limit);
      BatchSkips(rows, now, from, limit, Candidates(rows, now, from + 1, limit));
    }
  }

  /** A record claimed, sent and settled. */
  function Handled(r: Record, inst: Instance, now: int, ok: bool): Record {
    if ok then MarkPublished(Claim(r, inst, now), now) else MarkFailed(Claim(r, inst, now), r.attempts, now)
  }

  /** The rows after the records `found` have been handled in turn, with these outcomes of their sends. */
  function Pass(rows: seq<Record>, inst: Instance, now: int, found: seq<nat>, oks: seq<bool>): (after: seq<Record>)
    requires |found| == |oks|
    ensures |after| == |rows|
  {
    if found == [] then rows
    else
      var n := |found| - 1;
      var before := Pass(rows, inst, now, found[..n], oks[..n]);
      if found[n] < |rows| then before[found[n] := Handled(before[found[n]], inst, now, oks[n])] else before
  }

  /** A pass handles each of its records once and touches no other. */
  lemma {:induction false} PassIs(rows: seq<Record>, inst: Instance, now: int, found: seq<nat>, oks: seq<bool>)
    requires |found| == |oks| && Increasing(found) && forall k :: 0 <= k < |found| ==> found[k] < |rows|
    ensures var after := Pass(rows, inst, now, found, oks);
            && (forall k :: 0 <= k < |found| ==> after[found[k]] == Handled(rows[found[k]], inst, now, oks[k]))
            && (forall id :: 0 <= id < |rows| && id !in found ==> after[id] == rows[id])
  {
    if found == [] {
    } else {
      var n := |found| - 1;
      var front, before := found[..n], Pass(rows, inst, now, found[..n], oks[..n]);
      PassIs(rows, inst, now, front, oks[..n]);
      var after := Pass(rows, inst, now, found, oks);
      assert found[n] !in front;
      assert after == before[found[n] := Handled(rows[found[n]], inst, now, oks[n])];
      forall k | 0 <= k < |found|
        ensures after[found[k]] == Handled(rows[found[k]], inst, now, oks[k])
      {
        if k < n {
          assert front[k] == found[k] && oks[..n][k] == oks[k] && found[k] != found[n];
        }
      }
      forall id | 0 <= id < |rows| && id !in found
        ensures after[id] == rows[id]
      {
        assert id !in front && id != found[n];
      }
    }
  }

  // ---- how much work is left ----

  /** Sends still possible: ten less the failures so far, for every unsettled record. */
  function Work(rows: seq<Record>): nat {
    if rows == [] then 0
    else
      var last := rows[|rows| - 1];
      Work(rows[..|rows| - 1])
          + (if Settled(last) || last.attempts >= 10 then 0 else 10 - last.attempts)
  }

  function Unsettled(rows: seq<Record>): nat {
    if rows == [] then 0 else Unsettled(rows[..|rows| - 1]) + (if Settled(rows[|rows| - 1]) then 0 else 1)
  }

  lemma {:induction false} WorkBound(rows: seq<Record>)
    ensures Work(rows) <= 10 * Unsettled(rows)
    ensures Unsettled(rows) == 0 <==> forall id :: 0 <= id < |rows| ==> Settled(rows[id])
  {
    if rows == [] {
    } else {
      WorkBound(rows[..|rows| - 1]);
    }
  }

  /** Handling one unsettled record costs at least one unit of the work that was left. */
  lemma {:induction false} HandlingWorks(rows: seq<Record>, id: nat, r: Record)
    requires id < |rows| && !Settled(rows[id]) && rows[id].attempts < 10
    requires Settled(r) || r.attempts == rows[id].attempts + 1
    ensures Work(rows[id := r]) + 1 <= Work(rows)
  {
    var n := |rows| - 1;
    if id == n {
      assert rows[id := r][..n] == rows[..n];
    } else {
      assert rows[id := r][..n] == rows[..n][id := r];
      HandlingWorks(rows[..n], id, r);
    }
  }

  lemma {:induction false} PassWorks(rows: seq<Record>, inst: Instance, now: int, found: seq<nat>, oks: seq<bool>)
    requires |found| == |oks| && Increasing(found)
    requires forall k :: 0 <= k < |found| ==>
        found[k] < |rows| && !Settled(rows[found[k]]) && rows[found[k]].attempts < 10
    ensures Work(Pass(rows, inst, now, found, oks)) + |found| <= Work(rows)
  {
    if found == [] {
    } else {
      var n := |found| - 1;
      PassWorks(rows, inst, now, found[..n], oks[..n]);
      PassIs(rows, inst, now, found[..n], oks[..n]);
      var before := Pass(rows, inst, now, found[..n], oks[..n]);
      assert found[n] !in found[..n];
      HandlingWorks(before, found[n], Handled(before[found[n]], inst, now, oks[n]));
    }
  }

  /**
   No lock and no retry time of the record reaches further than it should; it may still bear the
   lock of a dead publisher.
   */
  ghost predicate AtRest(r: Record, now: int) {
    && (r.lockedAt.Some? ==> r.lockedAt.value <= now) && r.nextAttemptAt <= now + 300_000
    && r.attempts <= 10 && (r.deadLetteredAt.Some? <==> r.attempts == 10)
    && !(r.publishedAt.Some? && r.deadLetteredAt.Some?)
  }

  ghost predicate AllAtRest(rows: seq<Record>, now: int) {
    forall id :: 0 <= id < |rows| ==> AtRest(rows[id], now)
  }

  /** Whatever any number of instances have left behind, crashes included, if none outlived its lease. */
  lemma ReachableRests(now: int, acts: seq<Lease.Act>)
    requires Lease.Play(Lease.EmptyBus(now), acts).Some? && Lease.TakeoverFree(Lease.EmptyBus(now), acts)
    ensures var b := Lease.Play(Lease.EmptyBus(now), acts).value; AllAtRest(b.rows, b.now)
  {
    Lease.SoundRun(Lease.EmptyBus(now), acts);
    Lease.ExclusiveIff(now, acts);
    var b := Lease.Play(Lease.EmptyBus(now), acts).value;
    forall id | 0 <= id < |b.rows|
      ensures AtRest(b.rows[id], b.now)
    {
      assert Lease.RecordSound(b, id) && Lease.CountSound(b, id);
    }
  }

  lemma HandledRests(r: Record, inst: Instance, now: int, ok: bool)
    requires AtRest(r, now) && !Settled(r)
    ensures AtRest(Handled(r, inst, now, ok), now)
  {
    BackoffBounds(r.attempts + 1);
  }

  class Publisher {
    const instance: Instance
    var rows: seq<Record>
    var running: bool
    var clock: int
    var sends: nat

    constructor (instance: Instance, rows: seq<Record>, clock: int)
      ensures this.instance == instance && this.rows == rows && this.clock == clock && !running && sends == 0
    {
      this.instance, this.rows, this.clock, running, sends := instance, rows, clock, false, 0;
    }

    /** The broker accepts the message or does not; either is possible. */
    method RawSend() returns (ok: bool)
      modifies this`sends
      ensures sends == old(sends) + 1
    {
      sends := sends + 1;
      ok := *;
    }

    method FindReady() returns (found: seq<nat>)
      ensures found == Candidates(rows, clock, 0, 50)
      ensures OldestReady(rows, clock, 0, 50, found)
    {
      CandidatesAre(rows, clock, 0, 50);
      found := [];
      var id := 0;
      while id < |rows| && |found| < BATCH_SIZE
        invariant id <= |rows| && |found| <= 50
        invariant found + Candidates(rows, clock, id, 50 - |found|) == Candidates(rows, clock, 0, 50)
      {
        if Ready(rows[id], clock) {
          assert found + ([id] + Candidates(rows, clock, id + 1, 50 - |found| - 1))
              == (found + [id]) + Candidates(rows, clock, id + 1, 50 - |found| - 1);
          found := found + [id];
        }
        id := id + 1;
      }
    }

    /** Sends the claimed record and settles it. */
    method Publish(id: nat) returns (ok: bool)
      requires id < |rows|
      modifies this`rows, this`sends
      ensures sends == old(sends) + 1
      ensures rows == old(rows)[id := if ok then MarkPublished(old(rows)[id], clock)
                                      else MarkFailed(old(rows)[id], old(rows)[id].attempts, clock)]
      ensures rows[id].lockedAt.None? && rows[id].lockedBy.None?
      ensures ok ==> rows[id].publishedAt == Some(clock) && rows[id].attempts == old(rows)[id].attempts
      ensures !ok ==>
          rows[id].attempts == old(rows)[id].attempts + 1 && rows[id].publishedAt == old(rows)[id].publishedAt
      ensures !ok && rows[id].attempts < 10 ==> rows[id].nextAttemptAt == clock + Delay(rows[id].attempts)
      ensures !ok && rows[id].attempts >= 10 ==> rows[id].deadLetteredAt == Some(clock)
      ensures ok || rows[id].attempts < 10 ==> rows[id].deadLetteredAt == old(rows)[id].deadLetteredAt
    {
      BackoffIsDelay(rows[id].attempts + 1);
      var record := rows[id];
      ok := RawSend();
      if ok {
        rows := rows[id := rows[id].(publishedAt := Some(clock), lockedAt := None, lockedBy := None)];
      } else {
        var attempts := record.attempts + 1;
        rows := rows[id := rows[id].(attempts := attempts, lockedAt := None, lockedBy := None)];
        if attempts >= MAX_ATTEMPTS {
          rows := rows[id := rows[id].(deadLetteredAt := Some(clock))];
        } else {
          rows := rows[id := rows[id].(nextAttemptAt := clock + Backoff(attempts))];
        }
      }
    }

    /** Claims the record and, having got it, sends and settles it; a record that is not claimable is skipped. */
    method Handle(id: nat) returns (claimed: bool, ok: bool)
      requires id < |rows|
      modifies this`rows, this`sends
      ensures claimed == Claimable(old(rows)[id], clock)
      ensures rows == if claimed then old(rows)[id := Handled(old(rows)[id], instance, clock, ok)] else old(rows)
      ensures sends == old(sends) + if claimed then 1 else 0
    {
      claimed, ok := Claimable(rows[id], clock), false;
      if claimed {
        rows := rows[id := Claim(rows[id], instance, clock)];
        ok := Publish(id);
      }
    }

    /**
     One pass. Unless a pass is under way already, every record of the batch is sent once
     and settled, in order, and no other record changes.
     */
    method PublishReady() returns (ghost found: seq<nat>, ghost oks: seq<bool>)
      modifies this
      ensures running == old(running) && clock == old(clock)
      ensures found == if old(running) then [] else Candidates(old(rows), clock, 0, 50)
      ensures |oks| == |found| && rows == Pass(old(rows), instance, clock, found, oks)
      ensures sends == old(sends) + |found|
    {
      found, oks := [], [];
      if running {
        return;
      }
      running := true;
      var candidates := FindReady();
      ghost var start := rows;
      var k := 0;
      while k < |candidates|
        invariant k <= |candidates| && candidates == Candidates(start, clock, 0, 50) && |oks| == k
        invariant rows == Pass(start, instance, clock, candidates[..k], oks)
        invariant sends == old(sends) + k && clock == old(clock) && running
      {
        CandidateAt(start, instance, clock, k, oks);
        var _, ok := Handle(candidates[k]);
        PassGrows(start, instance, clock, candidates[..k], oks, candidates[k], ok);
        oks := oks + [ok];
        k := k + 1;
      }
      found := candidates;
      assert candidates[..k] == candidates;
      running := false;
    }

    /** Five minutes later a pass has something to do, and uses up some of the work that is left. */
    method PassAfterWait()
      requires !running && AllAtRest(rows, clock) && exists id :: 0 <= id < |rows| && !Settled(rows[id])
      modifies this
      ensures !running && |rows| == |old(rows)| && AllAtRest(rows, clock)
      ensures sends - old(sends) + Work(rows) <= Work(old(rows)) && Work(rows) < Work(old(rows))
    {
      ghost var before := rows;
      clock := clock + 300_000;
      DueAfterWait(before, clock);
      ghost var found, oks := PublishReady();
      assert rows == Pass(before, instance, clock, found, oks) && |found| > 0;
      PassWorks(before, instance, clock, found, oks);
      PassRests(before, instance, clock, found, oks);
    }

    /**
     The timer keeps starting passes. With five minutes before each, all records end up
     published or dead-lettered, after at most ten sends for each that was unsettled.
     */
    method Drain()
      requires !running && AllAtRest(rows, clock)
      modifies this
      ensures |rows| == |old(rows)| && forall id :: 0 <= id < |rows| ==> Settled(rows[id])
      ensures sends - old(sends) <= 10 * Unsettled(old(rows))
    {
      WorkBound(rows);
      while exists id :: 0 <= id < |rows| && !Settled(rows[id])
        invariant !running && |rows| == |old(rows)| && AllAtRest(rows, clock)
        invariant sends - old(sends) + Work(rows) <= Work(old(rows))
        decreases Work(rows)
      {
        PassAfterWait();
      }
    }
  }

  /** When the pass comes to a candidate, the record is as the poll found it. */
  lemma CandidateAt(rows: seq<Record>, inst: Instance, now: int, k: nat, oks: seq<bool>)
    requires k < |Candidates(rows, now, 0, 50)| && |oks| == k
    ensures var found := Candidates(rows, now, 0, 50);
            && found[..k] + [found[k]] == found[..k + 1] && Increasing(found[..k] + [found[k]])
            && found[k] < |rows| && (forall j :: 0 <= j < k ==> found[..k][j] < |rows|)
            && Pass(rows, inst, now, found[..k], oks)[found[k]] == rows[found[k]] && Ready(rows[found[k]], now)
  {
    CandidatesAre(rows, now, 0, 50);
    var found := Candidates(rows, now, 0, 50);
    assert found[..k] + [found[k]] == found[..k + 1];
    PassGrows(rows, inst, now, found[..k], oks, found[k], true);
  }

  /** Five minutes later every unsettled record at rest is due, so a batch has something to do. */
  lemma DueAfterWait(rows: seq<Record>, now: int)
    requires AllAtRest(rows, now - 300_000) && exists id :: 0 <= id < |rows| && !Settled(rows[id])
    ensures var found := Candidates(rows, now, 0, 50);
            && |found| > 0 && Increasing(found)
            && forall k :: 0 <= k < |found| ==>
                found[k] < |rows| && !Settled(rows[found[k]]) && rows[found[k]].attempts < 10
    ensures AllAtRest(rows, now)
  {
    CandidatesAre(rows, now, 0, 50);
    var id :| 0 <= id < |rows| && !Settled(rows[id]);
    assert AtRest(rows[id], now - 300_000) && Ready(rows[id], now);
    forall k | 0 <= k < |Candidates(rows, now, 0, 50)|
      ensures rows[Candidates(rows, now, 0, 50)[k]].attempts < 10
    {
      assert AtRest(rows[Candidates(rows, now, 0, 50)[k]], now - 300_000);
    }
  }

  lemma PassRests(rows: seq<Record>, inst: Instance, now: int, found: seq<nat>, oks: seq<bool>)
    requires |found| == |oks| && Increasing(found) && AllAtRest(rows, now)
    requires forall k :: 0 <= k < |found| ==> found[k] < |rows| && !Settled(rows[found[k]])
    ensures AllAtRest(Pass(rows, inst, now, found, oks), now)
  {
    PassIs(rows, inst, now, found, oks);
    var after := Pass(rows, inst, now, found, oks);
    forall id | 0 <= id < |rows|
      ensures AtRest(after[id], now)
    {
      if id in found {
        var k :| 0 <= k < |found| && found[k] == id;
        HandledRests(rows[id], inst, now, oks[k]);
      }
    }
  }

  // ---- a pass is a run of the lease protocol ----

  function HandleActs(inst: Instance, ok: bool): seq<Lease.Act> {
    [] + [Lease.TryClaim(inst)] + [Lease.Load(inst)] + [Lease.Send(inst, ok)]
    + [if ok then Lease.SettlePublished(inst) else Lease.SettleFailed(inst)]
  }

  /** The acts of an undisturbed pass after its poll. */
  function PassActs(inst: Instance, oks: seq<bool>): seq<Lease.Act> {
    if oks == [] then [] else PassActs(inst, oks[..|oks| - 1]) + HandleActs(inst, oks[|oks| - 1])
  }

  lemma ClaimRuns(b: Lease.Bus, inst: Instance, id: nat, rest: seq<nat>)
    requires Lease.Wide(b) && Lease.PhaseOf(b, inst) == Lease.Batch([id] + rest)
    requires id < |b.rows| && Ready(b.rows[id], b.now)
    ensures var end := Lease.Play(b, [] + [Lease.TryClaim(inst)] + [Lease.Load(inst)]);
            && end.Some? && end.value.rows == b.rows[id := Claim(b.rows[id], inst, b.now)]
            && end.value.now == b.now
                && Lease.PhaseOf(end.value, inst) == Lease.Loaded(id, b.now, b.rows[id].attempts, rest)
  {
    assert ([id] + rest)[1..] == rest;
    Lease.PlayMore(b, [], Lease.TryClaim(inst));
    Lease.PlayMore(b, [] + [Lease.TryClaim(inst)], Lease.Load(inst));
  }

  lemma SendRuns(b: Lease.Bus, acts: seq<Lease.Act>, c: Lease.Bus, inst: Instance, id: nat, seen: nat,
      rest: seq<nat>, ok: bool)
    requires Lease.Wide(b) && Lease.Play(b, acts) == Some(c) && id < |c.rows|
    requires Lease.PhaseOf(c, inst) == Lease.Loaded(id, c.now, seen, rest)
    ensures var end := Lease.Play(b, acts + [Lease.Send(inst, ok)]);
            && end.Some? && end.value.rows == c.rows && end.value.now == c.now
            && Lease.PhaseOf(end.value, inst) ==
                (if ok then Lease.Sent(id, c.now, seen, rest) else Lease.Failing(id, c.now, seen, rest))
  {
    Lease.PlayMore(b, acts, Lease.Send(inst, ok));
  }

  lemma SettleRuns(b: Lease.Bus, acts: seq<Lease.Act>, c: Lease.Bus, inst: Instance, id: nat, seen: nat,
      rest: seq<nat>, ok: bool)
    requires Lease.Wide(b) && Lease.Play(b, acts) == Some(c) && id < |c.rows|
    requires Lease.PhaseOf(c, inst) ==
        (if ok then Lease.Sent(id, c.now, seen, rest) else Lease.Failing(id, c.now, seen, rest))
    ensures var end := Lease.Play(b, acts + [if ok then Lease.SettlePublished(inst) else Lease.SettleFailed(inst)]);
            && end.Some? && end.value.rows ==
                 c.rows[id := if ok then MarkPublished(c.rows[id], c.now) else MarkFailed(c.rows[id], seen, c.now)]
            && end.value.now == c.now && Lease.PhaseOf(end.value, inst) == Lease.Batch(rest)
  {
    Lease.PlayMore(b, acts, if ok then Lease.SettlePublished(inst) else Lease.SettleFailed(inst));
  }

  lemma HandleRuns(b: Lease.Bus, inst: Instance, id: nat, rest: seq<nat>, ok: bool)
    requires Lease.Wide(b) && Lease.PhaseOf(b, inst) == Lease.Batch([id] + rest)
    requires id < |b.rows| && Ready(b.rows[id], b.now)
    ensures var end := Lease.Play(b, HandleActs(inst, ok));
            && end.Some? && end.value.rows == b.rows[id := Handled(b.rows[id], inst, b.now, ok)]
            && end.value.now == b.now && Lease.PhaseOf(end.value, inst) == Lease.Batch(rest)
  {
    ClaimRuns(b, inst, id, rest);
    var claimed := [] + [Lease.TryClaim(inst)] + [Lease.Load(inst)];
    SendRuns(b, claimed, Lease.Play(b, claimed).value, inst, id, b.rows[id].attempts, rest, ok);
    var sent := claimed + [Lease.Send(inst, ok)];
    SettleRuns(b, sent, Lease.Play(b, sent).value, inst, id, b.rows[id].attempts, rest, ok);
    assert b.rows[id := Claim(b.rows[id], inst, b.now)][id := Handled(b.rows[id], inst, b.now, ok)] ==
           b.rows[id := Handled(b.rows[id], inst, b.now, ok)];
  }

  lemma PassGrows(rows: seq<Record>, inst: Instance, now: int, found: seq<nat>, oks: seq<bool>, id: nat, ok: bool)
    requires |found| == |oks| && Increasing(found + [id]) && id < |rows|
        && forall k :: 0 <= k < |found| ==> found[k] < |rows|
    ensures var before := Pass(rows, inst, now, found, oks);
            && before[id] == rows[id]
            && Pass(rows, inst, now, found + [id], oks + [ok]) == before[id := Handled(rows[id], inst, now, ok)]
  {
    assert (found + [id])[..|found|] == found && (oks + [ok])[..|oks|] == oks;
    assert forall k :: 0 <= k < |found| ==> (found + [id])[k] == found[k];
    assert (found + [id])[|found|] == id;
    PassIs(rows, inst, now, found, oks);
  }

  /** After its poll, a pass left alone is a run of the protocol and writes the same rows. */
  lemma {:induction false} PassRuns(b: Lease.Bus, inst: Instance, found: seq<nat>, rest: seq<nat>, oks: seq<bool>)
    requires Lease.Wide(b) && |oks| == |found| && Lease.PhaseOf(b, inst) == Lease.Batch(found + rest)
    requires Increasing(found + rest) && forall id :: id in found + rest ==> id < |b.rows| && Ready(b.rows[id], b.now)
    ensures var end := Lease.Play(b, PassActs(inst, oks));
            && end.Some? && end.value.rows == Pass(b.rows, inst, b.now, found, oks)
            && end.value.now == b.now && Lease.PhaseOf(end.value, inst) == Lease.Batch(rest)
  {
    if oks == [] {
      assert found + rest == rest;
    } else {
      var n := |oks| - 1;
      var front, id := found[..n], found[n];
      assert front + ([id] + rest) == found + rest && front + [id] == found && oks[..n] + [oks[n]] == oks;
      PassRuns(b, inst, front, [id] + rest, oks[..n]);
      assert id in found + rest && forall k :: 0 <= k < |front| ==> front[k] in found + rest;
      FrontIncreases(found, rest);
      LastRuns(b, inst, front, id, rest, oks[..n], oks[n]);
    }
  }

  lemma LastRuns(b: Lease.Bus, inst: Instance, front: seq<nat>, id: nat, rest: seq<nat>, oks: seq<bool>, ok: bool)
    requires Lease.Wide(b) && |oks| == |front| && Increasing(front + [id])
    requires id < |b.rows| && Ready(b.rows[id], b.now) && forall k :: 0 <= k < |front| ==> front[k] < |b.rows|
    requires var c := Lease.Play(b, PassActs(inst, oks));
             && c.Some? && c.value.rows == Pass(b.rows, inst, b.now, front, oks)
             && c.value.now == b.now && Lease.PhaseOf(c.value, inst) == Lease.Batch([id] + rest)
    ensures var end := Lease.Play(b, PassActs(inst, oks + [ok]));
            && end.Some? && end.value.rows == Pass(b.rows, inst, b.now, front + [id], oks + [ok])
            && end.value.now == b.now && Lease.PhaseOf(end.value, inst) == Lease.Batch(rest)
  {
    PassGrows(b.rows, inst, b.now, front, oks, id, ok);
    HandleRuns(Lease.Play(b, PassActs(inst, oks)).value, inst, id, rest, ok);
    Lease.PlayOn(b, PassActs(inst, oks), HandleActs(inst, ok));
    assert (oks + [ok])[..|oks|] == oks;
  }

  lemma FrontIncreases(found: seq<nat>, rest: seq<nat>)
    requires Increasing(found + rest)
    ensures Increasing(found)
  {
    assert forall k :: 0 <= k < |found| ==> (found + rest)[k] == found[k];
  }

  /** The batch a pass takes is one the protocol's poll may return. */
  lemma CandidatesPollable(b: Lease.Bus)
    ensures Lease.Pollable(b, Candidates(b.rows, b.now, 0, 50))
  {
    CandidatesAre(b.rows, b.now, 0, 50);
  }

  lemma PollRuns(b: Lease.Bus, inst: Instance)
    requires Lease.Wide(b) && Lease.PhaseOf(b, inst) == Lease.Batch([])
    ensures var found := Candidates(b.rows, b.now, 0, 50);
            Lease.Play(b, [Lease.Poll(inst, found)]) == Some(Lease.Move(b, inst, Lease.Batch(found)))
  {
    CandidatesPollable(b);
    var poll := Lease.Poll(inst, Candidates(b.rows, b.now, 0, 50));
    Lease.PlayMore(b, [], poll);
    assert [] + [poll] == [poll];
  }

  /**
   From idle to idle: what `PublishReady` makes of the rows, its poll included and whatever
   the outcomes of its sends, is what some run of the protocol makes of them.
   */
  lemma WholePassRuns(b: Lease.Bus, inst: Instance, oks: seq<bool>)
    requires Lease.Wide(b) && Lease.PhaseOf(b, inst) == Lease.Batch([])
    requires |oks| == |Candidates(b.rows, b.now, 0, 50)|
    ensures var found := Candidates(b.rows, b.now, 0, 50);
            var end := Lease.Play(b, [Lease.Poll(inst, found)] + PassActs(inst, oks));
            && end.Some? && end.value.rows == Pass(b.rows, inst, b.now, found, oks)
            && end.value.now == b.now && Lease.PhaseOf(end.value, inst) == Lease.Batch([])
  {
    var found := Candidates(b.rows, b.now, 0, 50);
    CandidatesAre(b.rows, b.now, 0, 50);
    PollRuns(b, inst);
    assert found + [] == found;
    PassRuns(Lease.Move(b, inst, Lease.Batch(found)), inst, found, [], oks);
    Lease.PlayOn(b, [Lease.Poll(inst, found)], PassActs(inst, oks));
  }
}
