/**
 Rows of the analytics outbox and what the publisher's statements write to them. A record
 is named by its position in the order of creation.
 */
module OutboxRows {
  import opened Domain

  type Instance = nat

  const LEASE_MS := 60_000
  const MAX_ATTEMPTS := 10
  const MAX_BACKOFF_MS := 300_000
  const BATCH_SIZE := 50

  datatype Record = Record(
    attempts: nat,
    nextAttemptAt: int,
    lockedAt: Option<int>,
    lockedBy: Option<Instance>,
    publishedAt: Option<int>,
    deadLetteredAt: Option<int>)

  function NewRecord(now: int): Record {
    Record(0, now, None, None, None, None)
  }

  predicate Settled(r: Record) {
    r.publishedAt.Some? || r.deadLetteredAt.Some?
  }

  predicate LeaseFree(r: Record, now: int) {
    r.lockedAt.None? || r.lockedAt.value < now - LEASE_MS
  }

  /** The polling query finds this record. */
  predicate Ready(r: Record, now: int) {
    !Settled(r) && r.nextAttemptAt <= now && LeaseFree(r, now)
  }

  /** The conditional claim succeeds; it does not look at the retry time again. */
  predicate Claimable(r: Record, now: int) {
    !Settled(r) && LeaseFree(r, now)
  }

  function Pow2(n: nat): (p: nat)
    ensures p >= 1
  {
    if n == 0 then 1 else 2 * Pow2(n - 1)
  }

  /** The delay after the failure that makes `attempts` of them. */
  function Backoff(attempts: nat): int {
    var delay := Pow2(attempts) * 1_000;
    if delay < MAX_BACKOFF_MS then delay else MAX_BACKOFF_MS
  }

  function Claim(r: Record, inst: Instance, now: int): Record {
    r.(lockedAt := Some(now), lockedBy := Some(inst))
  }

  function MarkPublished(r: Record, now: int): Record {
    r.(publishedAt := Some(now), lockedAt := None, lockedBy := None)
  }

  /** `seen` is the number of attempts as it was read after the claim. */
  function MarkFailed(r: Record, seen: nat, now: int): Record {
    var counted := r.(attempts := seen + 1, lockedAt := None, lockedBy := None);
    if seen + 1 >= MAX_ATTEMPTS then counted.(deadLetteredAt := Some(now))
    else counted.(nextAttemptAt := now + Backoff(seen + 1))
  }

  lemma BackoffBounds(attempts: nat)
    ensures 0 < Backoff(attempts) <= 300_000
  {
  }

  /** The first retry waits two seconds, and every further one twice as long as the one before, up to five minutes. */
  lemma BackoffDoubles(attempts: nat)
    requires attempts >= 1
    ensures Backoff(1) == 2_000
    ensures Backoff(attempts + 1) == if 2 * Backoff(attempts) < 300_000 then 2 * Backoff(attempts) else 300_000
  {
    assert Pow2(attempts + 1) == 2 * Pow2(attempts);
    assert Pow2(1) == 2 * Pow2(0);
  }

  /** The nine delays, written out. */
  lemma BackoffTable()
    ensures Backoff(1) == 2_000 && Backoff(2) == 4_000 && Backoff(3) == 8_000
    ensures Backoff(4) == 16_000 && Backoff(5) == 32_000 && Backoff(6) == 64_000
    ensures Backoff(7) == 128_000 && Backoff(8) == 256_000
    ensures forall a: nat :: a >= 9 ==> Backoff(a) == 300_000
  {
    BackoffDoubles(1);
    BackoffDoubles(2);
    BackoffDoubles(3);
    BackoffDoubles(4);
    BackoffDoubles(5);
    BackoffDoubles(6);
    BackoffDoubles(7);
    BackoffDoubles(8);
    forall a: nat | a >= 9
      ensures Backoff(a) == 300_000
    {
      BackoffStays(a);
    }
  }

  lemma {:induction false} BackoffStays(attempts: nat)
    requires attempts >= 9 && Backoff(8) == 256_000
    ensures Backoff(attempts) == 300_000
  {
    BackoffDoubles(attempts - 1);
    if attempts == 9 {
    } else {
      BackoffStays(attempts - 1);
    }
  }

  /** The delays after the first nine failures, in milliseconds. */
  const DELAYS_MS := [2_000, 4_000, 8_000, 16_000, 32_000, 64_000, 128_000, 256_000, 300_000]

  function Delay(failures: nat): (d: int)
    ensures 2_000 <= d <= 300_000
  {
    if 1 <= failures <= 9 then DELAYS_MS[failures - 1] else 300_000
  }

  lemma BackoffIsDelay(attempts: nat)
    requires attempts >= 1
    ensures Backoff(attempts) == Delay(attempts)
  {
    BackoffTable();
  }

  /** 2 + 4 + … + 256 seconds and once the cap: 810 seconds between the first failure and the tenth. */
  function BackoffSum(n: nat): int {
    if n == 0 then 0 else BackoffSum(n - 1) + Backoff(n)
  }

  lemma NineBackoffs()
    ensures BackoffSum(9) == 810_000
  {
    BackoffTable();
    assert BackoffSum(3) == 14_000;
    assert BackoffSum(6) == 126_000;
  }
}
