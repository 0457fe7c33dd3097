/**
 The access projection: a register per event and user that keeps the payload with the
 greatest time of occurrence, fed by messages that may repeat and arrive in any order.
 */
module AccessProjection {
  import opened Domain

  type Key = (EventId, UserId)

  datatype Payload = Payload(permissions: seq<string>, roles: seq<string>, occurredAt: int)

  datatype Message = Message(key: Key, payload: Payload)

  type Rows = map<Key, Payload>

  /** The handler's effect: a message older than the row is skipped, any other overwrites it. */
  function Projected(rows: Rows, m: Message): Rows {
    if m.key in rows && m.payload.occurredAt < rows[m.key].occurredAt then rows
    else rows[m.key := m.payload]
  }

  /** All messages handled one after the other. */
  function Delivered(rows: Rows, ms: seq<Message>): Rows {
    if ms == [] then rows else Projected(Delivered(rows, ms[..|ms| - 1]), ms[|ms| - 1])
  }

  class Projection {
    var rows: Rows

    constructor ()
      ensures rows == map[]
    {
      rows := map[];
    }

    method HandleUserAccessChanged(m: Message)
      modifies this
      ensures rows == Projected(old(rows), m)
    {
      var existing := if m.key in rows then Some(rows[m.key].occurredAt) else None;
      if existing.Some? && m.payload.occurredAt < existing.value {
        return;
      }
      if m.key in rows {
        rows := rows[m.key := rows[m.key].(
          permissions := m.payload.permissions, roles := m.payload.roles, occurredAt := m.payload.occurredAt)];
      } else {
        rows := rows[m.key := Payload(m.payload.permissions, m.payload.roles, m.payload.occurredAt)];
      }
    }

    /** A consumer works through what it is delivered. */
    method HandleAll(ms: seq<Message>)
      modifies this
      ensures rows == Delivered(old(rows), ms)
    {
      for i := 0 to |ms|
        invariant rows == Delivered(old(rows), ms[..i])
      {
        assert ms[..i + 1][..i] == ms[..i];
        HandleUserAccessChanged(ms[i]);
      }
      assert ms[..|ms|] == ms;
    }
  }

  /** `i` is the last delivery among those with the greatest time for their key. */
  ghost predicate Wins(ms: seq<Message>, i: nat) {
    && i < |ms|
    && (forall j :: 0 <= j < |ms| && ms[j].key == ms[i].key ==>
          ms[j].payload.occurredAt <= ms[i].payload.occurredAt
              && (i < j ==> ms[j].payload.occurredAt < ms[i].payload.occurredAt))
  }

  /** Where the message whose payload is kept for a key stands in the delivery. */
  ghost function Winner(ms: seq<Message>, key: Key): (w: Option<nat>)
    ensures w.Some? ==> w.value < |ms|
  {
    if ms == [] then None
    else
      var n := |ms| - 1;
      var earlier := Winner(ms[..n], key);
      if ms[n].key == key
          && (earlier.None? || ms[earlier.value].payload.occurredAt <= ms[n].payload.occurredAt) then Some(n)
      else earlier
  }

  lemma {:induction false} WinnerIs(ms: seq<Message>, key: Key)
    ensures var w, rows := Winner(ms, key), Delivered(map[], ms);
            if w.None? then key !in rows && forall i :: 0 <= i < |ms| ==> ms[i].key != key
            else ms[w.value].key == key && Wins(ms, w.value) && key in rows && rows[key] == ms[w.value].payload
  {
    if ms == [] {
    } else {
      var n := |ms| - 1;
      WinnerIs(ms[..n], key);
      assert forall i :: 0 <= i < n ==> ms[..n][i] == ms[i];
    }
  }

  /**
   After any delivery the projection has a row for exactly the keys that were mentioned, and
   each row is the payload of the last of the latest messages for its key.
   */
  lemma LastWriterWins(ms: seq<Message>, key: Key)
    ensures key in Delivered(map[], ms) <==> exists i: nat :: i < |ms| && ms[i].key == key
    ensures forall i: nat :: Wins(ms, i) && ms[i].key == key ==>
        key in Delivered(map[], ms) && Delivered(map[], ms)[key] == ms[i].payload
  {
    WinnerIs(ms, key);
    var w := Winner(ms, key);
    if w.Some? {
      forall i: nat | Wins(ms, i) && ms[i].key == key
        ensures i == w.value
      {
        WinnersMeet(ms, i, w.value);
      }
    }
  }

  lemma WinnersMeet(ms: seq<Message>, i: nat, j: nat)
    requires Wins(ms, i) && Wins(ms, j) && ms[i].key == ms[j].key
    ensures i == j
  {
  }

  // ---- when the order of delivery does not matter ----

  ghost predicate SameMessages(a: seq<Message>, b: seq<Message>) {
    forall m :: m in a <==> m in b
  }

  /** No message for the same key is later than this one. */
  ghost predicate Latest(ms: seq<Message>, m: Message) {
    m in ms && forall o :: o in ms && o.key == m.key ==> o.payload.occurredAt <= m.payload.occurredAt
  }

  /** For each key the latest messages all carry the same payload. */
  ghost predicate LatestAgree(ms: seq<Message>) {
    forall a, b :: Latest(ms, a) && Latest(ms, b) && a.key == b.key ==> a.payload == b.payload
  }

  lemma WinnerIsLatest(ms: seq<Message>, key: Key)
    ensures key in Delivered(map[], ms) ==> Latest(ms, Message(key, Delivered(map[], ms)[key]))
    ensures key !in Delivered(map[], ms) ==> forall m :: m in ms ==> m.key != key
  {
    WinnerIs(ms, key);
    var w := Winner(ms, key);
    if w.Some? {
      assert ms[w.value] == Message(key, Delivered(map[], ms)[key]);
    }
  }

  lemma LatestIsKept(ms: seq<Message>, m: Message)
    requires Latest(ms, m)
    ensures m.key in Delivered(map[], ms + [m]) && Delivered(map[], ms + [m])[m.key] == m.payload
    ensures SameMessages(ms, ms + [m])
  {
    assert (ms + [m])[..|ms|] == ms;
    WinnerIsLatest(ms, m.key);
  }

  lemma AgreementConverges(ms: seq<Message>, other: seq<Message>)
    requires LatestAgree(ms) && SameMessages(ms, other)
    ensures Delivered(map[], other) == Delivered(map[], ms)
  {
    var a, b := Delivered(map[], ms), Delivered(map[], other);
    forall key
      ensures (key in a <==> key in b) && (key in a && key in b ==> a[key] == b[key])
    {
      WinnerIsLatest(ms, key);
      WinnerIsLatest(other, key);
      if key in a {
        assert Message(key, a[key]) in other;
      }
      if key in b {
        assert Message(key, b[key]) in ms;
        assert Latest(ms, Message(key, b[key]));
      }
    }
  }

  /**
   Every delivery of the same messages, in any order and with any repeats, ends in the same
   projection if and only if, for each key, the latest messages agree.
   */
  lemma ConvergenceIff(ms: seq<Message>)
    ensures LatestAgree(ms) <==>
              forall other :: SameMessages(ms, other) ==> Delivered(map[], other) == Delivered(map[], ms)
  {
    if LatestAgree(ms) {
      forall other | SameMessages(ms, other)
        ensures Delivered(map[], other) == Delivered(map[], ms)
      {
        AgreementConverges(ms, other);
      }
    } else {
      var a, b :| Latest(ms, a) && Latest(ms, b) && a.key == b.key && a.payload != b.payload;
      LatestIsKept(ms, a);
      LatestIsKept(ms, b);
    }
  }

  /**
   Distinct times for distinct payloads of a key are enough: the row is then the one latest
   payload, whatever the order.
   */
  lemma DistinctTimesConverge(ms: seq<Message>, other: seq<Message>, m: Message)
    requires forall a, b :: a in ms && b in ms && a.key == b.key && a.payload.occurredAt == b.payload.occurredAt ==>
        a.payload == b.payload
    requires SameMessages(ms, other) && Latest(ms, m)
    ensures m.key in Delivered(map[], other) && Delivered(map[], other)[m.key] == m.payload
  {
    WinnerIsLatest(other, m.key);
    assert m in other;
    var kept := Message(m.key, Delivered(map[], other)[m.key]);
    assert Latest(other, kept) && kept in ms;
  }

  // ---- two handlers at once ----

  predicate Stale(rows: Rows, m: Message) {
    m.key in rows && m.payload.occurredAt < rows[m.key].occurredAt
  }

  /** Both handlers read before either writes; then `a` writes and then `b`, each as its own read tells it. */
  function Overlapped(rows: Rows, a: Message, b: Message): Rows {
    var written := if Stale(rows, a) then rows else rows[a.key := a.payload];
    if Stale(rows, b) then written else written[b.key := b.payload]
  }

  /** Both are news to the row they read, and the older one overwrites the newer. */
  predicate OlderWritesLast(rows: Rows, a: Message, b: Message) {
    a.key == b.key && !Stale(rows, a) && !Stale(rows, b) && b.payload.occurredAt < a.payload.occurredAt
  }

  lemma BothOrders(rows: Rows, a: Message, b: Message)
    ensures Delivered(rows, [a, b]) == Projected(Projected(rows, a), b)
  {
    assert [a, b][..1] == [a] && [a][..0] == [];
    assert Delivered(rows, [a]) == Projected(rows, a);
  }

  /**
   Handling two messages at once is as good as one after the other, in one order or the
   other, exactly unless both are news to the row they read, are about the same key, and the
   older one writes last. The order in which they write is then always such an order.
   */
  lemma OverlapIsSerialIff(rows: Rows, a: Message, b: Message)
    ensures OlderWritesLast(rows, a, b) <==>
              Overlapped(rows, a, b) != Delivered(rows, [a, b]) && Overlapped(rows, a, b) != Delivered(rows, [b, a])
    ensures !OlderWritesLast(rows, a, b) ==> Overlapped(rows, a, b) == Delivered(rows, [a, b])
  {
    BothOrders(rows, a, b);
    BothOrders(rows, b, a);
    if OlderWritesLast(rows, a, b) {
      assert Overlapped(rows, a, b)[a.key] == b.payload;
      assert Delivered(rows, [a, b])[a.key] == a.payload;
      assert Delivered(rows, [b, a])[a.key] == a.payload;
    }
  }
}
