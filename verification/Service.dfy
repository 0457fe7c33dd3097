/**
 The store at work: serving any sequence of operations with its methods leaves it in the
 database of the corresponding run, so every law of atomic runs is a law of the store.
 */
module Service {
  import opened Domain
  import opened Tables
  import opened AtomicRuns
  import opened Ledger
  import opened TicketStore

  method Serve(store: Store, op: Op)
    requires UniqueRows(store.tickets)
    modifies store
    ensures store.Db() == Apply(old(store.Db()), op)
  {
    match op
    case Scan(token, p, permitted) => var _ := store.Scan(token, p, permitted);
    case Override(id, state, actor, permitted) => var _ := store.UpdatePresence(id, state, actor, permitted);
    case Revoke(id, reason, actor, permitted) => var _ := store.Revoke(id, reason, actor, permitted);
    case Activate(id, device, key, keyValid, actor) => var _ := store.ActivateDevice(id, device, key, keyValid, actor);
    case ResetBinding(id, actor, permitted) => var _ := store.ResetDeviceBinding(id, actor, permitted);
    case Create(m) => var _ := store.CreateTicket(m);
    case Delete(id, permitted) => var _ := store.Delete(id, permitted);
    case Generate(id, actor, serial) => var _ := store.GenerateToken(id, actor, serial);
    case EventEnds(event, endsAt) =>
      store.endsAt := if endsAt.Some? then store.endsAt[event := endsAt.value] else store.endsAt - {event};
    case Advance(ms) => store.clock := store.clock + ms;
  }

  /** A new store that has served these operations obeys the ledger. */
  method ServeAll(now: int, ops: seq<Op>) returns (store: Store)
    ensures fresh(store) && store.Db() == Run(EmptyDb(now), ops)
    ensures forall id :: id in store.tickets ==>
        RowOk(store.tickets[id]) && LedgerOf(store.Db(), id) && Balanced(store.Db(), id)
  {
    store := new Store(now);
    for i := 0 to |ops|
      invariant fresh(store) && store.Db() == Run(EmptyDb(now), ops[..i])
    {
      Reachable(now, ops[..i]);
      assert ops[..i + 1][..i] == ops[..i];
      Serve(store, ops[i]);
    }
    assert ops[..|ops|] == ops;
    LedgerLaw(now, ops);
  }
}
