/**
 Device activations that overlap. An activation is one transaction of three statements: read
 the ticket, bind it, and unbind the event's other tickets from the device. Under read
 committed its last statement sees what was committed when it starts, and waits for rows
 that another transaction has written.
 */
module BindingRaces {
  import opened Domain
  import Tables
  import AtomicRuns

  type Pid = nat

  datatype Claim = Claim(id: TicketId, event: EventId, device: DeviceId, key: PublicKey, actor: UserId)

  datatype Stage =
    | Read(claim: Claim)
    | Bound(claim: Claim)                              // its own row written, not committed
    | Sweeping(claim: Claim, found: set<TicketId>)     // waiting for the rows it has found
    | Swept(claim: Claim, cleared: set<TicketId>)      // those rows written, not committed

  datatype State = State(tickets: map<TicketId, Ticket>, procs: map<Pid, Stage>)

  datatype Act =
    | Begin(pid: Pid, id: TicketId, device: DeviceId, key: PublicKey, keyValid: bool, actor: UserId)
    | Bind(pid: Pid)
    | Find(pid: Pid)
    | Sweep(pid: Pid)
    | Commit(pid: Pid)
    | Abort(pid: Pid)
    | Reset(id: TicketId)                              // staff clear a binding
    | Create(id: TicketId, m: Mapping)

  function Written(p: Stage): set<TicketId> {
    match p
    case Read(_) => {}
    case Bound(claim) => {claim.id}
    case Sweeping(claim, _) => {claim.id}
    case Swept(claim, cleared) => {claim.id} + cleared
  }

  /** A transaction other than `pid` holds the lock of one of these rows. */
  predicate Locked(s: State, pid: Pid, ids: set<TicketId>) {
    exists q :: q in s.procs && q != pid && Written(s.procs[q]) * ids != {}
  }

  /** Another ticket of the event bears the claimed device. */
  predicate Rivals(s: State, claim: Claim, i: TicketId) {
    i in s.tickets && i != claim.id && s.tickets[i].eventId == claim.event
        && s.tickets[i].deviceId == Some(claim.device)
  }

  function Move(s: State, pid: Pid, p: Stage): State {
    s.(procs := s.procs[pid := p])
  }

  /** The committed rows once a transaction's own row and the rows it cleared are. */
  function Activated(tickets: map<TicketId, Ticket>, claim: Claim, cleared: set<TicketId>): map<TicketId, Ticket> {
    map i | i in tickets ::
      if i == claim.id then tickets[i].(publicKey := Some(claim.key), deviceId := Some(claim.device))
      else if i in cleared then Tables.Unbound(tickets[i])
      else tickets[i]
  }

  function Do(s: State, a: Act): Option<State> {
    match a
    case Begin(pid, id, device, key, keyValid, actor) =>
      if pid !in s.procs && keyValid && id in s.tickets && s.tickets[id].guestId == actor
         && (s.tickets[id].deviceId.Some? && s.tickets[id].publicKey.Some? ==> s.tickets[id].deviceId.value == device)
      then Some(Move(s, pid, Read(Claim(id, s.tickets[id].eventId, device, key, actor)))) else None
    case Bind(pid) =>
      if pid in s.procs && s.procs[pid].Read? && !Locked(s, pid, {s.procs[pid].claim.id})
      then Some(Move(s, pid, Bound(s.procs[pid].claim))) else None
    case Find(pid) =>
      if pid in s.procs && s.procs[pid].Bound? then
        var claim := s.procs[pid].claim;
        Some(Move(s, pid, Sweeping(claim, set i | i in s.tickets && Rivals(s, claim, i))))
      else None
    case Sweep(pid) =>
      if pid in s.procs && s.procs[pid].Sweeping? && !Locked(s, pid, s.procs[pid].found) then
        var claim := s.procs[pid].claim;
        Some(Move(s, pid, Swept(claim, set i | i in s.procs[pid].found && Rivals(s, claim, i))))
      else None
    case Commit(pid) =>
      if pid in s.procs && s.procs[pid].Swept? then
        Some(State(Activated(s.tickets, s.procs[pid].claim, s.procs[pid].cleared), s.procs - {pid}))
      else None
    case Abort(pid) => Some(s.(procs := s.procs - {pid}))
    case Reset(id) =>
      if id in s.tickets && (forall q :: q in s.procs ==> id !in Written(s.procs[q]))
      then Some(s.(tickets := s.tickets[id := Tables.Unbound(s.tickets[id])])) else None
    case Create(id, m) => if id in s.tickets then None else Some(s.(tickets := s.tickets[id := NewTicket(m)]))
  }

  function Play(s: State, acts: seq<Act>): Option<State> {
    if acts == [] then Some(s)
    else
      var v := Play(s, acts[..|acts| - 1]);
      if v.None? then None else Do(v.value, acts[|acts| - 1])
  }

  const EMPTY := State(map[], map[])

  /** A device serves at most one ticket of an event. */
  ghost predicate OnePerDevice(s: State) {
    AtomicRuns.OneTicketPerDevice(s.tickets)
  }

  /** Every claim names its ticket's event, and is made by the guest of the ticket. */
  ghost predicate ClaimsTrue(s: State) {
    forall p :: p in s.procs ==>
      var claim := s.procs[p].claim;
      && claim.id in s.tickets && s.tickets[claim.id].eventId == claim.event
      && s.tickets[claim.id].guestId == claim.actor
  }

  // ---- the step that breaks it ----

  /** This commit binds a device that another ticket of the event bears and the sweep has missed. */
  ghost predicate DoubleCommit(s: State, a: Act) {
    && a.Commit? && a.pid in s.procs && s.procs[a.pid].Swept?
    && exists i :: i !in s.procs[a.pid].cleared && Rivals(s, s.procs[a.pid].claim, i)
  }

  lemma ClaimsStep(s: State, a: Act)
    requires ClaimsTrue(s) && Do(s, a).Some?
    ensures ClaimsTrue(Do(s, a).value)
  {
  }

  lemma CommitStep(s: State, a: Act)
    requires ClaimsTrue(s) && OnePerDevice(s) && a.Commit? && Do(s, a).Some?
    ensures OnePerDevice(Do(s, a).value) <==> !DoubleCommit(s, a)
  {
    var t := Do(s, a).value.tickets;
    var claim, cleared := s.procs[a.pid].claim, s.procs[a.pid].cleared;
    assert t[claim.id].deviceId == Some(claim.device) && t[claim.id].eventId == claim.event;
    if i :| i !in cleared && Rivals(s, claim, i) {
      assert t[i] == s.tickets[i] && i != claim.id;
    }
  }

  lemma OneStep(s: State, a: Act)
    requires ClaimsTrue(s) && OnePerDevice(s) && Do(s, a).Some?
    ensures OnePerDevice(Do(s, a).value) <==> !DoubleCommit(s, a)
  {
    if a.Commit? {
      CommitStep(s, a);
    }
  }

  /** Before, between and after these acts, no device serves two tickets of an event. */
  ghost predicate AlwaysOne(acts: seq<Act>) {
    && (acts == [] || AlwaysOne(acts[..|acts| - 1]))
    && (Play(EMPTY, acts).Some? ==> OnePerDevice(Play(EMPTY, acts).value))
  }

  /** None of these acts is a `breach` in the state it meets. */
  ghost predicate Never(acts: seq<Act>, breach: (State, Act) -> bool) {
    if acts == [] then true
    else
      var k := |acts| - 1;
      Never(acts[..k], breach) && (Play(EMPTY, acts[..k]).Some? ==> !breach(Play(EMPTY, acts[..k]).value, acts[k]))
  }

  /**
   Whatever overlaps, a device always serves one ticket of an event if and only if no activation
   commits over a rival its sweep has missed.
   */
  lemma {:induction false} OnePerDeviceIff(acts: seq<Act>)
    requires Play(EMPTY, acts).Some?
    ensures ClaimsTrue(Play(EMPTY, acts).value)
    ensures AlwaysOne(acts) <==> Never(acts, DoubleCommit)
  {
    if acts == [] {
    } else {
      var k := |acts| - 1;
      OnePerDeviceIff(acts[..k]);
      ClaimsStep(Play(EMPTY, acts[..k]).value, acts[k]);
      if AlwaysOne(acts[..k]) {
        OneStep(Play(EMPTY, acts[..k]).value, acts[k]);
      }
    }
  }

  // ---- isolation ----

  /** No row has been written by two transactions. */
  ghost predicate Disjoint(s: State) {
    forall p, q :: p in s.procs && q in s.procs && p != q ==> Written(s.procs[p]) * Written(s.procs[q]) == {}
  }

  lemma DisjointStep(s: State, a: Act)
    requires Disjoint(s) && Do(s, a).Some?
    ensures Disjoint(Do(s, a).value)
  {
    var t := Do(s, a).value;
    forall p, q | p in t.procs && q in t.procs && p != q
      ensures Written(t.procs[p]) * Written(t.procs[q]) == {}
    {
      if a.Sweep? {
        var found := s.procs[a.pid].found;
        assert Written(t.procs[a.pid]) <= Written(s.procs[a.pid]) + found;
        assert forall r :: r in s.procs && r != a.pid ==> Written(s.procs[r]) * found == {};
      }
    }
  }

  lemma {:induction false} DisjointRun(acts: seq<Act>)
    requires Play(EMPTY, acts).Some?
    ensures Disjoint(Play(EMPTY, acts).value)
  {
    if acts == [] {
    } else {
      DisjointRun(acts[..|acts| - 1]);
      DisjointStep(Play(EMPTY, acts[..|acts| - 1]).value, acts[|acts| - 1]);
    }
  }

  /**
   In every run, a row that a transaction has written changes for nobody until that transaction
   commits or is rolled back.
   */
  lemma IsolationLaw(acts: seq<Act>, a: Act, p: Pid, i: TicketId)
    requires Play(EMPTY, acts).Some? && Do(Play(EMPTY, acts).value, a).Some?
    requires p in Play(EMPTY, acts).value.procs && i in Written(Play(EMPTY, acts).value.procs[p])
    requires a != Commit(p)
    ensures var s := Play(EMPTY, acts).value;
            var t := Do(s, a).value;
            && (i in t.tickets <==> i in s.tickets)
            && (i in s.tickets ==> t.tickets[i] == s.tickets[i])
            && forall q :: q in t.procs && q != p ==> i !in Written(t.procs[q])
  {
    DisjointRun(acts);
    OnePerDeviceIff(acts);
    var s := Play(EMPTY, acts).value;
    WrittenExist(acts);
    if a == Abort(p) {
      assert forall q :: q in Do(s, a).value.procs ==> q in s.procs && Do(s, a).value.procs[q] == s.procs[q];
      assert forall q :: q in s.procs && q != p && i in Written(s.procs[q]) ==>
          i in Written(s.procs[p]) * Written(s.procs[q]);
    } else {
      DisjointStep(s, a);
      StaysWritten(s, a, p, i);
      if a.Commit? {
        assert Written(s.procs[a.pid]) * Written(s.procs[p]) == {};
      }
    }
  }

  /** What a transaction has written stays written until it ends. */
  lemma StaysWritten(s: State, a: Act, p: Pid, i: TicketId)
    requires Disjoint(s) && Do(s, a).Some? && p in s.procs && i in Written(s.procs[p])
    requires a != Commit(p) && a != Abort(p)
    ensures var t := Do(s, a).value;
            p in t.procs && i in Written(t.procs[p]) &&
            (Disjoint(t) ==> forall q :: q in t.procs && q != p ==> i !in Written(t.procs[q]))
  {
    var t := Do(s, a).value;
    forall q | q in t.procs && q != p && i in Written(t.procs[q])
      ensures i in Written(t.procs[p]) * Written(t.procs[q])
    {
    }
  }

  lemma {:induction false} WrittenExist(acts: seq<Act>)
    requires Play(EMPTY, acts).Some?
    ensures var s := Play(EMPTY, acts).value;
            forall p, i :: p in s.procs && i in Written(s.procs[p]) ==> i in s.tickets
  {
    if acts == [] {
    } else {
      var s := Play(EMPTY, acts[..|acts| - 1]).value;
      OnePerDeviceIff(acts[..|acts| - 1]);
      WrittenExist(acts[..|acts| - 1]);
    }
  }

  // ---- where missed rivals come from ----

  /**
   This activation commits while another one for the same device and event, past its look for
   rivals, has not found it.
   */
  ghost predicate UnseenCommit(s: State, a: Act) {
    && a.Commit? && a.pid in s.procs && s.procs[a.pid].Swept?
    && exists q :: q in s.procs && q != a.pid && Misses(s.procs[q], s.procs[a.pid].claim)
  }

  ghost predicate Misses(p: Stage, claim: Claim) {
    && (p.Sweeping? || p.Swept?)
    && p.claim.id != claim.id && p.claim.event == claim.event && p.claim.device == claim.device
    && (p.Sweeping? ==> claim.id !in p.found) && (p.Swept? ==> claim.id !in p.cleared)
  }

  /** Who has looked for rivals knows them all. */
  ghost predicate Covered(s: State, p: Stage) {
    && (p.Sweeping? ==> forall i :: Rivals(s, p.claim, i) ==> i in p.found)
    && (p.Swept? ==> forall i :: Rivals(s, p.claim, i) ==> i in p.cleared)
  }

  ghost predicate AllCovered(s: State) {
    forall p :: p in s.procs ==> Covered(s, s.procs[p])
  }

  lemma CoveredStep(s: State, a: Act)
    requires ClaimsTrue(s) && AllCovered(s) && Do(s, a).Some? && !UnseenCommit(s, a)
    ensures AllCovered(Do(s, a).value) && !DoubleCommit(s, a)
  {
    var t := Do(s, a).value;
    forall p | p in t.procs
      ensures Covered(t, t.procs[p])
    {
      if p in s.procs {
        assert Covered(s, s.procs[p]);
        assert a.Commit? ==> !Misses(s.procs[p], s.procs[a.pid].claim);
      }
      assert forall i :: Rivals(t, t.procs[p].claim, i) && i in s.tickets ==>
          Rivals(s, t.procs[p].claim, i) || (a.Commit? && i == s.procs[a.pid].claim.id);
    }
  }

  lemma {:induction false} CoveredRun(acts: seq<Act>)
    requires Play(EMPTY, acts).Some? && Never(acts, UnseenCommit)
    ensures AllCovered(Play(EMPTY, acts).value) && Never(acts, DoubleCommit)
  {
    if acts == [] {
    } else {
      var k := |acts| - 1;
      OnePerDeviceIff(acts[..k]);
      CoveredRun(acts[..k]);
      CoveredStep(Play(EMPTY, acts[..k]).value, acts[k]);
    }
  }

  /**
   The rule survives any interleaving in which no activation commits between another one's
   look for rivals and its commit, both claiming the same device for tickets of one event.
   */
  lemma ApartLaw(acts: seq<Act>)
    requires Play(EMPTY, acts).Some? && Never(acts, UnseenCommit)
    ensures OnePerDevice(Play(EMPTY, acts).value)
  {
    CoveredRun(acts);
    OnePerDeviceIff(acts);
  }

  lemma PlayMore(s: State, acts: seq<Act>, a: Act)
    ensures Play(s, acts + [a]) == (if Play(s, acts).None? then None else Do(Play(s, acts).value, a))
  {
    assert (acts + [a])[..|acts|] == acts;
  }

  // ---- an activation left alone ----

  function SoloActs(pid: Pid, claim: Claim, keyValid: bool): seq<Act> {
    [] + [Begin(pid, claim.id, claim.device, claim.key, keyValid, claim.actor)] + [Bind(pid)]
        + [Find(pid)] + [Sweep(pid)]
    + [Commit(pid)]
  }

  lemma SoloFinds(s: State, pid: Pid, claim: Claim)
    requires s.procs == map[pid := Bound(claim)]
    ensures var found := set i | i in s.tickets && Rivals(s, claim, i);
            && Do(s, Find(pid)) == Some(s.(procs := map[pid := Sweeping(claim, found)]))
            && Do(s.(procs := map[pid := Sweeping(claim, found)]), Sweep(pid)) ==
               Some(s.(procs := map[pid := Swept(claim, found)]))
  {
    var found := set i | i in s.tickets && Rivals(s, claim, i);
    var t := s.(procs := map[pid := Sweeping(claim, found)]);
    assert s.procs[pid := Sweeping(claim, found)] == t.procs;
    assert (set i | i in found && Rivals(t, claim, i)) == found;
    assert t.procs[pid := Swept(claim, found)] == map[pid := Swept(claim, found)];
  }

  lemma SoloBinds(s: State, pid: Pid, claim: Claim, keyValid: bool)
    requires s.procs == map[] && claim.id in s.tickets && s.tickets[claim.id].eventId == claim.event
    requires Do(s, Begin(pid, claim.id, claim.device, claim.key, keyValid, claim.actor)).Some?
    ensures Do(s, Begin(pid, claim.id, claim.device, claim.key, keyValid, claim.actor)) ==
            Some(s.(procs := map[pid := Read(claim)]))
    ensures Do(s.(procs := map[pid := Read(claim)]), Bind(pid)) == Some(s.(procs := map[pid := Bound(claim)]))
  {
    assert s.procs[pid := Read(claim)] == map[pid := Read(claim)];
    assert map[pid := Read(claim)][pid := Bound(claim)] == map[pid := Bound(claim)];
  }

  lemma SoloCommits(db: Tables.Db, pid: Pid, claim: Claim)
    requires claim.id in db.tickets && db.tickets[claim.id].eventId == claim.event
    requires Tables.ActivateReply(db, claim.id, claim.device, true, claim.actor) == Tables.Done
    ensures var s := State(db.tickets, map[]);
            var found := set i | i in db.tickets && Rivals(s, claim, i);
            Do(s.(procs := map[pid := Swept(claim, found)]), Commit(pid)) ==
            Some(State(Tables.AfterActivate(db, claim.id, claim.device, claim.key, true, claim.actor).tickets, map[]))
  {
    var s := State(db.tickets, map[]);
    var found := set i | i in db.tickets && Rivals(s, claim, i);
    var after := Tables.AfterActivate(db, claim.id, claim.device, claim.key, true, claim.actor).tickets;
    assert Activated(db.tickets, claim, found) == after;
    assert map[pid := Swept(claim, found)] - {pid} == map[];
  }

  /** An activation left alone can begin exactly when the atomic one succeeds, and then has exactly its effect. */
  lemma SoloActivationLaw(db: Tables.Db, pid: Pid, claim: Claim, keyValid: bool)
    requires claim.id in db.tickets && db.tickets[claim.id].eventId == claim.event
    ensures var s := State(db.tickets, map[]);
            && (Do(s, Begin(pid, claim.id, claim.device, claim.key, keyValid, claim.actor)).Some? <==>
                  Tables.ActivateReply(db, claim.id, claim.device, keyValid, claim.actor) == Tables.Done)
            && (Tables.ActivateReply(db, claim.id, claim.device, keyValid, claim.actor) == Tables.Done ==>
                  Play(s, SoloActs(pid, claim, keyValid)) ==
                  Some(State(Tables.AfterActivate(db, claim.id, claim.device, claim.key, keyValid,
                      claim.actor).tickets, map[])))
  {
    var s := State(db.tickets, map[]);
    if Tables.ActivateReply(db, claim.id, claim.device, keyValid, claim.actor) == Tables.Done {
      var a1 := [] + [Begin(pid, claim.id, claim.device, claim.key, keyValid, claim.actor)];
      SoloBinds(s, pid, claim, keyValid);
      PlayMore(s, [], a1[0]);
      PlayMore(s, a1, Bind(pid));
      SoloFinds(s.(procs := map[pid := Bound(claim)]), pid, claim);
      PlayMore(s, a1 + [Bind(pid)], Find(pid));
      PlayMore(s, a1 + [Bind(pid)] + [Find(pid)], Sweep(pid));
      SameRivals(s, s.(procs := map[pid := Bound(claim)]), claim);
      SoloCommits(db, pid, claim);
      PlayMore(s, a1 + [Bind(pid)] + [Find(pid)] + [Sweep(pid)], Commit(pid));
    }
  }

  lemma SameRivals(s: State, t: State, claim: Claim)
    requires s.tickets == t.tickets
    ensures (set i | i in s.tickets && Rivals(s, claim, i)) == (set i | i in t.tickets && Rivals(t, claim, i))
  {
  }

  // ---- a run in which two overlap ----

  /** Two tickets without a device, and two transactions at these points. */
  ghost predicate Pair(s: State, m: Mapping, m': Mapping, p: Stage, q: Stage) {
    s.tickets == map[0 := NewTicket(m), 1 := NewTicket(m')] && s.procs == map[1 := p, 2 := q]
  }

  function Claims(m: Mapping, m': Mapping, device: DeviceId, key: PublicKey, key': PublicKey): (Claim, Claim) {
    (Claim(0, m.eventId, device, key, m.guestId), Claim(1, m'.eventId, device, key', m'.guestId))
  }

  function Openings(m: Mapping, m': Mapping, device: DeviceId, key: PublicKey, key': PublicKey): seq<Act> {
    [] + [Create(0, m)] + [Create(1, m')] + [Begin(1, 0, device, key, true, m.guestId)]
        + [Begin(2, 1, device, key', true, m'.guestId)]
  }

  lemma BothBegin(m: Mapping, m': Mapping, device: DeviceId, key: PublicKey, key': PublicKey)
    ensures var acts, c := Openings(m, m', device, key, key'), Claims(m, m', device, key, key');
            Play(EMPTY, acts).Some? && Pair(Play(EMPTY, acts).value, m, m', Read(c.0), Read(c.1))
  {
    var a1 := [] + [Create(0, m)];
    var a2 := a1 + [Create(1, m')];
    var a3 := a2 + [Begin(1, 0, device, key, true, m.guestId)];
    PlayMore(EMPTY, [], Create(0, m));
    PlayMore(EMPTY, a1, Create(1, m'));
    PlayMore(EMPTY, a2, Begin(1, 0, device, key, true, m.guestId));
    PlayMore(EMPTY, a3, Begin(2, 1, device, key', true, m'.guestId));
  }

  lemma BothBind(acts: seq<Act>, m: Mapping, m': Mapping, c: Claim, c': Claim)
    requires Play(EMPTY, acts).Some? && Pair(Play(EMPTY, acts).value, m, m', Read(c), Read(c'))
    requires c.id == 0 && c'.id == 1
    ensures Play(EMPTY, acts + [Bind(1)] + [Bind(2)]).Some?
    ensures Pair(Play(EMPTY, acts + [Bind(1)] + [Bind(2)]).value, m, m', Bound(c), Bound(c'))
  {
    PlayMore(EMPTY, acts, Bind(1));
    PlayMore(EMPTY, acts + [Bind(1)], Bind(2));
  }

  lemma FindsNobody(s: State, m: Mapping, m': Mapping, pid: Pid, c: Claim)
    requires s.tickets == map[0 := NewTicket(m), 1 := NewTicket(m')] && pid in s.procs && s.procs[pid] == Bound(c)
    ensures Do(s, Find(pid)) == Some(Move(s, pid, Sweeping(c, {})))
  {
    assert forall i :: !Rivals(s, c, i);
    assert (set i | i in s.tickets && Rivals(s, c, i)) == {};
  }

  lemma SweepsNobody(s: State, pid: Pid, c: Claim)
    requires pid in s.procs && s.procs[pid] == Sweeping(c, {})
    ensures Do(s, Sweep(pid)) == Some(Move(s, pid, Swept(c, {})))
  {
    assert forall q :: q in s.procs ==> Written(s.procs[q]) * {} == {};
    var none: set<TicketId> := {};
    assert (set i | i in none && Rivals(s, c, i)) == {};
  }

  lemma BothFind(acts: seq<Act>, m: Mapping, m': Mapping, c: Claim, c': Claim)
    requires Play(EMPTY, acts).Some? && Pair(Play(EMPTY, acts).value, m, m', Bound(c), Bound(c'))
    ensures Play(EMPTY, acts + [Find(1)] + [Find(2)]).Some?
    ensures Pair(Play(EMPTY, acts + [Find(1)] + [Find(2)]).value, m, m', Sweeping(c, {}), Sweeping(c', {}))
  {
    PlayMore(EMPTY, acts, Find(1));
    PlayMore(EMPTY, acts + [Find(1)], Find(2));
    FindsNobody(Play(EMPTY, acts).value, m, m', 1, c);
    FindsNobody(Play(EMPTY, acts + [Find(1)]).value, m, m', 2, c');
  }

  lemma BothSweep(acts: seq<Act>, m: Mapping, m': Mapping, c: Claim, c': Claim)
    requires Play(EMPTY, acts).Some? && Pair(Play(EMPTY, acts).value, m, m', Sweeping(c, {}), Sweeping(c', {}))
    ensures Play(EMPTY, acts + [Sweep(1)] + [Sweep(2)]).Some?
    ensures Pair(Play(EMPTY, acts + [Sweep(1)] + [Sweep(2)]).value, m, m', Swept(c, {}), Swept(c', {}))
  {
    PlayMore(EMPTY, acts, Sweep(1));
    PlayMore(EMPTY, acts + [Sweep(1)], Sweep(2));
    SweepsNobody(Play(EMPTY, acts).value, 1, c);
    SweepsNobody(Play(EMPTY, acts + [Sweep(1)]).value, 2, c');
  }

  lemma BothCommit(acts: seq<Act>, m: Mapping, m': Mapping, c: Claim, c': Claim)
    requires Play(EMPTY, acts).Some? && Pair(Play(EMPTY, acts).value, m, m', Swept(c, {}), Swept(c', {}))
    requires c.id == 0 && c'.id == 1 && m.eventId == m'.eventId && c.device == c'.device
    ensures Play(EMPTY, acts + [Commit(1)] + [Commit(2)]).Some?
    ensures !OnePerDevice(Play(EMPTY, acts + [Commit(1)] + [Commit(2)]).value)
  {
    PlayMore(EMPTY, acts, Commit(1));
    PlayMore(EMPTY, acts + [Commit(1)], Commit(2));
    var t := Play(EMPTY, acts + [Commit(1)] + [Commit(2)]).value.tickets;
    assert t[0].deviceId == Some(c.device) && t[1].deviceId == Some(c.device) && t[0].eventId == t[1].eventId;
  }

  function OverlapRun(m: Mapping, m': Mapping, device: DeviceId, key: PublicKey, key': PublicKey): seq<Act> {
    Openings(m, m', device, key, key') + [Bind(1)] + [Bind(2)] + [Find(1)] + [Find(2)] + [Sweep(1)] + [Sweep(2)]
    + [Commit(1)] + [Commit(2)]
  }

  /** Two activations side by side bind one device to two tickets of an event: neither sees the other's row. */
  lemma OverlapBindsTwice(m: Mapping, m': Mapping, device: DeviceId, key: PublicKey, key': PublicKey)
    requires m.eventId == m'.eventId
    ensures var end := Play(EMPTY, OverlapRun(m, m', device, key, key')); end.Some? && !OnePerDevice(end.value)
  {
    var c := Claims(m, m', device, key, key');
    var a1 := Openings(m, m', device, key, key');
    var a2 := a1 + [Bind(1)] + [Bind(2)];
    var a3 := a2 + [Find(1)] + [Find(2)];
    var a4 := a3 + [Sweep(1)] + [Sweep(2)];
    BothBegin(m, m', device, key, key');
    BothBind(a1, m, m', c.0, c.1);
    BothFind(a2, m, m', c.0, c.1);
    BothSweep(a3, m, m', c.0, c.1);
    BothCommit(a4, m, m', c.0, c.1);
  }
}
