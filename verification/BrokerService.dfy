/** The broker's module state, updated in place. Each method is one stretch of the program between awaits, or a
    helper it calls, and leaves exactly the state that module Broker computes. */
module BrokerService {
  import opened Common
  import opened LeaseIndex
  import opened Broker
  import opened BrokerInvariant
  import opened BrokerEffects
  import opened BrokerSafety

  /** One more lease: what the port-loss loop does per lease. */
  lemma CancelOneMore(s: State, ids: set<string>, id: string)
    requires id !in ids && id in s.leases && s.leases[id].sessionId in s.sessions
    ensures
      var t := CancelEach(s, ids);
      && id in t.leases && t.leases[id].sessionId == s.leases[id].sessionId
      && CancelEach(s, ids + {id}) == Invalidate(Cancel(t, id), s.leases[id].sessionId)
  {
    var sid := s.leases[id].sessionId;
    var t, u := CancelEach(s, ids), CancelEach(s, ids + {id});
    OneMoreSession(s, ids, id);
    OneMoreLease(s, ids, id);
    CancelLive(t, u, id);
  }

  lemma CancelLive(t: State, u: State, id: string)
    requires id in t.leases && t.leases[id].sessionId in t.sessions
    requires u.leases == t.leases[id := t.leases[id].(cancelled := true)]
    ensures Cancel(t, id) == t.(leases := u.leases)
  {
    if t.leases[id].cancelled {
      assert t.leases[id].(cancelled := true) == t.leases[id];
      assert u.leases == t.leases;
    }
  }

  lemma OneMoreLease(s: State, ids: set<string>, id: string)
    requires id !in ids && id in s.leases
    ensures var t := CancelEach(s, ids);
            id in t.leases && t.leases[id] == s.leases[id]
            && CancelEach(s, ids + {id}).leases == t.leases[id := t.leases[id].(cancelled := true)]
  {
  }

  lemma OneMoreSession(s: State, ids: set<string>, id: string)
    requires id !in ids && id in s.leases && s.leases[id].sessionId in s.sessions
    ensures
      var t := CancelEach(s, ids);
      var sid := s.leases[id].sessionId;
      CancelEach(s, ids + {id}).sessions == t.sessions[sid := t.sessions[sid].(epoch := t.sessions[sid].epoch + 1)]
  {
    var sid := s.leases[id].sessionId;
    assert InSession(s, ids + {id}, sid) == InSession(s, ids, sid) + {id};
    assert forall x: string :: x != sid ==> InSession(s, ids + {id}, x) == InSession(s, ids, x);
  }

  lemma CancelNone(s: State)
    ensures CancelEach(s, {}) == s
  {
    assert forall sid: string :: InSession(s, {}, sid) == {};
    assert CancelEach(s, {}).leases == s.leases && CancelEach(s, {}).sessions == s.sessions;
  }

  ghost predicate RegisteredKnown(s: State) {
    forall id <- s.index.byId :: id in s.leases && s.leases[id].sessionId in s.sessions
  }

  /** One round of the port-loss loop. */
  function PortRound(s: State, lost: nat, id: string): State {
    if id in s.leases && s.leases[id].portEpoch == lost
    then Invalidate(Cancel(s, id), s.leases[id].sessionId) else s
  }

  function PortLoop(s: State, lost: nat, order: seq<string>): State {
    if order == [] then s else PortRound(PortLoop(s, lost, order[..|order| - 1]), lost, order[|order| - 1])
  }

  predicate Visited(start: State, lost: nat, order: seq<string>, s: State) { s == PortLoop(start, lost, order) }

  /** One round of session_close's loop. */
  function CloseRound(s: State, sid: string, id: string): State {
    if id in s.leases && s.leases[id].sessionId == sid then Cancel(s, id) else s
  }

  function CloseLoop(s: State, sid: string, order: seq<string>): State {
    if order == [] then s else CloseRound(CloseLoop(s, sid, order[..|order| - 1]), sid, order[|order| - 1])
  }

  predicate VisitedForClose(start: State, sid: string, order: seq<string>, s: State) { s == CloseLoop(start, sid, order) }

  predicate Distinct(order: seq<string>) { forall i, j :: 0 <= i < j < |order| ==> order[i] != order[j] }

  function Elements(order: seq<string>): set<string> { set id | id in order }

  lemma ElementsInit(order: seq<string>)
    requires order != [] && Distinct(order)
    ensures Elements(order) == Elements(order[..|order| - 1]) + {order[|order| - 1]}
    ensures order[|order| - 1] !in order[..|order| - 1]
  {
    assert order == order[..|order| - 1] + [order[|order| - 1]];
  }

  /** In whatever order the leases are visited, the port-loss loop does the same. */
  lemma {:induction false} PortLoopIs(s: State, lost: nat, order: seq<string>)
    requires RegisteredKnown(s) && Distinct(order) && Elements(order) <= s.index.byId.Keys
    ensures PortLoop(s, lost, order) == CancelEach(s, RegisteredOn(s, lost) * Elements(order))
  {
    if order == [] {
      assert RegisteredOn(s, lost) * Elements(order) == {};
      CancelNone(s);
    } else {
      var init, id := order[..|order| - 1], order[|order| - 1];
      ElementsInit(order);
      PortLoopIs(s, lost, init);
      PortRoundIs(s, lost, Elements(init), id);
    }
  }

  lemma PortRoundIs(s: State, lost: nat, seen: set<string>, id: string)
    requires id in s.index.byId && id in s.leases && s.leases[id].sessionId in s.sessions && id !in seen
    ensures PortRound(CancelEach(s, RegisteredOn(s, lost) * seen), lost, id)
         == CancelEach(s, RegisteredOn(s, lost) * (seen + {id}))
  {
    var cancelled := RegisteredOn(s, lost) * seen;
    assert RegisteredOn(s, lost) * (seen + {id}) ==
      if s.leases[id].portEpoch == lost then cancelled + {id} else cancelled;
    if s.leases[id].portEpoch == lost {
      CancelOneMore(s, cancelled, id);
    }
  }

  lemma {:induction false} CloseLoopIs(s: State, sid: string, order: seq<string>)
    requires RegisteredKnown(s) && Distinct(order) && Elements(order) <= s.index.byId.Keys
    ensures CloseLoop(s, sid, order) == CancelAll(s, RegisteredIn(s, sid) * Elements(order))
  {
    if order == [] {
      assert RegisteredIn(s, sid) * Elements(order) == {};
      assert CancelAll(s, {}).leases == s.leases;
    } else {
      var init, id := order[..|order| - 1], order[|order| - 1];
      ElementsInit(order);
      CloseLoopIs(s, sid, init);
      CloseRoundIs(s, sid, Elements(init), id);
    }
  }

  lemma CloseRoundIs(s: State, sid: string, seen: set<string>, id: string)
    requires id in s.index.byId && id in s.leases && s.leases[id].sessionId in s.sessions
    ensures CloseRound(CancelAll(s, RegisteredIn(s, sid) * seen), sid, id)
         == CancelAll(s, RegisteredIn(s, sid) * (seen + {id}))
  {
    var cancelled := RegisteredIn(s, sid) * seen;
    assert RegisteredIn(s, sid) * (seen + {id}) ==
      if s.leases[id].sessionId == sid then cancelled + {id} else cancelled;
    if s.leases[id].sessionId == sid {
      CancelAllOneMore(s, cancelled, id);
    }
  }

  lemma CancelAllOneMore(s: State, ids: set<string>, id: string)
    requires id in s.leases && s.leases[id].sessionId in s.sessions
    ensures id in CancelAll(s, ids).leases && Cancel(CancelAll(s, ids), id) == CancelAll(s, ids + {id})
  {
    assert Cancel(CancelAll(s, ids), id).leases == CancelAll(s, ids + {id}).leases;
  }

  /** The leases of a request, cancelled one after the other. */
  function CancelLoop(s: State, refs: seq<LeaseRef>): State {
    if refs == [] then s
    else
      var t := CancelLoop(s, refs[..|refs| - 1]);
      var id := refs[|refs| - 1].leaseId;
      if id in t.leases then Cancel(t, id) else t
  }

  function IdsOf(refs: seq<LeaseRef>): set<string> { set l | l in refs :: l.leaseId }

  lemma {:induction false} CancelLoopIs(s: State, refs: seq<LeaseRef>)
    requires RegisteredKnown(s) && IdsOf(refs) <= s.index.byId.Keys
    ensures CancelLoop(s, refs) == CancelAll(s, IdsOf(refs))
  {
    if refs == [] {
      assert CancelAll(s, {}).leases == s.leases;
    } else {
      var init, last := refs[..|refs| - 1], refs[|refs| - 1];
      assert refs == init + [last];
      assert IdsOf(refs) == IdsOf(init) + {last.leaseId};
      CancelLoopIs(s, init);
      CancelAllOneMore(s, IdsOf(init), last.leaseId);
    }
  }

  lemma RequestLeasesKnown(s: State, target: string, refs: seq<LeaseRef>)
    requires LeasesOk(s) && (set l | l in refs) == Active(s.index, target)
    ensures CancelLoop(s, refs) == CancelAll(s, RegisteredFor(s, target))
  {
    IdsOfRequest(s.index, target, refs);
    assert IdsOf(refs) == RegisteredFor(s, target);
    assert forall id <- s.index.byId :: RegisteredOk(s, id);
    CancelLoopIs(s, refs);
  }

  lemma IdsOfRequest(ix: Index, target: string, refs: seq<LeaseRef>)
    requires Coherent(ix) && (set l | l in refs) == Active(ix, target)
    ensures IdsOf(refs) == set l | l in Active(ix, target) :: l.leaseId
    ensures IdsOf(refs) <= ix.byId.Keys
  {
    ActiveIsByRequest(ix, target);
    assert forall l :: l in refs <==> l in (set x | x in refs);
    forall id | id in IdsOf(refs) ensures id in ix.byId {
      var l :| l in refs && l.leaseId == id;
      assert l in Active(ix, target);
      assert l in Registered(ix);
    }
  }

  lemma AppendElement(order: seq<string>, id: string)
    requires Distinct(order) && id !in order
    ensures Distinct(order + [id]) && Elements(order + [id]) == Elements(order) + {id}
    ensures (order + [id])[..|order|] == order
  {
  }

  lemma AppendPortRound(s: State, lost: nat, order: seq<string>, id: string)
    ensures PortLoop(s, lost, order + [id]) == PortRound(PortLoop(s, lost, order), lost, id)
  {
    assert (order + [id])[..|order|] == order;
  }

  lemma AppendCloseRound(s: State, sid: string, order: seq<string>, id: string)
    ensures CloseLoop(s, sid, order + [id]) == CloseRound(CloseLoop(s, sid, order), sid, id)
  {
    assert (order + [id])[..|order|] == order;
  }

  lemma WholeLoops(s: State, lost: nat, sid: string, order: seq<string>)
    requires RegisteredKnown(s) && Distinct(order) && Elements(order) == s.index.byId.Keys
    ensures PortLoop(s, lost, order) == CancelPort(s, lost)
    ensures CloseLoop(s, sid, order) == CancelAll(s, RegisteredIn(s, sid))
  {
    PortLoopIs(s, lost, order);
    CloseLoopIs(s, sid, order);
    assert RegisteredOn(s, lost) * Elements(order) == RegisteredOn(s, lost);
    assert RegisteredIn(s, sid) * Elements(order) == RegisteredIn(s, sid);
  }

  /** A reply that passed the first four checks is delivered exactly if it passes the fifth. */
  lemma LastCheckDecides(s: State, r: Response, handlerLease: Option<string>, afterWatchdog: bool)
    requires var v := Fence(s, r, handlerLease, afterWatchdog); v.Deliver? || v.StaleSession?
    ensures var lease := ReplyLease(s, r, handlerLease);
            && (Fence(s, r, handlerLease, afterWatchdog).Deliver? <==>
                 (afterWatchdog || lease.None? || lease.value !in s.leases
                  || s.leases[lease.value].sessionEpoch == SessionEpoch(s, s.leases[lease.value].sessionId)))
            && Checked(s, r, handlerLease, afterWatchdog)
               == if lease.Some? && lease.value in s.leases then Touch(s, s.leases[lease.value].sessionId) else s
  {
  }

  class BrokerState {
    const registry: LeaseRegistry
    var portLive: bool
    var portEpoch: nat
    var leases: map<string, Lease>
    var sessions: map<string, Session>
    var nextSerial: nat
    var chains: map<ObjectId, seq<Slot>>
    var tasks: map<nat, Task>
    var nextTask: nat
    var prunes: multiset<Prune>
    var timedOutLeases: set<string>
    var timedOutRequests: set<string>
    var posts: seq<Post>
    var arrived: map<string, seq<Message>>
    var outcomes: map<string, seq<Outcome>>

    ghost function S(): State
      reads this, registry
    {
      State(portLive, portEpoch, leases, registry.Maps(), sessions, nextSerial, chains, tasks, nextTask, prunes,
            timedOutLeases, timedOutRequests, posts, arrived, outcomes)
    }

    /** The indexes agree, and every registered lease is known and its session alive. */
    ghost predicate Valid()
      reads this, registry
    {
      && Coherent(registry.Maps())
      && (forall id <- registry.byId :: id in leases && registry.byId[id] == RefOf(id, leases[id])
                                        && leases[id].sessionId in sessions)
      && (forall id <- leases :: ValidLeaseId(id))
    }

    constructor ()
      ensures Init(S()) && Core(S()) && fresh(registry)
    {
      registry := new LeaseRegistry();
      portLive, portEpoch, leases, sessions, nextSerial, chains := false, 0, map[], map[], 0, map[];
      tasks, nextTask, prunes, timedOutLeases, timedOutRequests := map[], 0, multiset{}, {}, {};
      posts, arrived, outcomes := [], map[], map[];
    }

    lemma CoreIsValid()
      requires Core(S())
      ensures Valid()
    {
      assert forall id <- registry.byId :: RegisteredOk(S(), id);
    }

    method GetSession(sid: string)
      modifies this`sessions, this`chains, this`nextSerial
      ensures S() == Touch(old(S()), sid)
      ensures old(Valid()) ==> Valid()
    {
      if sid !in sessions {
        var oid := ObjectId(sid, nextSerial);
        sessions := sessions[sid := Session(oid, 0, false)];
        chains := chains[oid := []];
        nextSerial := nextSerial + 1;
      }
    }

    method InvalidateSession(sid: string)
      modifies this`sessions, this`chains, this`nextSerial
      ensures S() == Invalidate(old(S()), sid)
    {
      GetSession(sid);
      sessions := sessions[sid := sessions[sid].(epoch := sessions[sid].epoch + 1)];
    }

    method CancelLease(id: string)
      requires id in leases
      modifies this`leases, this`sessions, this`chains, this`nextSerial
      ensures S() == Cancel(old(S()), id)
      ensures old(Valid()) ==> Valid()
    {
      if leases[id].cancelled {
        return;
      }
      leases := leases[id := leases[id].(cancelled := true)];
      GetSession(leases[id].sessionId);
    }

    method PortRoundFor(id: string, lost: nat)
      requires id in leases
      modifies this`leases, this`sessions, this`chains, this`nextSerial
      ensures S() == PortRound(old(S()), lost, id)
      ensures leases.Keys == old(leases.Keys)
    {
      if leases[id].portEpoch == lost {
        var sid := leases[id].sessionId;
        CancelLease(id);
        InvalidateSession(sid);
      }
    }

    method VisitNextForPort(ghost start: State, ghost order: seq<string>, todo: set<string>, lost: nat)
        returns (ghost longer: seq<string>, left: set<string>)
      requires todo != {} && todo <= registry.byId.Keys <= leases.Keys
      requires Distinct(order) && Elements(order) == registry.byId.Keys - todo && Visited(start, lost, order, S())
      modifies this`leases, this`sessions, this`chains, this`nextSerial
      ensures left < todo && leases.Keys == old(leases.Keys)
      ensures Distinct(longer) && Elements(longer) == registry.byId.Keys - left && Visited(start, lost, longer, S())
    {
      var id :| id in todo;
      AppendElement(order, id);
      AppendPortRound(start, lost, order, id);
      PortRoundFor(id, lost);
      left := todo - {id};
      longer := order + [id];
    }

    method VisitForPort(lost: nat) returns (ghost order: seq<string>)
      requires registry.byId.Keys <= leases.Keys
      modifies this`leases, this`sessions, this`chains, this`nextSerial
      ensures Distinct(order) && Elements(order) == registry.byId.Keys
      ensures Visited(old(S()), lost, order, S())
    {
      order := [];
      ghost var start := S();
      var todo := set id | id in registry.byId;
      while todo != {}
        invariant todo <= registry.byId.Keys && leases.Keys == old(leases.Keys)
        invariant Distinct(order) && Elements(order) == registry.byId.Keys - todo
        invariant Visited(start, lost, order, S())
        decreases todo
      {
        order, todo := VisitNextForPort(start, order, todo, lost);
      }
    }

    method CancelLeasesForPort(lost: nat)
      requires Valid()
      modifies this`leases, this`sessions, this`chains, this`nextSerial
      ensures S() == CancelPort(old(S()), lost)
    {
      ghost var order := VisitForPort(lost);
      WholeLoops(old(S()), lost, "", order);
    }

    method CloseRoundFor(id: string, sid: string)
      requires id in leases
      modifies this`leases, this`sessions, this`chains, this`nextSerial
      ensures S() == CloseRound(old(S()), sid, id)
      ensures leases.Keys == old(leases.Keys)
    {
      if leases[id].sessionId == sid {
        CancelLease(id);
      }
    }

    method VisitNextForClose(ghost start: State, ghost order: seq<string>, todo: set<string>, sid: string)
        returns (ghost longer: seq<string>, left: set<string>)
      requires todo != {} && todo <= registry.byId.Keys <= leases.Keys
      requires Distinct(order) && Elements(order) == registry.byId.Keys - todo && VisitedForClose(start, sid, order, S())
      modifies this`leases, this`sessions, this`chains, this`nextSerial
      ensures left < todo && leases.Keys == old(leases.Keys)
      ensures Distinct(longer) && Elements(longer) == registry.byId.Keys - left
      ensures VisitedForClose(start, sid, longer, S())
    {
      var id :| id in todo;
      AppendElement(order, id);
      AppendCloseRound(start, sid, order, id);
      CloseRoundFor(id, sid);
      left := todo - {id};
      longer := order + [id];
    }

    method VisitForClose(sid: string) returns (ghost order: seq<string>)
      requires registry.byId.Keys <= leases.Keys
      modifies this`leases, this`sessions, this`chains, this`nextSerial
      ensures Distinct(order) && Elements(order) == registry.byId.Keys
      ensures VisitedForClose(old(S()), sid, order, S())
    {
      order := [];
      ghost var start := S();
      var todo := set id | id in registry.byId;
      while todo != {}
        invariant todo <= registry.byId.Keys && leases.Keys == old(leases.Keys)
        invariant Distinct(order) && Elements(order) == registry.byId.Keys - todo
        invariant VisitedForClose(start, sid, order, S())
        decreases todo
      {
        order, todo := VisitNextForClose(start, order, todo, sid);
      }
    }

    method CloseLeasesOf(sid: string)
      requires Valid()
      modifies this`leases, this`sessions, this`chains, this`nextSerial
      ensures S() == CloseSession(old(S()), sid)
    {
      ghost var order := VisitForClose(sid);
      WholeLoops(old(S()), 0, sid, order);
      InvalidateSession(sid);
    }

    method SchedulePruneOf(sid: string)
      modifies this`prunes
      ensures S() == SchedulePrune(old(S()), sid)
    {
      if sid == DEFAULT_SESSION || sid == CONTROL_PLANE_SESSION || sid !in sessions {
        return;
      }
      var oid := sessions[sid].oid;
      var tail := if oid in chains then |chains[oid]| else 0;
      prunes := prunes + multiset{Prune(sid, oid, tail)};
    }

    method IsIdle(p: Prune) returns (idle: bool)
      requires Valid()
      ensures idle == PruneApplies(S(), p)
    {
      if p.sessionId !in sessions || sessions[p.sessionId].oid != p.oid
         || (if p.oid in chains then |chains[p.oid]| else 0) != p.tail || sessions[p.sessionId].bound {
        return false;
      }
      var held := HoldsLease(p.sessionId);
      return !held;
    }

    method DropIfIdle(p: Prune)
      requires Valid()
      modifies this`prunes, this`sessions
      ensures S() == FirePrune(old(S()), p)
    {
      var idle := IsIdle(p);
      prunes := prunes - multiset{p};
      if idle {
        sessions := sessions - {p.sessionId};
      }
    }

    /** Whether a registered lease belongs to the session. */
    method HoldsLease(sid: string) returns (held: bool)
      requires Valid()
      ensures held <==> !NoLeaseIn(S(), sid)
    {
      var todo := set id | id in registry.byId;
      while todo != {}
        invariant todo <= registry.byId.Keys
        invariant forall id <- registry.byId.Keys - todo :: leases[id].sessionId != sid
        decreases |todo|
      {
        var id :| id in todo;
        if leases[id].sessionId == sid {
          return true;
        }
        todo := todo - {id};
      }
      return false;
    }

    method RegisterLease(m: Message, sid: string, sourceEpoch: nat, id: string)
      requires Valid() && FreshLeaseId(S(), id) && RequestIdOf(m.ids).Some?
      modifies this`leases, this`sessions, this`chains, this`nextSerial, registry
      ensures S() == Register(old(S()), m, sid, sourceEpoch, id)
      ensures Valid()
    {
      GetSession(sid);
      var l := Lease(RequestIdOf(m.ids).value, sourceEpoch, sid, sessions[sid].epoch, false, false, nextTask);
      leases := leases[id := l];
      registry.IndexLease(RefOf(id, l));
    }

    method ClearLease(id: string)
      requires Valid() && id in leases
      modifies this`prunes, registry
      ensures S() == Clear(old(S()), id)
    {
      registry.ClearLease(RefOf(id, leases[id]));
      SchedulePruneOf(leases[id].sessionId);
    }

    /** A lease for a port that is gone is cancelled and cleared as soon as it is made. */
    method RegisterThenDrop(m: Message, sid: string, sourceEpoch: nat, id: string)
      requires Valid() && FreshLeaseId(S(), id) && RequestIdOf(m.ids).Some?
      modifies this, registry
      ensures S() == Clear(Cancel(Register(old(S()), m, sid, sourceEpoch, id), id), id)
    {
      RegisterLease(m, sid, sourceEpoch, id);
      CancelLease(id);
      ClearLease(id);
    }

    method RetirePort()
      requires Valid()
      modifies this`portLive, this`portEpoch
      ensures S() == old(S()).(portEpoch := old(portEpoch) + 1, portLive := false) && Valid()
    {
      portEpoch := portEpoch + 1;
      portLive := false;
    }

    method LosePort()
      requires Valid()
      modifies this
      ensures S() == DropPort(old(S()))
    {
      var lost := portEpoch;
      RetirePort();
      CancelLeasesForPort(lost);
    }

    /** handleBrokerMessageWithWatchdog up to its first await. */
    method RunMessage(m: Message, sid: string, sourceEpoch: nat, id: string, home: Option<Home>)
      requires Valid() && FreshLeaseId(S(), id)
      modifies this, registry
      ensures S() == Begin(old(S()), m, sid, sourceEpoch, id, home)
    {
      var hasId := RequestIdOf(m.ids).Some?;
      if sourceEpoch != portEpoch {
        if hasId {
          RegisterThenDrop(m, sid, sourceEpoch, id);
        }
      } else {
        if hasId {
          RegisterLease(m, sid, sourceEpoch, id);
        }
        StartTask(Task(m, sid, if hasId then Some(id) else None, home, false));
      }
    }

    method StartTask(k: Task)
      modifies this`tasks, this`nextTask
      ensures S() == old(S()).(tasks := old(tasks)[old(nextTask) := k], nextTask := old(nextTask) + 1)
    {
      tasks := tasks[nextTask := k];
      nextTask := nextTask + 1;
    }

    /** A message that goes through its session's queue. */
    method EnqueueMessage(m: Message)
      requires Core(S()) && portLive
      modifies this
      ensures S() == Enqueue(old(S()), m) && Core(S())
    {
      EnqueueKeepsCore(S(), m);
      AppendLink(m);
    }

    method AppendLink(m: Message)
      modifies this`sessions, this`chains, this`nextSerial, this`arrived
      ensures S() == Enqueue(old(S()), m)
    {
      var sid := SessionOf(m);
      GetSession(sid);
      var oid := sessions[sid].oid;
      var queue := if oid in chains then chains[oid] else [];
      chains := chains[oid := queue + [Slot(m, portEpoch, Waiting)]];
      arrived := arrived[sid := (if sid in arrived then arrived[sid] else []) + [m]];
    }

    method StartTurn(h: Home, id: string)
      requires Valid() && Enabled(S(), StartChained(h, id))
      modifies this, registry
      ensures S() == StartSlot(old(S()), h, id)
    {
      var slot := chains[h.oid][h.slot];
      var sid := SessionOf(slot.message);
      var live := slot.portEpoch == portEpoch;
      chains := chains[h.oid := chains[h.oid][h.slot := slot.(status := if live then Running(nextTask) else Resolved)]];
      outcomes := outcomes[sid := (if sid in outcomes then outcomes[sid] else [])
                                  + [if live then Started(slot.message) else Discarded(slot.message)]];
      RunMessage(slot.message, sid, slot.portEpoch, id, Some(h));
    }

    method FinishTask(task: nat)
      requires Valid() && Enabled(S(), SettleHandler(task))
      modifies this, registry
      ensures S() == Settle(old(S()), task)
    {
      var lease := tasks[task].lease;
      tasks := tasks - {task};
      if lease.Some? {
        ClearLease(lease.value);
      }
    }

    method FindLease(r: Response, handlerLease: Option<string>) returns (lease: Option<string>)
      requires Valid()
      modifies registry
      ensures S() == old(S()) && lease == ReplyLease(S(), r, handlerLease)
    {
      lease := handlerLease;
      if lease.None? {
        var found := registry.ResolveForResponse(RequestIdOf(r.ids), r.leaseId);
        lease := if found.Some? then Some(found.value.leaseId) else None;
      }
    }

    method RequestIsActive(correlation: string) returns (active: bool)
      requires Valid()
      modifies registry
      ensures S() == old(S()) && active == (Active(S().index, correlation) != {})
    {
      NothingDangles(registry.Maps(), correlation);
      ghost var found := Active(registry.Maps(), correlation);
      var ls := registry.ActiveForRequest(correlation);
      active := |ls| > 0;
      assert found == set l | l in ls;
      if active {
        assert ls[0] in found;
      }
    }

    /** The checks before the session's epoch is read. */
    method CheckFence(r: Response, handlerLease: Option<string>, afterWatchdog: bool) returns (pass: bool, lease: Option<string>)
      requires Valid()
      modifies registry
      ensures S() == old(S()) && lease == ReplyLease(S(), r, handlerLease)
      ensures pass == (Fence(S(), r, handlerLease, afterWatchdog).Deliver?
                       || Fence(S(), r, handlerLease, afterWatchdog).StaleSession?)
    {
      var correlation := RequestIdOf(r.ids);
      lease := FindLease(r, handlerLease);
      if handlerLease.Some? && correlation.Some? && handlerLease.value !in registry.byId && !afterWatchdog {
        var active := RequestIsActive(correlation.value);
        if active {
          return false, lease;
        }
      }
      var known := lease.Some? && lease.value in leases;
      if known && leases[lease.value].cancelled && !afterWatchdog {
        return false, lease;
      }
      if !afterWatchdog && ((lease.Some? && lease.value in timedOutLeases)
                            || (lease.None? && correlation.Some? && correlation.value in timedOutRequests)) {
        return false, lease;
      }
      if known && leases[lease.value].portEpoch != portEpoch {
        return false, lease;
      }
      return true, lease;
    }

    /** The session-epoch check, which creates the session it reads. */
    method CheckSession(lease: Option<string>, afterWatchdog: bool) returns (pass: bool)
      requires Valid()
      modifies this`sessions, this`chains, this`nextSerial
      ensures S() == if lease.Some? && lease.value in leases then Touch(old(S()), leases[lease.value].sessionId) else old(S())
      ensures Valid()
      ensures pass == (afterWatchdog || lease.None? || lease.value !in leases ||
                leases[lease.value].sessionEpoch == SessionEpoch(old(S()), leases[lease.value].sessionId))
    {
      pass := true;
      if lease.Some? && lease.value in leases {
        var l := leases[lease.value];
        GetSession(l.sessionId);
        pass := l.sessionEpoch == sessions[l.sessionId].epoch || afterWatchdog;
      }
    }

    method PostToNative(lease: Option<string>, afterWatchdog: bool, postOk: bool)
      requires Valid()
      modifies this
      ensures S() == if !old(portLive) then old(S())
                     else if postOk then old(S()).(posts := old(posts) + [Post(lease, old(portEpoch), afterWatchdog)])
                     else DropPort(old(S()))
    {
      if !portLive {
        return;
      }
      if postOk {
        posts := posts + [Post(lease, portEpoch, afterWatchdog)];
      } else {
        LosePort();
      }
    }

    /** All the checks a reply passes. */
    method PassFence(r: Response, handlerLease: Option<string>, afterWatchdog: bool) returns (pass: bool, lease: Option<string>)
      requires Valid()
      modifies this`sessions, this`chains, this`nextSerial, registry
      ensures lease == ReplyLease(old(S()), r, handlerLease)
      ensures pass == Fence(old(S()), r, handlerLease, afterWatchdog).Deliver?
      ensures S() == Checked(old(S()), r, handlerLease, afterWatchdog)
      ensures Valid()
    {
      pass, lease := CheckFence(r, handlerLease, afterWatchdog);
      if pass {
        LastCheckDecides(S(), r, handlerLease, afterWatchdog);
        pass := CheckSession(lease, afterWatchdog);
      }
    }

    /** The reply path: find the lease, check the fence, post. */
    method SendResponse(r: Response, handlerLease: Option<string>, afterWatchdog: bool, postOk: bool)
      requires Valid()
      modifies this, registry
      ensures S() == Send(old(S()), r, handlerLease, afterWatchdog, postOk)
    {
      var pass, lease := PassFence(r, handlerLease, afterWatchdog);
      if pass {
        PostToNative(lease, afterWatchdog, postOk);
      }
    }

    method CancelForRequest(target: string)
      requires Core(S())
      modifies this`leases, this`sessions, this`chains, this`nextSerial, registry
      ensures S() == CancelAll(old(S()), RegisteredFor(old(S()), target))
    {
      CoreIsValid();
      NothingDangles(registry.Maps(), target);
      var refs := registry.ActiveForRequest(target);
      RequestLeasesKnown(S(), target, refs);
      CancelRefs(refs);
    }

    method CancelRefs(refs: seq<LeaseRef>)
      modifies this`leases, this`sessions, this`chains, this`nextSerial
      ensures S() == CancelLoop(old(S()), refs)
    {
      for i := 0 to |refs|
        invariant S() == CancelLoop(old(S()), refs[..i])
      {
        assert refs[..i + 1][..i] == refs[..i];
        if refs[i].leaseId in leases {
          CancelLease(refs[i].leaseId);
        }
      }
      assert refs[..|refs|] == refs;
    }

    /** A message from the live port. */
    method Dispatch(m: Message, id: string, postOk: bool)
      requires Core(S()) && Enabled(S(), Arrive(m, id, postOk))
      modifies this, registry
      ensures S() == Receive(old(S()), m, id, postOk) && Core(S())
      ensures Does(old(S()), Arrive(m, id, postOk), S())
    {
      StepDoes(S(), Arrive(m, id, postOk));
      ReceiveKeepsCore(S(), m, id, postOk);
      CoreIsValid();
      var sid := SessionOf(m);
      match m.command {
        case Other => EnqueueMessage(m);
        case Ping => RunMessage(m, sid, portEpoch, id, None);
        case SessionClose => CloseThenRun(m, id);
        case CancelRequest(target) => RunThenCancel(m, id, postOk);
      }
    }

    method CloseThenRun(m: Message, id: string)
      requires Core(S()) && Valid() && FreshLeaseId(S(), id)
      modifies this, registry
      ensures S() == Begin(CloseSession(old(S()), SessionOf(m)), m, SessionOf(m), old(portEpoch), id, None)
    {
      CloseSessionWeakens(S(), SessionOf(m));
      WeakensKeepsCore(S(), CloseSession(S(), SessionOf(m)));
      CloseLeasesOf(SessionOf(m));
      CoreIsValid();
      RunMessage(m, SessionOf(m), portEpoch, id, None);
    }

    method RunThenCancel(m: Message, id: string, postOk: bool)
      requires Core(S()) && Valid() && FreshLeaseId(S(), id) && portLive && m.command.CancelRequest?
      modifies this, registry
      ensures S() == CancelThenReply(Begin(old(S()), m, SessionOf(m), old(portEpoch), id, None), m, postOk)
    {
      BeginKeepsCore(S(), m, SessionOf(m), id);
      RunMessage(m, SessionOf(m), portEpoch, id, None);
      CancelAndReply(m, postOk);
    }

    method CancelAndReply(m: Message, postOk: bool)
      requires Core(S()) && m.command.CancelRequest?
      modifies this, registry
      ensures S() == CancelThenReply(old(S()), m, postOk)
    {
      var target := m.command.target;
      CancelAllWeakens(S(), RegisteredFor(S(), target));
      WeakensKeepsCore(S(), CancelAll(S(), RegisteredFor(S(), target)));
      CancelForRequest(target);
      CoreIsValid();
      SendResponse(CancelReply(m), None, false, postOk);
    }

    /** The watchdog timer of an unsettled handler. */
    method WatchdogFires(task: nat, postOk: bool)
      requires Core(S()) && Enabled(S(), FireWatchdog(task, postOk))
      modifies this, registry
      ensures S() == Watchdog(old(S()), task, postOk) && Core(S())
      ensures Does(old(S()), FireWatchdog(task, postOk), S())
    {
      StepDoes(S(), FireWatchdog(task, postOk));
      WatchdogKeepsCore(S(), task, postOk);
      CutHandler(task, postOk);
    }

    method CutHandler(task: nat, postOk: bool)
      requires Core(S()) && task in tasks && (tasks[task].lease.Some? ==> tasks[task].lease.value in leases)
      modifies this, registry
      ensures S() == Watchdog(old(S()), task, postOk)
    {
      var k := tasks[task];
      CutOff(task, k, postOk);
      tasks := tasks[task := k.(cut := true)];
    }

    method CutOff(task: nat, k: Task, postOk: bool)
      requires Core(S()) && task in tasks && tasks[task] == k
      requires k.lease.Some? ==> k.lease.value in leases
      modifies this, registry
      ensures S() == BeforeCut(old(S()), task, postOk)
    {
      TimeOut(task, k);
      if RawIdOf(k.message.ids) != "" {
        SendResponse(TimeoutReply(k), None, true, postOk);
      }
    }

    method CancelTimedOutLease(lease: Option<string>)
      requires lease.Some? ==> lease.value in leases
      modifies this`leases, this`sessions, this`chains, this`nextSerial
      ensures S() == CancelTimedOut(old(S()), lease)
    {
      if lease.Some? {
        leases := leases[lease.value := leases[lease.value].(watchdogTimedOut := true)];
        CancelLease(lease.value);
      }
    }

    method RememberTimeout(k: Task)
      modifies this`timedOutLeases, this`timedOutRequests
      ensures S() == Remember(old(S()), k)
    {
      if RawIdOf(k.message.ids) != "" {
        if k.lease.Some? {
          timedOutLeases := timedOutLeases + {k.lease.value};
        } else {
          timedOutRequests := timedOutRequests + {RawIdOf(k.message.ids)};
        }
      }
    }

    method TimeOut(task: nat, k: Task)
      requires Core(S()) && task in tasks && tasks[task] == k
      requires k.lease.Some? ==> k.lease.value in leases
      modifies this`leases, this`sessions, this`chains, this`nextSerial, this`timedOutLeases, this`timedOutRequests
      ensures S() == TimedOut(old(S()), task) && Valid()
    {
      TimedOutWeakens(S(), task);
      WeakensKeepsCore(S(), TimedOut(S(), task));
      CancelTimedOutLease(k.lease);
      InvalidateSession(k.sessionId);
      RememberTimeout(k);
      CoreIsValid();
    }

    // The other steps of the machine. Each keeps the invariant, so that they may follow one another in any order.

    method ConnectPort()
      requires Core(S()) && Enabled(S(), Step.ConnectPort)
      modifies this`portLive, this`portEpoch
      ensures S() == Connect(old(S())) && Core(S())
      ensures Does(old(S()), Step.ConnectPort, S())
    {
      StepDoes(S(), Step.ConnectPort);
      StepKeepsCore(S(), Step.ConnectPort);
      portLive, portEpoch := true, portEpoch + 1;
    }

    method DisconnectPort()
      requires Core(S()) && Enabled(S(), Step.DisconnectPort)
      modifies this
      ensures S() == DropPort(old(S())) && Core(S())
      ensures Does(old(S()), Step.DisconnectPort, S())
    {
      StepDoes(S(), Step.DisconnectPort);
      StepKeepsCore(S(), Step.DisconnectPort);
      CoreIsValid();
      LosePort();
    }

    /** The promise of the link before this one has resolved. */
    method TakeTurn(h: Home, id: string)
      requires Core(S()) && Enabled(S(), StartChained(h, id))
      modifies this, registry
      ensures S() == StartSlot(old(S()), h, id) && Core(S())
      ensures Does(old(S()), StartChained(h, id), S())
    {
      StepDoes(S(), StartChained(h, id));
      StepKeepsCore(S(), StartChained(h, id));
      CoreIsValid();
      StartTurn(h, id);
    }

    /** The handler of this link has settled, or its watchdog has cut it off. */
    method ResolveTurn(h: Home)
      requires Core(S()) && Enabled(S(), ResolveSlot(h))
      modifies this`chains
      ensures S() == SetStatus(old(S()), h, Resolved) && Core(S())
      ensures Does(old(S()), ResolveSlot(h), S())
    {
      StepDoes(S(), ResolveSlot(h));
      StepKeepsCore(S(), ResolveSlot(h));
      chains := chains[h.oid := chains[h.oid][h.slot := chains[h.oid][h.slot].(status := Resolved)]];
    }

    /** A handler replies while it runs. */
    method HandlerReplies(r: Response, lease: Option<string>, postOk: bool)
      requires Core(S()) && Enabled(S(), Reply(r, lease, postOk))
      modifies this, registry
      ensures S() == Send(old(S()), r, lease, false, postOk) && Core(S())
      ensures Does(old(S()), Reply(r, lease, postOk), S())
    {
      StepDoes(S(), Reply(r, lease, postOk));
      StepKeepsCore(S(), Reply(r, lease, postOk));
      CoreIsValid();
      SendResponse(r, lease, false, postOk);
    }

    /** The handler's finally block. */
    method SettleTask(task: nat)
      requires Core(S()) && Enabled(S(), SettleHandler(task))
      modifies this, registry
      ensures S() == Settle(old(S()), task) && Core(S())
      ensures Does(old(S()), SettleHandler(task), S())
    {
      StepDoes(S(), SettleHandler(task));
      StepKeepsCore(S(), SettleHandler(task));
      CoreIsValid();
      FinishTask(task);
    }

    method PruneIfIdle(p: Prune)
      requires Core(S()) && Enabled(S(), PruneSession(p))
      modifies this`prunes, this`sessions
      ensures S() == FirePrune(old(S()), p) && Core(S())
      ensures Does(old(S()), PruneSession(p), S())
    {
      StepDoes(S(), PruneSession(p));
      StepKeepsCore(S(), PruneSession(p));
      CoreIsValid();
      DropIfIdle(p);
    }

    /** A tab, URL or lifecycle commit, or any other access to a session. */
    method BindSession(sid: string, bound: bool)
      requires Core(S())
      modifies this`sessions, this`chains, this`nextSerial
      ensures S() == SetBound(old(S()), sid, bound) && Core(S())
      ensures Does(old(S()), Step.BindSession(sid, bound), S())
    {
      StepDoes(S(), Step.BindSession(sid, bound));
      StepKeepsCore(S(), Step.BindSession(sid, bound));
      Bind(sid, bound);
    }

    method Bind(sid: string, bound: bool)
      modifies this`sessions, this`chains, this`nextSerial
      ensures S() == SetBound(old(S()), sid, bound)
    {
      GetSession(sid);
      sessions := sessions[sid := sessions[sid].(bound := bound)];
    }

    /** The memory of a timed-out reply expires. */
    method ForgetTimedOutReply(key: string)
      requires Core(S())
      modifies this`timedOutLeases, this`timedOutRequests
      ensures S() == Apply(old(S()), ForgetTimedOut(key)) && Core(S())
      ensures Does(old(S()), ForgetTimedOut(key), S())
    {
      StepDoes(S(), ForgetTimedOut(key));
      StepKeepsCore(S(), ForgetTimedOut(key));
      timedOutLeases, timedOutRequests := timedOutLeases - {key}, timedOutRequests - {key};
    }
  }
}
