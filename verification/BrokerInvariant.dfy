/** What every step of the broker keeps. */
module BrokerInvariant {
  import opened Common
  import opened LeaseIndex
  import opened Broker

  // ---------- the invariant ----------

  ghost predicate SessionsOk(s: State) {
    && (forall sid <- s.sessions :: s.sessions[sid].oid in s.chains && s.sessions[sid].oid.sessionId == sid)
    && (forall oid <- s.chains :: oid.serial < s.nextSerial)
  }

  /** `oid` is the live object of its session. */
  predicate Attached(s: State, oid: ObjectId) {
    oid.sessionId in s.sessions && s.sessions[oid.sessionId].oid == oid
  }

  /** A chain is resolved links, then at most one running link, then waiting links. */
  ghost predicate ChainShape(c: seq<Slot>) {
    forall i, j :: 0 <= i < j < |c| && !c[j].status.Waiting? ==> c[i].status.Resolved?
  }

  ghost predicate SlotOk(s: State, oid: ObjectId, i: nat)
    requires oid in s.chains && i < |s.chains[oid]|
  {
    var slot := s.chains[oid][i];
    && slot.portEpoch <= s.portEpoch
    && (slot.portEpoch == s.portEpoch ==> s.portLive)
    && SessionOf(slot.message) == oid.sessionId
    && (!slot.status.Resolved? ==> Attached(s, oid))
    && (slot.status.Running? ==>
          && slot.status.task < s.nextTask
          && (slot.status.task in s.tasks ==> s.tasks[slot.status.task].home == Some(Home(oid, i))))
  }

  ghost predicate ChainsOk(s: State) {
    forall oid <- s.chains ::
      ChainShape(s.chains[oid]) && forall i :: 0 <= i < |s.chains[oid]| ==> SlotOk(s, oid, i)
  }

  ghost predicate TaskOk(s: State, t: nat)
    requires t in s.tasks
  {
    var k := s.tasks[t];
    && t < s.nextTask
    && (k.lease.Some? <==> RequestIdOf(k.message.ids).Some?)
    && (k.lease.Some? ==>
          && k.lease.value in s.leases
          && s.leases[k.lease.value].owner == t
          && s.leases[k.lease.value].sessionId == k.sessionId
          && k.lease.value in s.index.byId
          && (k.cut ==> s.leases[k.lease.value].cancelled))
    && (k.home.Some? ==>
          && k.home.value.slot < |Chain(s, k.home.value.oid)|
          && (var status := Chain(s, k.home.value.oid)[k.home.value.slot].status;
              status == Running(t) || (status.Resolved? && k.cut))
          && k.home.value.oid.sessionId == k.sessionId
          && (k.lease.Some? ==> Attached(s, k.home.value.oid)))
  }

  ghost predicate TasksOk(s: State) { forall t <- s.tasks :: TaskOk(s, t) }

  /** A registered lease: its handler is unsettled, its session is alive, and unless cancelled it is for the live port. */
  ghost predicate RegisteredOk(s: State, id: string)
    requires id in s.index.byId
  {
    && id in s.leases
    && var l := s.leases[id];
    && s.index.byId[id] == RefOf(id, l)
    && l.owner in s.tasks && s.tasks[l.owner].lease == Some(id)
    && l.sessionId in s.sessions
    && l.sessionEpoch <= s.sessions[l.sessionId].epoch
    && (!l.cancelled ==> l.portEpoch == s.portEpoch && s.portLive)
  }

  ghost predicate LeasesOk(s: State) {
    && Coherent(s.index)
    && (forall id <- s.index.byId :: RegisteredOk(s, id))
    && (forall id <- s.leases :: id != "" && ValidLeaseId(id) && s.leases[id].portEpoch <= s.portEpoch)
  }

  function Waiters(c: seq<Slot>): seq<Message> {
    if c == [] then []
    else Waiters(c[..|c| - 1]) + if c[|c| - 1].status.Waiting? then [c[|c| - 1].message] else []
  }

  /** The messages of a session that have not had their turn. */
  function WaitingIn(s: State, sid: string): seq<Message> {
    if sid in s.sessions then Waiters(Chain(s, s.sessions[sid].oid)) else []
  }

  function Messages(os: seq<Outcome>): (ms: seq<Message>)
    ensures |ms| == |os| && forall i :: 0 <= i < |os| ==> ms[i] == os[i].message
  {
    seq(|os|, i requires 0 <= i < |os| => os[i].message)
  }

  ghost predicate Conserved(s: State, sid: string) {
    At(s.arrived, sid) == Messages(At(s.outcomes, sid)) + WaitingIn(s, sid)
  }

  ghost predicate QueuesOk(s: State) { forall sid: string :: Conserved(s, sid) }

  /** Every part of the invariant but the one about posts. */
  ghost predicate Core(s: State) { SessionsOk(s) && ChainsOk(s) && TasksOk(s) && LeasesOk(s) && QueuesOk(s) }

  ghost predicate WatchdogPost(s: State, i: nat)
    requires i < |s.posts|
  {
    s.posts[i].watchdog && s.posts[i].lease.Some?
  }

  /** After the watchdog has replied for a lease that lease is spent: cancelled, and its handler cut. */
  ghost predicate Spent(s: State, id: string) {
    && id in s.leases && s.leases[id].cancelled
    && (s.leases[id].owner in s.tasks && s.tasks[s.leases[id].owner].lease == Some(id)
        ==> s.tasks[s.leases[id].owner].cut)
  }

  ghost predicate PostsOk(s: State) {
    && (forall i :: 0 <= i < |s.posts| && WatchdogPost(s, i) ==> Spent(s, s.posts[i].lease.value))
    && (forall i, j :: 0 <= i < j < |s.posts| && WatchdogPost(s, i) ==> s.posts[j].lease != s.posts[i].lease)
  }

  ghost predicate Inv(s: State) { Core(s) && PostsOk(s) }

  // ---------- steps that only cancel, raise epochs and create sessions ----------

  predicate SameButCancelled(a: Lease, b: Lease) {
    b == a.(cancelled := b.cancelled, watchdogTimedOut := b.watchdogTimedOut) && (a.cancelled ==> b.cancelled)
  }

  ghost predicate LeasesWeaken(s: State, t: State) {
    && s.portEpoch <= t.portEpoch
    && (t.portEpoch == s.portEpoch ==> t.portLive == s.portLive)
    && (t.portEpoch != s.portEpoch ==> forall id <- s.index.byId :: id in t.leases ==> t.leases[id].cancelled)
    && t.leases.Keys == s.leases.Keys
    && (forall id <- s.leases :: SameButCancelled(s.leases[id], t.leases[id]))
  }

  ghost predicate SameWork(s: State, t: State) {
    && t.index == s.index && t.tasks == s.tasks && t.nextTask == s.nextTask
    && t.arrived == s.arrived && t.outcomes == s.outcomes
  }

  ghost predicate SessionsGrow(s: State, t: State) {
    && s.nextSerial <= t.nextSerial
    && (forall sid <- s.sessions :: sid in t.sessions && t.sessions[sid].oid == s.sessions[sid].oid
                                    && s.sessions[sid].epoch <= t.sessions[sid].epoch)
    && (forall sid <- t.sessions :: sid in s.sessions ||
          (t.sessions[sid].oid in t.chains && t.sessions[sid].oid !in s.chains && t.sessions[sid].oid.sessionId == sid))
    && (forall oid <- s.chains :: oid in t.chains && t.chains[oid] == s.chains[oid])
    && (forall oid <- t.chains :: oid in s.chains || (s.nextSerial <= oid.serial < t.nextSerial && t.chains[oid] == []))
  }

  ghost predicate Weakens(s: State, t: State) { LeasesWeaken(s, t) && SameWork(s, t) && SessionsGrow(s, t) }

  lemma WeakensKeepsCore(s: State, t: State)
    requires Core(s) && Weakens(s, t)
    ensures Core(t)
  {
    WeakensKeepsSessions(s, t);
    WeakensKeepsChains(s, t);
    WeakensKeepsTasks(s, t);
    forall sid: string ensures Conserved(t, sid) {
      assert Conserved(s, sid);
    }
  }

  lemma WeakensKeepsSessions(s: State, t: State)
    requires SessionsOk(s) && Weakens(s, t)
    ensures SessionsOk(t)
  {
  }

  lemma WeakensKeepsChains(s: State, t: State)
    requires ChainsOk(s) && Weakens(s, t)
    ensures ChainsOk(t)
  {
    forall oid | oid in t.chains
      ensures ChainShape(t.chains[oid]) && forall i :: 0 <= i < |t.chains[oid]| ==> SlotOk(t, oid, i)
    {
      if oid in s.chains {
        forall i | 0 <= i < |t.chains[oid]| ensures SlotOk(t, oid, i) {
          assert SlotOk(s, oid, i);
        }
      }
    }
  }

  lemma WeakensKeepsTasks(s: State, t: State)
    requires TasksOk(s) && LeasesOk(s) && Weakens(s, t)
    ensures TasksOk(t) && LeasesOk(t)
  {
    forall k | k in t.tasks ensures TaskOk(t, k) {
      WeakensKeepsTask(s, t, k);
    }
    forall id | id in t.index.byId ensures RegisteredOk(t, id) {
      WeakensKeepsRegistered(s, t, id);
    }
  }

  lemma WeakensKeepsTask(s: State, t: State, k: nat)
    requires k in s.tasks && TaskOk(s, k) && Weakens(s, t)
    ensures k in t.tasks && TaskOk(t, k)
  {
  }

  lemma WeakensKeepsRegistered(s: State, t: State, id: string)
    requires id in s.index.byId && RegisteredOk(s, id) && Weakens(s, t)
    ensures id in t.index.byId && RegisteredOk(t, id)
  {
  }

  lemma WeakensTransitive(s: State, t: State, u: State)
    requires SessionsOk(s) && Weakens(s, t) && Weakens(t, u)
    ensures Weakens(s, u)
  {
    forall id | id in s.leases ensures SameButCancelled(s.leases[id], u.leases[id]) {
      assert SameButCancelled(s.leases[id], t.leases[id]) && SameButCancelled(t.leases[id], u.leases[id]);
    }
  }

  lemma TouchWeakens(s: State, sid: string)
    requires SessionsOk(s)
    ensures Weakens(s, Touch(s, sid)) && SessionsOk(Touch(s, sid))
  {
    if sid !in s.sessions {
      var t := Touch(s, sid);
      var oid := ObjectId(sid, s.nextSerial);
      assert t.sessions == s.sessions[sid := Session(oid, 0, false)] && t.chains == s.chains[oid := []];
      assert oid !in s.chains;
      assert LeasesWeaken(s, t) && SameWork(s, t);
      assert SessionsGrow(s, t);
    }
  }

  /** A live session's epoch may rise and its binding change. */
  lemma EditWeakens(s: State, sid: string, epoch: nat, bound: bool)
    requires SessionsOk(s) && sid in s.sessions && s.sessions[sid].epoch <= epoch
    ensures var t := s.(sessions := s.sessions[sid := s.sessions[sid].(epoch := epoch, bound := bound)]);
            Weakens(s, t) && SessionsOk(t)
  {
    var t := s.(sessions := s.sessions[sid := s.sessions[sid].(epoch := epoch, bound := bound)]);
    assert LeasesWeaken(s, t) && SameWork(s, t);
  }

  lemma InvalidateWeakens(s: State, sid: string)
    requires SessionsOk(s)
    ensures Weakens(s, Invalidate(s, sid)) && SessionsOk(Invalidate(s, sid))
  {
    TouchWeakens(s, sid);
    var t := Touch(s, sid);
    var e := t.sessions[sid];
    EditWeakens(t, sid, e.epoch + 1, e.bound);
    WeakensTransitive(s, t, Invalidate(s, sid));
  }

  lemma SetBoundWeakens(s: State, sid: string, bound: bool)
    requires SessionsOk(s)
    ensures Weakens(s, SetBound(s, sid, bound))
  {
    TouchWeakens(s, sid);
    var t := Touch(s, sid);
    EditWeakens(t, sid, t.sessions[sid].epoch, bound);
    WeakensTransitive(s, t, SetBound(s, sid, bound));
  }

  lemma CancelAllWeakens(s: State, ids: set<string>)
    requires SessionsOk(s)
    ensures Weakens(s, CancelAll(s, ids)) && SessionsOk(CancelAll(s, ids))
  {
  }

  lemma CloseSessionWeakens(s: State, sid: string)
    requires SessionsOk(s)
    ensures Weakens(s, CloseSession(s, sid))
  {
    CancelAllWeakens(s, RegisteredIn(s, sid));
    InvalidateWeakens(CancelAll(s, RegisteredIn(s, sid)), sid);
    WeakensTransitive(s, CancelAll(s, RegisteredIn(s, sid)), CloseSession(s, sid));
  }

  /** Losing the port cancels every registered lease: all uncancelled ones carry the lost epoch. */
  lemma DropPortWeakens(s: State)
    requires SessionsOk(s) && LeasesOk(s)
    ensures Weakens(s, DropPort(s))
  {
    var t := DropPort(s);
    DropPortCancelsAll(s);
    assert SameWork(s, t) && LeasesWeaken(s, t);
    DropPortSessions(s);
  }

  lemma DropPortSessions(s: State)
    requires SessionsOk(s)
    ensures SessionsGrow(s, DropPort(s))
  {
    var t := DropPort(s);
    assert t.chains == s.chains && t.sessions.Keys == s.sessions.Keys;
  }

  lemma DropPortCancelsAll(s: State)
    requires LeasesOk(s)
    ensures forall id <- s.index.byId :: id in DropPort(s).leases && DropPort(s).leases[id].cancelled
  {
    forall id | id in s.index.byId
      ensures id in DropPort(s).leases && DropPort(s).leases[id].cancelled
    {
      assert RegisteredOk(s, id);
      assert s.leases[id].cancelled || id in RegisteredOn(s, s.portEpoch);
    }
  }

  /** A send creates at most the lease's session; then it adds a post, drops the port, or does nothing. */
  lemma SendIs(s: State, r: Response, lease: Option<string>, afterWatchdog: bool, postOk: bool) returns (t: State)
    ensures t == s || exists sid :: t == Touch(s, sid)
    ensures
      var u := Send(s, r, lease, afterWatchdog, postOk);
      u == t.(posts := u.posts) || u == DropPort(t)
  {
    var l := ReplyLease(s, r, lease);
    var verdict := Fence(s, r, lease, afterWatchdog);
    t := if (verdict.StaleSession? || verdict.Deliver?) && l.Some? && l.value in s.leases
         then Touch(s, s.leases[l.value].sessionId) else s;
  }

  lemma SendWeakens(s: State, r: Response, lease: Option<string>, afterWatchdog: bool, postOk: bool)
    requires SessionsOk(s) && LeasesOk(s) && TasksOk(s)
    ensures Weakens(s, Send(s, r, lease, afterWatchdog, postOk))
  {
    var t := SendIs(s, r, lease, afterWatchdog, postOk);
    MaybeTouched(s, t);
    var u := Send(s, r, lease, afterWatchdog, postOk);
    if u == DropPort(t) {
      DropPortWeakens(t);
    } else {
      OnlyMemory(t, u);
    }
    WeakensTransitive(s, t, u);
  }

  lemma MaybeTouched(s: State, t: State)
    requires SessionsOk(s) && LeasesOk(s) && TasksOk(s)
    requires t == s || exists sid :: t == Touch(s, sid)
    ensures Weakens(s, t) && SessionsOk(t) && LeasesOk(t)
  {
    if t == s {
      OnlyMemory(s, t);
    } else {
      var sid :| t == Touch(s, sid);
      TouchWeakens(s, sid);
      WeakensKeepsTasks(s, t);
    }
  }

  lemma CancelWeakens(s: State, id: string)
    requires SessionsOk(s) && id in s.leases
    ensures Weakens(s, Cancel(s, id)) && SessionsOk(Cancel(s, id))
    ensures Cancel(s, id).leases[id].cancelled
  {
    if s.leases[id].cancelled {
      OnlyMemory(s, s);
    } else {
      var t := s.(leases := s.leases[id := s.leases[id].(cancelled := true)]);
      MarkingWeakens(s, t, id);
      TouchWeakens(t, s.leases[id].sessionId);
      WeakensTransitive(s, t, Cancel(s, id));
    }
  }

  lemma MarkingWeakens(s: State, t: State, id: string)
    requires SessionsOk(s) && id in s.leases && t == s.(leases := s.leases[id := s.leases[id].(cancelled := true)])
    ensures Weakens(s, t) && SessionsOk(t)
  {
    assert LeasesWeaken(s, t) && SameWork(s, t) && SessionsGrow(s, t);
  }

  // ---------- a handler starts ----------

  /** `t` is a state with the handler's session in place; `u` adds its lease and the handler. */
  ghost predicate Begins(t: State, u: State, k: Task, id: string) {
    && id !in t.leases && id != "" && ValidLeaseId(id)
    && t.portLive && k.lease == (if RequestIdOf(k.message.ids).Some? then Some(id) else None) && !k.cut
    && (k.lease.Some? ==>
          && k.sessionId in t.sessions
          && var l := Lease(RequestIdOf(k.message.ids).value, t.portEpoch, k.sessionId,
                            t.sessions[k.sessionId].epoch, false, false, t.nextTask);
          u.leases == t.leases[id := l] && u.index == Add(t.index, RefOf(id, l)))
    && (k.lease.None? ==> u.leases == t.leases && u.index == t.index)
    && u == t.(leases := u.leases, index := u.index, tasks := t.tasks[t.nextTask := k], nextTask := t.nextTask + 1)
  }

  lemma BeginIs(s: State, m: Message, sid: string, id: string, home: Option<Home>)
    requires FreshLeaseId(s, id) && s.portLive
    ensures
      var hasId := RequestIdOf(m.ids).Some?;
      Begins(if hasId then Touch(s, sid) else s, Begin(s, m, sid, s.portEpoch, id, home),
             Task(m, sid, if hasId then Some(id) else None, home, false), id)
  {
  }

  lemma BeginsLeases(t: State, u: State, k: Task, id: string)
    requires Begins(t, u, k, id) && LeasesOk(t) && TasksOk(t)
    ensures LeasesOk(u)
  {
    if k.lease.Some? {
      assert id !in t.index.byId;
      AddKeepsCoherent(t.index, RefOf(id, u.leases[id]));
    }
    forall x | x in u.index.byId ensures RegisteredOk(u, x) {
      if x in t.index.byId {
        assert RegisteredOk(t, x) && TaskOk(t, t.leases[x].owner);
      }
    }
  }

  ghost predicate HomeReady(t: State, k: Task) {
    k.home.Some? ==>
      && k.home.value.slot < |Chain(t, k.home.value.oid)|
      && Chain(t, k.home.value.oid)[k.home.value.slot].status == Running(t.nextTask)
      && k.home.value.oid.sessionId == k.sessionId
      && (k.lease.Some? ==> Attached(t, k.home.value.oid))
  }

  lemma BeginsTasks(t: State, u: State, k: Task, id: string)
    requires Begins(t, u, k, id) && TasksOk(t) && HomeReady(t, k)
    ensures TasksOk(u)
  {
    BeginsTask(t, u, k, id);
    forall x | x in u.tasks ensures TaskOk(u, x) {
      if x != t.nextTask {
        assert TaskOk(t, x);
        assert u.tasks[x] == t.tasks[x] && u.chains == t.chains && u.sessions == t.sessions;
      }
    }
  }

  lemma BeginsTask(t: State, u: State, k: Task, id: string)
    requires Begins(t, u, k, id) && HomeReady(t, k)
    ensures TaskOk(u, t.nextTask)
  {
  }

  lemma BeginsChains(t: State, u: State, k: Task, id: string)
    requires Begins(t, u, k, id) && ChainsOk(t)
    ensures ChainsOk(u)
  {
    forall oid | oid in u.chains
      ensures ChainShape(u.chains[oid]) && forall i :: 0 <= i < |u.chains[oid]| ==> SlotOk(u, oid, i)
    {
      forall i | 0 <= i < |u.chains[oid]| ensures SlotOk(u, oid, i) {
        assert SlotOk(t, oid, i);
      }
    }
  }

  /** A message that is not queued starts on the live port: its lease and its handler appear together. */
  lemma BeginKeepsCore(s: State, m: Message, sid: string, id: string)
    requires Core(s) && FreshLeaseId(s, id) && s.portLive
    ensures Core(Begin(s, m, sid, s.portEpoch, id, None))
  {
    var hasId := RequestIdOf(m.ids).Some?;
    var t := if hasId then Touch(s, sid) else s;
    TouchWeakens(s, sid);
    if hasId { WeakensKeepsCore(s, t); }
    var u := Begin(s, m, sid, s.portEpoch, id, None);
    BeginIs(s, m, sid, id, None);
    var k := Task(m, sid, if hasId then Some(id) else None, None, false);
    BeginsLeases(t, u, k, id);
    BeginsTasks(t, u, k, id);
    BeginsChains(t, u, k, id);
    SameQueues(t, u);
  }

  lemma SameQueues(t: State, u: State)
    requires QueuesOk(t)
    requires u.sessions == t.sessions && u.chains == t.chains && u.arrived == t.arrived && u.outcomes == t.outcomes
    ensures QueuesOk(u)
  {
    forall sid: string ensures Conserved(u, sid) {
      assert Conserved(t, sid);
    }
  }

  // ---------- the queue ----------

  lemma WaitersAppend(c: seq<Slot>, slot: Slot)
    ensures Waiters(c + [slot]) == Waiters(c) + if slot.status.Waiting? then [slot.message] else []
  {
    assert (c + [slot])[..|c|] == c;
  }

  lemma {:induction false} NoWaiters(c: seq<Slot>)
    requires forall i :: 0 <= i < |c| ==> !c[i].status.Waiting?
    ensures Waiters(c) == []
  {
    if c != [] {
      NoWaiters(c[..|c| - 1]);
    }
  }

  /** The first waiting link is the head of the queue. */
  lemma {:induction false} FirstWaiterLeaves(c: seq<Slot>, i: nat, status: Status)
    requires i < |c| && c[i].status.Waiting? && !status.Waiting?
    requires forall j :: 0 <= j < i ==> !c[j].status.Waiting?
    ensures Waiters(c) == [c[i].message] + Waiters(c[i := c[i].(status := status)])
  {
    var d := c[i := c[i].(status := status)];
    var last := |c| - 1;
    if i == last {
      NoWaiters(c[..last]);
      assert d[..last] == c[..last];
    } else {
      assert d[..last] == c[..last][i := c[i].(status := status)];
      FirstWaiterLeaves(c[..last], i, status);
    }
  }

  lemma {:induction false} SameWaiters(c: seq<Slot>, i: nat, status: Status)
    requires i < |c| && !c[i].status.Waiting? && !status.Waiting?
    ensures Waiters(c[i := c[i].(status := status)]) == Waiters(c)
  {
    var d := c[i := c[i].(status := status)];
    var last := |c| - 1;
    if i == last {
      assert d[..last] == c[..last];
    } else {
      assert d[..last] == c[..last][i := c[i].(status := status)];
      SameWaiters(c[..last], i, status);
    }
  }

  lemma EnqueueKeepsCore(s: State, m: Message)
    requires Core(s) && s.portLive
    ensures Core(Enqueue(s, m))
  {
    var sid := SessionOf(m);
    var t := Touch(s, sid);
    TouchWeakens(s, sid);
    WeakensKeepsCore(s, t);
    AppendSlotKeepsCore(t, m, sid);
  }

  lemma AppendSlotKeepsCore(t: State, m: Message, sid: string)
    requires Core(t) && t.portLive && sid == SessionOf(m) && sid in t.sessions
    ensures
      var oid := t.sessions[sid].oid;
      Core(t.(chains := t.chains[oid := Chain(t, oid) + [Slot(m, t.portEpoch, Waiting)]],
              arrived := Append(t.arrived, sid, m)))
  {
    var oid := t.sessions[sid].oid;
    var slot := Slot(m, t.portEpoch, Waiting);
    var u := t.(chains := t.chains[oid := Chain(t, oid) + [slot]], arrived := Append(t.arrived, sid, m));
    GrownChain(t, u, oid, slot);
    GrownWork(t, u, oid, slot);
    GrownQueue(t, u, sid, slot);
  }

  lemma GrownWork(t: State, u: State, oid: ObjectId, slot: Slot)
    requires TasksOk(t) && LeasesOk(t)
    requires u == t.(chains := t.chains[oid := Chain(t, oid) + [slot]], arrived := u.arrived)
    ensures TasksOk(u) && LeasesOk(u)
  {
    forall k | k in u.tasks ensures TaskOk(u, k) {
      assert TaskOk(t, k);
    }
    forall id | id in u.index.byId ensures RegisteredOk(u, id) {
      assert RegisteredOk(t, id);
    }
  }

  lemma GrownQueue(t: State, u: State, sid: string, slot: Slot)
    requires SessionsOk(t) && QueuesOk(t) && sid in t.sessions && slot.status.Waiting?
    requires var oid := t.sessions[sid].oid;
      u == t.(chains := t.chains[oid := Chain(t, oid) + [slot]], arrived := Append(t.arrived, sid, slot.message))
    ensures QueuesOk(u)
  {
    forall x: string ensures Conserved(u, x) {
      assert Conserved(t, x);
      if x == sid {
        GrownSession(t, u, sid, slot);
      } else if x in t.sessions {
        assert t.sessions[x].oid != t.sessions[sid].oid;
      }
    }
  }

  lemma GrownSession(t: State, u: State, sid: string, slot: Slot)
    requires Conserved(t, sid) && sid in t.sessions && slot.status.Waiting?
    requires var oid := t.sessions[sid].oid;
      u == t.(chains := t.chains[oid := Chain(t, oid) + [slot]], arrived := Append(t.arrived, sid, slot.message))
    ensures Conserved(u, sid)
  {
    WaitersAppend(Chain(t, t.sessions[sid].oid), slot);
    OneLater(Messages(At(t.outcomes, sid)), WaitingIn(t, sid), slot.message);
  }

  lemma OneLater(a: seq<Message>, b: seq<Message>, m: Message)
    ensures (a + b) + [m] == a + (b + [m])
  {
  }

  lemma GrownChain(t: State, u: State, oid: ObjectId, slot: Slot)
    requires ChainsOk(t) && oid in t.chains && Attached(t, oid) && t.portLive
    requires slot.status.Waiting? && slot.portEpoch <= t.portEpoch && SessionOf(slot.message) == oid.sessionId
    requires u == t.(chains := t.chains[oid := t.chains[oid] + [slot]], arrived := u.arrived)
    ensures ChainsOk(u)
  {
    forall x | x in u.chains
      ensures ChainShape(u.chains[x]) && forall i :: 0 <= i < |u.chains[x]| ==> SlotOk(u, x, i)
    {
      forall i | 0 <= i < |u.chains[x]| ensures SlotOk(u, x, i) {
        if i < |t.chains[x]| {
          assert SlotOk(t, x, i);
        }
      }
    }
  }

  /** The link is marked running and its outcome noted; the handler has not been added yet. */
  function Marked(s: State, h: Home, status: Status, o: Outcome): State
    requires h.slot < |Chain(s, h.oid)|
  {
    SetStatus(s, h, status).(outcomes := Append(s.outcomes, SessionOf(o.message), o))
  }

  lemma StartSlotIs(s: State, h: Home, id: string) returns (t: State, k: Task)
    requires ChainsOk(s) && Enabled(s, StartChained(h, id)) && s.chains[h.oid][h.slot].portEpoch == s.portEpoch
    ensures t == Marked(s, h, Running(s.nextTask), Started(s.chains[h.oid][h.slot].message))
    ensures Begins(t, StartSlot(s, h, id), k, id) && HomeReady(t, k) && k.home == Some(h)
    ensures k.message == s.chains[h.oid][h.slot].message && k.sessionId == SessionOf(k.message)
  {
    var m := s.chains[h.oid][h.slot].message;
    assert SlotOk(s, h.oid, h.slot) && s.portLive;
    t := Marked(s, h, Running(s.nextTask), Started(m));
    k := Task(m, SessionOf(m), if RequestIdOf(m.ids).Some? then Some(id) else None, Some(h), false);
    BeginIs(t, m, SessionOf(m), id, Some(h));
    assert Touch(t, SessionOf(m)) == t;
  }

  /** A waiting link whose turn has come on the live port. */
  lemma StartSlotKeepsCore(s: State, h: Home, id: string)
    requires Core(s) && Enabled(s, StartChained(h, id)) && s.chains[h.oid][h.slot].portEpoch == s.portEpoch
    ensures Core(StartSlot(s, h, id))
  {
    var t, k := StartSlotIs(s, h, id);
    StartedWork(s, t, StartSlot(s, h, id), h, k, id);
    StartedRest(s, t, StartSlot(s, h, id), h, k, id);
  }

  lemma StartedWork(s: State, t: State, u: State, h: Home, k: Task, id: string)
    requires TasksOk(s) && LeasesOk(s) && h.slot < |Chain(s, h.oid)| && s.chains[h.oid][h.slot].status.Waiting?
    requires Begins(t, u, k, id) && HomeReady(t, k)
    requires t == Marked(s, h, Running(s.nextTask), Started(s.chains[h.oid][h.slot].message))
    ensures TasksOk(u) && LeasesOk(u)
  {
    MarkedSlotKeepsTasks(s, t, h);
    BeginsLeases(t, u, k, id);
    BeginsTasks(t, u, k, id);
  }

  lemma StartedRest(s: State, t: State, u: State, h: Home, k: Task, id: string)
    requires Core(s) && h.slot < |Chain(s, h.oid)|
    requires s.chains[h.oid][h.slot].status.Waiting?
    requires h.slot == 0 || s.chains[h.oid][h.slot - 1].status.Resolved?
    requires k.home == Some(h) && Begins(t, u, k, id)
    requires t == Marked(s, h, Running(s.nextTask), Started(s.chains[h.oid][h.slot].message))
    ensures SessionsOk(u) && ChainsOk(u) && QueuesOk(u)
  {
    assert SlotOk(s, h.oid, h.slot);
    StartedChain(s, u, h, k);
    TurnTaken(s, u, h, Running(s.nextTask), Started(s.chains[h.oid][h.slot].message));
  }

  lemma MarkedSlotKeepsTasks(s: State, t: State, h: Home)
    requires TasksOk(s) && LeasesOk(s) && h.slot < |Chain(s, h.oid)| && s.chains[h.oid][h.slot].status.Waiting?
    requires t == s.(chains := t.chains, outcomes := t.outcomes)
    requires exists status :: t.chains == SetStatus(s, h, status).chains
    ensures TasksOk(t) && LeasesOk(t)
  {
    forall x | x in t.tasks ensures TaskOk(t, x) {
      assert TaskOk(s, x);
    }
    forall x | x in t.index.byId ensures RegisteredOk(t, x) {
      assert RegisteredOk(s, x);
    }
  }

  lemma StartedChain(s: State, u: State, h: Home, k: Task)
    requires ChainsOk(s) && h.slot < |Chain(s, h.oid)|
    requires s.chains[h.oid][h.slot].status.Waiting?
    requires h.slot == 0 || s.chains[h.oid][h.slot - 1].status.Resolved?
    requires k.home == Some(h)
    requires u.chains == SetStatus(s, h, Running(s.nextTask)).chains && u.sessions == s.sessions
    requires u.tasks == s.tasks[s.nextTask := k] && u.nextTask == s.nextTask + 1
    requires u.portEpoch == s.portEpoch && u.portLive == s.portLive
    ensures ChainsOk(u)
  {
    forall x | x in u.chains
      ensures ChainShape(u.chains[x]) && forall i :: 0 <= i < |u.chains[x]| ==> SlotOk(u, x, i)
    {
      assert ChainShape(s.chains[x]);
      forall i | 0 <= i < |u.chains[x]| ensures SlotOk(u, x, i) {
        assert SlotOk(s, x, i);
      }
      if x == h.oid {
        TurnShape(s.chains[x], h.slot, Running(s.nextTask));
      }
    }
  }

  lemma TurnShape(c: seq<Slot>, i: nat, status: Status)
    requires ChainShape(c) && i < |c| && c[i].status.Waiting? && (i == 0 || c[i - 1].status.Resolved?)
    ensures ChainShape(c[i := c[i].(status := status)])
    ensures forall j :: 0 <= j < i ==> c[j].status.Resolved?
  {
    forall j | 0 <= j < i ensures c[j].status.Resolved? {
      assert j == i - 1 || c[j].status.Resolved?;
    }
  }

  /** The head of the queue moves from the waiting messages to the outcomes. */
  lemma TurnTaken(s: State, u: State, h: Home, status: Status, o: Outcome)
    requires SessionsOk(s) && ChainsOk(s) && QueuesOk(s) && h.slot < |Chain(s, h.oid)|
    requires s.chains[h.oid][h.slot].status.Waiting? && !status.Waiting?
    requires h.slot == 0 || s.chains[h.oid][h.slot - 1].status.Resolved?
    requires o.message == s.chains[h.oid][h.slot].message
    requires u.sessions.Keys == s.sessions.Keys && forall sid <- s.sessions :: u.sessions[sid].oid == s.sessions[sid].oid
    requires u.chains == SetStatus(s, h, status).chains
    requires u.arrived == s.arrived && u.outcomes == Append(s.outcomes, h.oid.sessionId, o)
    ensures QueuesOk(u)
  {
    var c := s.chains[h.oid];
    assert SlotOk(s, h.oid, h.slot);
    TurnShape(c, h.slot, status);
    FirstWaiterLeaves(c, h.slot, status);
    var sid := h.oid.sessionId;
    assert Attached(s, h.oid);
    forall x: string ensures Conserved(u, x) {
      assert Conserved(s, x);
      if x == sid {
        AppendOutcome(At(s.outcomes, sid), o, WaitingIn(u, sid));
      }
    }
  }

  lemma AppendOutcome(os: seq<Outcome>, o: Outcome, rest: seq<Message>)
    ensures Messages(os) + ([o.message] + rest) == Messages(os + [o]) + rest
  {
    assert Messages(os + [o]) == Messages(os) + [o.message];
  }

  /** A waiting link whose port is gone: its lease, if any, is created cancelled and never stays registered. */
  lemma DiscardKeepsCore(s: State, h: Home, id: string)
    requires Core(s) && Enabled(s, StartChained(h, id)) && s.chains[h.oid][h.slot].portEpoch != s.portEpoch
    ensures Core(StartSlot(s, h, id))
  {
    var slot := s.chains[h.oid][h.slot];
    assert SlotOk(s, h.oid, h.slot);
    var sid := SessionOf(slot.message);
    var t := SetStatus(s, h, Resolved).(outcomes := Append(s.outcomes, sid, Discarded(slot.message)));
    MarkedSlotKeepsTasks(s, t, h);
    ResolvedChain(s, t, h);
    TurnTaken(s, t, h, Resolved, Discarded(slot.message));
    var u := StartSlot(s, h, id);
    if RequestIdOf(slot.message.ids).Some? {
      DiscardedLease(t, slot.message, slot.portEpoch, id);
      UnregisteredLeaseKeepsCore(t, u, id);
    }
  }

  lemma DiscardedLease(t: State, m: Message, portEpoch: nat, id: string)
    requires LeasesOk(t) && SessionOf(m) in t.sessions && FreshLeaseId(t, id) && RequestIdOf(m.ids).Some?
    ensures
      var sid := SessionOf(m);
      var l := Lease(RequestIdOf(m.ids).value, portEpoch, sid, t.sessions[sid].epoch, true, false, t.nextTask);
      var u := Clear(Cancel(Register(t, m, sid, portEpoch, id), id), id);
      u == t.(leases := t.leases[id := l], prunes := u.prunes)
  {
    var sid := SessionOf(m);
    var l := Lease(RequestIdOf(m.ids).value, portEpoch, sid, t.sessions[sid].epoch, false, false, t.nextTask);
    var r := Register(t, m, sid, portEpoch, id);
    assert r == t.(leases := t.leases[id := l], index := Add(t.index, RefOf(id, l)));
    RegisteredThenCleared(t, r, l, id);
  }

  lemma RegisteredThenCleared(t: State, r: State, l: Lease, id: string)
    requires LeasesOk(t) && FreshLeaseId(t, id) && !l.cancelled && l.sessionId in t.sessions
    requires r == t.(leases := t.leases[id := l], index := Add(t.index, RefOf(id, l)))
    ensures
      var u := Clear(Cancel(r, id), id);
      u == t.(leases := t.leases[id := l.(cancelled := true)], prunes := u.prunes)
  {
    assert id !in t.index.byId;
    AddThenRemove(t.index, RefOf(id, l));
    assert Cancel(r, id) == r.(leases := t.leases[id := l.(cancelled := true)]);
  }

  lemma AddThenRemove(ix: Index, l: LeaseRef)
    requires Coherent(ix) && ValidLeaseId(l.leaseId) && l.leaseId !in ix.byId
    ensures Remove(Add(ix, l), l) == ix
  {
    var a := Add(ix, l);
    var r := Remove(a, l);
    UnregisteredHasNoKey(ix, l);
    assert r.byKey == ix.byKey && r.byId == ix.byId;
    if l.requestId in ix.keysByRequest {
      assert !HasKey(ix, l.requestId, KeyOf(l));
      assert a.keysByRequest[l.requestId] - {KeyOf(l)} == ix.keysByRequest[l.requestId];
    } else {
      assert a.keysByRequest[l.requestId] - {KeyOf(l)} == {};
    }
    assert r.keysByRequest == ix.keysByRequest;
  }

  lemma UnregisteredLeaseKeepsCore(t: State, u: State, id: string)
    requires Core(t) && FreshLeaseId(t, id)
    requires id in u.leases && u == t.(leases := t.leases[id := u.leases[id]], prunes := u.prunes)
    requires u.leases[id].portEpoch <= t.portEpoch
    ensures Core(u)
  {
    SameTasks(t, u);
    SameChains(t, u);
    SameQueues(t, u);
  }

  /** Handlers and registered leases, when only handlers are cut, leases added and sessions without leases dropped. */
  lemma SameTasks(t: State, u: State)
    requires TasksOk(t) && LeasesOk(t)
    requires u.index == t.index && u.nextTask == t.nextTask && u.portEpoch == t.portEpoch && u.portLive == t.portLive
    requires u.chains == t.chains && u.tasks.Keys == t.tasks.Keys
    requires forall k <- t.tasks :: u.tasks[k] == t.tasks[k].(cut := u.tasks[k].cut) && (t.tasks[k].cut ==> u.tasks[k].cut)
               && ((u.tasks[k].cut && !t.tasks[k].cut && t.tasks[k].lease.Some? && t.tasks[k].lease.value in t.leases)
                   ==> t.leases[t.tasks[k].lease.value].cancelled)
    requires forall id <- t.leases :: id in u.leases && u.leases[id] == t.leases[id]
    requires forall id <- u.leases :: id in t.leases || (id != "" && ValidLeaseId(id) && u.leases[id].portEpoch <= u.portEpoch)
    requires forall id <- t.index.byId :: id in t.leases && t.leases[id].sessionId in t.sessions ==>
               t.leases[id].sessionId in u.sessions && u.sessions[t.leases[id].sessionId] == t.sessions[t.leases[id].sessionId]
    ensures TasksOk(u) && LeasesOk(u)
  {
    SameTasks1(t, u);
    forall x | x in u.index.byId ensures RegisteredOk(u, x) {
      assert RegisteredOk(t, x);
    }
  }

  lemma SameTasks1(t: State, u: State)
    requires TasksOk(t)
    requires u.index == t.index && u.nextTask == t.nextTask && u.chains == t.chains && u.tasks.Keys == t.tasks.Keys
    requires forall k <- t.tasks :: u.tasks[k] == t.tasks[k].(cut := u.tasks[k].cut) && (t.tasks[k].cut ==> u.tasks[k].cut)
               && ((u.tasks[k].cut && !t.tasks[k].cut && t.tasks[k].lease.Some? && t.tasks[k].lease.value in t.leases)
                   ==> t.leases[t.tasks[k].lease.value].cancelled)
    requires forall id <- t.leases :: id in u.leases && u.leases[id] == t.leases[id]
    requires forall id <- t.index.byId :: id in t.leases && t.leases[id].sessionId in t.sessions ==>
               t.leases[id].sessionId in u.sessions && u.sessions[t.leases[id].sessionId] == t.sessions[t.leases[id].sessionId]
    ensures TasksOk(u)
  {
    forall x | x in u.tasks ensures TaskOk(u, x) {
      assert TaskOk(t, x);
    }
  }

  lemma SameChains(t: State, u: State)
    requires ChainsOk(t)
    requires u.chains == t.chains && u.sessions == t.sessions && u.nextTask == t.nextTask
    requires u.portEpoch == t.portEpoch && u.portLive == t.portLive
    requires forall k <- u.tasks :: k in t.tasks && u.tasks[k].home == t.tasks[k].home
    ensures ChainsOk(u)
  {
    forall x | x in u.chains
      ensures ChainShape(u.chains[x]) && forall i :: 0 <= i < |u.chains[x]| ==> SlotOk(u, x, i)
    {
      forall i | 0 <= i < |u.chains[x]| ensures SlotOk(u, x, i) {
        assert SlotOk(t, x, i);
      }
    }
  }

  lemma ResolvedChain(s: State, t: State, h: Home)
    requires ChainsOk(s) && h.slot < |Chain(s, h.oid)|
    requires h.slot == 0 || s.chains[h.oid][h.slot - 1].status.Resolved?
    requires t == s.(chains := SetStatus(s, h, Resolved).chains, outcomes := t.outcomes)
    ensures ChainsOk(t)
  {
    forall x | x in t.chains
      ensures ChainShape(t.chains[x]) && forall i :: 0 <= i < |t.chains[x]| ==> SlotOk(t, x, i)
    {
      assert ChainShape(s.chains[x]);
      forall i | 0 <= i < |t.chains[x]| ensures SlotOk(t, x, i) {
        assert SlotOk(s, x, i);
      }
      if x == h.oid {
        forall i, j | 0 <= i < j < |t.chains[x]| && !t.chains[x][j].status.Waiting? ensures t.chains[x][i].status.Resolved? {
          assert j != h.slot || i == h.slot - 1 || s.chains[x][i].status.Resolved?;
        }
      }
    }
  }

  // ---------- links, handlers and watchdogs end ----------

  lemma ResolveSlotKeepsCore(s: State, h: Home)
    requires Core(s) && Enabled(s, ResolveSlot(h))
    ensures Core(SetStatus(s, h, Resolved))
  {
    var t := SetStatus(s, h, Resolved);
    var c := s.chains[h.oid];
    assert SlotOk(s, h.oid, h.slot);
    assert h.slot == 0 || c[h.slot - 1].status.Resolved?;
    ResolvedChain(s, t, h);
    SameWaiters(c, h.slot, Resolved);
    ResolvedTasks(s, t, h);
    forall sid: string ensures Conserved(t, sid) {
      assert Conserved(s, sid);
    }
  }

  lemma ResolvedTasks(s: State, t: State, h: Home)
    requires TasksOk(s) && LeasesOk(s) && Enabled(s, ResolveSlot(h)) && t == SetStatus(s, h, Resolved)
    ensures TasksOk(t) && LeasesOk(t)
  {
    forall x | x in t.tasks ensures TaskOk(t, x) {
      assert TaskOk(s, x);
    }
    forall x | x in t.index.byId ensures RegisteredOk(t, x) {
      assert RegisteredOk(s, x);
    }
  }

  lemma SettleIs(s: State, task: nat)
    requires TasksOk(s) && LeasesOk(s) && task in s.tasks
    requires s.tasks[task].lease.Some? ==> s.tasks[task].lease.value in s.leases
    ensures Settled(s, Settle(s, task), task) && Coherent(Settle(s, task).index)
  {
    var k := s.tasks[task];
    if k.lease.Some? {
      var id := k.lease.value;
      assert TaskOk(s, task) && RegisteredOk(s, id);
      var l := RefOf(id, s.leases[id]);
      RemoveDropsId(s.index, l);
      ClearIs(s.(tasks := s.tasks - {task}), id);
    }
  }

  lemma ClearIs(s: State, id: string)
    requires id in s.leases
    ensures Clear(s, id) == s.(index := Remove(s.index, RefOf(id, s.leases[id])), prunes := Clear(s, id).prunes)
  {
  }

  lemma SettleKeepsCore(s: State, task: nat)
    requires Core(s) && task in s.tasks
    requires s.tasks[task].lease.Some? ==> s.tasks[task].lease.value in s.leases
    ensures Core(Settle(s, task))
  {
    var u := Settle(s, task);
    SettleIs(s, task);
    SettleTasks(s, u, task);
    SettleLeases(s, u, task);
    SettledRest(s, u, task);
  }

  lemma SettledRest(s: State, u: State, task: nat)
    requires Core(s) && task in s.tasks && Settled(s, u, task)
    ensures SessionsOk(u) && ChainsOk(u) && QueuesOk(u)
  {
    SameChains(s, u);
    SameQueues(s, u);
  }

  /** The handler of a lease is the only one that holds it. */
  lemma SoleOwner(s: State, x: nat, y: nat)
    requires TasksOk(s) && x in s.tasks && y in s.tasks
    requires s.tasks[x].lease.Some? && s.tasks[x].lease == s.tasks[y].lease
    ensures x == y
  {
    assert TaskOk(s, x) && TaskOk(s, y);
  }

  ghost predicate Settled(s: State, u: State, task: nat)
    requires task in s.tasks
  {
    && u == s.(tasks := s.tasks - {task}, index := u.index, prunes := u.prunes)
    && u.index.byId == if s.tasks[task].lease.Some? then s.index.byId - {s.tasks[task].lease.value} else s.index.byId
  }

  lemma SettleTasks(s: State, u: State, task: nat)
    requires TasksOk(s) && task in s.tasks && Settled(s, u, task)
    ensures TasksOk(u)
  {
    forall x | x in u.tasks ensures TaskOk(u, x) {
      assert TaskOk(s, x);
      if s.tasks[x].lease.Some? && s.tasks[x].lease == s.tasks[task].lease {
        SoleOwner(s, x, task);
      }
    }
  }

  lemma SettleLeases(s: State, u: State, task: nat)
    requires TasksOk(s) && LeasesOk(s) && task in s.tasks && Coherent(u.index) && Settled(s, u, task)
    ensures LeasesOk(u)
  {
    assert u.leases == s.leases && u.portEpoch == s.portEpoch;
    forall x | x in u.index.byId ensures RegisteredOk(u, x) {
      assert RegisteredOk(s, x);
    }
  }

  lemma CutKeepsCore(s: State, task: nat)
    requires Core(s) && task in s.tasks
    requires s.tasks[task].lease.Some? ==>
               s.tasks[task].lease.value in s.leases && s.leases[s.tasks[task].lease.value].cancelled
    ensures Core(s.(tasks := s.tasks[task := s.tasks[task].(cut := true)]))
  {
    var u := s.(tasks := s.tasks[task := s.tasks[task].(cut := true)]);
    CutTasks(s, u, task);
    CutRest(s, u, task);
  }

  lemma CutRest(s: State, u: State, task: nat)
    requires Core(s) && task in s.tasks && u == s.(tasks := s.tasks[task := s.tasks[task].(cut := true)])
    ensures SessionsOk(u) && ChainsOk(u) && QueuesOk(u)
  {
    assert forall k <- s.tasks :: u.tasks[k].home == s.tasks[k].home;
    SameChains(s, u);
    SameQueues(s, u);
  }

  lemma CutTasks(s: State, u: State, task: nat)
    requires TasksOk(s) && LeasesOk(s) && task in s.tasks
    requires s.tasks[task].lease.Some? ==>
               s.tasks[task].lease.value in s.leases && s.leases[s.tasks[task].lease.value].cancelled
    requires u == s.(tasks := s.tasks[task := s.tasks[task].(cut := true)])
    ensures TasksOk(u) && LeasesOk(u)
  {
    SameTasks(s, u);
  }

  lemma CancelTimedOutWeakens(s: State, lease: Option<string>)
    requires SessionsOk(s) && (lease.Some? ==> lease.value in s.leases)
    ensures Weakens(s, CancelTimedOut(s, lease)) && SessionsOk(CancelTimedOut(s, lease))
    ensures lease.Some? ==> CancelTimedOut(s, lease).leases[lease.value].cancelled
  {
    if lease.Some? {
      var id := lease.value;
      var a := s.(leases := s.leases[id := s.leases[id].(watchdogTimedOut := true)]);
      assert LeasesWeaken(s, a) && SameWork(s, a) && SessionsGrow(s, a);
      CancelWeakens(a, id);
      WeakensTransitive(s, a, Cancel(a, id));
    }
  }

  lemma TimedOutWeakens(s: State, task: nat)
    requires SessionsOk(s) && task in s.tasks
    requires s.tasks[task].lease.Some? ==> s.tasks[task].lease.value in s.leases
    ensures Weakens(s, TimedOut(s, task))
    ensures s.tasks[task].lease.Some? ==> TimedOut(s, task).leases[s.tasks[task].lease.value].cancelled
  {
    var k := s.tasks[task];
    var t := CancelTimedOut(s, k.lease);
    CancelTimedOutWeakens(s, k.lease);
    InvalidateWeakens(t, k.sessionId);
    var u := Invalidate(t, k.sessionId);
    WeakensTransitive(s, t, u);
    assert k.lease.Some? ==> u.leases[k.lease.value].cancelled;
    MemoryApart(s, u, Remember(u, k));
  }

  lemma MemoryApart(s: State, u: State, v: State)
    requires Weakens(s, u) && v == u.(timedOutLeases := v.timedOutLeases, timedOutRequests := v.timedOutRequests)
    ensures Weakens(s, v)
  {
    assert v.leases == u.leases && v.index == u.index && v.sessions == u.sessions && v.chains == u.chains;
    assert LeasesWeaken(s, v) && SameWork(s, v) && SessionsGrow(s, v);
  }

  lemma OnlyMemory(u: State, v: State)
    requires v == u.(timedOutLeases := v.timedOutLeases, timedOutRequests := v.timedOutRequests,
                     posts := v.posts, prunes := v.prunes)
    ensures Weakens(u, v)
  {
    assert LeasesWeaken(u, v) && SameWork(u, v) && SessionsGrow(u, v);
  }

  lemma BeforeCutWeakens(s: State, task: nat, postOk: bool)
    requires Core(s) && Enabled(s, FireWatchdog(task, postOk))
    ensures Weakens(s, BeforeCut(s, task, postOk))
    ensures s.tasks[task].lease.Some? ==> BeforeCut(s, task, postOk).leases[s.tasks[task].lease.value].cancelled
  {
    var k := s.tasks[task];
    var t := TimedOut(s, task);
    TimedOutWeakens(s, task);
    WeakensKeepsCore(s, t);
    SendWeakens(t, TimeoutReply(k), None, true, postOk);
    WeakensTransitive(s, t, Send(t, TimeoutReply(k), None, true, postOk));
    if k.lease.Some? {
      assert t.leases[k.lease.value].cancelled;
    }
  }

  lemma WatchdogKeepsCore(s: State, task: nat, postOk: bool)
    requires Core(s) && Enabled(s, FireWatchdog(task, postOk))
    ensures Core(Watchdog(s, task, postOk))
  {
    BeforeCutWeakens(s, task, postOk);
    WeakensKeepsCore(s, BeforeCut(s, task, postOk));
    CutKeepsCore(BeforeCut(s, task, postOk), task);
  }

  lemma PruneKeepsCore(s: State, p: Prune)
    requires Core(s) && TailResolved(s, p)
    ensures Core(FirePrune(s, p))
  {
    var u := FirePrune(s, p);
    if PruneApplies(s, p) {
      assert u == s.(sessions := s.sessions - {p.sessionId}, prunes := u.prunes);
      var c := Chain(s, p.oid);
      assert ChainShape(c);
      assert forall i :: 0 <= i < |c| ==> c[i].status.Resolved?;
      NoWaiters(c);
      PrunedChains(s, u, p);
      PrunedTasks(s, u, p);
      forall sid: string ensures Conserved(u, sid) {
        assert Conserved(s, sid);
      }
    } else {
      OnlyMemory(s, u);
      WeakensKeepsCore(s, u);
    }
  }

  lemma PrunedTasks(s: State, u: State, p: Prune)
    requires TasksOk(s) && LeasesOk(s) && PruneApplies(s, p)
    requires u == s.(sessions := s.sessions - {p.sessionId}, prunes := u.prunes)
    ensures TasksOk(u) && LeasesOk(u)
  {
    SameTasks(s, u);
  }

  lemma PrunedChains(s: State, u: State, p: Prune)
    requires ChainsOk(s) && p.sessionId in s.sessions && s.sessions[p.sessionId].oid == p.oid
    requires forall i :: 0 <= i < |Chain(s, p.oid)| ==> Chain(s, p.oid)[i].status.Resolved?
    requires u == s.(sessions := s.sessions - {p.sessionId}, prunes := u.prunes)
    ensures ChainsOk(u)
  {
    forall x | x in u.chains
      ensures ChainShape(u.chains[x]) && forall i :: 0 <= i < |u.chains[x]| ==> SlotOk(u, x, i)
    {
      forall i | 0 <= i < |u.chains[x]| ensures SlotOk(u, x, i) {
        assert SlotOk(s, x, i);
        assert x == p.oid ==> Chain(s, p.oid)[i].status.Resolved?;
      }
    }
  }

  lemma ConnectWeakens(s: State)
    requires LeasesOk(s) && !s.portLive
    ensures Weakens(s, Connect(s))
  {
    assert forall id <- s.index.byId :: RegisteredOk(s, id);
  }
}
