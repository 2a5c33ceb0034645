/** The invariant over every run of the broker, and what it means for replies, queues and leases. */
module BrokerSafety {
  import opened Common
  import opened LeaseIndex
  import opened Broker
  import opened BrokerInvariant

  // ---------- the core invariant over steps ----------

  lemma ReceiveKeepsCore(s: State, m: Message, id: string, postOk: bool)
    requires Core(s) && s.portLive && FreshLeaseId(s, id)
    ensures Core(Receive(s, m, id, postOk))
  {
    var sid := SessionOf(m);
    match m.command
    case Other => EnqueueKeepsCore(s, m);
    case SessionClose =>
      CloseSessionWeakens(s, sid);
      WeakensKeepsCore(s, CloseSession(s, sid));
      BeginKeepsCore(CloseSession(s, sid), m, sid, id);
    case Ping => BeginKeepsCore(s, m, sid, id);
    case CancelRequest(target) =>
      BeginKeepsCore(s, m, sid, id);
      CancelThenReplyWeakens(Begin(s, m, sid, s.portEpoch, id, None), m, postOk);
      WeakensKeepsCore(Begin(s, m, sid, s.portEpoch, id, None), Receive(s, m, id, postOk));
  }

  lemma CancelThenReplyWeakens(t: State, m: Message, postOk: bool)
    requires Core(t) && m.command.CancelRequest?
    ensures Weakens(t, CancelThenReply(t, m, postOk))
  {
    var u := CancelAll(t, RegisteredFor(t, m.command.target));
    CancelAllWeakens(t, RegisteredFor(t, m.command.target));
    WeakensKeepsCore(t, u);
    SendWeakens(u, CancelReply(m), None, false, postOk);
    WeakensTransitive(t, u, Send(u, CancelReply(m), None, false, postOk));
  }

  lemma StepKeepsCore(s: State, step: Step)
    requires Core(s) && Enabled(s, step)
    ensures Core(Apply(s, step))
  {
    match step
    case ConnectPort =>
      ConnectWeakens(s);
      WeakensKeepsCore(s, Connect(s));
    case DisconnectPort =>
      DropPortWeakens(s);
      WeakensKeepsCore(s, DropPort(s));
    case Arrive(m, id, postOk) => ReceiveKeepsCore(s, m, id, postOk);
    case StartChained(h, id) =>
      if s.chains[h.oid][h.slot].portEpoch == s.portEpoch {
        StartSlotKeepsCore(s, h, id);
      } else {
        DiscardKeepsCore(s, h, id);
      }
    case ResolveSlot(h) => ResolveSlotKeepsCore(s, h);
    case Reply(r, lease, postOk) =>
      SendWeakens(s, r, lease, false, postOk);
      WeakensKeepsCore(s, Send(s, r, lease, false, postOk));
    case SettleHandler(t) => SettleKeepsCore(s, t);
    case FireWatchdog(t, postOk) => WatchdogKeepsCore(s, t, postOk);
    case PruneSession(p) => PruneKeepsCore(s, p);
    case BindSession(sid, bound) =>
      SetBoundWeakens(s, sid, bound);
      WeakensKeepsCore(s, SetBound(s, sid, bound));
    case ForgetTimedOut(key) =>
      OnlyMemory(s, Apply(s, step));
      WeakensKeepsCore(s, Apply(s, step));
  }

  lemma InitHasInv(s: State)
    requires Init(s)
    ensures Inv(s)
  {
    assert forall sid: string :: Conserved(s, sid);
  }

  // ---------- what a step may do to a lease ----------

  /** Leases never come back: ids and identities stay, cancellation sticks, epochs only rise, and a lease that
      stays registered keeps its session. */
  ghost predicate LeasesEvolve(s: State, t: State) {
    && s.portEpoch <= t.portEpoch
    && (forall id <- s.leases :: id in t.leases && SameButCancelled(s.leases[id], t.leases[id]))
    && (forall id <- t.index.byId :: id in s.leases ==> id in s.index.byId)
    && (forall id <- s.index.byId :: id in s.leases && id in t.index.byId && s.leases[id].sessionId in s.sessions ==>
          KeepsSession(s, t, s.leases[id].sessionId))
  }

  ghost predicate KeepsSession(s: State, t: State, sid: string)
    requires sid in s.sessions
  {
    sid in t.sessions && t.sessions[sid].oid == s.sessions[sid].oid && s.sessions[sid].epoch <= t.sessions[sid].epoch
  }

  /** Handlers keep their leases, and a cut handler stays cut. */
  ghost predicate TasksEvolve(s: State, t: State) {
    forall k <- t.tasks :: t.tasks[k].lease.Some? ==>
      || t.tasks[k].lease.value !in s.leases
      || (k in s.tasks && s.tasks[k].lease == t.tasks[k].lease && (s.tasks[k].cut ==> t.tasks[k].cut))
  }

  ghost predicate Evolves(s: State, t: State) { LeasesEvolve(s, t) && TasksEvolve(s, t) }

  lemma WeakensEvolves(s: State, t: State)
    requires LeasesOk(s) && Weakens(s, t)
    ensures Evolves(s, t)
  {
    assert forall id <- s.index.byId :: RegisteredOk(s, id);
  }

  lemma EvolvesTransitive(s: State, t: State, u: State)
    requires LeasesOk(t) && Evolves(s, t) && Evolves(t, u)
    ensures Evolves(s, u)
  {
    forall id | id in s.leases ensures SameButCancelled(s.leases[id], u.leases[id]) {
      assert SameButCancelled(s.leases[id], t.leases[id]) && SameButCancelled(t.leases[id], u.leases[id]);
    }
    forall id | id in s.index.byId && id in s.leases && id in u.index.byId && s.leases[id].sessionId in s.sessions
      ensures KeepsSession(s, u, s.leases[id].sessionId)
    {
      assert id in t.index.byId && KeepsSession(s, t, s.leases[id].sessionId);
      assert KeepsSession(t, u, s.leases[id].sessionId);
    }
  }

  lemma BeginsEvolves(t: State, u: State, k: Task, id: string)
    requires Begins(t, u, k, id) && LeasesOk(t)
    ensures Evolves(t, u)
  {
    assert forall x <- t.index.byId :: RegisteredOk(t, x);
  }

  lemma BeginEvolves(s: State, m: Message, sid: string, id: string)
    requires Core(s) && FreshLeaseId(s, id) && s.portLive
    ensures Evolves(s, Begin(s, m, sid, s.portEpoch, id, None))
  {
    var hasId := RequestIdOf(m.ids).Some?;
    var t := if hasId then Touch(s, sid) else s;
    if hasId {
      TouchWeakens(s, sid);
    } else {
      OnlyMemory(s, t);
    }
    WeakensKeepsTasks(s, t);
    WeakensEvolves(s, t);
    BeginIs(s, m, sid, id, None);
    var u := Begin(s, m, sid, s.portEpoch, id, None);
    BeginsEvolves(t, u, Task(m, sid, if hasId then Some(id) else None, None, false), id);
    EvolvesTransitive(s, t, u);
  }

  lemma SameLeasesEvolve(s: State, t: State)
    requires LeasesOk(s) && t.leases == s.leases && t.index == s.index && t.sessions == s.sessions
    requires t.portEpoch == s.portEpoch && (t.tasks == s.tasks || TasksEvolve(s, t))
    ensures Evolves(s, t)
  {
    assert forall id <- s.index.byId :: RegisteredOk(s, id);
  }

  lemma ReceiveEvolves(s: State, m: Message, id: string, postOk: bool)
    requires Core(s) && s.portLive && FreshLeaseId(s, id)
    ensures Evolves(s, Receive(s, m, id, postOk))
  {
    match m.command
    case Other => EnqueueEvolves(s, m);
    case SessionClose => CloseEvolves(s, m, id);
    case Ping => BeginEvolves(s, m, SessionOf(m), id);
    case CancelRequest(target) => CancelRequestEvolves(s, m, id, postOk);
  }

  lemma EnqueueEvolves(s: State, m: Message)
    requires Core(s)
    ensures Evolves(s, Enqueue(s, m))
  {
    var t := Touch(s, SessionOf(m));
    TouchWeakens(s, SessionOf(m));
    WeakensKeepsTasks(s, t);
    WeakensEvolves(s, t);
    SameLeasesEvolve(t, Enqueue(s, m));
    EvolvesTransitive(s, t, Enqueue(s, m));
  }

  lemma CloseEvolves(s: State, m: Message, id: string)
    requires Core(s) && s.portLive && FreshLeaseId(s, id)
    ensures Evolves(s, Begin(CloseSession(s, SessionOf(m)), m, SessionOf(m), s.portEpoch, id, None))
  {
    var t := CloseSession(s, SessionOf(m));
    CloseSessionWeakens(s, SessionOf(m));
    WeakensKeepsCore(s, t);
    WeakensEvolves(s, t);
    BeginEvolves(t, m, SessionOf(m), id);
    EvolvesTransitive(s, t, Begin(t, m, SessionOf(m), s.portEpoch, id, None));
  }

  lemma CancelRequestEvolves(s: State, m: Message, id: string, postOk: bool)
    requires Core(s) && s.portLive && FreshLeaseId(s, id) && m.command.CancelRequest?
    ensures Evolves(s, CancelThenReply(Begin(s, m, SessionOf(m), s.portEpoch, id, None), m, postOk))
  {
    var t := Begin(s, m, SessionOf(m), s.portEpoch, id, None);
    BeginKeepsCore(s, m, SessionOf(m), id);
    BeginEvolves(s, m, SessionOf(m), id);
    CancelThenReplyWeakens(t, m, postOk);
    WeakensEvolves(t, CancelThenReply(t, m, postOk));
    EvolvesTransitive(s, t, CancelThenReply(t, m, postOk));
  }

  lemma StartSlotEvolves(s: State, h: Home, id: string)
    requires Core(s) && Enabled(s, StartChained(h, id))
    ensures Evolves(s, StartSlot(s, h, id))
  {
    var slot := s.chains[h.oid][h.slot];
    assert SlotOk(s, h.oid, h.slot);
    if slot.portEpoch == s.portEpoch {
      var t, k := StartSlotIs(s, h, id);
      MarkedSlotKeepsTasks(s, t, h);
      SameLeasesEvolve(s, t);
      BeginsEvolves(t, StartSlot(s, h, id), k, id);
      EvolvesTransitive(s, t, StartSlot(s, h, id));
    } else {
      var t := Marked(s, h, Resolved, Discarded(slot.message));
      MarkedSlotKeepsTasks(s, t, h);
      SameLeasesEvolve(s, t);
      if RequestIdOf(slot.message.ids).Some? {
        DiscardedLease(t, slot.message, slot.portEpoch, id);
      }
      NewLeaseEvolves(t, StartSlot(s, h, id), id);
      EvolvesTransitive(s, t, StartSlot(s, h, id));
    }
  }

  lemma NewLeaseEvolves(t: State, u: State, id: string)
    requires LeasesOk(t) && id !in t.leases
    requires u == t || (id in u.leases && u == t.(leases := t.leases[id := u.leases[id]], prunes := u.prunes))
    ensures Evolves(t, u)
  {
    assert forall x <- t.index.byId :: RegisteredOk(t, x);
  }

  lemma SettleEvolves(s: State, task: nat)
    requires Core(s) && Enabled(s, SettleHandler(task))
    ensures Evolves(s, Settle(s, task))
  {
    SettleIs(s, task);
    SettledEvolves(s, Settle(s, task), task);
  }

  lemma SettledEvolves(s: State, u: State, task: nat)
    requires LeasesOk(s) && task in s.tasks && Settled(s, u, task)
    ensures Evolves(s, u)
  {
    assert u.leases == s.leases && u.sessions == s.sessions && u.portEpoch == s.portEpoch;
    assert TasksEvolve(s, u);
    assert forall x <- u.index.byId :: x in s.index.byId;
    assert LeasesEvolve(s, u);
  }

  lemma WatchdogEvolves(s: State, task: nat, postOk: bool)
    requires Core(s) && Enabled(s, FireWatchdog(task, postOk))
    ensures Evolves(s, Watchdog(s, task, postOk))
    ensures s.tasks[task].lease.Some? ==> Spent(Watchdog(s, task, postOk), s.tasks[task].lease.value)
  {
    var u := BeforeCut(s, task, postOk);
    BeforeCutWeakens(s, task, postOk);
    WeakensKeepsCore(s, u);
    WeakensEvolves(s, u);
    CutEvolves(u, Watchdog(s, task, postOk), task, s.tasks[task]);
    EvolvesTransitive(s, u, Watchdog(s, task, postOk));
    assert TaskOk(s, task);
  }

  lemma CutEvolves(u: State, t: State, task: nat, k: Task)
    requires LeasesOk(u) && task in u.tasks && u.tasks[task] == k && t == u.(tasks := u.tasks[task := k.(cut := true)])
    ensures Evolves(u, t)
  {
    SameLeasesEvolve(u, t);
  }

  lemma PruneEvolves(s: State, p: Prune)
    requires Core(s)
    ensures Evolves(s, FirePrune(s, p))
  {
    if PruneApplies(s, p) {
      PrunedEvolves(s, FirePrune(s, p), p);
    } else {
      SameLeasesEvolve(s, FirePrune(s, p));
    }
  }

  lemma PrunedEvolves(s: State, u: State, p: Prune)
    requires PruneApplies(s, p) && u == s.(sessions := s.sessions - {p.sessionId}, prunes := u.prunes)
    ensures Evolves(s, u)
  {
    assert u.leases == s.leases && u.index == s.index && u.tasks == s.tasks && u.portEpoch == s.portEpoch;
    assert TasksEvolve(s, u);
    forall id | id in s.index.byId && id in s.leases && s.leases[id].sessionId in s.sessions
      ensures KeepsSession(s, u, s.leases[id].sessionId)
    {
      assert s.leases[id].sessionId != p.sessionId;
    }
    assert LeasesEvolve(s, u);
  }

  lemma StepEvolves(s: State, step: Step)
    requires Core(s) && Enabled(s, step)
    ensures Evolves(s, Apply(s, step))
  {
    match step
    case ConnectPort =>
      ConnectWeakens(s);
      WeakensEvolves(s, Connect(s));
    case DisconnectPort =>
      DropPortWeakens(s);
      WeakensEvolves(s, DropPort(s));
    case Arrive(m, id, postOk) => ReceiveEvolves(s, m, id, postOk);
    case StartChained(h, id) => StartSlotEvolves(s, h, id);
    case ResolveSlot(h) => SameLeasesEvolve(s, Apply(s, step));
    case Reply(r, lease, postOk) =>
      SendWeakens(s, r, lease, false, postOk);
      WeakensEvolves(s, Send(s, r, lease, false, postOk));
    case SettleHandler(t) => SettleEvolves(s, t);
    case FireWatchdog(t, postOk) => WatchdogEvolves(s, t, postOk);
    case PruneSession(p) => PruneEvolves(s, p);
    case BindSession(sid, bound) =>
      SetBoundWeakens(s, sid, bound);
      WeakensEvolves(s, SetBound(s, sid, bound));
    case ForgetTimedOut(key) => SameLeasesEvolve(s, Apply(s, step));
  }

  // ---------- what leaves the logs alone ----------

  predicate SameLogs(s: State, t: State) {
    t.posts == s.posts && t.arrived == s.arrived && t.outcomes == s.outcomes
  }

  lemma RegisterKeepsLogs(s: State, m: Message, sid: string, portEpoch: nat, id: string)
    requires RequestIdOf(m.ids).Some?
    ensures SameLogs(s, Register(s, m, sid, portEpoch, id)) && id in Register(s, m, sid, portEpoch, id).leases
  {
  }

  lemma CancelKeepsLogs(s: State, id: string)
    requires id in s.leases
    ensures SameLogs(s, Cancel(s, id)) && id in Cancel(s, id).leases
  {
  }

  lemma InvalidateKeepsLogs(s: State, sid: string)
    ensures SameLogs(s, Invalidate(s, sid))
  {
  }

  lemma BeginKeepsLogs(s: State, m: Message, sid: string, portEpoch: nat, id: string, home: Option<Home>)
    ensures SameLogs(s, Begin(s, m, sid, portEpoch, id, home))
  {
    if RequestIdOf(m.ids).Some? {
      var t := Register(s, m, sid, portEpoch, id);
      RegisterKeepsLogs(s, m, sid, portEpoch, id);
      CancelKeepsLogs(t, id);
      ClearIs(Cancel(t, id), id);
    }
  }
}
