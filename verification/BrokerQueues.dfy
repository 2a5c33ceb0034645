/** Session queues and the live port, in every run of the broker. */
module BrokerQueues {
  import opened Common
  import opened LeaseIndex
  import opened Broker
  import opened BrokerInvariant
  import opened BrokerSafety
  import opened BrokerTheorems

  // ---------- the session queue ----------

  /** Every message sent to a session's queue has had exactly one turn or still waits, in order of arrival:
      none is lost, repeated or overtaken, across pruning, watchdogs and session_close. */
  lemma QueueConserved(ss: seq<State>, i: nat, sid: string)
    requires Behaviour(ss) && i < |ss|
    ensures At(ss[i].arrived, sid) == Messages(At(ss[i].outcomes, sid)) + WaitingIn(ss[i], sid)
  {
    Always(ss, i);
    assert Conserved(ss[i], sid);
  }

  /** The logs are append-only, so a turn once taken stays taken. */
  ghost predicate LogsGrow(s: State, t: State) {
    forall sid: string :: At(s.outcomes, sid) <= At(t.outcomes, sid) && At(s.arrived, sid) <= At(t.arrived, sid)
  }

  lemma StepGrowsLogs(s: State, step: Step)
    requires Core(s) && Enabled(s, step)
    ensures LogsGrow(s, Apply(s, step))
  {
    match step
    case ConnectPort =>
    case DisconnectPort => DropPortWeakens(s);
    case Arrive(m, id, postOk) => ReceiveGrowsLogs(s, m, id, postOk);
    case StartChained(h, id) => StartSlotGrowsLogs(s, h, id);
    case ResolveSlot(h) =>
    case Reply(r, lease, postOk) => SendWeakens(s, r, lease, false, postOk);
    case SettleHandler(t) => SettleIs(s, t);
    case FireWatchdog(t, postOk) => BeforeCutWeakens(s, t, postOk);
    case PruneSession(p) =>
    case BindSession(sid, bound) => SetBoundWeakens(s, sid, bound);
    case ForgetTimedOut(key) =>
  }

  lemma ReceiveGrowsLogs(s: State, m: Message, id: string, postOk: bool)
    requires Core(s) && s.portLive && FreshLeaseId(s, id)
    ensures LogsGrow(s, Receive(s, m, id, postOk))
  {
    var sid := SessionOf(m);
    match m.command
    case Other => TouchWeakens(s, sid);
    case SessionClose => CloseGrowsLogs(s, m, id);
    case Ping => BeginKeepsLogs(s, m, sid, s.portEpoch, id, None);
    case CancelRequest(_) => CancelGrowsLogs(s, m, id, postOk);
  }

  lemma CloseGrowsLogs(s: State, m: Message, id: string)
    requires Core(s) && s.portLive && FreshLeaseId(s, id)
    ensures LogsGrow(s, Begin(CloseSession(s, SessionOf(m)), m, SessionOf(m), s.portEpoch, id, None))
  {
    CloseSessionWeakens(s, SessionOf(m));
    BeginKeepsLogs(CloseSession(s, SessionOf(m)), m, SessionOf(m), s.portEpoch, id, None);
  }

  lemma CancelGrowsLogs(s: State, m: Message, id: string, postOk: bool)
    requires Core(s) && s.portLive && FreshLeaseId(s, id) && m.command.CancelRequest?
    ensures LogsGrow(s, CancelThenReply(Begin(s, m, SessionOf(m), s.portEpoch, id, None), m, postOk))
  {
    var t := Begin(s, m, SessionOf(m), s.portEpoch, id, None);
    BeginKeepsLogs(s, m, SessionOf(m), s.portEpoch, id, None);
    BeginKeepsCore(s, m, SessionOf(m), id);
    CancelThenReplyWeakens(t, m, postOk);
    assert CancelThenReply(t, m, postOk).outcomes == s.outcomes && CancelThenReply(t, m, postOk).arrived == s.arrived;
  }

  lemma StartSlotGrowsLogs(s: State, h: Home, id: string)
    requires h.slot < |Chain(s, h.oid)|
    ensures LogsGrow(s, StartSlot(s, h, id))
  {
    var slot := s.chains[h.oid][h.slot];
    var o := if slot.portEpoch == s.portEpoch then Started(slot.message) else Discarded(slot.message);
    BeginKeepsLogs(Marked(s, h, if slot.portEpoch == s.portEpoch then Running(s.nextTask) else Resolved, o),
                   slot.message, SessionOf(slot.message), slot.portEpoch, id, Some(h));
  }

  lemma LogsGrowAt(ss: seq<State>, i: nat)
    requires Behaviour(ss) && i + 1 < |ss|
    ensures LogsGrow(ss[i], ss[i + 1])
  {
    Always(ss, i);
    assert StepIn(ss, i);
    var step :| Enabled(ss[i], step) && ss[i + 1] == Apply(ss[i], step);
    StepGrowsLogs(ss[i], step);
  }

  lemma {:induction false} TurnsAreFinal(ss: seq<State>, i: nat, j: nat, sid: string)
    requires Behaviour(ss) && i <= j < |ss|
    ensures At(ss[i].outcomes, sid) <= At(ss[j].outcomes, sid)
    ensures At(ss[i].arrived, sid) <= At(ss[j].arrived, sid)
    decreases j
  {
    if i < j {
      TurnsAreFinal(ss, i, j - 1, sid);
      LogsGrowAt(ss, j - 1);
    }
  }

  /** A handler is queued work: it came through its session's promise chain. */
  predicate Queued(s: State, task: nat) { task in s.tasks && s.tasks[task].home.Some? && s.tasks[task].lease.Some? }

  /** At most one queued lease of a session is current, even while cut handlers unwind and session_close runs
      beside the queue. */
  lemma OneCurrentQueuedLease(ss: seq<State>, i: nat, a: nat, b: nat)
    requires Behaviour(ss) && i < |ss|
    requires Queued(ss[i], a) && Queued(ss[i], b) && ss[i].tasks[a].sessionId == ss[i].tasks[b].sessionId
    requires ss[i].tasks[a].lease.value in ss[i].leases && Current(ss[i], ss[i].tasks[a].lease.value)
    requires ss[i].tasks[b].lease.value in ss[i].leases && Current(ss[i], ss[i].tasks[b].lease.value)
    ensures a == b
  {
    Always(ss, i);
    UncutQueuedTaskIsUnique(ss[i], a, b);
  }

  lemma UncutQueuedTaskIsUnique(s: State, a: nat, b: nat)
    requires TasksOk(s) && ChainsOk(s) && Queued(s, a) && Queued(s, b) && s.tasks[a].sessionId == s.tasks[b].sessionId
    requires s.tasks[a].lease.value in s.leases && !s.leases[s.tasks[a].lease.value].cancelled
    requires s.tasks[b].lease.value in s.leases && !s.leases[s.tasks[b].lease.value].cancelled
    ensures a == b
  {
    UncutIsRunning(s, a);
    UncutIsRunning(s, b);
    var ha, hb := s.tasks[a].home.value, s.tasks[b].home.value;
    OneRunning(Chain(s, ha.oid), ha.slot, hb.slot);
  }

  lemma UncutIsRunning(s: State, a: nat)
    requires TasksOk(s) && Queued(s, a)
    requires s.tasks[a].lease.value in s.leases && !s.leases[s.tasks[a].lease.value].cancelled
    ensures
      var h := s.tasks[a].home.value;
      && h.slot < |Chain(s, h.oid)| && Chain(s, h.oid)[h.slot].status == Running(a)
      && h.oid.sessionId == s.tasks[a].sessionId && Attached(s, h.oid)
  {
    assert TaskOk(s, a);
  }

  lemma OneRunning(c: seq<Slot>, i: nat, j: nat)
    requires ChainShape(c) && i < |c| && j < |c| && c[i].status.Running? && c[j].status.Running?
    ensures i == j
  {
    assert !(i < j) && !(j < i);
  }

  /** A queue never gets stuck: the message at its head may take its turn, or the link before it is still open
      and that link's handler may settle or be cut, or already has been and the link may close. */
  lemma HeadCanProceed(ss: seq<State>, n: nat, sid: string, i: nat, id: string)
    requires Behaviour(ss) && n < |ss| && FreshLeaseId(ss[n], id)
    requires sid in ss[n].sessions
    requires
      var c := Chain(ss[n], ss[n].sessions[sid].oid);
      i < |c| && c[i].status.Waiting? && (i > 0 ==> !c[i - 1].status.Waiting?)
    ensures
      var s := ss[n];
      var oid := s.sessions[sid].oid;
      || Enabled(s, StartChained(Home(oid, i), id))
      || (i > 0 && Enabled(s, ResolveSlot(Home(oid, i - 1))))
      || (i > 0 && Chain(s, oid)[i - 1].status.Running?
          && Enabled(s, SettleHandler(Chain(s, oid)[i - 1].status.task))
          && Enabled(s, FireWatchdog(Chain(s, oid)[i - 1].status.task, true)))
  {
    Always(ss, n);
    HeadCanProceedIn(ss[n], ss[n].sessions[sid].oid, i, id);
  }

  lemma HeadCanProceedIn(s: State, oid: ObjectId, i: nat, id: string)
    requires TasksOk(s) && FreshLeaseId(s, id)
    requires i < |Chain(s, oid)| && Chain(s, oid)[i].status.Waiting? && (i > 0 ==> !Chain(s, oid)[i - 1].status.Waiting?)
    ensures
      || Enabled(s, StartChained(Home(oid, i), id))
      || (i > 0 && Enabled(s, ResolveSlot(Home(oid, i - 1))))
      || (i > 0 && Chain(s, oid)[i - 1].status.Running?
          && Enabled(s, SettleHandler(Chain(s, oid)[i - 1].status.task))
          && Enabled(s, FireWatchdog(Chain(s, oid)[i - 1].status.task, true)))
  {
    if i == 0 || Chain(s, oid)[i - 1].status.Resolved? {
      assert Enabled(s, StartChained(Home(oid, i), id));
    } else {
      var t := Chain(s, oid)[i - 1].status.task;
      if t in s.tasks && !s.tasks[t].cut {
        UncutCanEnd(s, t);
      } else {
        assert Enabled(s, ResolveSlot(Home(oid, i - 1)));
      }
    }
  }

  lemma UncutCanEnd(s: State, t: nat)
    requires TasksOk(s) && t in s.tasks && !s.tasks[t].cut
    ensures Enabled(s, SettleHandler(t)) && Enabled(s, FireWatchdog(t, true))
  {
    assert TaskOk(s, t);
  }

  /** session_close at once makes every lease the session had stale, running or not. */
  lemma CloseCutsSessionOff(s: State, m: Message, id: string, postOk: bool, earlier: string)
    requires Inv(s) && Enabled(s, Arrive(m, id, postOk)) && m.command.SessionClose?
    requires earlier in s.index.byId && earlier in s.leases && s.leases[earlier].sessionId == SessionOf(m)
    ensures earlier in Receive(s, m, id, postOk).leases && Receive(s, m, id, postOk).leases[earlier].cancelled
  {
    var sid := SessionOf(m);
    var t := CloseSession(s, sid);
    assert earlier in RegisteredIn(s, sid);
    CloseSessionWeakens(s, sid);
    WeakensKeepsCore(s, t);
    BeginEvolves(t, m, sid, id);
    assert CancelAll(s, RegisteredIn(s, sid)).leases[earlier].cancelled;
    assert t.leases[earlier].cancelled;
  }

  // ---------- the live port ----------

  /** Every registered uncancelled lease is for the port that is connected now. */
  lemma LivePort(ss: seq<State>, i: nat, id: string)
    requires Behaviour(ss) && i < |ss| && id in ss[i].index.byId
    ensures id in ss[i].leases
    ensures !ss[i].leases[id].cancelled ==> ss[i].portLive && ss[i].leases[id].portEpoch == ss[i].portEpoch
  {
    Always(ss, i);
    assert RegisteredOk(ss[i], id);
  }

  /** A queued message starts only on the port it came from; if that port is gone it is discarded. */
  lemma StartsOnItsOwnPort(ss: seq<State>, i: nat, h: Home, id: string)
    requires Behaviour(ss) && i < |ss| && Enabled(ss[i], StartChained(h, id))
    ensures
      var s := ss[i];
      var slot := Chain(s, h.oid)[h.slot];
      var t := StartSlot(s, h, id);
      if slot.portEpoch == s.portEpoch
      then s.portLive && At(t.outcomes, h.oid.sessionId) == At(s.outcomes, h.oid.sessionId) + [Started(slot.message)]
           && t.tasks.Keys == s.tasks.Keys + {s.nextTask}
      else At(t.outcomes, h.oid.sessionId) == At(s.outcomes, h.oid.sessionId) + [Discarded(slot.message)]
           && t.tasks == s.tasks && t.index == s.index
  {
    Always(ss, i);
    StartOrDiscard(ss[i], h, id);
  }

  lemma StartOrDiscard(s: State, h: Home, id: string)
    requires Core(s) && Enabled(s, StartChained(h, id))
    ensures
      var slot := Chain(s, h.oid)[h.slot];
      var t := StartSlot(s, h, id);
      if slot.portEpoch == s.portEpoch
      then s.portLive && At(t.outcomes, h.oid.sessionId) == At(s.outcomes, h.oid.sessionId) + [Started(slot.message)]
           && t.tasks.Keys == s.tasks.Keys + {s.nextTask}
      else At(t.outcomes, h.oid.sessionId) == At(s.outcomes, h.oid.sessionId) + [Discarded(slot.message)]
           && t.tasks == s.tasks && t.index == s.index
  {
    assert SlotOk(s, h.oid, h.slot);
    if Chain(s, h.oid)[h.slot].portEpoch == s.portEpoch {
      Starts(s, h, id);
    } else {
      Discards(s, h, id);
    }
  }

  lemma Starts(s: State, h: Home, id: string)
    requires ChainsOk(s) && Enabled(s, StartChained(h, id)) && Chain(s, h.oid)[h.slot].portEpoch == s.portEpoch
    ensures s.portLive
    ensures At(StartSlot(s, h, id).outcomes, h.oid.sessionId)
         == At(s.outcomes, h.oid.sessionId) + [Started(Chain(s, h.oid)[h.slot].message)]
    ensures StartSlot(s, h, id).tasks.Keys == s.tasks.Keys + {s.nextTask}
  {
    assert SlotOk(s, h.oid, h.slot);
    var t, k := StartSlotIs(s, h, id);
    var u := StartSlot(s, h, id);
    assert u.tasks == t.tasks[t.nextTask := k] && u.outcomes == t.outcomes;
  }

  lemma Discards(s: State, h: Home, id: string)
    requires Core(s) && Enabled(s, StartChained(h, id)) && Chain(s, h.oid)[h.slot].portEpoch != s.portEpoch
    ensures At(StartSlot(s, h, id).outcomes, h.oid.sessionId)
         == At(s.outcomes, h.oid.sessionId) + [Discarded(Chain(s, h.oid)[h.slot].message)]
    ensures StartSlot(s, h, id).tasks == s.tasks && StartSlot(s, h, id).index == s.index
  {
    var slot := s.chains[h.oid][h.slot];
    assert SlotOk(s, h.oid, h.slot);
    var t := Marked(s, h, Resolved, Discarded(slot.message));
    MarkedSlotKeepsTasks(s, t, h);
    if RequestIdOf(slot.message.ids).Some? {
      DiscardedLease(t, slot.message, slot.portEpoch, id);
    }
  }

  // ---------- the indexes ----------

  /** The three lease maps agree in every reachable state. */
  lemma IndexesAgree(ss: seq<State>, i: nat)
    requires Behaviour(ss) && i < |ss|
    ensures Coherent(ss[i].index)
    ensures forall id <- ss[i].index.byId :: id in ss[i].leases && ss[i].index.byId[id] == RefOf(id, ss[i].leases[id])
  {
    Always(ss, i);
    assert forall id <- ss[i].index.byId :: RegisteredOk(ss[i], id);
  }

  /** A registered lease is exactly one that an unsettled handler holds. */
  lemma RegisteredIffHeld(ss: seq<State>, i: nat, id: string)
    requires Behaviour(ss) && i < |ss|
    ensures id in ss[i].index.byId <==> exists t :: t in ss[i].tasks && ss[i].tasks[t].lease == Some(id)
  {
    Always(ss, i);
    if id in ss[i].index.byId {
      assert RegisteredOk(ss[i], id);
    }
    forall t | t in ss[i].tasks && ss[i].tasks[t].lease == Some(id) ensures id in ss[i].index.byId {
      assert TaskOk(ss[i], t);
    }
  }
}
