/** When a stale lease is stale for ever: exactly if it was cancelled, its port is gone, or its session is one of the
    two that are never pruned. */
module BrokerPermanence {
  import opened Common
  import opened LeaseIndex
  import opened Broker
  import opened BrokerInvariant
  import opened BrokerSafety
  import opened BrokerTheorems

  // ---------- a second invariant, about leases whether registered or not ----------

  predicate Named(sid: string) { sid == CONTROL_PLANE_SESSION || NormalizeSessionId(sid) == sid }

  ghost predicate LeaseSound(s: State, l: Lease) {
    && (l.portEpoch == s.portEpoch ==> s.portLive)
    && Named(l.sessionId)
    && (NeverPruned(l.sessionId) ==> l.sessionId in s.sessions && l.sessionEpoch <= s.sessions[l.sessionId].epoch)
  }

  /** No prune is scheduled for a permanent session, so such a session, once there, stays and its epoch never falls;
      and a lease of the current port epoch means that the port is live. */
  ghost predicate Stamped(s: State) {
    && (forall p <- s.prunes :: !NeverPruned(p.sessionId))
    && (forall id <- s.leases :: LeaseSound(s, s.leases[id]))
  }

  ghost predicate KeepsPermanent(s: State, t: State) {
    forall sid <- s.sessions :: NeverPruned(sid) ==> sid in t.sessions && s.sessions[sid].epoch <= t.sessions[sid].epoch
  }

  /** What a part of a step leaves behind. */
  ghost predicate Advances(s: State, t: State) { Stamped(t) && KeepsPermanent(s, t) }

  lemma WeakensAdvances(s: State, t: State)
    requires Stamped(s) && LeasesOk(s) && Weakens(s, t) && t.prunes == s.prunes
    ensures Advances(s, t)
  {
    forall id <- t.leases ensures LeaseSound(t, t.leases[id]) {
      assert id in s.leases && SameButCancelled(s.leases[id], t.leases[id]) && LeaseSound(s, s.leases[id]);
    }
  }

  lemma BeginsAdvances(s: State, t: State, u: State, k: Task, id: string)
    requires Advances(s, t) && Begins(t, u, k, id) && Named(k.sessionId)
    ensures Advances(s, u)
  {
    forall x <- u.leases ensures LeaseSound(u, u.leases[x]) {
      if x in t.leases {
        assert LeaseSound(t, t.leases[x]);
      }
    }
  }

  /** Leases, sessions and port stay; prunes may go, or come for sessions that may be pruned. */
  lemma SameAdvances(s: State, t: State)
    requires Stamped(s) && t.leases == s.leases && t.sessions == s.sessions
    requires t.portEpoch == s.portEpoch && t.portLive == s.portLive
    requires forall p <- t.prunes :: p in s.prunes || !NeverPruned(p.sessionId)
    ensures Advances(s, t)
  {
    forall id <- t.leases ensures LeaseSound(t, t.leases[id]) { assert LeaseSound(s, s.leases[id]); }
  }

  lemma SessionNamed(m: Message)
    ensures Named(SessionOf(m))
  {
    NormalizeIsIdempotent(m.rawSession);
  }

  lemma BeginAdvances(s: State, m: Message, id: string)
    requires Core(s) && Stamped(s) && s.portLive && FreshLeaseId(s, id)
    ensures Advances(s, Begin(s, m, SessionOf(m), s.portEpoch, id, None))
  {
    var sid, hasId := SessionOf(m), RequestIdOf(m.ids).Some?;
    var t := if hasId then Touch(s, sid) else s;
    SessionNamed(m);
    if hasId {
      TouchWeakens(s, sid);
      WeakensAdvances(s, t);
    } else {
      SameAdvances(s, s);
    }
    BeginIs(s, m, sid, id, None);
    BeginsAdvances(s, t, Begin(s, m, sid, s.portEpoch, id, None), Task(m, sid, if hasId then Some(id) else None, None, false), id);
  }

  lemma CloseAdvances(s: State, m: Message, id: string)
    requires Core(s) && Stamped(s) && s.portLive && FreshLeaseId(s, id)
    ensures Advances(s, Begin(CloseSession(s, SessionOf(m)), m, SessionOf(m), s.portEpoch, id, None))
  {
    var t := CloseSession(s, SessionOf(m));
    CloseSessionWeakens(s, SessionOf(m));
    WeakensKeepsCore(s, t);
    WeakensAdvances(s, t);
    BeginAdvances(t, m, id);
  }

  lemma CancelRequestAdvances(s: State, m: Message, id: string, postOk: bool)
    requires Core(s) && Stamped(s) && s.portLive && FreshLeaseId(s, id) && m.command.CancelRequest?
    ensures Advances(s, CancelThenReply(Begin(s, m, SessionOf(m), s.portEpoch, id, None), m, postOk))
  {
    var t := Begin(s, m, SessionOf(m), s.portEpoch, id, None);
    BeginKeepsCore(s, m, SessionOf(m), id);
    BeginAdvances(s, m, id);
    CancelThenReplyWeakens(t, m, postOk);
    var u := CancelAll(t, RegisteredFor(t, m.command.target));
    SendKeepsPrunes(u, CancelReply(m), None, false, postOk);
    WeakensAdvances(t, CancelThenReply(t, m, postOk));
  }

  lemma SendKeepsPrunes(s: State, r: Response, lease: Option<string>, afterWatchdog: bool, postOk: bool)
    ensures Send(s, r, lease, afterWatchdog, postOk).prunes == s.prunes
  {
    var t := Checked(s, r, lease, afterWatchdog);
    assert t.prunes == s.prunes;
    assert DropPort(t).prunes == t.prunes;
  }

  lemma ReceiveAdvances(s: State, m: Message, id: string, postOk: bool)
    requires Core(s) && Stamped(s) && s.portLive && FreshLeaseId(s, id)
    ensures Advances(s, Receive(s, m, id, postOk))
  {
    match m.command
    case Other =>
      TouchWeakens(s, SessionOf(m));
      WeakensAdvances(s, Touch(s, SessionOf(m)));
      SameAdvances(Touch(s, SessionOf(m)), Enqueue(s, m));
    case SessionClose => CloseAdvances(s, m, id);
    case Ping => BeginAdvances(s, m, id);
    case CancelRequest(_) => CancelRequestAdvances(s, m, id, postOk);
  }

  lemma StartSlotAdvances(s: State, h: Home, id: string)
    requires Core(s) && Stamped(s) && Enabled(s, StartChained(h, id))
    ensures Advances(s, StartSlot(s, h, id))
  {
    var slot := s.chains[h.oid][h.slot];
    assert SlotOk(s, h.oid, h.slot);
    SessionNamed(slot.message);
    if slot.portEpoch == s.portEpoch {
      var t, k := StartSlotIs(s, h, id);
      SameAdvances(s, t);
      BeginsAdvances(s, t, StartSlot(s, h, id), k, id);
    } else {
      var t := Marked(s, h, Resolved, Discarded(slot.message));
      MarkedSlotKeepsTasks(s, t, h);
      SameAdvances(s, t);
      if RequestIdOf(slot.message.ids).Some? {
        DiscardAdvances(t, slot.message, slot.portEpoch, id);
      }
    }
  }

  lemma DiscardAdvances(t: State, m: Message, portEpoch: nat, id: string)
    requires LeasesOk(t) && Stamped(t) && SessionOf(m) in t.sessions && FreshLeaseId(t, id) && RequestIdOf(m.ids).Some?
    requires portEpoch != t.portEpoch
    ensures Advances(t, Clear(Cancel(Register(t, m, SessionOf(m), portEpoch, id), id), id))
  {
    var sid := SessionOf(m);
    var c := Cancel(Register(t, m, sid, portEpoch, id), id);
    var u := Clear(c, id);
    SessionNamed(m);
    DiscardedLease(t, m, portEpoch, id);
    assert c.prunes == t.prunes;
    ClearPrunes(c, id);
    forall x <- u.leases ensures LeaseSound(u, u.leases[x]) {
      if x != id {
        assert LeaseSound(t, t.leases[x]);
      }
    }
  }

  lemma ClearPrunes(s: State, id: string)
    requires id in s.leases
    ensures forall p <- Clear(s, id).prunes :: p in s.prunes || !NeverPruned(p.sessionId)
  {
  }

  lemma SettleAdvances(s: State, task: nat)
    requires Core(s) && Stamped(s) && Enabled(s, SettleHandler(task))
    ensures Advances(s, Settle(s, task))
  {
    SettleIs(s, task);
    if s.tasks[task].lease.Some? {
      ClearPrunes(s.(tasks := s.tasks - {task}), s.tasks[task].lease.value);
    }
    SameAdvances(s, Settle(s, task));
  }

  lemma WatchdogAdvances(s: State, task: nat, postOk: bool)
    requires Core(s) && Stamped(s) && Enabled(s, FireWatchdog(task, postOk))
    ensures Advances(s, Watchdog(s, task, postOk))
  {
    var u := BeforeCut(s, task, postOk);
    BeforeCutWeakens(s, task, postOk);
    BeforeCutKeepsPrunes(s, task, postOk);
    WeakensAdvances(s, u);
    SameAdvances(u, Watchdog(s, task, postOk));
  }

  lemma BeforeCutKeepsPrunes(s: State, task: nat, postOk: bool)
    requires task in s.tasks && (s.tasks[task].lease.Some? ==> s.tasks[task].lease.value in s.leases)
    ensures BeforeCut(s, task, postOk).prunes == s.prunes
  {
    var k := s.tasks[task];
    var t := CancelTimedOut(s, k.lease);
    assert t.prunes == s.prunes;
    assert Invalidate(t, k.sessionId).prunes == t.prunes;
    SendKeepsPrunes(TimedOut(s, task), TimeoutReply(k), None, true, postOk);
  }

  lemma PruneAdvances(s: State, p: Prune)
    requires Stamped(s) && p in s.prunes
    ensures Advances(s, FirePrune(s, p))
  {
    var t := FirePrune(s, p);
    if PruneApplies(s, p) {
      PrunedAdvances(s, t, p);
    } else {
      SameAdvances(s, t);
    }
  }

  lemma PrunedAdvances(s: State, t: State, p: Prune)
    requires Stamped(s) && !NeverPruned(p.sessionId) && (forall q <- t.prunes :: q in s.prunes)
    requires t.sessions == s.sessions - {p.sessionId} && t.leases == s.leases
    requires t.portEpoch == s.portEpoch && t.portLive == s.portLive
    ensures Advances(s, t)
  {
    forall id <- t.leases ensures LeaseSound(t, t.leases[id]) { assert LeaseSound(s, s.leases[id]); }
  }

  lemma StepAdvances(s: State, step: Step)
    requires Core(s) && Stamped(s) && Enabled(s, step)
    ensures Advances(s, Apply(s, step))
  {
    match step
    case ConnectPort =>
      ConnectWeakens(s);
      WeakensAdvances(s, Connect(s));
    case DisconnectPort =>
      DropPortWeakens(s);
      WeakensAdvances(s, DropPort(s));
    case Arrive(m, id, postOk) => ReceiveAdvances(s, m, id, postOk);
    case StartChained(h, id) => StartSlotAdvances(s, h, id);
    case ResolveSlot(h) => SameAdvances(s, Apply(s, step));
    case Reply(r, lease, postOk) =>
      SendWeakens(s, r, lease, false, postOk);
      SendKeepsPrunes(s, r, lease, false, postOk);
      WeakensAdvances(s, Send(s, r, lease, false, postOk));
    case SettleHandler(t) => SettleAdvances(s, t);
    case FireWatchdog(t, postOk) => WatchdogAdvances(s, t, postOk);
    case PruneSession(p) => PruneAdvances(s, p);
    case BindSession(sid, bound) =>
      SetBoundWeakens(s, sid, bound);
      WeakensAdvances(s, SetBound(s, sid, bound));
    case ForgetTimedOut(key) => SameAdvances(s, Apply(s, step));
  }

  /** Both invariants. */
  ghost predicate Sound(s: State) { Inv(s) && Stamped(s) }

  lemma NextKeepsSound(s: State, t: State)
    requires Sound(s) && Next(s, t)
    ensures Sound(t) && Evolves(s, t) && KeepsPermanent(s, t)
  {
    NextKeepsInv(s, t);
    NextAdvances(s, t);
  }

  lemma NextAdvances(s: State, t: State)
    requires Core(s) && Stamped(s) && Next(s, t)
    ensures Advances(s, t)
  {
    var step :| Enabled(s, step) && t == Apply(s, step);
    StepAdvances(s, step);
  }

  lemma AlwaysSound(ss: seq<State>, i: nat)
    requires Behaviour(ss) && i < |ss|
    ensures Sound(ss[i])
  {
    InitHasInv(ss[0]);
    for k := 0 to i
      invariant Sound(ss[k])
    {
      SoundStep(ss, k);
    }
  }

  lemma SoundStep(ss: seq<State>, k: nat)
    requires k + 1 < |ss| && StepIn(ss, k) && Sound(ss[k])
    ensures Sound(ss[k + 1])
  {
    NextKeepsSound(ss[k], ss[k + 1]);
  }

  // ---------- what may follow a state ----------

  ghost predicate IsRun(ss: seq<State>) { |ss| > 0 && forall i: nat :: i + 1 < |ss| ==> StepIn(ss, i) }

  ghost predicate RunFrom(ss: seq<State>, s: State, t: State) { IsRun(ss) && ss[0] == s && ss[|ss| - 1] == t }

  /** Some run goes from s to t. */
  ghost predicate LeadsTo(s: State, t: State) { exists ss :: RunFrom(ss, s, t) }

  lemma LeadsRefl(s: State)
    ensures LeadsTo(s, s)
  {
    assert RunFrom([s], s, s);
  }

  lemma StepInPart(ss: seq<State>, i: nat, all: seq<State>, j: nat)
    requires i + 1 < |ss| && j + 1 < |all| && StepIn(ss, i) && all[j] == ss[i] && all[j + 1] == ss[i + 1]
    ensures StepIn(all, j)
  {
  }

  lemma JoinRuns(a: seq<State>, b: seq<State>)
    requires IsRun(a) && IsRun(b) && a[|a| - 1] == b[0]
    ensures IsRun(a + b[1..])
  {
    var all := a + b[1..];
    forall j: nat | j + 1 < |all| ensures StepIn(all, j) {
      if j + 1 < |a| {
        StepInPart(a, j, all, j);
      } else {
        StepInPart(b, j + 1 - |a|, all, j);
      }
    }
  }

  lemma LeadsAppend(s: State, u: State, t: State)
    requires LeadsTo(s, u) && LeadsTo(u, t)
    ensures LeadsTo(s, t)
  {
    var a :| RunFrom(a, s, u);
    var b :| RunFrom(b, u, t);
    JoinRuns(a, b);
    assert RunFrom(a + b[1..], s, t);
  }

  lemma LeadsStep(s: State, u: State, t: State)
    requires Next(s, u) && LeadsTo(u, t)
    ensures LeadsTo(s, t)
  {
    var a := [s, u];
    assert StepIn(a, 0);
    assert RunFrom(a, s, u);
    LeadsAppend(s, u, t);
  }

  // ---------- stale for ever ----------

  /** What can be read off the lease, the port epoch and the session's name now. */
  predicate Hopeless(s: State, l: Lease) {
    l.cancelled || l.portEpoch != s.portEpoch || l.sessionId == "default" || l.sessionId == "__control_plane"
  }

  ghost predicate StaleAndHopeless(s: State, id: string) {
    id in s.leases && !Current(s, id) && Hopeless(s, s.leases[id])
  }

  ghost predicate SoundAndHopeless(s: State, id: string) { Sound(s) && StaleAndHopeless(s, id) }

  lemma StaysHopeless(s: State, t: State, id: string)
    requires SoundAndHopeless(s, id) && Next(s, t)
    ensures SoundAndHopeless(t, id)
  {
    NextKeepsSound(s, t);
    HopelessAfter(s, t, id);
  }

  lemma HopelessAfter(s: State, t: State, id: string)
    requires LeasesOk(s) && Stamped(s) && Stamped(t) && LeasesEvolve(s, t) && KeepsPermanent(s, t) && StaleAndHopeless(s, id)
    ensures StaleAndHopeless(t, id)
  {
    assert SameButCancelled(s.leases[id], t.leases[id]);
    assert LeaseSound(s, s.leases[id]) && LeaseSound(t, t.leases[id]);
  }

  lemma HopelessStep(ss: seq<State>, k: nat, id: string)
    requires k + 1 < |ss| && StepIn(ss, k) && SoundAndHopeless(ss[k], id)
    ensures SoundAndHopeless(ss[k + 1], id)
  {
    StaysHopeless(ss[k], ss[k + 1], id);
  }

  lemma HopelessForEver(s: State, t: State, id: string)
    requires LeadsTo(s, t) && SoundAndHopeless(s, id)
    ensures SoundAndHopeless(t, id)
  {
    var ss :| RunFrom(ss, s, t);
    for k := 0 to |ss| - 1
      invariant SoundAndHopeless(ss[k], id)
    {
      HopelessStep(ss, k, id);
    }
  }

  // ---------- a way back for all others ----------

  lemma {:induction false} LongerThanAll(ids: set<string>) returns (n: nat)
    ensures forall x <- ids :: |x| < n
  {
    if ids == {} {
      n := 0;
    } else {
      var x :| x in ids;
      var m := LongerThanAll(ids - {x});
      n := if m > |x| then m else |x| + 1;
      assert forall y <- ids :: y == x || y in ids - {x};
    }
  }

  lemma FreshIdExists(s: State) returns (id: string)
    ensures FreshLeaseId(s, id)
  {
    var n := LongerThanAll(s.leases.Keys);
    id := seq(n + 1, _ => 'a');
    assert id !in s.leases.Keys;
  }

  /** On the way the lease stays as it is and its port stays live. */
  ghost predicate OnTheWay(s: State, id: string, l: Lease) {
    Sound(s) && id in s.leases && s.leases[id] == l && !l.cancelled && l.portEpoch == s.portEpoch && s.portLive
  }

  lemma Forward(s: State, step: Step, t: State, id: string, l: Lease)
    requires OnTheWay(s, id, l) && Enabled(s, step) && t == Apply(s, step)
    requires id in t.leases && t.leases[id] == l && t.portEpoch == s.portEpoch
    ensures Next(s, t) && OnTheWay(t, id, l)
  {
    assert Next(s, t);
    NextKeepsSound(s, t);
    assert LeaseSound(t, l);
  }

  /** What settling handlers leaves alone. */
  predicate OnlyTasks(s: State, t: State) {
    t == s.(tasks := t.tasks, index := t.index, prunes := t.prunes)
  }

  lemma SettleOne(s: State, id: string, l: Lease, k: nat)
    requires OnTheWay(s, id, l) && k in s.tasks
    ensures Enabled(s, SettleHandler(k))
    ensures var t := Settle(s, k); Next(s, t) && OnTheWay(t, id, l) && OnlyTasks(s, t) && t.tasks == s.tasks - {k}
  {
    assert TaskOk(s, k);
    SettleIs(s, k);
    Forward(s, SettleHandler(k), Settle(s, k), id, l);
  }

  lemma {:induction false} SettleAll(s: State, id: string, l: Lease) returns (t: State)
    requires OnTheWay(s, id, l)
    ensures LeadsTo(s, t) && OnTheWay(t, id, l) && OnlyTasks(s, t) && t.tasks == map[]
    decreases |s.tasks.Keys|
  {
    if s.tasks.Keys == {} {
      LeadsRefl(s);
      t := s;
    } else {
      var k :| k in s.tasks.Keys;
      SettleOne(s, id, l, k);
      assert Settle(s, k).tasks.Keys == s.tasks.Keys - {k};
      t := SettleAll(Settle(s, k), id, l);
      LeadsStep(s, Settle(s, k), t);
    }
  }

  lemma NoHandlersNoLeases(s: State)
    requires LeasesOk(s) && s.tasks == map[]
    ensures s.index.byId == map[]
  {
    assert forall id <- s.index.byId :: RegisteredOk(s, id);
    assert forall id :: id !in s.index.byId;
  }

  function Weight(st: Status): nat { match st case Waiting => 2 case Running(_) => 1 case Resolved => 0 }

  function Work(c: seq<Slot>): nat { if c == [] then 0 else Work(c[..|c| - 1]) + Weight(c[|c| - 1].status) }

  lemma {:induction false} WorkShrinks(c: seq<Slot>, i: nat, st: Status)
    requires i < |c|
    ensures Work(c[i := c[i].(status := st)]) == Work(c) - Weight(c[i].status) + Weight(st)
  {
    var d := c[i := c[i].(status := st)];
    if i < |c| - 1 {
      WorkShrinks(c[..|c| - 1], i, st);
      assert d[..|c| - 1] == c[..|c| - 1][i := c[i].(status := st)];
    } else {
      assert d[..|c| - 1] == c[..|c| - 1];
    }
  }

  lemma {:induction false} FirstOpenLink(c: seq<Slot>, n: nat) returns (i: nat)
    requires n < |c| && !c[n].status.Resolved?
    ensures i < |c| && !c[i].status.Resolved? && forall j :: 0 <= j < i ==> c[j].status.Resolved?
    decreases n
  {
    if j :| 0 <= j < n && !c[j].status.Resolved? {
      i := FirstOpenLink(c, j);
    } else {
      i := n;
    }
  }

  /** `t` is `s` with one link of one chain changed, seen from a lease other than the link's. */
  ghost predicate LinkMoved(s: State, t: State, h: Home, st: Status) {
    && h.slot < |Chain(s, h.oid)| && t.sessions == s.sessions && t.portEpoch == s.portEpoch
    && h.oid in t.chains && t.chains[h.oid] == Chain(s, h.oid)[h.slot := Chain(s, h.oid)[h.slot].(status := st)]
    && (forall x <- s.leases :: x in t.leases && t.leases[x] == s.leases[x])
  }

  lemma StartMoves(s: State, h: Home, newId: string)
    requires Core(s) && Enabled(s, StartChained(h, newId))
    ensures var st := if Chain(s, h.oid)[h.slot].portEpoch == s.portEpoch then Running(s.nextTask) else Resolved;
            LinkMoved(s, StartSlot(s, h, newId), h, st)
  {
    var slot := s.chains[h.oid][h.slot];
    assert SlotOk(s, h.oid, h.slot);
    if slot.portEpoch == s.portEpoch {
      var t, k := StartSlotIs(s, h, newId);
    } else {
      DiscardMoves(s, h, newId);
    }
  }

  lemma DiscardMoves(s: State, h: Home, newId: string)
    requires Core(s) && Enabled(s, StartChained(h, newId)) && s.chains[h.oid][h.slot].portEpoch != s.portEpoch
    ensures LinkMoved(s, StartSlot(s, h, newId), h, Resolved)
  {
    var slot := s.chains[h.oid][h.slot];
    assert SlotOk(s, h.oid, h.slot);
    var t := Marked(s, h, Resolved, Discarded(slot.message));
    MarkedSlotKeepsTasks(s, t, h);
    if RequestIdOf(slot.message.ids).Some? {
      DiscardedLease(t, slot.message, slot.portEpoch, newId);
    }
  }

  /** One more link of the chain gets closer to being resolved. */
  lemma MoveOneLink(s: State, id: string, l: Lease, h: Home) returns (t: State)
    requires OnTheWay(s, id, l) && s.tasks == map[] && h.slot < |Chain(s, h.oid)|
    requires !Chain(s, h.oid)[h.slot].status.Resolved?
    requires h.slot == 0 || Chain(s, h.oid)[h.slot - 1].status.Resolved?
    ensures Next(s, t) && OnTheWay(t, id, l) && t.sessions == s.sessions
    ensures Work(Chain(t, h.oid)) < Work(Chain(s, h.oid)) && |Chain(t, h.oid)| == |Chain(s, h.oid)|
  {
    var c := Chain(s, h.oid);
    if c[h.slot].status.Running? {
      t := SetStatus(s, h, Resolved);
      WorkShrinks(c, h.slot, Resolved);
      Forward(s, ResolveSlot(h), t, id, l);
    } else {
      t := StartOneLink(s, id, l, h);
    }
  }

  lemma StartOneLink(s: State, id: string, l: Lease, h: Home) returns (t: State)
    requires OnTheWay(s, id, l) && h.slot < |Chain(s, h.oid)| && Chain(s, h.oid)[h.slot].status.Waiting?
    requires h.slot == 0 || Chain(s, h.oid)[h.slot - 1].status.Resolved?
    ensures Next(s, t) && OnTheWay(t, id, l) && t.sessions == s.sessions
    ensures Work(Chain(t, h.oid)) < Work(Chain(s, h.oid)) && |Chain(t, h.oid)| == |Chain(s, h.oid)|
  {
    var newId := FreshIdExists(s);
    t := StartLink(s, h, newId, id, l);
  }

  lemma StartLink(s: State, h: Home, newId: string, id: string, l: Lease) returns (t: State)
    requires OnTheWay(s, id, l) && Enabled(s, StartChained(h, newId))
    ensures Next(s, t) && OnTheWay(t, id, l) && t.sessions == s.sessions
    ensures Work(Chain(t, h.oid)) < Work(Chain(s, h.oid)) && |Chain(t, h.oid)| == |Chain(s, h.oid)|
  {
    t := StartSlot(s, h, newId);
    StartShrinks(s, h, newId);
    StartForward(s, h, newId, id, l);
  }

  lemma StartForward(s: State, h: Home, newId: string, id: string, l: Lease)
    requires OnTheWay(s, id, l) && Enabled(s, StartChained(h, newId))
    ensures Next(s, StartSlot(s, h, newId)) && OnTheWay(StartSlot(s, h, newId), id, l)
  {
    StartMoves(s, h, newId);
    Forward(s, StartChained(h, newId), StartSlot(s, h, newId), id, l);
  }

  lemma StartShrinks(s: State, h: Home, newId: string)
    requires Core(s) && Enabled(s, StartChained(h, newId))
    ensures var t := StartSlot(s, h, newId);
            && Work(Chain(t, h.oid)) < Work(Chain(s, h.oid)) && |Chain(t, h.oid)| == |Chain(s, h.oid)|
            && t.sessions == s.sessions
  {
    var st := if Chain(s, h.oid)[h.slot].portEpoch == s.portEpoch then Running(s.nextTask) else Resolved;
    StartMoves(s, h, newId);
    MovedShrinks(s, StartSlot(s, h, newId), h, st);
  }

  lemma MovedShrinks(s: State, t: State, h: Home, st: Status)
    requires LinkMoved(s, t, h, st) && Weight(st) < Weight(Chain(s, h.oid)[h.slot].status)
    ensures Work(Chain(t, h.oid)) < Work(Chain(s, h.oid)) && |Chain(t, h.oid)| == |Chain(s, h.oid)|
  {
    WorkShrinks(Chain(s, h.oid), h.slot, st);
  }

  lemma {:induction false} ResolveChain(s: State, id: string, l: Lease, oid: ObjectId) returns (t: State)
    requires OnTheWay(s, id, l) && s.tasks == map[]
    ensures LeadsTo(s, t) && OnTheWay(t, id, l) && t.tasks == map[] && t.sessions == s.sessions
    ensures forall i :: 0 <= i < |Chain(t, oid)| ==> Chain(t, oid)[i].status.Resolved?
    decreases Work(Chain(s, oid))
  {
    if n: nat :| n < |Chain(s, oid)| && !Chain(s, oid)[n].status.Resolved? {
      var i := FirstOpenLink(Chain(s, oid), n);
      var u := MoveOneLink(s, id, l, Home(oid, i));
      var v := SettleAll(u, id, l);
      assert Chain(v, oid) == Chain(u, oid);
      t := ResolveChain(v, id, l, oid);
      LeadsAppend(u, v, t);
      LeadsStep(s, u, t);
    } else {
      LeadsRefl(s);
      t := s;
    }
  }

  function CloseMessage(sid: string, reqId: string): Message { Message(Ids(reqId, ""), sid, SessionClose) }

  lemma CloseNames(sid: string)
    requires NormalizeSessionId(sid) == sid
    ensures SessionOf(CloseMessage(sid, "")) == sid && SessionOf(CloseMessage(sid, "r")) == sid
    ensures RequestIdOf(Ids("", "")).None? && RequestIdOf(Ids("r", "")) == Some("r")
  {
    assert !IsWhite('r');
    assert Trim("r") == "r" && Trim("") == "";
  }

  lemma NothingToCancel(s: State, sid: string)
    requires s.index.byId == map[]
    ensures CloseSession(s, sid) == Invalidate(s, sid)
  {
    assert RegisteredIn(s, sid) == {};
    assert CancelAll(s, {}).leases == s.leases;
    assert CancelAll(s, RegisteredIn(s, sid)) == s;
  }

  /** A session_close with an id starts a handler that holds a lease of the session. */
  lemma CloseStarts(s: State, id: string, l: Lease, newId: string) returns (t: State)
    requires OnTheWay(s, id, l) && s.tasks == map[] && FreshLeaseId(s, newId)
    requires l.sessionId in s.sessions && !NeverPruned(l.sessionId)
    ensures Next(s, t) && OnTheWay(t, id, l)
    ensures t.chains == s.chains && t.tasks.Keys == {s.nextTask} && t.tasks[s.nextTask].lease == Some(newId)
    ensures newId in t.leases && t.leases[newId].sessionId == l.sessionId
    ensures l.sessionId in t.sessions && t.sessions[l.sessionId].oid == s.sessions[l.sessionId].oid
  {
    var m := CloseMessage(l.sessionId, "r");
    assert LeaseSound(s, l);
    NoHandlersNoLeases(s);
    t := Receive(s, m, newId, true);
    CloseEffect(s, l.sessionId, newId, t);
    Forward(s, Arrive(m, newId, true), t, id, l);
  }

  lemma CloseEffect(s: State, sid: string, newId: string, t: State)
    requires s.index.byId == map[] && NormalizeSessionId(sid) == sid && sid in s.sessions
    requires s.portLive && FreshLeaseId(s, newId) && t == Receive(s, CloseMessage(sid, "r"), newId, true)
    ensures t.chains == s.chains && t.portEpoch == s.portEpoch
    ensures t.tasks.Keys == s.tasks.Keys + {s.nextTask} && t.tasks[s.nextTask].lease == Some(newId)
    ensures newId in t.leases && t.leases == s.leases[newId := t.leases[newId]] && t.leases[newId].sessionId == sid
    ensures sid in t.sessions && t.sessions[sid].oid == s.sessions[sid].oid
  {
    CloseIs(s, sid, "r", newId);
    CloseNames(sid);
    RaisedSession(s, Invalidate(s, sid), sid);
    CloseStartsAs(Invalidate(s, sid), CloseMessage(sid, "r"), newId, t);
  }

  lemma CloseIs(s: State, sid: string, reqId: string, newId: string)
    requires s.index.byId == map[] && NormalizeSessionId(sid) == sid
    ensures Receive(s, CloseMessage(sid, reqId), newId, true)
         == Begin(Invalidate(s, sid), CloseMessage(sid, reqId), sid, s.portEpoch, newId, None)
  {
    NothingToCancel(s, sid);
  }

  lemma RaisedSession(s: State, u: State, sid: string)
    requires u == Invalidate(s, sid)
    ensures sid in u.sessions && SessionEpoch(u, sid) == SessionEpoch(s, sid) + 1
    ensures u == s.(sessions := u.sessions, chains := u.chains, nextSerial := u.nextSerial)
    ensures sid in s.sessions ==> u == s.(sessions := u.sessions) && u.sessions[sid].oid == s.sessions[sid].oid
  {
  }

  lemma CloseStartsAs(u: State, m: Message, newId: string, t: State)
    requires RequestIdOf(m.ids).Some? && SessionOf(m) in u.sessions && FreshLeaseId(u, newId) && u.portLive
    requires t == Begin(u, m, SessionOf(m), u.portEpoch, newId, None)
    ensures t == u.(leases := t.leases, index := t.index, tasks := t.tasks, nextTask := u.nextTask + 1)
    ensures t.tasks == u.tasks[u.nextTask := Task(m, SessionOf(m), Some(newId), None, false)]
    ensures newId in t.leases && t.leases == u.leases[newId := t.leases[newId]] && t.leases[newId].sessionId == SessionOf(m)
  {
    BeginIs(u, m, SessionOf(m), newId, None);
    assert Touch(u, SessionOf(m)) == u;
  }

  /** Settling it schedules a prune behind the whole chain. */
  lemma SettleSchedules(s: State, id: string, l: Lease, task: nat, newId: string)
    requires OnTheWay(s, id, l) && s.tasks.Keys == {task} && s.tasks[task].lease == Some(newId)
    requires newId in s.leases && s.leases[newId].sessionId == l.sessionId
    requires l.sessionId in s.sessions && !NeverPruned(l.sessionId)
    ensures var t := Settle(s, task); var oid := s.sessions[l.sessionId].oid;
            && Next(s, t) && OnTheWay(t, id, l) && OnlyTasks(s, t) && t.tasks == map[]
            && Prune(l.sessionId, oid, |Chain(t, oid)|) in t.prunes
  {
    SettleOne(s, id, l, task);
    assert Settle(s, task).tasks == map[];
    var u := s.(tasks := s.tasks - {task});
    var v := u.(index := Remove(u.index, RefOf(newId, u.leases[newId])));
    assert Settle(s, task) == SchedulePrune(v, l.sessionId);
  }

  lemma PruneItself(s: State, id: string, l: Lease, p: Prune) returns (t: State)
    requires OnTheWay(s, id, l) && s.tasks == map[] && p in s.prunes
    requires p.sessionId == l.sessionId && l.sessionId in s.sessions && s.sessions[l.sessionId].oid == p.oid
    requires p.tail == |Chain(s, p.oid)| && forall i :: 0 <= i < p.tail ==> Chain(s, p.oid)[i].status.Resolved?
    ensures LeadsTo(s, t) && OnTheWay(t, id, l) && t.tasks == map[] && l.sessionId !in t.sessions
  {
    var u := SetBound(s, l.sessionId, false);
    assert u == s.(sessions := s.sessions[l.sessionId := s.sessions[l.sessionId].(bound := false)]);
    Forward(s, BindSession(l.sessionId, false), u, id, l);
    NoHandlersNoLeases(u);
    assert PruneApplies(u, p) && TailResolved(u, p);
    t := FirePrune(u, p);
    Forward(u, PruneSession(p), t, id, l);
    LeadsRefl(t);
    LeadsStep(u, t, t);
    LeadsStep(s, u, t);
  }

  /** From any state the session can be pruned while the lease stays as it is. */
  lemma PruneAway(s: State, id: string, l: Lease) returns (t: State)
    requires OnTheWay(s, id, l) && !NeverPruned(l.sessionId)
    ensures LeadsTo(s, t) && OnTheWay(t, id, l) && t.tasks == map[] && l.sessionId !in t.sessions
  {
    var a := SettleAll(s, id, l);
    if l.sessionId !in a.sessions {
      t := a;
    } else {
      var oid := a.sessions[l.sessionId].oid;
      var b := ResolveChain(a, id, l, oid);
      var newId := FreshIdExists(b);
      var c := CloseStarts(b, id, l, newId);
      SettleSchedules(c, id, l, b.nextTask, newId);
      var d := Settle(c, b.nextTask);
      assert Chain(d, oid) == Chain(b, oid);
      t := PruneItself(d, id, l, Prune(l.sessionId, oid, |Chain(d, oid)|));
      LeadsStep(c, d, t);
      LeadsStep(b, c, t);
      LeadsAppend(a, b, t);
      LeadsAppend(s, a, t);
    }
  }

  /** A session_close without an id raises the epoch by one and leaves no lease behind. */
  lemma RaiseOnce(s: State, id: string, l: Lease) returns (t: State)
    requires OnTheWay(s, id, l) && s.index.byId == map[] && !NeverPruned(l.sessionId)
    ensures Next(s, t) && OnTheWay(t, id, l) && t.index.byId == map[]
    ensures SessionEpoch(t, l.sessionId) == SessionEpoch(s, l.sessionId) + 1
  {
    var sid := l.sessionId;
    var m := CloseMessage(sid, "");
    assert LeaseSound(s, l);
    var newId := FreshIdExists(s);
    CloseIs(s, sid, "", newId);
    t := Receive(s, m, newId, true);
    CloseNames(sid);
    var u := Invalidate(s, sid);
    RaisedSession(s, u, sid);
    assert t == u.(tasks := t.tasks, nextTask := t.nextTask);
    Forward(s, Arrive(m, newId, true), t, id, l);
  }

  lemma {:induction false} RaiseTo(s: State, id: string, l: Lease, k: nat) returns (t: State)
    requires OnTheWay(s, id, l) && s.index.byId == map[] && !NeverPruned(l.sessionId)
    ensures LeadsTo(s, t) && OnTheWay(t, id, l) && SessionEpoch(t, l.sessionId) == SessionEpoch(s, l.sessionId) + k
    decreases k
  {
    if k == 0 {
      LeadsRefl(s);
      t := s;
    } else {
      var u := RaiseOnce(s, id, l);
      t := RaiseTo(u, id, l, k - 1);
      LeadsStep(s, u, t);
    }
  }

  lemma OthersComeBack(s: State, id: string) returns (t: State)
    requires Sound(s) && id in s.leases && !Hopeless(s, s.leases[id])
    ensures LeadsTo(s, t) && id in t.leases && Current(t, id)
  {
    var l := s.leases[id];
    assert LeaseSound(s, l);
    var u := PruneAway(s, id, l);
    NoHandlersNoLeases(u);
    t := RaiseTo(u, id, l, l.sessionEpoch);
    LeadsAppend(s, u, t);
  }

  /** From a reachable state in which a lease is not current, every run leaves it so if and only if it was cancelled,
      its port is gone, or its session is never pruned. */
  lemma StaleForEverIff(ss: seq<State>, i: nat, id: string)
    requires Behaviour(ss) && i < |ss| && id in ss[i].leases && !Current(ss[i], id)
    ensures (forall t :: LeadsTo(ss[i], t) ==> id in t.leases && !Current(t, id))
        <==> Hopeless(ss[i], ss[i].leases[id])
  {
    AlwaysSound(ss, i);
    var s := ss[i];
    if Hopeless(s, s.leases[id]) {
      forall t | LeadsTo(s, t) ensures id in t.leases && !Current(t, id) {
        HopelessForEver(s, t, id);
      }
    } else {
      var t := OthersComeBack(s, id);
    }
  }
}
