/** What holds in every run of the broker. */
module BrokerTheorems {
  import opened Common
  import opened LeaseIndex
  import opened Broker
  import opened BrokerInvariant
  import opened BrokerSafety

  // ---------- posts ----------

  /** A post made in state `s`: on the live port, and if it belongs to a lease then that lease is for this port
      and, unless the watchdog sent it, current. */
  ghost predicate Fenced(s: State, p: Post) {
    && s.portLive && p.portEpoch == s.portEpoch
    && (p.lease.Some? ==>
          && p.lease.value in s.leases
          && s.leases[p.lease.value].portEpoch == s.portEpoch
          && (!p.watchdog ==> Current(s, p.lease.value)))
  }

  lemma ReplyLeaseIsKnown(s: State, r: Response, lease: Option<string>)
    requires LeasesOk(s) && (lease.Some? ==> lease.value in s.leases)
    ensures var l := ReplyLease(s, r, lease); l.Some? ==> l.value in s.leases
  {
    var found := Resolve(s.index, RequestIdOf(r.ids), r.leaseId);
    if lease.None? && found.Some? {
      assert forall id <- s.index.byId :: RegisteredOk(s, id);
      if !(r.leaseId != "" && r.leaseId in s.index.byId) {
        var c := RequestIdOf(r.ids).value;
        ActiveIsByRequest(s.index, c);
        assert Only(Active(s.index, c)) in Active(s.index, c);
        assert found.value in Registered(s.index);
      }
    }
  }

  lemma SendPosts(s: State, r: Response, lease: Option<string>, afterWatchdog: bool, postOk: bool)
    requires LeasesOk(s) && (lease.Some? ==> lease.value in s.leases)
    ensures
      var t := Send(s, r, lease, afterWatchdog, postOk);
      var p := Post(ReplyLease(s, r, lease), s.portEpoch, afterWatchdog);
      t.posts == s.posts || (t.posts == s.posts + [p] && Fenced(s, p) && Fenced(t, p) && t.leases == s.leases)
  {
    ReplyLeaseIsKnown(s, r, lease);
    CheckedKeeps(s, r, lease, afterWatchdog);
    var u := Checked(s, r, lease, afterWatchdog);
    if Fence(s, r, lease, afterWatchdog).Deliver? && s.portLive && !postOk {
      DropIsSilent(u);
    }
  }

  lemma DropIsSilent(s: State)
    ensures DropPort(s).posts == s.posts
  {
  }

  lemma CheckedKeeps(s: State, r: Response, lease: Option<string>, afterWatchdog: bool)
    ensures var t := Checked(s, r, lease, afterWatchdog);
            && t.leases == s.leases && t.portEpoch == s.portEpoch && t.portLive == s.portLive && t.posts == s.posts
            && forall sid: string :: SessionEpoch(t, sid) == SessionEpoch(s, sid)
  {
  }

  /** A step posts at most once, and what it posts is fenced in the state it leaves. A lease whose watchdog has
      replied gets nothing more; a watchdog's own reply spends its lease. */
  ghost predicate PostsStep(s: State, t: State) {
    t.posts == s.posts ||
    (|t.posts| == |s.posts| + 1 && t.posts[..|s.posts|] == s.posts && NewPost(s, t, t.posts[|s.posts|]))
  }

  ghost predicate NewPost(s: State, t: State, p: Post) {
    && Fenced(t, p)
    && (p.lease.Some? && p.lease.value in s.leases ==> !Spent(s, p.lease.value))
    && (p.lease.Some? && p.watchdog ==> Spent(t, p.lease.value))
  }

  lemma StepPosts(s: State, step: Step)
    requires Core(s) && Enabled(s, step)
    ensures PostsStep(s, Apply(s, step))
  {
    match step
    case Arrive(m, id, postOk) => ReceivePosts(s, m, id, postOk);
    case Reply(r, lease, postOk) => ReplyPosts(s, r, lease, postOk);
    case FireWatchdog(t, postOk) => WatchdogPosts(s, t, postOk);
    case _ => SilentStep(s, step);
  }

  lemma SilentStep(s: State, step: Step)
    requires Enabled(s, step) && !step.Arrive? && !step.Reply? && !step.FireWatchdog?
    ensures Apply(s, step).posts == s.posts
  {
    if step.StartChained? {
      StartSlotIsSilent(s, step.home, step.id);
    }
  }

  lemma StartSlotIsSilent(s: State, h: Home, id: string)
    requires h.slot < |Chain(s, h.oid)|
    ensures StartSlot(s, h, id).posts == s.posts
  {
    var slot := s.chains[h.oid][h.slot];
    var sid := SessionOf(slot.message);
    BeginKeepsLogs(Marked(s, h, if slot.portEpoch == s.portEpoch then Running(s.nextTask) else Resolved,
                          if slot.portEpoch == s.portEpoch then Started(slot.message) else Discarded(slot.message)),
                   slot.message, sid, slot.portEpoch, id, Some(h));
  }

  lemma ReplyPosts(s: State, r: Response, lease: Option<string>, postOk: bool)
    requires LeasesOk(s) && (lease.Some? ==> lease.value in s.leases)
    ensures PostsStep(s, Send(s, r, lease, false, postOk))
  {
    SendPosts(s, r, lease, false, postOk);
  }

  lemma ReceivePosts(s: State, m: Message, id: string, postOk: bool)
    requires Core(s) && s.portLive && FreshLeaseId(s, id)
    ensures PostsStep(s, Receive(s, m, id, postOk))
  {
    var sid := SessionOf(m);
    match m.command
    case Other => InvalidateKeepsLogs(s, sid);
    case SessionClose =>
      InvalidateKeepsLogs(CancelAll(s, RegisteredIn(s, sid)), sid);
      BeginKeepsLogs(CloseSession(s, sid), m, sid, s.portEpoch, id, None);
    case Ping => BeginKeepsLogs(s, m, sid, s.portEpoch, id, None);
    case CancelRequest(_) =>
      BeginKeepsCore(s, m, sid, id);
      BeginEvolves(s, m, sid, id);
      BeginKeepsLogs(s, m, sid, s.portEpoch, id, None);
      CancelPosts(s, Begin(s, m, sid, s.portEpoch, id, None), m, postOk);
  }

  lemma CancelPosts(s: State, t: State, m: Message, postOk: bool)
    requires Core(t) && Evolves(s, t) && t.posts == s.posts && m.command.CancelRequest?
    ensures PostsStep(s, CancelThenReply(t, m, postOk))
  {
    var u := CancelAll(t, RegisteredFor(t, m.command.target));
    CancelAllWeakens(t, RegisteredFor(t, m.command.target));
    WeakensKeepsTasks(t, u);
    WeakensEvolves(t, u);
    EvolvesTransitive(s, t, u);
    ReplyPosts(u, CancelReply(m), None, postOk);
    LaterPost(s, u, Send(u, CancelReply(m), None, false, postOk));
  }

  /** A post that follows a silent part of the same step. */
  lemma LaterPost(s: State, u: State, v: State)
    requires LeasesEvolve(s, u) && TasksEvolve(s, u) && u.posts == s.posts && PostsStep(u, v)
    ensures PostsStep(s, v)
  {
    if v.posts != u.posts {
      var p := v.posts[|s.posts|];
      if p.lease.Some? && p.lease.value in s.leases && Spent(s, p.lease.value) {
        SpentStays(s, u, p.lease.value);
      }
    }
  }

  /** The watchdog's reply reaches its own lease. */
  lemma TimeoutReplyLease(s: State, t: State, task: nat)
    requires Core(s) && task in s.tasks && t.index == s.index
    ensures ReplyLease(t, TimeoutReply(s.tasks[task]), None) == s.tasks[task].lease
  {
    var k := s.tasks[task];
    assert TaskOk(s, task);
    if k.lease.Some? {
      assert RegisteredOk(s, k.lease.value);
      assert k.lease.value != "";
    } else {
      assert IsBlank(RawIdOf(k.message.ids));
      assert IsBlank("");
      assert RequestIdOf(TimeoutReply(k).ids) == None;
    }
  }

  lemma WatchdogPosts(s: State, task: nat, postOk: bool)
    requires Core(s) && Enabled(s, FireWatchdog(task, postOk))
    ensures PostsStep(s, Watchdog(s, task, postOk))
  {
    WatchdogEvolves(s, task, postOk);
    BeforeCutPosts(s, task, postOk);
    BeforeCutWeakens(s, task, postOk);
    assert BeforeCut(s, task, postOk).tasks == s.tasks;
    assert TaskOk(s, task);
    CutPosts(s, BeforeCut(s, task, postOk), Watchdog(s, task, postOk), task);
  }

  /** The watchdog's own reply, should it be posted. */
  function TimeoutPost(s: State, task: nat): Post
    requires task in s.tasks
  {
    Post(s.tasks[task].lease, s.portEpoch, true)
  }

  lemma TimedOutKeepsPort(s: State, task: nat)
    requires task in s.tasks
    requires s.tasks[task].lease.Some? ==> s.tasks[task].lease.value in s.leases
    ensures TimedOut(s, task).portEpoch == s.portEpoch && TimedOut(s, task).index == s.index
  {
    var t := CancelTimedOut(s, s.tasks[task].lease);
    assert t.portEpoch == s.portEpoch && t.index == s.index;
    var u := Invalidate(t, s.tasks[task].sessionId);
    assert u.portEpoch == s.portEpoch && u.index == s.index;
  }

  lemma BeforeCutPosts(s: State, task: nat, postOk: bool)
    requires Core(s) && Enabled(s, FireWatchdog(task, postOk))
    ensures var u, p := BeforeCut(s, task, postOk), TimeoutPost(s, task);
            u.posts == s.posts || (u.posts == s.posts + [p] && Fenced(u, p))
  {
    var k := s.tasks[task];
    var t := TimedOut(s, task);
    TimedOutWeakens(s, task);
    WeakensKeepsTasks(s, t);
    TimedOutKeepsPort(s, task);
    TimeoutReplyLease(s, t, task);
    SendPosts(t, TimeoutReply(k), None, true, postOk);
    TimedOutIsSilent(s, task);
  }

  lemma TimedOutIsSilent(s: State, task: nat)
    requires task in s.tasks
    requires s.tasks[task].lease.Some? ==> s.tasks[task].lease.value in s.leases
    ensures TimedOut(s, task).posts == s.posts
  {
    var k := s.tasks[task];
    var t := CancelTimedOut(s, k.lease);
    if k.lease.Some? {
      CancelKeepsLogs(s.(leases := s.leases[k.lease.value := s.leases[k.lease.value].(watchdogTimedOut := true)]),
                      k.lease.value);
    }
    InvalidateKeepsLogs(t, k.sessionId);
  }

  lemma CutPosts(s: State, u: State, t: State, task: nat)
    requires task in s.tasks && task in u.tasks && !s.tasks[task].cut
    requires t == u.(tasks := u.tasks[task := s.tasks[task].(cut := true)])
    requires u.posts == s.posts || (u.posts == s.posts + [TimeoutPost(s, task)] && Fenced(u, TimeoutPost(s, task)))
    requires s.tasks[task].lease.Some? ==>
      s.tasks[task].lease.value in s.leases && s.leases[s.tasks[task].lease.value].owner == task
      && Spent(t, s.tasks[task].lease.value)
    ensures PostsStep(s, t)
  {
  }

  lemma PostsKept(s: State, t: State)
    requires PostsOk(s) && Evolves(s, t) && PostsStep(s, t)
    ensures PostsOk(t)
  {
    forall i | 0 <= i < |t.posts| && WatchdogPost(t, i) ensures Spent(t, t.posts[i].lease.value) {
      if i < |s.posts| {
        assert t.posts[i] == s.posts[i] && WatchdogPost(s, i);
        SpentStays(s, t, t.posts[i].lease.value);
      }
    }
    forall i, j | 0 <= i < j < |t.posts| && WatchdogPost(t, i) ensures t.posts[j].lease != t.posts[i].lease {
      assert t.posts[i] == s.posts[i] && WatchdogPost(s, i);
      if j < |s.posts| {
        assert t.posts[j] == s.posts[j];
      }
    }
  }

  lemma SpentStays(s: State, t: State, id: string)
    requires Evolves(s, t) && Spent(s, id)
    ensures Spent(t, id)
  {
    assert SameButCancelled(s.leases[id], t.leases[id]);
  }

  // ---------- runs ----------

  lemma NextKeepsInv(s: State, t: State)
    requires Inv(s) && Next(s, t)
    ensures Inv(t) && Evolves(s, t) && PostsStep(s, t)
  {
    var step :| Enabled(s, step) && t == Apply(s, step);
    StepKeepsCore(s, step);
    StepEvolves(s, step);
    StepPosts(s, step);
    PostsKept(s, t);
  }

  lemma Always(ss: seq<State>, i: nat)
    requires Behaviour(ss) && i < |ss|
    ensures Inv(ss[i])
  {
    InitHasInv(ss[0]);
    for k := 0 to i
      invariant Inv(ss[k])
    {
      StepKeepsInv(ss, k);
    }
  }

  lemma StepKeepsInv(ss: seq<State>, i: nat)
    requires i + 1 < |ss| && Inv(ss[i]) && StepIn(ss, i)
    ensures Inv(ss[i + 1])
  {
    NextKeepsInv(ss[i], ss[i + 1]);
  }

  lemma StepAt(ss: seq<State>, i: nat)
    requires Behaviour(ss) && i + 1 < |ss|
    ensures Inv(ss[i]) && Inv(ss[i + 1]) && Evolves(ss[i], ss[i + 1]) && PostsStep(ss[i], ss[i + 1])
  {
    Always(ss, i);
    assert StepIn(ss, i);
    NextKeepsInv(ss[i], ss[i + 1]);
  }

  // ---------- the reply fence ----------

  /** Every reply is posted on the live port; if it belongs to a lease, that lease is for the live port, and an
      ordinary reply's lease is also uncancelled and at its session's epoch. */
  lemma ReplyFence(ss: seq<State>, i: nat)
    requires Behaviour(ss) && i + 1 < |ss| && ss[i + 1].posts != ss[i].posts
    ensures |ss[i + 1].posts| == |ss[i].posts| + 1 && ss[i].posts <= ss[i + 1].posts
    ensures Fenced(ss[i + 1], ss[i + 1].posts[|ss[i].posts|])
  {
    StepAt(ss, i);
  }

  lemma SpentAt(ss: seq<State>, i: nat, id: string)
    requires Behaviour(ss) && i + 1 < |ss| && Spent(ss[i], id)
    ensures Spent(ss[i + 1], id)
    ensures ss[i + 1].posts == ss[i].posts ||
            (|ss[i + 1].posts| == |ss[i].posts| + 1 && ss[i + 1].posts[..|ss[i].posts|] == ss[i].posts
             && ss[i + 1].posts[|ss[i].posts|].lease != Some(id))
  {
    StepAt(ss, i);
    SpentStays(ss[i], ss[i + 1], id);
  }

  /** Once a lease is spent (its watchdog has fired) nothing is ever posted for it again. */
  lemma {:induction false} SpentLeaseIsSilent(ss: seq<State>, i: nat, j: nat, id: string)
    requires Behaviour(ss) && i <= j < |ss| && Spent(ss[i], id)
    ensures ss[i].posts <= ss[j].posts && Spent(ss[j], id)
    ensures forall n :: |ss[i].posts| <= n < |ss[j].posts| ==> ss[j].posts[n].lease != Some(id)
    decreases j
  {
    if i < j {
      SpentLeaseIsSilent(ss, i, j - 1, id);
      SpentAt(ss, j - 1, id);
      assert forall n :: 0 <= n < |ss[j - 1].posts| ==> ss[j].posts[n] == ss[j - 1].posts[n];
    }
  }

  ghost predicate WatchdogFires(s: State, t: State, task: nat) {
    exists postOk :: Enabled(s, FireWatchdog(task, postOk)) && t == Watchdog(s, task, postOk)
  }

  /** The watchdog of a handler with a lease spends that lease, whether or not its reply could be posted. */
  lemma WatchdogSilencesHandler(ss: seq<State>, i: nat, j: nat, task: nat)
    requires Behaviour(ss) && i < j < |ss|
    requires WatchdogFires(ss[i], ss[i + 1], task) && ss[i].tasks[task].lease.Some?
    ensures ss[i + 1].posts <= ss[j].posts
    ensures forall n :: |ss[i + 1].posts| <= n < |ss[j].posts| ==> ss[j].posts[n].lease != ss[i].tasks[task].lease
  {
    WatchdogSpendsAt(ss, i, task);
    SpentLeaseIsSilent(ss, i + 1, j, ss[i].tasks[task].lease.value);
  }

  lemma WatchdogSpendsAt(ss: seq<State>, i: nat, task: nat)
    requires Behaviour(ss) && i + 1 < |ss|
    requires WatchdogFires(ss[i], ss[i + 1], task) && ss[i].tasks[task].lease.Some?
    ensures Spent(ss[i + 1], ss[i].tasks[task].lease.value)
  {
    Always(ss, i);
    var postOk :| Enabled(ss[i], FireWatchdog(task, postOk)) && ss[i + 1] == Watchdog(ss[i], task, postOk);
    WatchdogSpends(ss[i], ss[i + 1], task, postOk);
  }

  lemma WatchdogSpends(s: State, t: State, task: nat, postOk: bool)
    requires Core(s) && Enabled(s, FireWatchdog(task, postOk)) && t == Watchdog(s, task, postOk)
    requires s.tasks[task].lease.Some?
    ensures Spent(t, s.tasks[task].lease.value)
  {
    WatchdogEvolves(s, task, postOk);
  }

  /** In the whole history of posts, a watchdog's reply is the last one of its lease. */
  lemma WatchdogReplyIsLast(ss: seq<State>, k: nat, i: nat, j: nat)
    requires Behaviour(ss) && k < |ss| && i < j < |ss[k].posts|
    requires ss[k].posts[i].watchdog && ss[k].posts[i].lease.Some?
    ensures ss[k].posts[j].lease != ss[k].posts[i].lease
  {
    Always(ss, k);
    assert WatchdogPost(ss[k], i);
  }

  // ---------- staleness ----------

  /** A registered lease keeps its session alive, so its epoch cannot be reset under it. */
  lemma RegisteredLeaseKeepsSession(ss: seq<State>, i: nat, id: string)
    requires Behaviour(ss) && i < |ss| && id in ss[i].index.byId
    ensures id in ss[i].leases && ss[i].leases[id].sessionId in ss[i].sessions
    ensures ss[i].leases[id].sessionEpoch <= ss[i].sessions[ss[i].leases[id].sessionId].epoch
  {
    Always(ss, i);
    assert RegisteredOk(ss[i], id);
  }

  lemma StaleStep(s: State, t: State, id: string)
    requires LeasesOk(s) && LeasesOk(t) && LeasesEvolve(s, t)
    requires id in s.index.byId && id in t.index.byId && id in s.leases && !Current(s, id)
    ensures id in t.leases && !Current(t, id)
  {
    assert RegisteredOk(s, id) && RegisteredOk(t, id);
    var sid := s.leases[id].sessionId;
    assert KeepsSession(s, t, sid);
    assert SameButCancelled(s.leases[id], t.leases[id]);
  }

  lemma StaleAt(ss: seq<State>, i: nat, id: string)
    requires Behaviour(ss) && i + 1 < |ss|
    requires id in ss[i].index.byId && id in ss[i + 1].index.byId && id in ss[i].leases && !Current(ss[i], id)
    ensures id in ss[i + 1].leases && !Current(ss[i + 1], id)
  {
    StepAt(ss, i);
    StaleStep(ss[i], ss[i + 1], id);
  }

  lemma KnownAt(ss: seq<State>, i: nat, id: string)
    requires Behaviour(ss) && i + 1 < |ss| && id in ss[i].leases
    ensures id in ss[i + 1].leases && SameButCancelled(ss[i].leases[id], ss[i + 1].leases[id])
    ensures ss[i].portEpoch <= ss[i + 1].portEpoch
    ensures id in ss[i + 1].index.byId ==> id in ss[i].index.byId
  {
    StepAt(ss, i);
  }

  lemma {:induction false} KnownStays(ss: seq<State>, i: nat, j: nat, id: string)
    requires Behaviour(ss) && i <= j < |ss| && id in ss[i].leases
    ensures id in ss[j].leases && SameButCancelled(ss[i].leases[id], ss[j].leases[id])
    ensures ss[i].portEpoch <= ss[j].portEpoch
    ensures id in ss[j].index.byId ==> id in ss[i].index.byId
    decreases j
  {
    if i < j {
      KnownStays(ss, i, j - 1, id);
      KnownAt(ss, j - 1, id);
    }
  }

  /** A lease that has gone stale is stale in every later state in which it is registered, whatever else happens. */
  lemma {:induction false} StalenessIsPermanent(ss: seq<State>, i: nat, j: nat, id: string)
    requires Behaviour(ss) && i <= j < |ss|
    requires id in ss[i].leases && !Current(ss[i], id)
    requires id in ss[j].index.byId
    ensures id in ss[j].leases && !Current(ss[j], id)
    decreases j
  {
    if i < j {
      KnownStays(ss, i, j - 1, id);
      KnownAt(ss, j - 1, id);
      StalenessIsPermanent(ss, i, j - 1, id);
      StaleAt(ss, j - 1, id);
    }
  }

  /** A cancelled lease, or one of an earlier port, is stale for ever, registered or not. */
  lemma CancelledOrOldPortIsForever(ss: seq<State>, i: nat, j: nat, id: string)
    requires Behaviour(ss) && i <= j < |ss| && id in ss[i].leases
    requires ss[i].leases[id].cancelled || ss[i].leases[id].portEpoch != ss[i].portEpoch
    ensures id in ss[j].leases && !Current(ss[j], id)
  {
    Always(ss, i);
    KnownStays(ss, i, j, id);
  }
}
