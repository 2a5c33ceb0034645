/** The per-tab lock around the debugger: a chain of promises whose waiters may give up. */
module CdpLock {
  import opened Common

  /** One call of withCdpLock. `prev` is the call whose slot it waits for, none if the tab had no queue entry;
      `released` says whether its own slot promise has resolved. */
  datatype Phase = Waiting | Running | TimedOut | Done
  datatype Call = Call(tab: int, prev: Option<nat>, phase: Phase, released: bool)

  /** Calls are numbered in order of arrival. `queues` maps a tab to its latest slot; `grants` is the order in
      which calls came to run. */
  datatype State = State(calls: seq<Call>, queues: map<int, nat>, grants: seq<nat>)

  datatype Step =
    | Arrive(tab: int)
    | Grant(call: nat)     // the promise ahead resolves while the call still waits
    | Expire(call: nat)    // the acquire timeout fires first
    | FreeSlot(call: nat)  // the promise ahead of a timed-out call resolves
    | Finish(call: nat)    // run() returns or throws

  const INIT := State([], map[], [])

  /** The promise a call waits for has resolved. */
  predicate Ahead(s: State, c: nat)
    requires c < |s.calls|
  {
    s.calls[c].prev.None? || (s.calls[c].prev.value < |s.calls| && s.calls[s.calls[c].prev.value].released)
  }

  predicate Enabled(s: State, step: Step) {
    match step
    case Arrive(_) => true
    case Grant(c) => c < |s.calls| && s.calls[c].phase.Waiting? && Ahead(s, c)
    case Expire(c) => c < |s.calls| && s.calls[c].phase.Waiting?
    case FreeSlot(c) => c < |s.calls| && s.calls[c].phase.TimedOut? && !s.calls[c].released && Ahead(s, c)
    case Finish(c) => c < |s.calls| && s.calls[c].phase.Running?
  }

  function SetPhase(s: State, c: nat, phase: Phase): State
    requires c < |s.calls|
  {
    s.(calls := s.calls[c := s.calls[c].(phase := phase)])
  }

  /** Resolve a slot; the tab's entry goes if this slot is still the latest. */
  function Release(s: State, c: nat): State
    requires c < |s.calls|
  {
    var tab := s.calls[c].tab;
    s.(calls := s.calls[c := s.calls[c].(released := true)],
       queues := if tab in s.queues && s.queues[tab] == c then s.queues - {tab} else s.queues)
  }

  function Apply(s: State, step: Step): State
    requires Enabled(s, step)
  {
    match step
    case Arrive(tab) =>
      var prev := if tab in s.queues then Some(s.queues[tab]) else None;
      s.(calls := s.calls + [Call(tab, prev, Waiting, false)], queues := s.queues[tab := |s.calls|])
    case Grant(c) => SetPhase(s, c, Running).(grants := s.grants + [c])
    case Expire(c) => SetPhase(s, c, TimedOut)
    case FreeSlot(c) => Release(s, c)
    case Finish(c) => Release(SetPhase(s, c, Done), c)
  }

  predicate Run(s: State, steps: seq<Step>, t: State)
    decreases |steps|
  {
    if steps == [] then s == t
    else Enabled(s, steps[0]) && Run(Apply(s, steps[0]), steps[1..], t)
  }

  // ---------- the invariant ----------

  predicate SameTab(s: State, a: nat, b: nat)
    requires a < |s.calls| && b < |s.calls|
  {
    s.calls[a].tab == s.calls[b].tab
  }

  /** A call waits for the call of its tab just before it; if it found no entry, every earlier slot was resolved. */
  ghost predicate Chained(s: State, c: nat)
    requires c < |s.calls|
  {
    match s.calls[c].prev
    case None => forall a: nat :: a < c && SameTab(s, a, c) ==> s.calls[a].released
    case Some(p) => p < c && SameTab(s, p, c) && forall a: nat :: p < a < c ==> !SameTab(s, a, c)
  }

  /** Slots resolve in order of arrival. */
  ghost predicate ReleasedInOrder(s: State) {
    forall a: nat, b: nat :: a < b < |s.calls| && SameTab(s, a, b) && s.calls[b].released ==> s.calls[a].released
  }

  /** Whoever runs, or has run, had every earlier slot of the tab resolved before it. */
  ghost predicate RunsAfterAll(s: State) {
    forall a: nat, b: nat :: a < b < |s.calls| && SameTab(s, a, b) && (s.calls[b].phase.Running? || s.calls[b].phase.Done?)
      ==> s.calls[a].released
  }

  ghost predicate PhasesOk(s: State) {
    && (forall c: nat :: c < |s.calls| && s.calls[c].phase.Done? ==> s.calls[c].released)
    && (forall c: nat :: c < |s.calls| && s.calls[c].released ==> s.calls[c].phase.Done? || s.calls[c].phase.TimedOut?)
  }

  /** The map holds a tab exactly while some slot of the tab is open, and then its latest call. */
  ghost predicate QueuesOk(s: State) {
    && (forall tab <- s.queues :: s.queues[tab] < |s.calls| && s.calls[s.queues[tab]].tab == tab
                                  && !s.calls[s.queues[tab]].released)
    && (forall c: nat :: c < |s.calls| && !s.calls[c].released ==>
          s.calls[c].tab in s.queues && c <= s.queues[s.calls[c].tab])
    && (forall tab <- s.queues, c: nat :: s.queues[tab] < c < |s.calls| ==> s.calls[c].tab != tab)
  }

  ghost predicate GrantsOk(s: State) {
    && (forall i :: 0 <= i < |s.grants| ==>
          s.grants[i] < |s.calls| && (s.calls[s.grants[i]].phase.Running? || s.calls[s.grants[i]].phase.Done?))
    && (forall c: nat :: c < |s.calls| && (s.calls[c].phase.Running? || s.calls[c].phase.Done?) ==> c in s.grants)
    && (forall i, j :: 0 <= i < j < |s.grants| && SameTab(s, s.grants[i], s.grants[j]) ==> s.grants[i] < s.grants[j])
  }

  ghost predicate ChainOk(s: State) {
    && (forall c: nat :: c < |s.calls| ==> Chained(s, c))
    && ReleasedInOrder(s) && RunsAfterAll(s) && PhasesOk(s)
  }

  ghost predicate Inv(s: State) { ChainOk(s) && QueuesOk(s) && GrantsOk(s) }

  /** What a call waits for stands for every earlier call of its tab. */
  lemma AheadMeansAll(s: State, c: nat)
    requires ChainOk(s) && c < |s.calls| && Ahead(s, c)
    ensures forall a: nat :: a < c && SameTab(s, a, c) ==> s.calls[a].released
  {
    assert Chained(s, c);
    forall a: nat | a < c && SameTab(s, a, c) ensures s.calls[a].released {
      if s.calls[c].prev.Some? {
        var p := s.calls[c].prev.value;
        assert a <= p;
        assert a < p ==> SameTab(s, a, p);
      }
    }
  }

  lemma ArriveKeepsInv(s: State, tab: int)
    requires Inv(s)
    ensures Inv(Apply(s, Arrive(tab)))
  {
    ArriveKeepsChain(s, tab);
  }

  lemma ArriveKeepsChain(s: State, tab: int)
    requires ChainOk(s) && QueuesOk(s)
    ensures ChainOk(Apply(s, Arrive(tab)))
  {
    var t := Apply(s, Arrive(tab));
    forall c: nat | c < |t.calls| ensures Chained(t, c) {
      if c < |s.calls| {
        assert Chained(s, c);
        assert forall a: nat :: a < c ==> (SameTab(t, a, c) <==> SameTab(s, a, c));
      }
    }
  }

  lemma PhaseKeepsChain(s: State, c: nat, phase: Phase)
    requires ChainOk(s) && c < |s.calls| && s.calls[c].phase.Waiting? && (phase.TimedOut? || (phase.Running? && Ahead(s, c)))
    ensures ChainOk(SetPhase(s, c, phase))
  {
    var t := SetPhase(s, c, phase);
    if phase.Running? {
      AheadMeansAll(s, c);
    }
    forall x: nat | x < |t.calls| ensures Chained(t, x) {
      assert Chained(s, x);
      assert forall a: nat :: a < x ==> (SameTab(t, a, x) <==> SameTab(s, a, x));
    }
    forall a: nat, b: nat | a < b < |t.calls| && SameTab(t, a, b) ensures SameTab(s, a, b) {
    }
  }

  lemma GrantKeepsGrants(s: State, c: nat)
    requires ChainOk(s) && GrantsOk(s) && Enabled(s, Grant(c))
    ensures GrantsOk(Apply(s, Grant(c)))
  {
    var t := Apply(s, Grant(c));
    AheadMeansAll(s, c);
    forall i, j | 0 <= i < j < |t.grants| && SameTab(t, t.grants[i], t.grants[j]) ensures t.grants[i] < t.grants[j] {
      if j < |s.grants| {
        assert SameTab(s, s.grants[i], s.grants[j]);
      } else {
        // a grant already made to a later call would need this one's slot resolved
        assert SameTab(s, s.grants[i], c) && SameTab(s, c, s.grants[i]);
      }
    }
  }

  lemma ReleaseKeepsInv(s: State, c: nat)
    requires ChainOk(s) && QueuesOk(s) && c < |s.calls| && Ahead(s, c) && !s.calls[c].released
    requires s.calls[c].phase.TimedOut? || s.calls[c].phase.Running?
    ensures
      var t := if s.calls[c].phase.Running? then Release(SetPhase(s, c, Done), c) else Release(s, c);
      ChainOk(t) && QueuesOk(t)
  {
    var t := if s.calls[c].phase.Running? then Release(SetPhase(s, c, Done), c) else Release(s, c);
    AheadMeansAll(s, c);
    ReleaseKeepsChain(s, t, c);
    ReleaseKeepsQueues(s, t, c);
  }

  lemma ReleaseKeepsChain(s: State, t: State, c: nat)
    requires ChainOk(s) && c < |s.calls| && !s.calls[c].released
    requires forall a: nat :: a < c && SameTab(s, a, c) ==> s.calls[a].released
    requires |t.calls| == |s.calls| && t.calls == s.calls[c := s.calls[c].(released := true, phase := t.calls[c].phase)]
    requires if s.calls[c].phase.Running? then t.calls[c].phase.Done? else t.calls[c].phase.TimedOut?
    ensures ChainOk(t)
  {
    forall x: nat | x < |t.calls| ensures Chained(t, x) {
      assert Chained(s, x);
      assert forall a: nat :: a < x ==> (SameTab(t, a, x) <==> SameTab(s, a, x));
    }
    forall a: nat, b: nat | a < b < |t.calls| && SameTab(t, a, b) && t.calls[b].released ensures t.calls[a].released {
      assert SameTab(s, a, b);
    }
    forall a: nat, b: nat | a < b < |t.calls| && SameTab(t, a, b) && (t.calls[b].phase.Running? || t.calls[b].phase.Done?)
      ensures t.calls[a].released
    {
      assert SameTab(s, a, b);
    }
  }

  lemma ReleaseKeepsQueues(s: State, t: State, c: nat)
    requires ChainOk(s) && QueuesOk(s) && c < |s.calls| && !s.calls[c].released
    requires forall a: nat :: a < c && SameTab(s, a, c) ==> s.calls[a].released
    requires |t.calls| == |s.calls| && t.calls == s.calls[c := s.calls[c].(released := true, phase := t.calls[c].phase)]
    requires t.queues == Release(s, c).queues
    ensures QueuesOk(t)
  {
    var tab := s.calls[c].tab;
    forall x: nat | x < |t.calls| && !t.calls[x].released
      ensures t.calls[x].tab in t.queues && x <= t.queues[t.calls[x].tab]
    {
      assert x != c && !s.calls[x].released;
      if s.calls[x].tab == tab && s.queues[tab] == c {
        assert SameTab(s, x, c);
      }
    }
  }

  lemma StepKeepsInv(s: State, step: Step)
    requires Inv(s) && Enabled(s, step)
    ensures Inv(Apply(s, step))
  {
    match step
    case Arrive(tab) => ArriveKeepsInv(s, tab);
    case Grant(c) => GrantKeepsInv(s, c);
    case Expire(c) =>
      PhaseKeepsChain(s, c, TimedOut);
      SamePhasesKeepGrants(s, SetPhase(s, c, TimedOut), c);
    case FreeSlot(c) =>
      ReleaseKeepsInv(s, c);
      SamePhasesKeepGrants(s, Release(s, c), c);
    case Finish(c) => FinishKeepsInv(s, c);
  }

  lemma GrantKeepsInv(s: State, c: nat)
    requires Inv(s) && Enabled(s, Grant(c))
    ensures Inv(Apply(s, Grant(c)))
  {
    PhaseKeepsChain(s, c, Running);
    SameCallsKeepChain(SetPhase(s, c, Running), Apply(s, Grant(c)));
    GrantKeepsGrants(s, c);
  }

  lemma FinishKeepsInv(s: State, c: nat)
    requires Inv(s) && Enabled(s, Finish(c))
    ensures Inv(Apply(s, Finish(c)))
  {
    RunningIsAhead(s, c);
    ReleaseKeepsInv(s, c);
    SamePhasesKeepGrants(s, Apply(s, Finish(c)), c);
  }

  lemma SameCallsKeepChain(s: State, t: State)
    requires ChainOk(s) && t.calls == s.calls
    ensures ChainOk(t)
  {
    forall c: nat | c < |t.calls| ensures Chained(t, c) {
      assert Chained(s, c);
      assert forall a: nat :: a < c ==> (SameTab(t, a, c) <==> SameTab(s, a, c));
    }
    forall a: nat, b: nat | a < b < |t.calls| && SameTab(t, a, b) ensures SameTab(s, a, b) {
    }
  }

  lemma SamePhasesKeepGrants(s: State, t: State, c: nat)
    requires GrantsOk(s) && c < |s.calls| && |t.calls| == |s.calls| && t.grants == s.grants
    requires forall x: nat :: x < |s.calls| && x != c ==> t.calls[x] == s.calls[x]
    requires t.calls[c].tab == s.calls[c].tab
    requires s.calls[c].phase.Running? || s.calls[c].phase.Done? <==> t.calls[c].phase.Running? || t.calls[c].phase.Done?
    ensures GrantsOk(t)
  {
    forall i, j | 0 <= i < j < |t.grants| && SameTab(t, t.grants[i], t.grants[j]) ensures t.grants[i] < t.grants[j] {
      assert SameTab(s, s.grants[i], s.grants[j]);
    }
  }

  lemma RunningIsAhead(s: State, c: nat)
    requires ChainOk(s) && c < |s.calls| && s.calls[c].phase.Running?
    ensures Ahead(s, c) && !s.calls[c].released
  {
    assert Chained(s, c);
    if s.calls[c].prev.Some? {
      assert SameTab(s, s.calls[c].prev.value, c);
    }
  }

  lemma {:induction false} RunKeepsInv(s: State, steps: seq<Step>, t: State)
    requires Inv(s) && Run(s, steps, t)
    ensures Inv(t)
    decreases |steps|
  {
    if steps != [] {
      StepKeepsInv(s, steps[0]);
      RunKeepsInv(Apply(s, steps[0]), steps[1..], t);
    }
  }

  /** A state some interleaving of arrivals, grants, timeouts and completions leads to. */
  ghost predicate Reachable(s: State) { exists steps :: Run(INIT, steps, s) }

  lemma ReachableHasInv(s: State)
    requires Reachable(s)
    ensures Inv(s)
  {
    var steps :| Run(INIT, steps, s);
    RunKeepsInv(INIT, steps, s);
  }

  // ---------- what it guarantees ----------

  /** At most one call runs per tab. */
  lemma MutualExclusion(s: State, a: nat, b: nat)
    requires Reachable(s) && a < |s.calls| && b < |s.calls| && SameTab(s, a, b)
    requires s.calls[a].phase.Running? && s.calls[b].phase.Running?
    ensures a == b
  {
    ReachableHasInv(s);
    assert SameTab(s, b, a);
  }

  /** Grants follow arrival order: whoever was granted, each earlier call of the tab was granted before it and is
      done, or timed out. */
  lemma GrantsFollowArrival(s: State, a: nat, b: nat)
    requires Reachable(s) && a < b < |s.calls| && SameTab(s, a, b) && b in s.grants
    ensures s.calls[a].phase.TimedOut? || s.calls[a].phase.Done?
    ensures a in s.grants <==> s.calls[a].phase.Done?
    ensures forall i, j :: 0 <= i < |s.grants| && 0 <= j < |s.grants| && s.grants[i] == a && s.grants[j] == b ==> i < j
  {
    ReachableHasInv(s);
    assert s.calls[b].phase.Running? || s.calls[b].phase.Done?;
    assert s.calls[a].released;
    forall i, j | 0 <= i < |s.grants| && 0 <= j < |s.grants| && s.grants[i] == a && s.grants[j] == b ensures i < j {
      if j < i {
        assert SameTab(s, s.grants[j], s.grants[i]);
      }
    }
  }

  /** The queue entry is gone exactly when every slot of the tab is resolved. */
  lemma EntryIffOpenSlot(s: State, tab: int)
    requires Reachable(s)
    ensures tab in s.queues <==> exists c: nat :: c < |s.calls| && s.calls[c].tab == tab && !s.calls[c].released
  {
    ReachableHasInv(s);
  }

  /** When nobody runs, the first open slot of a tab can move: grant it, or free it if it timed out. */
  lemma FirstOpenSlotCanMove(s: State, c: nat)
    requires Reachable(s) && c < |s.calls| && !s.calls[c].released && !s.calls[c].phase.Running?
    requires forall a: nat :: a < c && SameTab(s, a, c) ==> s.calls[a].released
    ensures Enabled(s, if s.calls[c].phase.Waiting? then Grant(c) else FreeSlot(c))
  {
    ReachableHasInv(s);
    assert Chained(s, c);
  }

  ghost predicate FirstWaiter(s: State, c: nat) {
    && c < |s.calls| && s.calls[c].phase.Waiting?
    && forall a: nat :: a < c && SameTab(s, a, c) ==> !s.calls[a].phase.Waiting?
  }

  ghost predicate NobodyRuns(s: State, tab: int) {
    forall a: nat :: a < |s.calls| && s.calls[a].tab == tab ==> !s.calls[a].phase.Running?
  }

  /** Open slots of the tab before a call: with nobody running and no earlier waiter they are all timed out. */
  function OpenBefore(s: State, c: nat): set<nat>
    requires c < |s.calls|
  {
    set a: nat | 0 <= a < c && s.calls[a].tab == s.calls[c].tab && !s.calls[a].released
  }

  lemma NoOpenMeansAhead(s: State, c: nat)
    requires ChainOk(s) && c < |s.calls| && OpenBefore(s, c) == {}
    ensures Ahead(s, c)
  {
    assert Chained(s, c);
    if s.calls[c].prev.Some? {
      var p := s.calls[c].prev.value;
      assert SameTab(s, p, c) && p !in OpenBefore(s, c);
    }
  }

  /** When nobody runs, the first live waiter gets the lock without any call having to finish: freeing the slots of
      the timed-out calls ahead of it, one microtask each, enables its grant. */
  lemma {:induction false} FirstWaiterIsNext(s: State, c: nat) returns (steps: seq<Step>, t: State)
    requires Inv(s) && FirstWaiter(s, c) && NobodyRuns(s, s.calls[c].tab)
    ensures Run(s, steps, t) && Enabled(t, Grant(c))
    ensures forall i :: 0 <= i < |steps| ==> steps[i].FreeSlot?
    ensures |steps| == |OpenBefore(s, c)|
    decreases |OpenBefore(s, c)|
  {
    if OpenBefore(s, c) == {} {
      steps, t := [], s;
      NoOpenMeansAhead(s, c);
    } else {
      var a := FirstOpen(s, c, OpenBefore(s, c));
      assert SameTab(s, a, c);
      assert OpenBefore(s, a) <= OpenBefore(s, c);
      assert OpenBefore(s, a) == {};
      NoOpenMeansAhead(s, a);
      StepKeepsInv(s, FreeSlot(a));
      var u := Apply(s, FreeSlot(a));
      assert OpenBefore(u, c) == OpenBefore(s, c) - {a};
      assert FirstWaiter(u, c) && NobodyRuns(u, u.calls[c].tab);
      var rest;
      rest, t := FirstWaiterIsNext(u, c);
      steps := [FreeSlot(a)] + rest;
      assert steps[1..] == rest;
    }
  }

  lemma {:induction false} FirstOpen(s: State, c: nat, open: set<nat>) returns (a: nat)
    requires c < |s.calls| && open != {} && open <= OpenBefore(s, c)
    ensures a in open && forall b <- open :: a <= b
    decreases |open|
  {
    var x :| x in open;
    if open == {x} {
      a := x;
    } else {
      var y := FirstOpen(s, c, open - {x});
      a := if x < y then x else y;
      forall b | b in open ensures a <= b {
        assert b == x || b in open - {x};
      }
    }
  }

  // ---------- what each step does, told in the fields before and after ----------

  /** This call gets this phase and slot, and keeps its tab and place; every other call is as it was. */
  predicate OnlyCall(s: State, t: State, c: nat, phase: Phase, released: bool) {
    && c < |s.calls| == |t.calls|
    && t.calls[c] == Call(s.calls[c].tab, s.calls[c].prev, phase, released)
    && forall a: nat :: a < |s.calls| && a != c ==> t.calls[a] == s.calls[a]
  }

  /** No slot of the tab that came before this one is open. */
  ghost predicate NoneOpenBefore(s: State, c: nat)
    requires c < |s.calls|
  {
    forall a: nat :: a < c && s.calls[a].tab == s.calls[c].tab ==> s.calls[a].released
  }

  /** The tab's entry goes if no later call of the tab holds it, and other entries stay. */
  predicate EntryDropped(s: State, t: State, c: nat)
    requires c < |s.calls|
  {
    var tab := s.calls[c].tab;
    && (forall x <- s.queues :: x != tab ==> x in t.queues && t.queues[x] == s.queues[x])
    && (forall x <- t.queues :: x in s.queues && t.queues[x] == s.queues[x])
    && (tab in t.queues <==> exists a: nat :: c < a < |s.calls| && s.calls[a].tab == tab)
  }

  /** A call joins the queue of its tab, runs only once every earlier slot of the tab is resolved, leaves its slot open
      when it gives up, and resolves it when it ends or when its turn comes after all. */
  ghost predicate Does(s: State, step: Step, t: State) {
    match step
    case Arrive(tab) =>
      && |t.calls| == |s.calls| + 1 && s.calls <= t.calls && t.grants == s.grants
      && t.calls[|s.calls|] == Call(tab, t.calls[|s.calls|].prev, Waiting, false)
      && t.queues == s.queues[tab := |s.calls|]
    case Grant(c) =>
      && OnlyCall(s, t, c, Running, false) && NoneOpenBefore(s, c) && t.grants == s.grants + [c] && t.queues == s.queues
    case Expire(c) => OnlyCall(s, t, c, TimedOut, false) && t.grants == s.grants && t.queues == s.queues
    case FreeSlot(c) =>
      OnlyCall(s, t, c, TimedOut, true) && NoneOpenBefore(s, c) && t.grants == s.grants && EntryDropped(s, t, c)
    case Finish(c) => OnlyCall(s, t, c, Done, true) && t.grants == s.grants && EntryDropped(s, t, c)
  }

  lemma ReleaseDoes(s: State, u: State, t: State, c: nat, phase: Phase)
    requires QueuesOk(s) && c < |s.calls| && !s.calls[c].released && OnlyCall(s, u, c, phase, false) && u.queues == s.queues
    requires t == Release(u, c)
    ensures OnlyCall(s, t, c, phase, true) && EntryDropped(s, t, c)
  {
    var tab := s.calls[c].tab;
    assert tab in s.queues && c <= s.queues[tab] && s.calls[s.queues[tab]].tab == tab;
  }

  lemma StepDoes(s: State, step: Step)
    requires Inv(s) && Enabled(s, step)
    ensures Does(s, step, Apply(s, step))
  {
    match step
    case Arrive(tab) =>
    case Grant(c) => GrantDoes(s, c);
    case Expire(c) =>
    case FreeSlot(c) =>
      AheadMeansAll(s, c);
      assert forall a: nat :: a < c && s.calls[a].tab == s.calls[c].tab ==> SameTab(s, a, c);
      ReleaseDoes(s, s, Apply(s, step), c, TimedOut);
    case Finish(c) =>
      RunningIsAhead(s, c);
      ReleaseDoes(s, SetPhase(s, c, Done), Apply(s, step), c, Done);
  }

  lemma GrantDoes(s: State, c: nat)
    requires Inv(s) && Enabled(s, Grant(c))
    ensures Does(s, Grant(c), Apply(s, Grant(c)))
  {
    AheadMeansAll(s, c);
    assert forall a: nat :: a < c && s.calls[a].tab == s.calls[c].tab ==> SameTab(s, a, c);
  }

  // ---------- the module state ----------

  /** cdpLockQueues and the calls in flight. Each method is one stretch of withCdpLock between awaits. */
  class Locks {
    var calls: seq<Call>
    var queues: map<int, nat>
    ghost var grants: seq<nat>

    ghost function S(): State reads this { State(calls, queues, grants) }

    constructor ()
      ensures S() == INIT && Inv(S())
    {
      calls, queues, grants := [], map[], [];
    }

    /** Entry: take a slot behind the tab's latest. */
    method Enter(tab: int) returns (c: nat)
      requires Inv(S())
      modifies this
      ensures S() == Apply(old(S()), Arrive(tab)) && c == old(|calls|) && Inv(S())
      ensures Does(old(S()), Arrive(tab), S())
    {
      StepDoes(S(), Arrive(tab));
      StepKeepsInv(S(), Arrive(tab));
      var waitForTurn := if tab in queues then Some(queues[tab]) else None;
      c := |calls|;
      calls := calls + [Call(tab, waitForTurn, Waiting, false)];
      queues := queues[tab := c];
    }

    /** The race is won by the promise ahead: run() starts. */
    method Acquire(c: nat)
      requires Inv(S()) && Enabled(S(), Grant(c))
      modifies this
      ensures S() == Apply(old(S()), Grant(c)) && Inv(S())
      ensures forall a: nat :: a < |calls| && calls[a].tab == calls[c].tab && calls[a].phase.Running? ==> a == c
      ensures Does(old(S()), Grant(c), S())
    {
      StepDoes(S(), Grant(c));
      StepKeepsInv(S(), Grant(c));
      calls := calls[c := calls[c].(phase := Running)];
      grants := grants + [c];
      forall a: nat | a < |calls| && calls[a].tab == calls[c].tab && calls[a].phase.Running? ensures a == c {
        assert SameTab(S(), a, c) && SameTab(S(), c, a);
      }
    }

    /** The race is won by the acquire timeout: the caller gets an error, the slot stays open. */
    method GiveUp(c: nat)
      requires Inv(S()) && Enabled(S(), Expire(c))
      modifies this
      ensures S() == Apply(old(S()), Expire(c)) && Inv(S())
      ensures Does(old(S()), Expire(c), S())
    {
      StepDoes(S(), Expire(c));
      StepKeepsInv(S(), Expire(c));
      calls := calls[c := calls[c].(phase := TimedOut)];
    }

    method ReleaseSlot(c: nat)
      requires c < |calls|
      modifies this`calls, this`queues
      ensures S() == Release(old(S()), c)
    {
      calls := calls[c := calls[c].(released := true)];
      var tab := calls[c].tab;
      if tab in queues && queues[tab] == c {
        queues := queues - {tab};
      }
    }

    /** The continuation a timed-out call leaves on the promise ahead of it. */
    method FreeTimedOut(c: nat)
      requires Inv(S()) && Enabled(S(), FreeSlot(c))
      modifies this
      ensures S() == Apply(old(S()), FreeSlot(c)) && Inv(S())
      ensures Does(old(S()), FreeSlot(c), S())
    {
      StepDoes(S(), FreeSlot(c));
      StepKeepsInv(S(), FreeSlot(c));
      ReleaseSlot(c);
    }

    /** The finally block after run(). */
    method Leave(c: nat)
      requires Inv(S()) && Enabled(S(), Finish(c))
      modifies this
      ensures S() == Apply(old(S()), Finish(c)) && Inv(S())
      ensures Does(old(S()), Finish(c), S())
    {
      StepDoes(S(), Finish(c));
      StepKeepsInv(S(), Finish(c));
      calls := calls[c := calls[c].(phase := Done)];
      ReleaseSlot(c);
    }
  }
}
