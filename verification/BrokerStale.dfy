/** A run in which a finished lease that was stale is current again. */
module BrokerStale {
  import opened Common
  import opened LeaseIndex
  import opened Broker

  const CLOSE := Message(Ids("r", ""), "a", SessionClose)
  const WORK := Message(Ids("", ""), "a", Other)
  const FIRST := ObjectId("a", 0)
  const HOME := Home(FIRST, 0)

  const S0 := State(false, 0, map[], EMPTY, map[], 0, map[], map[], 0, multiset{}, {}, {}, [], map[], map[])
  const S1 := S0.(portLive := true, portEpoch := 1)

  /** session_close raises session a to epoch 1; its own lease carries that epoch. */
  const S2 := S1.(leases := map["c" := Lease("r", 1, "a", 1, false, false, 0)],
                  index := Add(EMPTY, LeaseRef("c", "r")),
                  sessions := map["a" := Session(FIRST, 1, false)], nextSerial := 1, chains := map[FIRST := []],
                  tasks := map[0 := Task(CLOSE, "a", Some("c"), None, false)], nextTask := 1)

  /** A message without an id is queued in a and started. */
  const S3 := S2.(chains := map[FIRST := [Slot(WORK, 1, Waiting)]], arrived := map["a" := [WORK]])
  const S4 := S3.(chains := map[FIRST := [Slot(WORK, 1, Running(1))]],
                  tasks := S2.tasks[1 := Task(WORK, "a", None, Some(HOME), false)], nextTask := 2,
                  outcomes := map["a" := [Started(WORK)]])

  /** Its watchdog raises a to epoch 2: the lease of session_close is stale, but not cancelled. */
  const S5 := S4.(sessions := map["a" := Session(FIRST, 2, false)],
                  tasks := S2.tasks[1 := Task(WORK, "a", None, Some(HOME), true)])
  const S6 := S5.(chains := map[FIRST := [Slot(WORK, 1, Resolved)]])

  /** session_close settles, the idle session is pruned, and a second session_close creates it anew. */
  const S7 := S6.(tasks := map[1 := Task(WORK, "a", None, Some(HOME), true)], index := EMPTY,
                  prunes := multiset{Prune("a", FIRST, 1)})
  const S8 := S7.(sessions := map[], prunes := multiset{})

  function S9(): State { Begin(CloseSession(S8, "a"), CLOSE, "a", 1, "d", None) }

  lemma Names()
    ensures SessionOf(CLOSE) == "a" && SessionOf(WORK) == "a"
    ensures RequestIdOf(CLOSE.ids) == Some("r") && RequestIdOf(WORK.ids) == None
  {
    assert !IsWhite('a') && !IsWhite('r');
    assert Trim("a") == "a" && Trim("r") == "r" && Trim("") == "";
  }

  lemma Step1()
    ensures Next(S0, S1)
  {
    assert Enabled(S0, ConnectPort) && Apply(S0, ConnectPort) == S1;
  }

  lemma Step2()
    ensures Next(S1, S2)
  {
    Names();
    var t := Invalidate(CancelAll(S1, RegisteredIn(S1, "a")), "a");
    assert CancelAll(S1, RegisteredIn(S1, "a")).leases == map[];
    assert t == S1.(sessions := map["a" := Session(FIRST, 1, false)], nextSerial := 1, chains := map[FIRST := []]);
    assert Begin(t, CLOSE, "a", 1, "c", None) == S2;
    assert Enabled(S1, Arrive(CLOSE, "c", true)) && Apply(S1, Arrive(CLOSE, "c", true)) == S2;
  }

  lemma Step3()
    ensures Next(S2, S3)
  {
    Names();
    var t := Enqueue(S2, WORK);
    assert Chain(S2, FIRST) + [Slot(WORK, 1, Waiting)] == [Slot(WORK, 1, Waiting)];
    assert t.chains == S3.chains;
    assert [] + [WORK] == [WORK];
    assert t.arrived == S3.arrived;
    assert Enabled(S2, Arrive(WORK, "x", true)) && Apply(S2, Arrive(WORK, "x", true)) == S3;
  }

  lemma Step4()
    ensures Next(S3, S4)
  {
    Names();
    assert Enabled(S3, StartChained(HOME, "x"));
    Step4Chain();
    assert [] + [Started(WORK)] == [Started(WORK)];
    assert Append(S3.outcomes, "a", Started(WORK)) == S4.outcomes;
    assert StartSlot(S3, HOME, "x") == S4;
    assert Apply(S3, StartChained(HOME, "x")) == S4;
  }

  lemma Step4Chain()
    ensures SetStatus(S3, HOME, Running(1)).chains == S4.chains
  {
    assert S3.chains[FIRST][0 := Slot(WORK, 1, Running(1))] == [Slot(WORK, 1, Running(1))];
  }

  lemma Step5()
    ensures Next(S4, S5)
  {
    assert Invalidate(S4, "a") == S4.(sessions := map["a" := Session(FIRST, 2, false)]);
    assert TimedOut(S4, 1) == Invalidate(S4, "a");
    assert Enabled(S4, FireWatchdog(1, true)) && Apply(S4, FireWatchdog(1, true)) == S5;
  }

  lemma Step6()
    ensures Next(S5, S6)
  {
    assert S5.chains[FIRST][0 := Slot(WORK, 1, Resolved)] == [Slot(WORK, 1, Resolved)];
    assert SetStatus(S5, HOME, Resolved).chains == S6.chains;
    assert Enabled(S5, ResolveSlot(HOME)) && Apply(S5, ResolveSlot(HOME)) == S6;
  }

  lemma OneLeaseGone()
    ensures Remove(Add(EMPTY, LeaseRef("c", "r")), LeaseRef("c", "r")) == EMPTY
  {
    var l := LeaseRef("c", "r");
    var one := Add(EMPTY, l);
    assert one.keysByRequest["r"] - {KeyOf(l)} == {};
  }

  lemma Step7()
    ensures Next(S6, S7)
  {
    OneLeaseGone();
    var t := S6.(tasks := S7.tasks);
    assert S6.tasks - {0} == S7.tasks;
    Step7Clear(t);
    assert Enabled(S6, SettleHandler(0)) && Apply(S6, SettleHandler(0)) == S7;
  }

  lemma Step7Clear(t: State)
    requires t == S6.(tasks := S7.tasks)
    ensures Clear(t, "c") == S7
  {
    OneLeaseGone();
    assert !NeverPruned("a");
    assert t.index == Add(EMPTY, LeaseRef("c", "r"));
    var u := t.(index := EMPTY);
    assert |Chain(u, FIRST)| == 1;
    assert multiset{} + multiset{Prune("a", FIRST, 1)} == multiset{Prune("a", FIRST, 1)};
    assert SchedulePrune(u, "a") == S7;
  }

  lemma Step8()
    ensures Next(S7, S8)
  {
    var p := Prune("a", FIRST, 1);
    assert PruneApplies(S7, p);
    assert Enabled(S7, PruneSession(p)) && Apply(S7, PruneSession(p)) == S8;
  }

  lemma Reopened()
    ensures CloseSession(S8, "a") == S8.(sessions := map["a" := Session(ObjectId("a", 1), 1, false)], nextSerial := 2,
                                         chains := S8.chains[ObjectId("a", 1) := []])
  {
    assert RegisteredIn(S8, "a") == {};
    assert CancelAll(S8, {}).leases == S8.leases;
    assert CancelAll(S8, RegisteredIn(S8, "a")) == S8;
    ReopenedSession();
  }

  lemma ReopenedSession()
    ensures Invalidate(S8, "a") == S8.(sessions := map["a" := Session(ObjectId("a", 1), 1, false)], nextSerial := 2,
                                       chains := S8.chains[ObjectId("a", 1) := []])
  {
    var t := Touch(S8, "a");
    assert t.sessions == map["a" := Session(ObjectId("a", 1), 0, false)];
  }

  lemma Step9()
    ensures Next(S8, S9())
  {
    Names();
    assert Enabled(S8, Arrive(CLOSE, "d", true)) && Apply(S8, Arrive(CLOSE, "d", true)) == S9();
  }

  /** In run `ss` a registered lease is stale at `i` and current at a later `j`. */
  ghost predicate ComesBack(ss: seq<State>, i: nat, j: nat, id: string) {
    && Behaviour(ss) && i < j < |ss|
    && id in ss[i].index.byId && id in ss[i].leases && !Current(ss[i], id)
    && id in ss[j].leases && Current(ss[j], id)
  }

  /** A lease that went stale only by its session's epoch can be current again once it is no longer registered and
      its session has been pruned and created anew. */
  lemma UnregisteredLeaseMayComeBack()
    ensures exists ss: seq<State>, i: nat, j: nat, id :: ComesBack(ss, i, j, id)
  {
    var ss := TheRun();
    StaleAtFive();
    CurrentAtNine();
    assert ComesBack(ss, 5, 9, "c");
  }

  lemma TheRun() returns (ss: seq<State>)
    ensures Behaviour(ss) && |ss| == 10 && ss[5] == S5 && ss[9] == S9()
  {
    Step1(); Step2(); Step3(); Step4(); Step5(); Step6(); Step7(); Step8(); Step9();
    StaleAtFive();
    ss := TenStates(S0, S1, S2, S3, S4, S5, S6, S7, S8, S9());
  }

  lemma CurrentAtNine()
    ensures "c" in S9().leases && Current(S9(), "c")
  {
    Names();
    Reopened();
    assert S9().leases["c"] == S8.leases["c"] && S9().sessions == CloseSession(S8, "a").sessions;
  }

  lemma StaleAtFive()
    ensures Init(S0)
    ensures "c" in S5.index.byId && "c" in S5.leases && !Current(S5, "c")
  {
  }

  lemma TenStates(s0: State, s1: State, s2: State, s3: State, s4: State, s5: State, s6: State, s7: State, s8: State, s9: State)
      returns (ss: seq<State>)
    requires Init(s0) && Next(s0, s1) && Next(s1, s2) && Next(s2, s3) && Next(s3, s4) && Next(s4, s5)
    requires Next(s5, s6) && Next(s6, s7) && Next(s7, s8) && Next(s8, s9)
    ensures Behaviour(ss) && |ss| == 10 && ss[5] == s5 && ss[9] == s9
  {
    ss := [s0, s1, s2, s3, s4, s5, s6, s7, s8, s9];
    forall i: nat | i + 1 < |ss| ensures StepIn(ss, i) {
      assert i == 0 || i == 1 || i == 2 || i == 3 || i == 4 || i == 5 || i == 6 || i == 7 || i == 8;
    }
  }
}
