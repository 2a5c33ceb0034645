/** Persisted debugger leases: decisions over a list of leases, and the queue through which they are stored. */
module CdpLeases {
  import opened Common

  /** Times are milliseconds; stored values may be fractional. */
  datatype Lease = Lease(tabId: nat, expiresAt: real, purpose: Option<string>)

  /** What Number(...) makes of a stored field. */
  datatype JsNumber = NotFinite | Finite(r: real)
  datatype RawLease = RawLease(tabId: JsNumber, expiresAt: JsNumber, purpose: Option<string>)

  predicate IsActive(l: Lease, now: real) { l.expiresAt > now }

  // ---------- lists ----------

  /** What the list operations select by. */
  datatype Criterion = Unexpired(now: real) | Stale(now: real) | OtherThan(tabId: nat) {
    predicate Holds(l: Lease) {
      match this
      case Unexpired(now) => l.expiresAt > now
      case Stale(now) => l.expiresAt <= now
      case OtherThan(tab) => l.tabId != tab
    }
  }

  function Keep(ls: seq<Lease>, c: Criterion): seq<Lease> {
    if ls == [] then [] else (if c.Holds(ls[0]) then [ls[0]] else []) + Keep(ls[1..], c)
  }

  function Active(ls: seq<Lease>, now: real): seq<Lease> { Keep(ls, Unexpired(now)) }
  function Expired(ls: seq<Lease>, now: real): seq<Lease> { Keep(ls, Stale(now)) }
  function Without(ls: seq<Lease>, tab: nat): seq<Lease> { Keep(ls, OtherThan(tab)) }
  function Upsert(ls: seq<Lease>, l: Lease): seq<Lease> { Without(ls, l.tabId) + [l] }

  predicate OnePerTab(ls: seq<Lease>) { forall i, j :: 0 <= i < j < |ls| ==> ls[i].tabId != ls[j].tabId }

  /** `sub` is `ls` with some leases left out, the rest in order. */
  predicate Subsequence(sub: seq<Lease>, ls: seq<Lease>) {
    if sub == [] then true
    else ls != [] && ((sub[0] == ls[0] && Subsequence(sub[1..], ls[1..])) || Subsequence(sub, ls[1..]))
  }

  lemma {:induction false} KeepIsSubsequence(ls: seq<Lease>, c: Criterion)
    ensures Subsequence(Keep(ls, c), ls)
    ensures forall l :: l in Keep(ls, c) <==> l in ls && c.Holds(l)
    ensures |Keep(ls, c)| <= |ls|
  {
    if ls != [] {
      KeepIsSubsequence(ls[1..], c);
      if !c.Holds(ls[0]) {
        assert Keep(ls, c) == Keep(ls[1..], c);
      } else {
        assert Keep(ls, c)[1..] == Keep(ls[1..], c);
      }
    }
  }

  lemma {:induction false} KeepAppend(a: seq<Lease>, b: seq<Lease>, c: Criterion)
    ensures Keep(a + b, c) == Keep(a, c) + Keep(b, c)
  {
    if a == [] {
      assert a + b == b;
    } else {
      assert (a + b)[1..] == a[1..] + b && (a + b)[0] == a[0];
      KeepAppend(a[1..], b, c);
      var first := if c.Holds(a[0]) then [a[0]] else [];
      calc {
        Keep(a + b, c);
        first + Keep(a[1..] + b, c);
        first + (Keep(a[1..], c) + Keep(b, c));
        (first + Keep(a[1..], c)) + Keep(b, c);
      }
    }
  }

  lemma {:induction false} KeepKeep(ls: seq<Lease>, c: Criterion, d: Criterion)
    ensures Keep(Keep(ls, c), d) == Keep(Keep(ls, d), c)
  {
    if ls != [] {
      KeepKeep(ls[1..], c, d);
      var rest := ls[1..];
      if c.Holds(ls[0]) {
        assert Keep(ls, c)[1..] == Keep(rest, c);
      } else {
        assert Keep(ls, c) == Keep(rest, c);
      }
      if d.Holds(ls[0]) {
        assert Keep(ls, d)[1..] == Keep(rest, d);
      } else {
        assert Keep(ls, d) == Keep(rest, d);
      }
    }
  }

  // ---------- reading what was stored ----------

  /** A stored entry is kept if its tab id is a non-negative integer and its expiry is finite. */
  function NormalizeOne(raw: RawLease): Option<Lease> {
    if raw.tabId.Finite? && raw.expiresAt.Finite? && raw.tabId.r.Floor as real == raw.tabId.r && raw.tabId.r >= 0.0
    then Some(Lease(raw.tabId.r.Floor, raw.expiresAt.r, raw.purpose)) else None
  }

  lemma NormalizesIff(raw: RawLease, l: Lease)
    ensures NormalizeOne(raw) == Some(l) <==>
        raw == RawLease(Finite(l.tabId as real), Finite(l.expiresAt), l.purpose)
  {
    assert (l.tabId as real).Floor == l.tabId;
  }

  function Normalize(raws: seq<RawLease>): seq<Lease> {
    if raws == [] then []
    else
      var rest := Normalize(raws[..|raws| - 1]);
      var last := NormalizeOne(raws[|raws| - 1]);
      if last.Some? then rest + [last.value] else rest
  }

  /** `leases` is, in order, what the entries at `from` normalise to, and no other entry normalises. */
  ghost predicate Selects(raws: seq<RawLease>, from: seq<nat>, leases: seq<Lease>) {
    && |from| == |leases|
    && (forall i :: 0 <= i < |from| ==> from[i] < |raws| && NormalizeOne(raws[from[i]]) == Some(leases[i]))
    && (forall i, j :: 0 <= i < j < |from| ==> from[i] < from[j])
    && (forall k: nat :: k < |raws| && NormalizeOne(raws[k]).Some? ==> k in from)
  }

  /** The loop keeps exactly the entries that normalise, each once and in their order. */
  method NormalizePersistedLeases(raws: seq<RawLease>) returns (leases: seq<Lease>, ghost from: seq<nat>)
    ensures leases == Normalize(raws)
    ensures Selects(raws, from, leases)
    ensures forall l :: l in leases <==> exists raw <- raws :: NormalizeOne(raw) == Some(l)
  {
    leases, from := [], [];
    for i := 0 to |raws|
      invariant leases == Normalize(raws[..i])
      invariant Selects(raws[..i], from, leases)
    {
      assert raws[..i + 1][..i] == raws[..i];
      ghost var before := from;
      var tabId, expiresAt := raws[i].tabId, raws[i].expiresAt;
      if tabId.NotFinite? || tabId.r.Floor as real != tabId.r || tabId.r < 0.0 || expiresAt.NotFinite? {
        SkipsOne(raws, i, from, leases);
        continue;
      }
      SelectsOneMore(raws, i, from, leases, Lease(tabId.r.Floor, expiresAt.r, raws[i].purpose));
      leases := leases + [Lease(tabId.r.Floor, expiresAt.r, raws[i].purpose)];
      from := from + [i];
    }
    assert raws[..|raws|] == raws;
    SelectedAreMembers(raws, from, leases);
  }

  lemma SkipsOne(raws: seq<RawLease>, i: nat, from: seq<nat>, leases: seq<Lease>)
    requires i < |raws| && Selects(raws[..i], from, leases) && NormalizeOne(raws[i]).None?
    ensures Selects(raws[..i + 1], from, leases)
  {
    assert forall k: nat :: k < i ==> raws[..i + 1][k] == raws[..i][k];
  }

  lemma SelectsOneMore(raws: seq<RawLease>, i: nat, from: seq<nat>, leases: seq<Lease>, l: Lease)
    requires i < |raws| && Selects(raws[..i], from, leases) && NormalizeOne(raws[i]) == Some(l)
    ensures Selects(raws[..i + 1], from + [i], leases + [l])
  {
    assert forall k: nat :: k < i ==> raws[..i + 1][k] == raws[..i][k];
    assert forall k: nat :: k in from ==> k in from + [i];
    assert (from + [i])[|from|] == i;
  }

  lemma SelectedAreMembers(raws: seq<RawLease>, from: seq<nat>, leases: seq<Lease>)
    requires Selects(raws, from, leases)
    ensures forall l :: l in leases <==> exists raw <- raws :: NormalizeOne(raw) == Some(l)
  {
    forall l | l in leases ensures exists raw <- raws :: NormalizeOne(raw) == Some(l) {
      var i :| 0 <= i < |leases| && leases[i] == l;
      assert raws[from[i]] in raws;
    }
    forall l | exists raw <- raws :: NormalizeOne(raw) == Some(l) ensures l in leases {
      var raw :| raw in raws && NormalizeOne(raw) == Some(l);
      var k: nat :| k < |raws| && raws[k] == raw;
      var i :| 0 <= i < |from| && from[i] == k;
      assert leases[i] == l;
    }
  }

  function Encode(ls: seq<Lease>): seq<RawLease> {
    seq(|ls|, i requires 0 <= i < |ls| =>
      RawLease(Finite(ls[i].tabId as real), Finite(ls[i].expiresAt), ls[i].purpose))
  }

  /** Reading back what was written loses nothing. */
  lemma {:induction false} NormalizeInvertsEncode(ls: seq<Lease>)
    ensures Normalize(Encode(ls)) == ls
  {
    if ls != [] {
      var init := ls[..|ls| - 1];
      assert Encode(ls)[..|ls| - 1] == Encode(init);
      NormalizeInvertsEncode(init);
      assert ls == init + [ls[|ls| - 1]];
    }
  }

  // ---------- the sweep ----------

  lemma {:induction false} PartitionCounts(ls: seq<Lease>, now: real)
    ensures multiset(Active(ls, now)) + multiset(Expired(ls, now)) == multiset(ls)
  {
    if ls != [] {
      PartitionCounts(ls[1..], now);
      assert ls == [ls[0]] + ls[1..];
    }
  }

  /** Splitting by expiry is an order-preserving partition. */
  lemma SplitIsPartition(ls: seq<Lease>, now: real)
    ensures multiset(Active(ls, now)) + multiset(Expired(ls, now)) == multiset(ls)
    ensures Subsequence(Active(ls, now), ls) && Subsequence(Expired(ls, now), ls)
    ensures forall l <- Active(ls, now) :: l.expiresAt > now
    ensures forall l <- Expired(ls, now) :: l.expiresAt <= now
  {
    PartitionCounts(ls, now);
    KeepIsSubsequence(ls, Unexpired(now));
    KeepIsSubsequence(ls, Stale(now));
  }

  /** Splitting commutes with removal, and with upsert up to the side the new lease is on. */
  lemma SplitCommutes(ls: seq<Lease>, l: Lease, now: real)
    ensures Active(Without(ls, l.tabId), now) == Without(Active(ls, now), l.tabId)
    ensures Expired(Without(ls, l.tabId), now) == Without(Expired(ls, now), l.tabId)
    ensures Active(Upsert(ls, l), now) == if IsActive(l, now) then Upsert(Active(ls, now), l) else Without(Active(ls, now), l.tabId)
    ensures Expired(Upsert(ls, l), now) == if IsActive(l, now) then Without(Expired(ls, now), l.tabId) else Upsert(Expired(ls, now), l)
  {
    var other := OtherThan(l.tabId);
    KeepKeep(ls, other, Unexpired(now));
    KeepKeep(ls, other, Stale(now));
    KeepAppend(Without(ls, l.tabId), [l], Unexpired(now));
    KeepAppend(Without(ls, l.tabId), [l], Stale(now));
  }

  method SplitByExpiry(ls: seq<Lease>, now: real) returns (active: seq<Lease>, expired: seq<Lease>)
    ensures active == Active(ls, now) && expired == Expired(ls, now)
  {
    active, expired := [], [];
    for i := 0 to |ls|
      invariant active == Active(ls[..i], now) && expired == Expired(ls[..i], now)
    {
      assert ls[..i + 1] == ls[..i] + [ls[i]];
      KeepAppend(ls[..i], [ls[i]], Unexpired(now));
      KeepAppend(ls[..i], [ls[i]], Stale(now));
      if ls[i].expiresAt > now {
        active := active + [ls[i]];
      } else {
        expired := expired + [ls[i]];
      }
    }
    assert ls[..|ls|] == ls;
  }

  // ---------- startup ----------

  datatype Target = Target(attached: bool, tabId: Option<nat>)

  function ActiveTabs(ls: seq<Lease>, now: real): set<nat> { set l | l in ls && IsActive(l, now) :: l.tabId }

  method ActiveTabIds(ls: seq<Lease>, now: real) returns (tabs: set<nat>)
    ensures tabs == ActiveTabs(ls, now)
    ensures forall tab :: tab in tabs <==> exists l <- ls :: l.tabId == tab && l.expiresAt > now
  {
    tabs := {};
    for i := 0 to |ls|
      invariant tabs == ActiveTabs(ls[..i], now)
    {
      assert ls[..i + 1] == ls[..i] + [ls[i]];
      if ls[i].expiresAt > now {
        tabs := tabs + {ls[i].tabId};
      }
    }
    assert ls[..|ls|] == ls;
  }

  predicate ShouldDetach(t: Target, ls: seq<Lease>, now: real) {
    t.attached && t.tabId.Some? && t.tabId.value !in ActiveTabs(ls, now)
  }

  function DetachIds(ts: seq<Target>, ls: seq<Lease>, now: real): seq<nat> {
    if ts == [] then []
    else (if ShouldDetach(ts[0], ls, now) then [ts[0].tabId.value] else []) + DetachIds(ts[1..], ls, now)
  }

  function AttachedIds(ts: seq<Target>): seq<nat> {
    if ts == [] then []
    else (if ts[0].attached && ts[0].tabId.Some? then [ts[0].tabId.value] else []) + AttachedIds(ts[1..])
  }

  function HeldIds(ts: seq<Target>, held: set<nat>): seq<nat> {
    if ts == [] then []
    else (if ts[0].attached && ts[0].tabId.Some? && ts[0].tabId.value in held then [ts[0].tabId.value] else [])
         + HeldIds(ts[1..], held)
  }

  /** The expiries restored at startup: later entries for a tab overwrite earlier ones. */
  function StartupExpirations(ls: seq<Lease>, now: real): map<nat, real> {
    if ls == [] then map[]
    else
      var rest := StartupExpirations(ls[..|ls| - 1], now);
      var last := ls[|ls| - 1];
      if IsActive(last, now) then rest[last.tabId := last.expiresAt] else rest
  }

  lemma {:induction false} StartupKeepsActiveTabs(ls: seq<Lease>, now: real)
    ensures StartupExpirations(ls, now).Keys == ActiveTabs(ls, now)
    ensures forall t <- StartupExpirations(ls, now) :: StartupExpirations(ls, now)[t] > now
    ensures forall t <- StartupExpirations(ls, now) ::
        exists l <- ls :: l.tabId == t && l.expiresAt == StartupExpirations(ls, now)[t]
  {
    if ls != [] {
      var init := ls[..|ls| - 1];
      assert ls == init + [ls[|ls| - 1]];
      StartupKeepsActiveTabs(init, now);
    }
  }

  /** At startup the attached targets divide exactly into those that are detached and those whose tab holds a
      lease that was restored. */
  lemma {:induction false} StartupDivides(ts: seq<Target>, ls: seq<Lease>, now: real)
    ensures multiset(DetachIds(ts, ls, now)) + multiset(HeldIds(ts, StartupExpirations(ls, now).Keys))
         == multiset(AttachedIds(ts))
    ensures forall t <- DetachIds(ts, ls, now) :: t !in StartupExpirations(ls, now)
  {
    StartupKeepsActiveTabs(ls, now);
    if ts != [] {
      StartupDivides(ts[1..], ls, now);
    }
  }

  // ---------- the stored list ----------

  datatype Mutation = Put(lease: Lease) | Drop(tabId: nat) | KeepActive(now: real)

  function Mutate(m: Mutation, ls: seq<Lease>): seq<Lease> {
    match m
    case Put(l) => Upsert(ls, l)
    case Drop(tab) => Without(ls, tab)
    case KeepActive(now) => Active(ls, now)
  }

  /** How the storage calls of one mutation went. A load that fails reads as an empty list. */
  datatype Fate = Done | LoadFailed | SaveFailed

  function Effect(m: Mutation, fate: Fate, stored: seq<Lease>): seq<Lease> {
    match fate
    case Done => Mutate(m, stored)
    case LoadFailed => Mutate(m, [])
    case SaveFailed => stored
  }

  function Fold(init: seq<Lease>, ms: seq<Mutation>, fates: seq<Fate>): seq<Lease>
    requires |ms| == |fates|
  {
    if ms == [] then init
    else Effect(ms[|ms| - 1], fates[|ms| - 1], Fold(init, ms[..|ms| - 1], fates[..|ms| - 1]))
  }

  function AllDone(n: nat): (f: seq<Fate>)
    ensures |f| == n && forall i :: 0 <= i < n ==> f[i] == Done
  {
    seq(n, _ => Done)
  }

  /** No mutation makes a tab appear twice. */
  lemma MutateKeepsOnePerTab(m: Mutation, ls: seq<Lease>)
    requires OnePerTab(ls)
    ensures OnePerTab(Mutate(m, ls))
  {
    match m
    case Put(l) =>
      KeepKeepsOnePerTab(ls, OtherThan(l.tabId));
      KeepIsSubsequence(ls, OtherThan(l.tabId));
      var w := Without(ls, l.tabId);
      assert forall i :: 0 <= i < |w| ==> w[i] in w;
    case Drop(tab) => KeepKeepsOnePerTab(ls, OtherThan(tab));
    case KeepActive(now) => KeepKeepsOnePerTab(ls, Unexpired(now));
  }

  lemma {:induction false} KeepKeepsOnePerTab(ls: seq<Lease>, c: Criterion)
    requires OnePerTab(ls)
    ensures OnePerTab(Keep(ls, c))
  {
    if ls != [] {
      KeepKeepsOnePerTab(ls[1..], c);
      KeepIsSubsequence(ls[1..], c);
      var rest := Keep(ls[1..], c);
      assert forall i :: 0 <= i < |rest| ==> rest[i].tabId != ls[0].tabId by {
        forall i | 0 <= i < |rest| ensures rest[i].tabId != ls[0].tabId {
          assert rest[i] in rest;
        }
      }
    }
  }

  lemma {:induction false} FoldKeepsOnePerTab(init: seq<Lease>, ms: seq<Mutation>, fates: seq<Fate>)
    requires |ms| == |fates| && OnePerTab(init)
    ensures OnePerTab(Fold(init, ms, fates))
  {
    if ms != [] {
      FoldKeepsOnePerTab(init, ms[..|ms| - 1], fates[..|ms| - 1]);
      var m, stored := ms[|ms| - 1], Fold(init, ms[..|ms| - 1], fates[..|ms| - 1]);
      MutateKeepsOnePerTab(m, stored);
      MutateKeepsOnePerTab(m, []);
    }
  }

  // ---------- the mutation queue and the in-memory expiries ----------

  /** One mutation at a time loads, then saves; the rest wait in call order. */
  datatype Phase = Idle | Loaded(leases: seq<Lease>, ok: bool)

  /** A sweep that has read storage: the clock it started by, and the expired leases it has still to forget. */
  datatype SweepRun = SweepRun(now: real, pending: seq<Lease>)

  /** `called` and `fates` are the history of the queue, and `seen` is what storage has held so far. */
  datatype Store = Store(
    stored: seq<Lease>, waiting: seq<Mutation>, phase: Phase,
    called: seq<Mutation>, fates: seq<Fate>, seen: set<seq<Lease>>,
    expirations: map<nat, real>,
    sweeps: map<nat, SweepRun>, nextSweep: nat)

  datatype Event =
    | SetExpiration(tabId: nat, expiresAt: real)
    | Release(tabId: nat)
    | SweepRead(now: real, read: seq<Lease>)  // a sweep's read is back: it raises, forgets the first tab, and detaches
    | ForgetExpired(sweep: nat)               // a detach has ended: it forgets the next tab
    | SweepEnd(sweep: nat)                    // the last detach has ended: the removal is queued
    | Restore(now: real, read: seq<Lease>)    // the read at startup is back
    | Load(ok: bool)
    | Save(ok: bool)

  function Expiry(expirations: map<nat, real>, tab: nat): real {
    if tab in expirations then expirations[tab] else 0.0
  }

  function Max(a: real, b: real): real { if a >= b then a else b }

  /** The first loop of a sweep: memory catches up with longer leases that are still active. */
  function RaiseAll(expirations: map<nat, real>, ls: seq<Lease>): map<nat, real> {
    if ls == [] then expirations
    else
      var before, last := RaiseAll(expirations, ls[..|ls| - 1]), ls[|ls| - 1];
      if last.expiresAt > Expiry(before, last.tabId) then before[last.tabId := last.expiresAt] else before
  }

  function Tabs(ls: seq<Lease>): set<nat> { set l | l in ls :: l.tabId }

  /** A read that comes back shows what storage held at some moment until now, or nothing if it failed. */
  predicate MayRead(s: Store, read: seq<Lease>) { read == [] || read in s.seen }

  function Call(s: Store, m: Mutation): Store { s.(waiting := s.waiting + [m], called := s.called + [m]) }

  predicate Enabled(s: Store, e: Event) {
    match e
    case ForgetExpired(k) => k in s.sweeps && s.sweeps[k].pending != []
    case SweepEnd(k) => k in s.sweeps && s.sweeps[k].pending == []
    case Load(_) => s.phase.Idle? && s.waiting != []
    case Save(_) => s.phase.Loaded? && s.waiting != []
    case SweepRead(_, read) => MayRead(s, read)
    case Restore(_, read) => MayRead(s, read)
    case _ => true
  }

  function BeginSweep(s: Store, now: real, read: seq<Lease>): Store {
    var raised, expired := RaiseAll(s.expirations, Active(read, now)), Expired(read, now);
    if expired == [] then s.(expirations := raised)
    else s.(expirations := raised - {expired[0].tabId},
            sweeps := s.sweeps[s.nextSweep := SweepRun(now, expired[1..])], nextSweep := s.nextSweep + 1)
  }

  function Apply(s: Store, e: Event): Store
    requires Enabled(s, e)
  {
    match e
    case SetExpiration(tab, at) =>
      var next := Max(Expiry(s.expirations, tab), at);
      Call(s.(expirations := s.expirations[tab := next]), Put(Lease(tab, next, Some("cdp"))))
    case Release(tab) => Call(s.(expirations := s.expirations - {tab}), Drop(tab))
    case SweepRead(now, read) => BeginSweep(s, now, read)
    case ForgetExpired(k) =>
      var sweep := s.sweeps[k];
      s.(expirations := s.expirations - {sweep.pending[0].tabId},
         sweeps := s.sweeps[k := sweep.(pending := sweep.pending[1..])])
    case SweepEnd(k) => Call(s.(sweeps := s.sweeps - {k}), KeepActive(s.sweeps[k].now))
    case Restore(now, read) => s.(expirations := s.expirations + StartupExpirations(read, now))
    case Load(ok) => s.(phase := Loaded(if ok then Normalize(Encode(s.stored)) else [], ok))
    case Save(ok) =>
      var next := if ok then Mutate(s.waiting[0], s.phase.leases) else s.stored;
      s.(stored := next, seen := s.seen + {next},
         waiting := s.waiting[1..], phase := Idle,
         fates := s.fates + [if !ok then SaveFailed else if s.phase.ok then Done else LoadFailed])
  }

  predicate Run(s: Store, es: seq<Event>, t: Store)
    decreases |es|
  {
    if es == [] then s == t else Enabled(s, es[0]) && Run(Apply(s, es[0]), es[1..], t)
  }

  /** A fresh worker: `init` is in storage, nothing is queued. */
  function Start(init: seq<Lease>, expirations: map<nat, real>): Store {
    Store(init, [], Idle, [], [], {init}, expirations, map[], 0)
  }

  ghost predicate QueueInv(s: Store, init: seq<Lease>) {
    && |s.fates| <= |s.called|
    && s.waiting == s.called[|s.fates|..]
    && s.stored == Fold(init, s.called[..|s.fates|], s.fates)
    && (s.phase.Loaded? ==> s.waiting != [] && s.phase.leases == if s.phase.ok then s.stored else [])
  }

  lemma StepKeepsQueue(s: Store, init: seq<Lease>, e: Event)
    requires QueueInv(s, init) && Enabled(s, e)
    ensures QueueInv(Apply(s, e), init)
  {
    var t := Apply(s, e);
    match e
    case Load(ok) => NormalizeInvertsEncode(s.stored);
    case Save(ok) =>
      var n := |s.fates|;
      assert s.called[..n + 1][..n] == s.called[..n];
      assert t.fates[..n] == s.fates;
      assert s.called[n] == s.waiting[0];
    case _ =>
      assert t.called[..|s.fates|] == s.called[..|s.fates|];
  }

  lemma {:induction false} RunKeepsQueue(s: Store, init: seq<Lease>, es: seq<Event>, t: Store)
    requires QueueInv(s, init) && Run(s, es, t)
    ensures QueueInv(t, init)
    decreases |es|
  {
    if es != [] {
      StepKeepsQueue(s, init, es[0]);
      RunKeepsQueue(Apply(s, es[0]), init, es[1..], t);
    }
  }

  /** However calls, loads and saves interleave, a drained queue leaves the fold of all mutations in call order,
      each with the fate its storage calls had; so with working storage, exactly their fold. */
  lemma DrainedStoreIsFold(init: seq<Lease>, expirations: map<nat, real>, es: seq<Event>, t: Store)
    requires Run(Start(init, expirations), es, t) && t.waiting == []
    ensures |t.fates| == |t.called| && t.stored == Fold(init, t.called, t.fates)
    ensures (forall e <- es :: Works(e)) ==> t.stored == Eventual(t, init)
    ensures OnePerTab(init) ==> OnePerTab(t.stored)
  {
    var s := Start(init, expirations);
    RunKeepsQueue(s, init, es, t);
    assert t.called[..|t.fates|] == t.called;
    if OnePerTab(init) {
      FoldKeepsOnePerTab(init, t.called, t.fates);
    }
    if forall e <- es :: Works(e) {
      RunIsSound(s, init, es, t);
      SoundIsFold(t, init);
    }
  }

  predicate Works(e: Event) { e.Load? || e.Save? ==> e.ok }

  /** So far storage has worked. */
  ghost predicate Sound(s: Store, init: seq<Lease>) {
    QueueInv(s, init) && (s.phase.Loaded? ==> s.phase.ok) && forall f <- s.fates :: f.Done?
  }

  lemma {:induction false} RunIsSound(s: Store, init: seq<Lease>, es: seq<Event>, t: Store)
    requires Sound(s, init) && Run(s, es, t) && forall e <- es :: Works(e)
    ensures Sound(t, init)
    decreases |es|
  {
    if es != [] {
      assert es[0] in es && forall e <- es[1..] :: e in es;
      StepIsSound(s, init, es[0]);
      RunIsSound(Apply(s, es[0]), init, es[1..], t);
    }
  }

  lemma StepIsSound(s: Store, init: seq<Lease>, e: Event)
    requires Sound(s, init) && Enabled(s, e) && Works(e)
    ensures Sound(Apply(s, e), init)
  {
    StepKeepsQueue(s, init, e);
  }

  lemma SoundIsFold(t: Store, init: seq<Lease>)
    requires Sound(t, init) && t.waiting == []
    ensures t.stored == Eventual(t, init)
  {
    assert t.called[..|t.fates|] == t.called && |t.fates| == |t.called|;
    assert forall i :: 0 <= i < |t.fates| ==> t.fates[i] in t.fates;
    assert t.fates == AllDone(|t.called|);
  }

  // ---------- memory and store ----------

  function AsMap(ls: seq<Lease>): map<nat, real> {
    if ls == [] then map[] else AsMap(ls[..|ls| - 1])[ls[|ls| - 1].tabId := ls[|ls| - 1].expiresAt]
  }

  lemma {:induction false} WithoutAsMap(ls: seq<Lease>, tab: nat)
    ensures AsMap(Without(ls, tab)) == AsMap(ls) - {tab}
  {
    if ls != [] {
      var init, last := ls[..|ls| - 1], ls[|ls| - 1];
      assert ls == init + [last];
      KeepAppend(init, [last], OtherThan(tab));
      WithoutAsMap(init, tab);
      if last.tabId == tab {
        assert Without(ls, tab) == Without(init, tab);
      } else {
        assert Without(ls, tab)[..|Without(init, tab)|] == Without(init, tab);
      }
    }
  }

  lemma UpsertAsMap(ls: seq<Lease>, l: Lease)
    ensures AsMap(Upsert(ls, l)) == AsMap(ls)[l.tabId := l.expiresAt]
  {
    WithoutAsMap(ls, l.tabId);
    var w := Without(ls, l.tabId);
    assert Upsert(ls, l)[..|w|] == w;
    assert (AsMap(ls) - {l.tabId})[l.tabId := l.expiresAt] == AsMap(ls)[l.tabId := l.expiresAt];
  }

  predicate SameAt(a: map<nat, real>, b: map<nat, real>, tab: nat) {
    (tab in a <==> tab in b) && (tab in a && tab in b ==> a[tab] == b[tab])
  }

  /** What the store will hold once everything queued so far has been saved. */
  function Eventual(s: Store, init: seq<Lease>): seq<Lease> { Fold(init, s.called, AllDone(|s.called|)) }

  lemma FoldOneMore(init: seq<Lease>, ms: seq<Mutation>, m: Mutation)
    ensures Fold(init, ms + [m], AllDone(|ms| + 1)) == Mutate(m, Fold(init, ms, AllDone(|ms|)))
  {
    assert (ms + [m])[..|ms|] == ms;
    assert AllDone(|ms| + 1)[..|ms|] == AllDone(|ms|);
  }

  /** A sweep in progress has yet to forget the tab. */
  predicate Doomed(s: Store, tab: nat) { exists k <- s.sweeps :: tab in Tabs(s.sweeps[k].pending) }

  /** The removals that sweeps in progress have yet to queue will spare this expiry. */
  predicate Outlives(s: Store, expiry: real) { forall k <- s.sweeps :: expiry > s.sweeps[k].now }

  /** The tab's expiry in memory, and in the store, once the sweeps in progress and the queue have run out. */
  function MemoryAt(s: Store, tab: nat): Option<real> {
    if tab in s.expirations && !Doomed(s, tab) then Some(s.expirations[tab]) else None
  }

  function StoreAt(s: Store, init: seq<Lease>, tab: nat): Option<real> {
    var m := AsMap(Eventual(s, init));
    if tab in m && Outlives(s, m[tab]) then Some(m[tab]) else None
  }

  predicate Agree(s: Store, init: seq<Lease>, tab: nat) { MemoryAt(s, tab) == StoreAt(s, init, tab) }

  /** With no sweep in progress and the queue drained that is plain agreement of storage and memory. */
  lemma AgreeAtRest(s: Store, init: seq<Lease>, tab: nat)
    requires Sound(s, init) && s.sweeps == map[] && s.waiting == []
    ensures Agree(s, init, tab) <==> SameAt(AsMap(s.stored), s.expirations, tab)
  {
    SoundIsFold(s, init);
  }

  // ---------- lists as maps ----------

  lemma {:induction false} AsMapOf(ls: seq<Lease>, tab: nat)
    requires OnePerTab(ls)
    ensures tab in AsMap(ls) <==> tab in Tabs(ls)
    ensures forall l <- ls :: l.tabId == tab ==> tab in AsMap(ls) && AsMap(ls)[tab] == l.expiresAt
  {
    if ls != [] {
      var init, last := ls[..|ls| - 1], ls[|ls| - 1];
      assert ls == init + [last];
      AsMapOf(init, tab);
      assert forall l <- init :: l.tabId != last.tabId;
      assert tab in Tabs(ls) <==> tab in Tabs(init) || tab == last.tabId by {
        assert forall l :: l in ls <==> l in init || l == last;
      }
    }
  }

  /** Selecting by expiry keeps exactly the entries on the right side of `now`. */
  lemma ActiveAsMap(ls: seq<Lease>, now: real, tab: nat)
    requires OnePerTab(ls)
    ensures tab in AsMap(Active(ls, now)) <==> tab in AsMap(ls) && AsMap(ls)[tab] > now
    ensures tab in AsMap(Active(ls, now)) ==> AsMap(Active(ls, now))[tab] == AsMap(ls)[tab]
    ensures tab in Tabs(Expired(ls, now)) <==> tab in AsMap(ls) && AsMap(ls)[tab] <= now
  {
    var active := Active(ls, now);
    KeepKeepsOnePerTab(ls, Unexpired(now));
    KeepIsSubsequence(ls, Unexpired(now));
    KeepIsSubsequence(ls, Stale(now));
    AsMapOf(ls, tab);
    AsMapOf(active, tab);
    if tab in AsMap(ls) {
      var l :| l in ls && l.tabId == tab;
      assert l in active <==> l.expiresAt > now;
      assert l in Expired(ls, now) <==> l.expiresAt <= now;
    }
  }

  lemma {:induction false} RaiseAllAt(expirations: map<nat, real>, ls: seq<Lease>, tab: nat)
    requires OnePerTab(ls) && forall l <- ls :: l.expiresAt > 0.0
    ensures var raised := RaiseAll(expirations, ls);
            if tab in AsMap(ls) then tab in raised && raised[tab] == Max(Expiry(expirations, tab), AsMap(ls)[tab])
            else SameAt(raised, expirations, tab)
  {
    if ls != [] {
      var init, last := ls[..|ls| - 1], ls[|ls| - 1];
      assert ls == init + [last];
      assert last in ls && forall l <- init :: l in ls;
      RaiseAllAt(expirations, init, tab);
      AsMapOf(init, tab);
      assert tab == last.tabId ==> tab !in Tabs(init);
    }
  }

  // ---------- when an event keeps agreement ----------

  predicate Touches(e: Event, tab: nat) { e == Release(tab) || (e.SetExpiration? && e.tabId == tab) }

  /** The event neither sets nor releases the tab, and is not a read of storage that may change it. */
  predicate Quiet(e: Event, tab: nat) { !Touches(e, tab) && !e.SweepRead? && !e.Restore? }

  /** Where a sweep's read does no harm: `read` is the tab's expiry as read, `held` its expiry in memory. */
  predicate ReadIsHarmless(read: Option<real>, held: Option<real>, doomed: bool, now: real, someExpired: bool) {
    if read.None? then someExpired && held.Some? ==> held.value > now
    else if read.value <= now then held.Some? ==> held.value <= now
    else doomed || (held.Some? && held.value >= read.value)
  }

  function At(m: map<nat, real>, tab: nat): Option<real> { if tab in m then Some(m[tab]) else None }

  /** What can be told from memory, the sweeps in progress and the list read. */
  predicate Harmless(s: Store, e: Event, tab: nat) {
    match e
    case SetExpiration(t, at) => t == tab ==> (Doomed(s, tab) <==> !Outlives(s, Max(Expiry(s.expirations, t), at)))
    case SweepRead(now, read) =>
      ReadIsHarmless(At(AsMap(read), tab), MemoryAt(s, tab), Doomed(s, tab), now, Expired(read, now) != [])
    case Restore(now, read) =>
      var restored := StartupExpirations(read, now);
      tab in restored ==> Doomed(s, tab) || MemoryAt(s, tab) == Some(restored[tab])
    case _ => true
  }

  lemma SetDecides(s: Store, init: seq<Lease>, e: Event, tab: nat)
    requires Touches(e, tab)
    ensures Agree(Apply(s, e), init, tab) <==> Harmless(s, e, tab)
  {
    var eventual := Eventual(s, init);
    match e
    case SetExpiration(t, at) =>
      var l := Lease(t, Max(Expiry(s.expirations, t), at), Some("cdp"));
      FoldOneMore(init, s.called, Put(l));
      UpsertAsMap(eventual, l);
    case Release(t) =>
      FoldOneMore(init, s.called, Drop(t));
      WithoutAsMap(eventual, t);
  }

  lemma OtherCall(s: Store, init: seq<Lease>, e: Event, tab: nat)
    requires (e.SetExpiration? || e.Release?) && e.tabId != tab
    ensures MemoryAt(Apply(s, e), tab) == MemoryAt(s, tab) && StoreAt(Apply(s, e), init, tab) == StoreAt(s, init, tab)
  {
    var t := Apply(s, e);
    var expiry := Expiry(s.expirations, e.tabId);
    var m := if e.Release? then Drop(e.tabId) else Put(Lease(e.tabId, Max(expiry, e.expiresAt), Some("cdp")));
    OtherMutation(s, t, init, m, e.tabId, tab);
    assert tab in t.expirations <==> tab in s.expirations;
  }

  lemma OtherMutation(s: Store, t: Store, init: seq<Lease>, m: Mutation, other: nat, tab: nat)
    requires other != tab && t.called == s.called + [m] && t.sweeps == s.sweeps
    requires m == Drop(other) || (m.Put? && m.lease.tabId == other)
    ensures StoreAt(t, init, tab) == StoreAt(s, init, tab)
  {
    FoldOneMore(init, s.called, m);
    if m.Put? {
      UpsertAsMap(Eventual(s, init), m.lease);
    } else {
      WithoutAsMap(Eventual(s, init), other);
    }
  }

  /** Forgetting a tab only carries out what was already certain. */
  lemma ForgetIsQuiet(s: Store, init: seq<Lease>, k: nat, tab: nat)
    requires Enabled(s, ForgetExpired(k))
    ensures var t := Apply(s, ForgetExpired(k));
            MemoryAt(t, tab) == MemoryAt(s, tab) && StoreAt(t, init, tab) == StoreAt(s, init, tab)
  {
    var t := Apply(s, ForgetExpired(k));
    var pending := s.sweeps[k].pending;
    HeadAndRest(pending, tab);
    assert t.sweeps.Keys == s.sweeps.Keys;
    if tab != pending[0].tabId {
      assert Doomed(t, tab) <==> Doomed(s, tab);
    } else {
      assert tab in Tabs(s.sweeps[k].pending);
    }
  }

  lemma EndIsQuiet(s: Store, init: seq<Lease>, k: nat, tab: nat)
    requires Enabled(s, SweepEnd(k)) && OnePerTab(init)
    ensures var t := Apply(s, SweepEnd(k));
            MemoryAt(t, tab) == MemoryAt(s, tab) && StoreAt(t, init, tab) == StoreAt(s, init, tab)
  {
    var t, now := Apply(s, SweepEnd(k)), s.sweeps[k].now;
    WithoutEnded(s, t, k, tab);
    FoldKeepsOnePerTab(init, s.called, AllDone(|s.called|));
    FoldOneMore(init, s.called, KeepActive(now));
    ActiveAsMap(Eventual(s, init), now, tab);
  }

  lemma WithoutEnded(s: Store, t: Store, k: nat, tab: nat)
    requires Enabled(s, SweepEnd(k)) && t.sweeps == s.sweeps - {k}
    ensures Doomed(t, tab) <==> Doomed(s, tab)
    ensures forall e: real :: Outlives(s, e) <==> e > s.sweeps[k].now && Outlives(t, e)
  {
    assert Tabs(s.sweeps[k].pending) == {};
    if Doomed(s, tab) {
      var j :| j in s.sweeps && tab in Tabs(s.sweeps[j].pending);
      assert j in t.sweeps && t.sweeps[j] == s.sweeps[j];
    }
    forall e: real ensures Outlives(s, e) <==> e > s.sweeps[k].now && Outlives(t, e) {
      if e > s.sweeps[k].now && Outlives(t, e) {
        forall j <- s.sweeps ensures e > s.sweeps[j].now { assert j != k ==> j in t.sweeps; }
      }
    }
  }

  lemma QuietKeepsBoth(s: Store, init: seq<Lease>, e: Event, tab: nat)
    requires Enabled(s, e) && Quiet(e, tab) && OnePerTab(init)
    ensures MemoryAt(Apply(s, e), tab) == MemoryAt(s, tab) && StoreAt(Apply(s, e), init, tab) == StoreAt(s, init, tab)
  {
    match e
    case SetExpiration(t, at) => OtherCall(s, init, e, tab);
    case Release(t) => OtherCall(s, init, e, tab);
    case ForgetExpired(k) => ForgetIsQuiet(s, init, k, tab);
    case SweepEnd(k) => EndIsQuiet(s, init, k, tab);
    case _ =>
  }

  /** What a sweep's read does to a tab in memory. */
  lemma ReadMemory(s: Store, now: real, read: seq<Lease>, tab: nat)
    requires now >= 0.0 && OnePerTab(read) && s.nextSweep !in s.sweeps
    ensures var t, m := BeginSweep(s, now, read), AsMap(read);
            && (tab !in m ==> MemoryAt(t, tab) == MemoryAt(s, tab))
            && (tab in m && m[tab] <= now ==> MemoryAt(t, tab).None?)
            && (tab in m && m[tab] > now ==>
                  MemoryAt(t, tab) == if Doomed(s, tab) then None else Some(Max(Expiry(s.expirations, tab), m[tab])))
  {
    var t, expired := BeginSweep(s, now, read), Expired(read, now);
    ActiveAsMap(read, now, tab);
    RaisedAt(s.expirations, now, read, tab);
    if expired != [] {
      HeadAndRest(expired, tab);
      DoomedByRead(s, t, SweepRun(now, expired[1..]), tab);
    }
  }

  lemma HeadAndRest(ls: seq<Lease>, tab: nat)
    requires ls != []
    ensures tab in Tabs(ls) <==> tab == ls[0].tabId || tab in Tabs(ls[1..])
  {
    assert ls == [ls[0]] + ls[1..];
    assert forall l :: l in ls <==> l == ls[0] || l in ls[1..];
  }

  lemma RaisedAt(expirations: map<nat, real>, now: real, read: seq<Lease>, tab: nat)
    requires now >= 0.0 && OnePerTab(read)
    ensures var raised, m := RaiseAll(expirations, Active(read, now)), AsMap(read);
            if tab in m && m[tab] > now then tab in raised && raised[tab] == Max(Expiry(expirations, tab), m[tab])
            else SameAt(raised, expirations, tab)
  {
    ActiveAsMap(read, now, tab);
    KeepKeepsOnePerTab(read, Unexpired(now));
    KeepIsSubsequence(read, Unexpired(now));
    RaiseAllAt(expirations, Active(read, now), tab);
  }

  lemma DoomedByRead(s: Store, t: Store, sweep: SweepRun, tab: nat)
    requires s.nextSweep !in s.sweeps && t.sweeps == s.sweeps[s.nextSweep := sweep]
    ensures Doomed(t, tab) <==> Doomed(s, tab) || tab in Tabs(sweep.pending)
    ensures forall e: real :: Outlives(t, e) <==> Outlives(s, e) && e > sweep.now
  {
    if Doomed(s, tab) {
      var k :| k in s.sweeps && tab in Tabs(s.sweeps[k].pending);
      assert k in t.sweeps && t.sweeps[k] == s.sweeps[k];
    }
    assert t.sweeps[s.nextSweep] == sweep;
    forall e: real ensures Outlives(t, e) <==> Outlives(s, e) && e > sweep.now {
      assert forall k <- s.sweeps :: k in t.sweeps && t.sweeps[k] == s.sweeps[k];
    }
  }

  /** What it does to the tab in the store, through the removal it will queue. */
  lemma ReadStore(s: Store, init: seq<Lease>, now: real, read: seq<Lease>, tab: nat)
    requires s.nextSweep !in s.sweeps
    ensures var t, v := BeginSweep(s, now, read), StoreAt(s, init, tab);
            StoreAt(t, init, tab) == if Expired(read, now) != [] && v.Some? && v.value <= now then None else v
  {
    var t, expired := BeginSweep(s, now, read), Expired(read, now);
    if expired != [] {
      DoomedByRead(s, t, SweepRun(now, expired[1..]), tab);
    }
  }

  lemma ReadDecides(s: Store, init: seq<Lease>, now: real, read: seq<Lease>, tab: nat)
    requires now >= 0.0 && MayRead(s, read) && OnePerTab(read) && s.nextSweep !in s.sweeps && Agree(s, init, tab)
    ensures Agree(Apply(s, SweepRead(now, read)), init, tab) <==> Harmless(s, SweepRead(now, read), tab)
  {
    ReadMemory(s, now, read, tab);
    ReadStore(s, init, now, read, tab);
    ActiveAsMap(read, now, tab);
    var m := AsMap(read);
    if tab in m && m[tab] <= now {
      assert tab in Tabs(Expired(read, now));
      assert Expired(read, now) != [];
    }
  }

  lemma RestoreDecides(s: Store, init: seq<Lease>, now: real, read: seq<Lease>, tab: nat)
    requires MayRead(s, read) && Agree(s, init, tab)
    ensures Agree(Apply(s, Restore(now, read)), init, tab) <==> Harmless(s, Restore(now, read), tab)
  {
    var t := Apply(s, Restore(now, read));
    assert Doomed(t, tab) <==> Doomed(s, tab);
    assert StoreAt(t, init, tab) == StoreAt(s, init, tab);
  }

  /** The clock is not negative. */
  predicate Timely(e: Event) { e.SweepRead? ==> e.now >= 0.0 }

  /** On a tab where memory and the store agree, or are bound to, an event leaves that so if and only if it is
      harmless: a set while a sweep is about to forget the tab is not, nor is a read that is out of date. */
  lemma AgreementKeptIff(s: Store, init: seq<Lease>, e: Event, tab: nat)
    requires SweepsOk(s) && SeenOk(s) && OnePerTab(init) && Enabled(s, e) && Timely(e) && Agree(s, init, tab)
    ensures Agree(Apply(s, e), init, tab) <==> Harmless(s, e, tab)
  {
    if Touches(e, tab) {
      SetDecides(s, init, e, tab);
    } else if e.SweepRead? {
      ReadDecides(s, init, e.now, e.read, tab);
    } else if e.Restore? {
      RestoreDecides(s, init, e.now, e.read, tab);
    } else {
      QuietKeepsBoth(s, init, e, tab);
    }
  }

  predicate SweepsOk(s: Store) { forall k <- s.sweeps :: k < s.nextSweep }

  /** No list that a read may show has a tab twice. */
  predicate SeenOk(s: Store) { forall ls <- s.seen :: OnePerTab(ls) }

  lemma StepKeepsSeen(s: Store, init: seq<Lease>, e: Event)
    requires QueueInv(s, init) && OnePerTab(init) && SeenOk(s) && Enabled(s, e)
    ensures SeenOk(Apply(s, e))
  {
    if e.Save? {
      FoldKeepsOnePerTab(init, s.called[..|s.fates|], s.fates);
      MutateKeepsOnePerTab(s.waiting[0], s.phase.leases);
    }
  }

  lemma {:induction false} RunKeepsSweeps(s: Store, init: seq<Lease>, es: seq<Event>, t: Store)
    requires QueueInv(s, init) && OnePerTab(init) && SweepsOk(s) && SeenOk(s) && Run(s, es, t)
    ensures SweepsOk(t) && SeenOk(t)
    decreases |es|
  {
    if es != [] {
      StepKeepsQueue(s, init, es[0]);
      StepKeepsSeen(s, init, es[0]);
      RunKeepsSweeps(Apply(s, es[0]), init, es[1..], t);
    }
  }

  lemma {:induction false} QuietRun(s: Store, init: seq<Lease>, es: seq<Event>, t: Store, tab: nat)
    requires OnePerTab(init) && Run(s, es, t) && forall e <- es :: Quiet(e, tab)
    ensures MemoryAt(t, tab) == MemoryAt(s, tab) && StoreAt(t, init, tab) == StoreAt(s, init, tab)
    decreases |es|
  {
    if es != [] {
      assert es[0] in es && forall e <- es[1..] :: e in es;
      QuietKeepsBoth(s, init, es[0], tab);
      QuietRun(Apply(s, es[0]), init, es[1..], t, tab);
    }
  }

  /** Take any run with working storage to a state in which memory and store agree on a tab, then any event, then
      anything that leaves the tab alone until the sweeps are over and the queue is drained. Storage and memory then
      agree on the tab if and only if the event was harmless. */
  lemma LastEventDecides(init: seq<Lease>, expirations: map<nat, real>, es: seq<Event>, s: Store, e: Event,
                         rest: seq<Event>, t: Store, tab: nat)
    requires OnePerTab(init) && Run(Start(init, expirations), es, s) && Enabled(s, e) && Run(Apply(s, e), rest, t)
    requires (forall x <- es :: Works(x)) && Works(e) && Timely(e) && forall x <- rest :: Works(x) && Quiet(x, tab)
    requires Agree(s, init, tab) && t.sweeps == map[] && t.waiting == []
    ensures SameAt(AsMap(t.stored), t.expirations, tab) <==> Harmless(s, e, tab)
  {
    RunIsSound(Start(init, expirations), init, es, s);
    RunKeepsSweeps(Start(init, expirations), init, es, s);
    AgreementKeptIff(s, init, e, tab);
    StepIsSound(s, init, e);
    QuietRun(Apply(s, e), init, rest, t, tab);
    RunIsSound(Apply(s, e), init, rest, t);
    AgreeAtRest(t, init, tab);
  }

  /** The same, read off at the moment a sweep's own delete runs: if memory and the queue agreed on the tab just
      before, the delete does no harm if and only if the lease it deletes is absent or has expired by the clock of
      some sweep in progress. */
  lemma DeleteDecides(init: seq<Lease>, expirations: map<nat, real>, es: seq<Event>, s: Store, k: nat,
                      rest: seq<Event>, t: Store, tab: nat)
    requires OnePerTab(init) && Run(Start(init, expirations), es, s) && Enabled(s, ForgetExpired(k))
    requires s.sweeps[k].pending[0].tabId == tab && Run(Apply(s, ForgetExpired(k)), rest, t)
    requires (forall x <- es :: Works(x)) && forall x <- rest :: Works(x) && Quiet(x, tab)
    requires SameAt(AsMap(Eventual(s, init)), s.expirations, tab) && t.sweeps == map[] && t.waiting == []
    ensures SameAt(AsMap(t.stored), t.expirations, tab) <==>
        (tab in s.expirations ==> exists j <- s.sweeps :: s.expirations[tab] <= s.sweeps[j].now)
  {
    RunIsSound(Start(init, expirations), init, es, s);
    StepIsSound(s, init, ForgetExpired(k));
    ForgetIsQuiet(s, init, k, tab);
    QuietRun(Apply(s, ForgetExpired(k)), init, rest, t, tab);
    RunIsSound(Apply(s, ForgetExpired(k)), init, rest, t);
    AgreeAtRest(t, init, tab);
    assert s.sweeps[k].pending[0] in s.sweeps[k].pending;
    assert Doomed(s, tab) && MemoryAt(s, tab) == None;
  }

  predicate AllHarmless(s: Store, es: seq<Event>, tab: nat)
    decreases |es|
  {
    es == [] || (Enabled(s, es[0]) && Harmless(s, es[0], tab) && AllHarmless(Apply(s, es[0]), es[1..], tab))
  }

  lemma {:induction false} HarmlessRun(s: Store, init: seq<Lease>, es: seq<Event>, t: Store, tab: nat)
    requires QueueInv(s, init) && SweepsOk(s) && SeenOk(s) && OnePerTab(init) && Run(s, es, t)
    requires forall e <- es :: Timely(e)
    requires AllHarmless(s, es, tab) && (Agree(s, init, tab) || (es != [] && Touches(es[0], tab)))
    ensures Agree(t, init, tab)
    decreases |es|
  {
    if es != [] {
      assert es[0] in es && forall e <- es[1..] :: e in es;
      if Touches(es[0], tab) {
        SetDecides(s, init, es[0], tab);
      } else {
        AgreementKeptIff(s, init, es[0], tab);
      }
      StepKeepsQueue(s, init, es[0]);
      StepKeepsSeen(s, init, es[0]);
      HarmlessRun(Apply(s, es[0]), init, es[1..], t, tab);
    }
  }

  /** Over any run with working storage, sweeps and restores included, whose events are all harmless to a tab, storage
      and memory agree on it at rest, from any state in which they agree or the tab is set or released next. */
  lemma DrainedStoreAgreesWithMemory(init: seq<Lease>, expirations: map<nat, real>, es: seq<Event>, s: Store,
                                     rest: seq<Event>, t: Store, tab: nat)
    requires OnePerTab(init) && Run(Start(init, expirations), es, s) && Run(s, rest, t)
    requires (forall e <- es :: Works(e)) && forall e <- rest :: Works(e) && Timely(e)
    requires Agree(s, init, tab) || (rest != [] && Touches(rest[0], tab))
    requires AllHarmless(s, rest, tab) && t.sweeps == map[] && t.waiting == []
    ensures SameAt(AsMap(t.stored), t.expirations, tab)
  {
    RunIsSound(Start(init, expirations), init, es, s);
    RunKeepsSweeps(Start(init, expirations), init, es, s);
    HarmlessRun(s, init, rest, t, tab);
    RunIsSound(s, init, rest, t);
    AgreeAtRest(t, init, tab);
  }

  predicate SetOrRelease(e: Event) { !e.SweepRead? && !e.Restore? }

  lemma {:induction false} CallsAreHarmless(s: Store, es: seq<Event>, t: Store, tab: nat)
    requires s.sweeps == map[] && Run(s, es, t) && forall e <- es :: SetOrRelease(e)
    ensures AllHarmless(s, es, tab) && t.sweeps == map[]
    decreases |es|
  {
    if es != [] {
      assert es[0] in es && forall e <- es[1..] :: e in es;
      assert !Doomed(s, tab) && forall x: real :: Outlives(s, x);
      CallsAreHarmless(Apply(s, es[0]), es[1..], t, tab);
    }
  }

  /** Without sweeps and restores nothing does harm: if storage and memory agree everywhere at the start, they agree
      everywhere whenever the queue is drained. */
  lemma CallsKeepAgreement(init: seq<Lease>, es: seq<Event>, t: Store)
    requires OnePerTab(init) && Run(Start(init, AsMap(init)), es, t) && t.waiting == []
    requires forall e <- es :: Works(e) && SetOrRelease(e)
    ensures AsMap(t.stored) == t.expirations
  {
    var s, a, b := Start(init, AsMap(init)), AsMap(t.stored), t.expirations;
    forall tab: nat ensures SameAt(a, b, tab) {
      CallsAreHarmless(s, es, t, tab);
      assert Run(s, [], s);
      DrainedStoreAgreesWithMemory(init, AsMap(init), [], s, es, t, tab);
    }
    forall tab: nat ensures (tab in a <==> tab in b) && (tab in a ==> a[tab] == b[tab]) { assert SameAt(a, b, tab); }
    assert a == b;
  }

  // ---------- two inputs for which a sweep loses a renewal ----------

  const CDP := Some("cdp")

  /** A renewal that is still queued when a sweep reads the old expiry. */
  lemma QueuedRenewalIsLost(init: seq<Lease>, s: Store)
    requires init == [Lease(1, 5.0, CDP)] && s == Apply(Start(init, map[1 := 5.0]), SetExpiration(1, 100.0))
    ensures Agree(s, init, 1) && !Harmless(s, SweepRead(10.0, init), 1)
    ensures !Agree(Apply(s, SweepRead(10.0, init)), init, 1)
  {
    var s0 := Start(init, map[1 := 5.0]);
    assert !Doomed(s0, 1) && Outlives(s0, 100.0);
    SetDecides(s0, init, SetExpiration(1, 100.0), 1);
    assert AsMap(init)[1] == 5.0 by { assert init[..0] == []; }
    assert !Doomed(s, 1);
    ReadDecides(s, init, 10.0, init, 1);
  }

  /** A renewal made while a sweep waits for the detach of another tab: the read was harmless to the tab, the set
      that follows is not. */
  lemma RenewalDuringSweepIsLost(init: seq<Lease>, s: Store, t: Store)
    requires init == [Lease(1, 5.0, CDP), Lease(2, 6.0, CDP)] && s == Start(init, AsMap(init))
    requires t == Apply(s, SweepRead(10.0, init))
    ensures Agree(s, init, 2) && Harmless(s, SweepRead(10.0, init), 2) && Agree(t, init, 2)
    ensures !Harmless(t, SetExpiration(2, 100.0), 2) && !Agree(Apply(t, SetExpiration(2, 100.0)), init, 2)
  {
    TwoLeases(init);
    assert Eventual(s, init) == init;
    assert !Doomed(s, 2) && MemoryAt(s, 2) == Some(6.0) && StoreAt(s, init, 2) == Some(6.0);
    ReadDecides(s, init, 10.0, init, 2);
    assert RaiseAll(s.expirations, []) == s.expirations;
    assert t.expirations[2] == 6.0 && t.sweeps[0] == SweepRun(10.0, init[1..]) && init[1..][0] == init[1];
    assert init[1] in init[1..] && 2 in Tabs(t.sweeps[0].pending);
    assert Doomed(t, 2) && Outlives(t, 100.0);
    SetDecides(t, init, SetExpiration(2, 100.0), 2);
  }

  lemma TwoLeases(init: seq<Lease>)
    requires init == [Lease(1, 5.0, CDP), Lease(2, 6.0, CDP)]
    ensures AsMap(init) == map[1 := 5.0, 2 := 6.0] && OnePerTab(init)
    ensures Expired(init, 10.0) == init && Active(init, 10.0) == []
  {
    var first, second := init[..1], init[1..];
    assert first == [init[0]] && first[..0] == [];
    assert AsMap(first) == map[1 := 5.0];
    KeepOne(init[0], Stale(10.0));
    KeepOne(init[1], Stale(10.0));
    KeepOne(init[0], Unexpired(10.0));
    KeepOne(init[1], Unexpired(10.0));
    assert init == first + second && second == [init[1]];
    KeepAppend(first, second, Stale(10.0));
    KeepAppend(first, second, Unexpired(10.0));
  }

  lemma KeepOne(l: Lease, c: Criterion)
    ensures Keep([l], c) == if c.Holds(l) then [l] else []
  {
    assert [l][1..] == [];
    assert Keep([l][1..], c) == [];
  }

  // ---------- no lease gets shorter ----------

  lemma {:induction false} RaiseAllNeverLowers(expirations: map<nat, real>, ls: seq<Lease>, tab: nat)
    requires tab in expirations
    ensures tab in RaiseAll(expirations, ls) && RaiseAll(expirations, ls)[tab] >= expirations[tab]
  {
    if ls != [] {
      RaiseAllNeverLowers(expirations, ls[..|ls| - 1], tab);
    }
  }

  /** The event leaves the tab a lease at least as long as it has. A restore does so exactly if it did not read a
      shorter one. */
  predicate Lasting(s: Store, e: Event, tab: nat)
    requires Enabled(s, e) && tab in s.expirations
  {
    match e
    case Release(t) => t != tab
    case SweepRead(now, read) =>
      var expired := Expired(read, now);
      expired == [] || expired[0].tabId != tab
    case ForgetExpired(k) => s.sweeps[k].pending[0].tabId != tab
    case Restore(now, read) =>
      var restored := StartupExpirations(read, now);
      tab in restored ==> restored[tab] >= s.expirations[tab]
    case _ => true
  }

  predicate NoShorter(s: Store, t: Store, tab: nat)
    requires tab in s.expirations
  {
    tab in t.expirations && t.expirations[tab] >= s.expirations[tab]
  }

  lemma NoShorterIff(s: Store, e: Event, tab: nat)
    requires Enabled(s, e) && tab in s.expirations
    ensures NoShorter(s, Apply(s, e), tab) <==> Lasting(s, e, tab)
  {
    if e.SweepRead? {
      RaiseAllNeverLowers(s.expirations, Active(e.read, e.now), tab);
    }
  }

  predicate AllLasting(s: Store, es: seq<Event>, tab: nat)
    decreases |es|
  {
    es == [] || (tab in s.expirations && Enabled(s, es[0]) && Lasting(s, es[0], tab)
                 && AllLasting(Apply(s, es[0]), es[1..], tab))
  }

  /** An expiry gets shorter only by a release, by a sweep that forgets its tab, or by a restore that read a shorter
      one; over any run without these it never does. */
  lemma {:induction false} NeverShortened(s: Store, es: seq<Event>, t: Store, tab: nat)
    requires Run(s, es, t) && tab in s.expirations && AllLasting(s, es, tab)
    ensures NoShorter(s, t, tab)
    decreases |es|
  {
    if es != [] {
      NoShorterIff(s, es[0], tab);
      NeverShortened(Apply(s, es[0]), es[1..], t, tab);
    }
  }

  // ---------- what each event does, told in the fields before and after ----------

  /** Memory changes at this tab at most, and one mutation is queued; nothing else changes. */
  ghost predicate Queued(s: Store, t: Store, tab: nat, m: Mutation) {
    && t == s.(expirations := t.expirations, waiting := s.waiting + [m], called := s.called + [m])
    && forall x: nat :: x != tab ==> SameAt(t.expirations, s.expirations, x)
  }

  /** What a sweep's read makes of a tab in memory: gone if it is the first expired one, raised if it was read with a
      longer active lease, and otherwise as it was. */
  predicate SweptAt(s: Store, t: Store, now: real, read: seq<Lease>, tab: nat) {
    if Expired(read, now) != [] && Expired(read, now)[0].tabId == tab then tab !in t.expirations
    else if exists l <- read :: l.tabId == tab && l.expiresAt > now then
      tab in t.expirations && forall l <- read :: l.tabId == tab ==> t.expirations[tab] == Max(Expiry(s.expirations, tab), l.expiresAt)
    else SameAt(t.expirations, s.expirations, tab)
  }

  /** What a restore makes of it: the expiry read if that is still to come, and otherwise as it was. */
  predicate RestoredAt(s: Store, t: Store, now: real, read: seq<Lease>, tab: nat) {
    if exists l <- read :: l.tabId == tab && l.expiresAt > now then
      tab in t.expirations && forall l <- read :: l.tabId == tab ==> t.expirations[tab] == l.expiresAt
    else SameAt(t.expirations, s.expirations, tab)
  }

  /** What a saved mutation makes of the list that was loaded: what stays keeps its order, and a lease put goes last. */
  ghost predicate Mutated(m: Mutation, before: seq<Lease>, after: seq<Lease>) {
    match m
    case Put(l) =>
      && after != [] && after[|after| - 1] == l && Subsequence(after[..|after| - 1], before)
      && (forall x <- before :: x.tabId != l.tabId ==> x in after)
      && (forall x <- after :: x == l || (x in before && x.tabId != l.tabId))
    case Drop(tab) => Subsequence(after, before) && forall x :: x in after <==> x in before && x.tabId != tab
    case KeepActive(now) => Subsequence(after, before) && forall x :: x in after <==> x in before && x.expiresAt > now
  }

  ghost predicate Does(s: Store, e: Event, t: Store)
    requires Enabled(s, e)
  {
    match e
    case SetExpiration(tab, at) =>
      && tab in t.expirations
      && t.expirations[tab] == (if tab in s.expirations && s.expirations[tab] > at then s.expirations[tab]
                                else if tab !in s.expirations && at < 0.0 then 0.0 else at)
      && Queued(s, t, tab, Put(Lease(tab, t.expirations[tab], Some("cdp"))))
    case Release(tab) => tab !in t.expirations && Queued(s, t, tab, Drop(tab))
    case SweepRead(now, read) =>
      && t == s.(expirations := t.expirations, sweeps := t.sweeps, nextSweep := t.nextSweep)
      && (OnePerTab(read) && now >= 0.0 ==> forall tab: nat :: SweptAt(s, t, now, read, tab))
      && t.sweeps == (if Expired(read, now) == [] then s.sweeps
                      else s.sweeps[s.nextSweep := SweepRun(now, Expired(read, now)[1..])])
    case ForgetExpired(k) =>
      && t == s.(expirations := t.expirations, sweeps := s.sweeps[k := SweepRun(s.sweeps[k].now, s.sweeps[k].pending[1..])])
      && t.expirations.Keys == s.expirations.Keys - {s.sweeps[k].pending[0].tabId}
      && forall x <- t.expirations :: t.expirations[x] == s.expirations[x]
    case SweepEnd(k) =>
      t == s.(sweeps := s.sweeps - {k}, waiting := s.waiting + [KeepActive(s.sweeps[k].now)],
              called := s.called + [KeepActive(s.sweeps[k].now)])
    case Restore(now, read) =>
      && t == s.(expirations := t.expirations)
      && (OnePerTab(read) ==> forall tab: nat :: RestoredAt(s, t, now, read, tab))
    case Load(ok) => t == s.(phase := Loaded(if ok then s.stored else [], ok))
    case Save(ok) =>
      && t.waiting == s.waiting[1..] && t.phase.Idle? && t.expirations == s.expirations && t.sweeps == s.sweeps
      && t.called == s.called
      && (if ok then Mutated(s.waiting[0], s.phase.leases, t.stored) else t.stored == s.stored)
  }

  lemma MutateDoes(m: Mutation, ls: seq<Lease>)
    ensures Mutated(m, ls, Mutate(m, ls))
  {
    match m
    case Put(l) =>
      KeepIsSubsequence(ls, OtherThan(l.tabId));
      assert Mutate(m, ls)[..|Mutate(m, ls)| - 1] == Without(ls, l.tabId);
    case Drop(tab) => KeepIsSubsequence(ls, OtherThan(tab));
    case KeepActive(now) => KeepIsSubsequence(ls, Unexpired(now));
  }

  lemma SweepDoes(s: Store, now: real, read: seq<Lease>, tab: nat)
    requires OnePerTab(read) && now >= 0.0
    ensures SweptAt(s, BeginSweep(s, now, read), now, read, tab)
  {
    RaisedAt(s.expirations, now, read, tab);
    AsMapOf(read, tab);
    KeepIsSubsequence(read, Stale(now));
    var expired := Expired(read, now);
    if expired != [] {
      assert expired[0] in expired;
    }
  }

  lemma {:induction false} LastOfTab(ls: seq<Lease>, now: real, tab: nat)
    requires OnePerTab(ls)
    ensures forall l <- ls :: l.tabId == tab && l.expiresAt > now ==>
        tab in StartupExpirations(ls, now) && StartupExpirations(ls, now)[tab] == l.expiresAt
  {
    if ls != [] {
      var init, last := ls[..|ls| - 1], ls[|ls| - 1];
      assert ls == init + [last];
      LastOfTab(init, now, tab);
      forall l <- ls | l.tabId == tab && l.expiresAt > now
        ensures tab in StartupExpirations(ls, now) && StartupExpirations(ls, now)[tab] == l.expiresAt
      {
        if l != last {
          assert l in init;
          var i :| 0 <= i < |init| && init[i] == l;
          assert ls[i] == l && ls[|init|] == last;
        }
      }
    }
  }

  lemma RestoreDoes(s: Store, now: real, read: seq<Lease>, tab: nat)
    requires OnePerTab(read) && MayRead(s, read)
    ensures RestoredAt(s, Apply(s, Restore(now, read)), now, read, tab)
  {
    StartupKeepsActiveTabs(read, now);
    LastOfTab(read, now, tab);
    forall l <- read, k <- read | l.tabId == k.tabId ensures l == k {
      var i :| 0 <= i < |read| && read[i] == l;
      var j :| 0 <= j < |read| && read[j] == k;
      assert i == j;
    }
  }

  lemma StepDoes(s: Store, e: Event)
    requires Enabled(s, e)
    ensures Does(s, e, Apply(s, e))
  {
    match e
    case SweepRead(now, read) =>
      if OnePerTab(read) && now >= 0.0 {
        forall tab: nat ensures SweptAt(s, Apply(s, e), now, read, tab) { SweepDoes(s, now, read, tab); }
      }
    case Restore(now, read) =>
      if OnePerTab(read) {
        forall tab: nat ensures RestoredAt(s, Apply(s, e), now, read, tab) { RestoreDoes(s, now, read, tab); }
      }
    case Load(ok) => NormalizeInvertsEncode(s.stored);
    case Save(ok) => MutateDoes(s.waiting[0], s.phase.leases);
    case _ =>
  }

  // ---------- the module state ----------

  /** Each method is one stretch of the program between awaits, and keeps the queue's invariant. */
  class LeaseStore {
    ghost const init: seq<Lease>
    var stored: seq<Lease>
    var waiting: seq<Mutation>
    var phase: Phase
    ghost var called: seq<Mutation>
    ghost var fates: seq<Fate>
    ghost var seen: set<seq<Lease>>
    var expirations: map<nat, real>
    var sweeps: map<nat, SweepRun>
    var nextSweep: nat

    ghost function S(): Store
      reads this
    {
      Store(stored, waiting, phase, called, fates, seen, expirations, sweeps, nextSweep)
    }

    ghost predicate Valid() reads this { QueueInv(S(), init) && SweepsOk(S()) }

    constructor (kept: seq<Lease>)
      ensures S() == Start(kept, map[]) && init == kept && Valid()
    {
      init, stored, waiting, phase, expirations := kept, kept, [], Idle, map[];
      called, fates, seen, sweeps, nextSweep := [], [], {kept}, map[], 0;
    }

    method MutatePersisted(m: Mutation)
      modifies this`waiting, this`called
      ensures S() == Call(old(S()), m)
    {
      waiting := waiting + [m];
      called := called + [m];
    }

    method SetLeaseExpiration(tabId: nat, expiresAt: real)
      requires Valid()
      modifies this
      ensures S() == Apply(old(S()), SetExpiration(tabId, expiresAt)) && Valid()
      ensures tabId in expirations && expirations[tabId] >= expiresAt
      ensures expirations[tabId] >= old(Expiry(expirations, tabId))
      ensures Does(old(S()), SetExpiration(tabId, expiresAt), S())
    {
      StepDoes(S(), SetExpiration(tabId, expiresAt));
      StepKeepsQueue(S(), init, SetExpiration(tabId, expiresAt));
      var prev := if tabId in expirations then expirations[tabId] else 0.0;
      var next := if prev >= expiresAt then prev else expiresAt;
      expirations := expirations[tabId := next];
      MutatePersisted(Put(Lease(tabId, next, Some("cdp"))));
    }

    method ReleaseTab(tabId: nat)
      requires Valid()
      modifies this
      ensures S() == Apply(old(S()), Release(tabId)) && Valid()
      ensures Does(old(S()), Release(tabId), S())
    {
      StepDoes(S(), Release(tabId));
      StepKeepsQueue(S(), init, Release(tabId));
      expirations := expirations - {tabId};
      MutatePersisted(Drop(tabId));
    }

    method RaiseExpirations(active: seq<Lease>)
      modifies this`expirations
      ensures expirations == RaiseAll(old(expirations), active)
    {
      for i := 0 to |active|
        invariant expirations == RaiseAll(old(expirations), active[..i])
      {
        assert active[..i + 1][..i] == active[..i];
        var current := if active[i].tabId in expirations then expirations[active[i].tabId] else 0.0;
        if active[i].expiresAt > current {
          expirations := expirations[active[i].tabId := active[i].expiresAt];
        }
      }
      assert active[..|active|] == active;
    }

    /** A sweep's read of storage has come back. */
    method StartSweep(now: real, read: seq<Lease>)
      requires Valid() && MayRead(S(), read)
      modifies this
      ensures S() == Apply(old(S()), SweepRead(now, read)) && Valid()
      ensures Does(old(S()), SweepRead(now, read), S())
    {
      StepDoes(S(), SweepRead(now, read));
      StepKeepsQueue(S(), init, SweepRead(now, read));
      var active, expired := SplitByExpiry(read, now);
      RaiseExpirations(active);
      if |expired| > 0 {
        expirations := expirations - {expired[0].tabId};
        sweeps := sweeps[nextSweep := SweepRun(now, expired[1..])];
        nextSweep := nextSweep + 1;
      }
    }

    /** A sweep goes on after a detach. */
    method ContinueSweep(k: nat)
      requires Valid() && k in sweeps
      modifies this
      ensures S() == Apply(old(S()), if old(sweeps[k]).pending != [] then ForgetExpired(k) else SweepEnd(k)) && Valid()
      ensures Does(old(S()), if old(sweeps[k]).pending != [] then ForgetExpired(k) else SweepEnd(k), S())
    {
      StepDoes(S(), if sweeps[k].pending != [] then ForgetExpired(k) else SweepEnd(k));
      var sweep := sweeps[k];
      if |sweep.pending| > 0 {
        StepKeepsQueue(S(), init, ForgetExpired(k));
        expirations := expirations - {sweep.pending[0].tabId};
        sweeps := sweeps[k := sweep.(pending := sweep.pending[1..])];
      } else {
        StepKeepsQueue(S(), init, SweepEnd(k));
        sweeps := sweeps - {k};
        MutatePersisted(KeepActive(sweep.now));
      }
    }

    /** The read at startup has come back. */
    method RestoreExpirations(now: real, read: seq<Lease>)
      requires Valid() && MayRead(S(), read)
      modifies this
      ensures S() == Apply(old(S()), Restore(now, read)) && Valid()
      ensures Does(old(S()), Restore(now, read), S())
    {
      StepDoes(S(), Restore(now, read));
      StepKeepsQueue(S(), init, Restore(now, read));
      OverwriteExpirations(read, now);
    }

    method OverwriteExpirations(read: seq<Lease>, now: real)
      modifies this`expirations
      ensures expirations == old(expirations) + StartupExpirations(read, now)
    {
      ghost var before := expirations;
      assert before + map[] == before;
      for i := 0 to |read|
        invariant expirations == before + StartupExpirations(read[..i], now)
      {
        assert read[..i + 1][..i] == read[..i];
        if read[i].expiresAt > now {
          expirations := expirations[read[i].tabId := read[i].expiresAt];
        }
      }
      assert read[..|read|] == read;
    }

    /** The first await of a queued mutation has come back. */
    method LoadStep(ok: bool)
      requires Valid() && Enabled(S(), Load(ok))
      modifies this
      ensures S() == Apply(old(S()), Load(ok)) && Valid()
      ensures Does(old(S()), Load(ok), S())
    {
      StepDoes(S(), Load(ok));
      StepKeepsQueue(S(), init, Load(ok));
      var leases := [];
      if ok {
        ghost var from;
        leases, from := NormalizePersistedLeases(Encode(stored));
      }
      phase := Loaded(leases, ok);
    }

    method ApplyMutation(m: Mutation, ls: seq<Lease>) returns (r: seq<Lease>)
      ensures r == Mutate(m, ls)
    {
      match m {
        case Put(l) => r := Upsert(ls, l);
        case Drop(tab) => r := Without(ls, tab);
        case KeepActive(now) =>
          var expired;
          r, expired := SplitByExpiry(ls, now);
      }
    }

    /** The second await has come back; the next mutation may start. */
    method SaveStep(ok: bool)
      requires Valid() && Enabled(S(), Save(ok))
      modifies this
      ensures S() == Apply(old(S()), Save(ok)) && Valid()
      ensures Does(old(S()), Save(ok), S())
    {
      StepDoes(S(), Save(ok));
      StepKeepsQueue(S(), init, Save(ok));
      fates := fates + [if !ok then SaveFailed else if phase.ok then Done else LoadFailed];
      var leases := ApplyMutation(waiting[0], phase.leases);
      if ok {
        stored := leases;
      }
      seen := seen + {stored};
      waiting := waiting[1..];
      phase := Idle;
    }
  }
}
