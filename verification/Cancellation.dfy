/** The content script's memory of cancelled requests, and the waits that a cancellation must wake. */
module Cancellation {
  import opened Common

  const MEMORY_MS := 120000

  /** A waiter is filed under the request and the lease of its step. */
  datatype Key = RequestKey(id: string) | LeaseKey(id: string)

  function KeyText(k: Key): string { match k case RequestKey(id) => "req:" + id case LeaseKey(id) => "lease:" + id }

  /** The two kinds of key share one map without clashing. */
  lemma KeyTextIsInjective(a: Key, b: Key)
    ensures KeyText(a) == KeyText(b) ==> a == b
  {
    var s, t := KeyText(a), KeyText(b);
    if s == t {
      assert s[0] == t[0];
      if a.RequestKey? {
        assert s[4..] == a.id && t[4..] == b.id;
      } else {
        assert s[6..] == a.id && t[6..] == b.id;
      }
    }
  }

  type WaitId = nat

  datatype Entry = Entry(reason: string, at: int)

  /** Pending: inside the race. Rejected, Settled: the race is decided, the continuation has not run yet. */
  datatype Phase = Pending | Rejected(reason: string) | Settled(ok: bool) | Returned | Threw

  datatype Wait = Wait(req: Option<string>, lease: Option<string>, phase: Phase, fired: nat, since: int)

  function KeysOf(req: Option<string>, lease: Option<string>): set<Key> {
    (if req.Some? then {RequestKey(req.value)} else {}) + (if lease.Some? then {LeaseKey(lease.value)} else {})
  }

  function Keys(w: Wait): set<Key> { KeysOf(w.req, w.lease) }

  datatype Cancelled = Cancelled(key: Key, at: int)

  /** `log` is the history of cancellations; `now` the latest clock reading. */
  datatype State = State(
    requests: map<string, Entry>, leases: map<string, Entry>, waiters: map<Key, set<WaitId>>,
    waits: map<WaitId, Wait>, log: seq<Cancelled>, now: int)

  const INITIAL := State(map[], map[], map[], map[], [], 0)

  datatype Event =
    | Begin(id: WaitId, req: Option<string>, lease: Option<string>, now: int)
    | Cancel(req: Option<string>, lease: Option<string>, reason: string, now: int)
    | WorkDone(id: WaitId, ok: bool)
    | Resume(id: WaitId, now: int)

  // ---------- operations ----------

  function PruneMap(m: map<string, Entry>, now: int): map<string, Entry> {
    map k | k in m && m[k].at >= now - MEMORY_MS :: m[k]
  }

  function Prune(s: State, now: int): State {
    s.(requests := PruneMap(s.requests, now), leases := PruneMap(s.leases, now), now := now)
  }

  function Recorded(s: State, k: Key): Option<Entry> {
    match k
    case RequestKey(id) => if id in s.requests then Some(s.requests[id]) else None
    case LeaseKey(id) => if id in s.leases then Some(s.leases[id]) else None
  }

  /** The reason on record; the lease is asked first. */
  function Reason(s: State, req: Option<string>, lease: Option<string>): Option<string> {
    if lease.Some? && lease.value in s.leases then Some(s.leases[lease.value].reason)
    else if req.Some? && req.value in s.requests then Some(s.requests[req.value].reason)
    else None
  }

  function Register(ws: map<Key, set<WaitId>>, keys: set<Key>, id: WaitId): map<Key, set<WaitId>> {
    map k | k in ws.Keys + keys :: (if k in ws then ws[k] else {}) + (if k in keys then {id} else {})
  }

  /** Takes a wait out of every set it is in, and drops sets that become empty. */
  function Unregister(ws: map<Key, set<WaitId>>, ids: set<WaitId>): map<Key, set<WaitId>> {
    map k | k in ws && ws[k] - ids != {} :: ws[k] - ids
  }

  function Fire(w: Wait, reason: string): Wait {
    w.(fired := w.fired + 1, phase := if w.phase.Pending? then Rejected(reason) else w.phase)
  }

  function FireAll(waits: map<WaitId, Wait>, ids: set<WaitId>, reason: string): map<WaitId, Wait> {
    map i | i in waits :: if i in ids then Fire(waits[i], reason) else waits[i]
  }

  function Notify(s: State, k: Key, reason: string): State {
    if k !in s.waiters then s
    else s.(waiters := Unregister(s.waiters, s.waiters[k]), waits := FireAll(s.waits, s.waiters[k], reason))
  }

  /** The record of a cancellation, before its waiters are told. */
  function Record(s: State, k: Key, reason: string, now: int): State {
    var entry := Entry(reason, now);
    match k
    case RequestKey(id) => s.(requests := s.requests[id := entry], log := s.log + [Cancelled(k, now)])
    case LeaseKey(id) => s.(leases := s.leases[id := entry], log := s.log + [Cancelled(k, now)])
  }

  function CancelKey(s: State, k: Key, reason: string, now: int): State { Notify(Record(s, k, reason, now), k, reason) }

  function Finish(s: State, id: WaitId, phase: Phase): State
    requires id in s.waits
  {
    s.(waits := s.waits[id := s.waits[id].(phase := phase)], waiters := Unregister(s.waiters, {id}))
  }

  predicate Enabled(s: State, e: Event) {
    match e
    case Begin(id, _, _, now) => now >= s.now && id !in s.waits
    case Cancel(_, _, _, now) => now >= s.now
    case WorkDone(id, _) => id in s.waits && s.waits[id].phase.Pending?
    case Resume(id, now) => now >= s.now && id in s.waits && (s.waits[id].phase.Settled? || s.waits[id].phase.Rejected?)
  }

  function Apply(s: State, e: Event): State
    requires Enabled(s, e)
  {
    match e
    case Begin(id, req, lease, now) =>
      var t := Prune(s, now);
      if Reason(t, req, lease).Some? then t.(waits := t.waits[id := Wait(req, lease, Threw, 0, now)])
      else t.(waits := t.waits[id := Wait(req, lease, Pending, 0, now)],
              waiters := Register(t.waiters, KeysOf(req, lease), id))
    case Cancel(req, lease, reason, now) =>
      var t := Prune(s, now);
      var u := if req.Some? then CancelKey(t, RequestKey(req.value), reason, now) else t;
      if lease.Some? then CancelKey(u, LeaseKey(lease.value), reason, now) else u
    case WorkDone(id, ok) => s.(waits := s.waits[id := s.waits[id].(phase := Settled(ok))])
    case Resume(id, now) =>
      var t := Prune(s, now);
      var w := t.waits[id];
      Finish(t, id, if w.phase == Settled(true) && Reason(t, w.req, w.lease).None? then Returned else Threw)
  }

  predicate Run(s: State, es: seq<Event>, t: State)
    decreases |es|
  {
    if es == [] then s == t else Enabled(s, es[0]) && Run(Apply(s, es[0]), es[1..], t)
  }

  // ---------- the invariant ----------

  /** A wait that a cancellation can still reach. */
  predicate Listening(w: Wait) { (w.phase.Pending? || w.phase.Settled?) && w.fired == 0 }

  /** Waiters are filed exactly under the keys of the waits that are listening, and no set is empty. */
  ghost predicate Filed(s: State) {
    && (forall k <- s.waiters :: s.waiters[k] != {})
    && (forall k <- s.waiters, i <- s.waiters[k] :: i in s.waits && Listening(s.waits[i]) && k in Keys(s.waits[i]))
    && (forall i <- s.waits :: Listening(s.waits[i]) ==>
          forall k <- Keys(s.waits[i]) :: k in s.waiters && i in s.waiters[k])
  }

  predicate FiredOnce(s: State) {
    forall i <- s.waits :: s.waits[i].fired <= 1 && (s.waits[i].phase.Pending? ==> s.waits[i].fired == 0)
  }

  predicate Remembered(s: State, c: Cancelled) {
    || c.at < s.now - MEMORY_MS
    || (Recorded(s, c.key).Some? && Recorded(s, c.key).value.at >= c.at)
  }

  /** The records are the cancellations of the last two minutes: none forgotten, none invented. */
  ghost predicate Faithful(s: State) {
    && (forall c <- s.log :: c.at <= s.now && Remembered(s, c))
    && (forall k :: Recorded(s, k).Some? ==> Cancelled(k, Recorded(s, k).value.at) in s.log)
  }

  /** No cancellation that matters to a listening wait is on record since before it began. */
  ghost predicate Unharmed(s: State) {
    forall i <- s.waits, c <- s.log :: Listening(s.waits[i]) && c.key in Keys(s.waits[i]) ==>
        c.at < s.waits[i].since - MEMORY_MS
  }

  ghost predicate Inv(s: State) { Filed(s) && FiredOnce(s) && Faithful(s) && Unharmed(s) }

  lemma PruneKeepsInv(s: State, now: int)
    requires Inv(s) && now >= s.now
    ensures Inv(Prune(s, now))
    ensures forall k :: Recorded(Prune(s, now), k).Some? ==> Recorded(Prune(s, now), k).value.at >= now - MEMORY_MS
  {
    var t := Prune(s, now);
    forall c <- t.log ensures c.at <= t.now && Remembered(t, c) {
      assert Remembered(s, c);
    }
    forall k | Recorded(t, k).Some? ensures Cancelled(k, Recorded(t, k).value.at) in t.log {
      assert Recorded(s, k) == Recorded(t, k);
    }
  }

  /** After a prune, a reason is on record exactly if a cancellation of the last two minutes matches. */
  lemma ReasonIffCancelled(s: State, req: Option<string>, lease: Option<string>)
    requires Faithful(s)
    requires forall k :: Recorded(s, k).Some? ==> Recorded(s, k).value.at >= s.now - MEMORY_MS
    ensures Reason(s, req, lease).Some? <==>
        exists c <- s.log :: c.key in KeysOf(req, lease) && c.at >= s.now - MEMORY_MS
  {
    if Reason(s, req, lease).Some? {
      var k := if lease.Some? && lease.value in s.leases then LeaseKey(lease.value) else RequestKey(req.value);
      assert k in KeysOf(req, lease) && Recorded(s, k).Some?;
      assert Cancelled(k, Recorded(s, k).value.at) in s.log;
    }
    if c :| c in s.log && c.key in KeysOf(req, lease) && c.at >= s.now - MEMORY_MS {
      assert Remembered(s, c) && Recorded(s, c.key).Some?;
    }
  }

  predicate SameWait(v: Wait, w: Wait) { Keys(v) == Keys(w) && v.since == w.since }

  lemma NotifyKeepsFiled(s: State, k: Key, reason: string)
    requires Filed(s) && FiredOnce(s)
    ensures Filed(Notify(s, k, reason)) && FiredOnce(Notify(s, k, reason))
    ensures k !in Notify(s, k, reason).waiters
    ensures forall i <- s.waits :: Listening(s.waits[i]) && k in Keys(s.waits[i]) ==>
        !Listening(Notify(s, k, reason).waits[i])
    ensures Notify(s, k, reason).waits.Keys == s.waits.Keys
    ensures forall i <- s.waits :: !(Listening(s.waits[i]) && k in Keys(s.waits[i])) ==>
        Notify(s, k, reason).waits[i] == s.waits[i]
    ensures forall i <- s.waits :: SameWait(Notify(s, k, reason).waits[i], s.waits[i])
  {
  }

  lemma CancelKeyKeepsInv(s: State, k: Key, reason: string, now: int)
    requires Inv(s) && now == s.now
    ensures Inv(CancelKey(s, k, reason, now)) && CancelKey(s, k, reason, now).now == now
  {
    var mid, t := Record(s, k, reason, now), CancelKey(s, k, reason, now);
    RecordAdds(s, k, reason, now);
    NotifyKeepsFiled(mid, k, reason);
    RecordKeepsFaithful(s, mid, k, Entry(reason, now));
    SameRecords(mid, t);
    NotifiedIsUnharmed(s, t, k);
  }

  lemma RecordAdds(s: State, k: Key, reason: string, now: int)
    requires Filed(s) && FiredOnce(s)
    ensures var mid := Record(s, k, reason, now);
            && (forall j :: Recorded(mid, j) == if j == k then Some(Entry(reason, now)) else Recorded(s, j))
            && mid.waits == s.waits && mid.waiters == s.waiters && mid.now == s.now
            && mid.log == s.log + [Cancelled(k, now)] && Filed(mid) && FiredOnce(mid)
  {
  }

  lemma NotifiedIsUnharmed(s: State, t: State, k: Key)
    requires Unharmed(s) && t.waits.Keys == s.waits.Keys
    requires forall c <- t.log :: c in s.log || c.key == k
    requires forall i <- s.waits :: SameWait(t.waits[i], s.waits[i]) && (Listening(t.waits[i]) ==> Listening(s.waits[i]))
    requires forall i <- s.waits :: Listening(s.waits[i]) && k in Keys(s.waits[i]) ==> !Listening(t.waits[i])
    ensures Unharmed(t)
  {
  }

  lemma RecordKeepsFaithful(s: State, t: State, k: Key, entry: Entry)
    requires Faithful(s) && t.now == s.now == entry.at && t.log == s.log + [Cancelled(k, entry.at)]
    requires forall j :: Recorded(t, j) == if j == k then Some(entry) else Recorded(s, j)
    ensures Faithful(t)
  {
    forall c <- t.log ensures c.at <= t.now && Remembered(t, c) {
      if c in s.log {
        assert Remembered(s, c);
      }
    }
  }

  lemma SameRecords(s: State, t: State)
    requires Faithful(s) && t.requests == s.requests && t.leases == s.leases && t.log == s.log && t.now == s.now
    ensures Faithful(t)
  {
    forall c <- t.log ensures c.at <= t.now && Remembered(t, c) { assert Remembered(s, c); }
    assert forall k :: Recorded(t, k) == Recorded(s, k);
  }

  lemma BeginKeepsInv(s: State, e: Event)
    requires Inv(s) && Enabled(s, e) && e.Begin?
    ensures Inv(Apply(s, e))
  {
    PruneKeepsInv(s, e.now);
    var t := Prune(s, e.now);
    ReasonIffCancelled(t, e.req, e.lease);
    SameRecords(t, Apply(s, e));
    RegisterKeepsFiled(t, Apply(s, e), e);
  }

  lemma RegisterKeepsFiled(t: State, u: State, e: Event)
    requires e.Begin? && Inv(t) && e.id !in t.waits && t.now == e.now
    requires Reason(t, e.req, e.lease).Some? ==> u == t.(waits := t.waits[e.id := Wait(e.req, e.lease, Threw, 0, e.now)])
    requires Reason(t, e.req, e.lease).None? ==>
        u == t.(waits := t.waits[e.id := Wait(e.req, e.lease, Pending, 0, e.now)],
                waiters := Register(t.waiters, KeysOf(e.req, e.lease), e.id))
    requires Reason(t, e.req, e.lease).Some? <==>
        exists c <- t.log :: c.key in KeysOf(e.req, e.lease) && c.at >= t.now - MEMORY_MS
    ensures Filed(u) && FiredOnce(u) && Unharmed(u)
  {
    if Reason(t, e.req, e.lease).None? {
      RegisterKeepsSets(t, u, e.id, KeysOf(e.req, e.lease));
    } else {
      RefusedKeepsFiled(t, u, e.id, Wait(e.req, e.lease, Threw, 0, e.now));
    }
  }

  lemma RefusedKeepsFiled(t: State, u: State, id: WaitId, w: Wait)
    requires Filed(t) && id !in t.waits && !Listening(w) && u == t.(waits := t.waits[id := w])
    ensures Filed(u)
  {
  }

  lemma RegisterKeepsSets(t: State, u: State, id: WaitId, keys: set<Key>)
    requires Filed(t) && id !in t.waits && u.waiters == Register(t.waiters, keys, id)
    requires u.waits.Keys == t.waits.Keys + {id} && Listening(u.waits[id]) && Keys(u.waits[id]) == keys
    requires forall i <- t.waits :: u.waits[i] == t.waits[i]
    ensures Filed(u)
  {
    forall k <- u.waiters ensures u.waiters[k] != {} {
      assert k in t.waiters ==> t.waiters[k] != {};
      assert k !in t.waiters ==> id in u.waiters[k];
    }
  }

  lemma FinishKeepsInv(s: State, id: WaitId, phase: Phase)
    requires Inv(s) && id in s.waits && (phase.Returned? || phase.Threw?)
    ensures Inv(Finish(s, id, phase))
  {
    SameRecords(s, Finish(s, id, phase));
    FinishKeepsFiled(s, id, phase);
    FinishKeepsUnharmed(s, id, phase);
  }

  lemma FinishKeepsFiled(s: State, id: WaitId, phase: Phase)
    requires Filed(s) && id in s.waits && (phase.Returned? || phase.Threw?)
    ensures Filed(Finish(s, id, phase))
  {
    var t := Finish(s, id, phase);
    forall i <- t.waits, k <- Keys(t.waits[i]) | Listening(t.waits[i]) ensures k in t.waiters && i in t.waiters[k] {
      assert Listening(s.waits[i]) && k in Keys(s.waits[i]);
      assert i in s.waiters[k] - {id};
    }
  }

  lemma FinishKeepsUnharmed(s: State, id: WaitId, phase: Phase)
    requires Unharmed(s) && id in s.waits && (phase.Returned? || phase.Threw?)
    ensures Unharmed(Finish(s, id, phase))
  {
    assert forall i <- s.waits :: i != id ==> Finish(s, id, phase).waits[i] == s.waits[i];
  }

  lemma StepKeepsInv(s: State, e: Event)
    requires Inv(s) && Enabled(s, e)
    ensures Inv(Apply(s, e))
  {
    match e
    case Begin(id, req, lease, now) => BeginKeepsInv(s, e);
    case Cancel(req, lease, reason, now) =>
      PruneKeepsInv(s, now);
      var t := Prune(s, now);
      var u := t;
      if req.Some? {
        CancelKeyKeepsInv(t, RequestKey(req.value), reason, now);
        u := CancelKey(t, RequestKey(req.value), reason, now);
      }
      if lease.Some? {
        CancelKeyKeepsInv(u, LeaseKey(lease.value), reason, now);
      }
    case WorkDone(id, ok) => SameRecords(s, Apply(s, e));
    case Resume(id, now) =>
      PruneKeepsInv(s, now);
      FinishKeepsInv(Prune(s, now), id, Apply(s, e).waits[id].phase);
  }

  lemma {:induction false} RunKeepsInv(s: State, es: seq<Event>, t: State)
    requires Inv(s) && Run(s, es, t)
    ensures Inv(t)
    decreases |es|
  {
    if es != [] {
      StepKeepsInv(s, es[0]);
      RunKeepsInv(Apply(s, es[0]), es[1..], t);
    }
  }

  // ---------- main results ----------

  /** The cancellations an event names: its request's, then its lease's. */
  function Named(e: Event): seq<Cancelled> {
    if !e.Cancel? then []
    else
      (if e.req.Some? then [Cancelled(RequestKey(e.req.value), e.now)] else [])
      + (if e.lease.Some? then [Cancelled(LeaseKey(e.lease.value), e.now)] else [])
  }

  /** Every cancellation that arrived, read off the events alone. */
  function History(es: seq<Event>): seq<Cancelled> {
    if es == [] then [] else Named(es[0]) + History(es[1..])
  }

  lemma StepLogs(s: State, e: Event)
    requires Enabled(s, e)
    ensures Apply(s, e).log == s.log + Named(e)
  {
    if e.Cancel? {
      CancelLogs(s, e);
    }
  }

  lemma CancelKeyLogs(s: State, k: Key, reason: string, now: int)
    ensures CancelKey(s, k, reason, now).log == s.log + [Cancelled(k, now)]
  {
  }

  lemma CancelLogs(s: State, e: Event)
    requires Enabled(s, e) && e.Cancel?
    ensures Apply(s, e).log == s.log + Named(e)
  {
    var t := Prune(s, e.now);
    var u := t;
    if e.req.Some? {
      CancelKeyLogs(t, RequestKey(e.req.value), e.reason, e.now);
      u := CancelKey(t, RequestKey(e.req.value), e.reason, e.now);
    }
    if e.lease.Some? {
      CancelKeyLogs(u, LeaseKey(e.lease.value), e.reason, e.now);
    }
  }

  /** The log is what arrived, all of it and in order. */
  lemma {:induction false} LogIsHistory(s: State, es: seq<Event>, t: State)
    requires Run(s, es, t)
    ensures t.log == s.log + History(es)
    decreases |es|
  {
    if es != [] {
      StepLogs(s, es[0]);
      LogIsHistory(Apply(s, es[0]), es[1..], t);
    }
  }

  lemma {:induction false} HistoryAppend(a: seq<Event>, b: seq<Event>)
    ensures History(a + b) == History(a) + History(b)
  {
    if a == [] {
      assert a + b == b;
    } else {
      assert (a + b)[1..] == a[1..] + b;
      HistoryAppend(a[1..], b);
    }
  }

  /** Some cancellation under these keys arrived in the two minutes before `now`. */
  predicate Hit(es: seq<Event>, keys: set<Key>, now: int) {
    exists c <- History(es) :: c.key in keys && c.at >= now - 120000
  }

  /** No lost wake-up: a guarded wait whose work succeeded returns normally if and only if no cancellation of its
      request or lease arrived in the two minutes before it returns; otherwise it throws. */
  lemma ReturnsIffNotCancelled(es: seq<Event>, s: State, id: WaitId, now: int)
    requires Run(INITIAL, es, s) && Enabled(s, Resume(id, now))
    ensures var w, after := s.waits[id], Apply(s, Resume(id, now)).waits[id];
            && (after.phase.Returned? <==> w.phase == Settled(true) && !Hit(es, Keys(w), now))
            && (after.phase.Threw? <==> !after.phase.Returned?)
  {
    RunKeepsInv(INITIAL, es, s);
    LogIsHistory(INITIAL, es, s);
    PruneKeepsInv(s, now);
    var t := Prune(s, now);
    var w := s.waits[id];
    ReasonIffCancelled(t, w.req, w.lease);
    assert t.log == History(es) && t.now == now;
  }

  /** A wait begins if and only if no cancellation of its request or lease arrived in the last two minutes. */
  lemma BeginsIffNotCancelled(es: seq<Event>, s: State, e: Event)
    requires Run(INITIAL, es, s) && Enabled(s, e) && e.Begin?
    ensures var w := Apply(s, e).waits[e.id];
            && w.req == e.req && w.lease == e.lease && w.since == e.now
            && (w.phase.Pending? <==> !Hit(es, KeysOf(e.req, e.lease), e.now)) && (w.phase.Threw? <==> !w.phase.Pending?)
  {
    RunKeepsInv(INITIAL, es, s);
    LogIsHistory(INITIAL, es, s);
    PruneKeepsInv(s, e.now);
    ReasonIffCancelled(Prune(s, e.now), e.req, e.lease);
    assert Prune(s, e.now).log == History(es);
  }

  /** A cancellation rejects every pending wait it matches, at once; so a wait still pending has not been cancelled. */
  lemma PendingIsNotCancelled(es: seq<Event>, s: State, id: WaitId)
    requires Run(INITIAL, es, s) && id in s.waits && s.waits[id].phase.Pending?
    ensures !Hit(es, Keys(s.waits[id]), s.waits[id].since)
  {
    RunKeepsInv(INITIAL, es, s);
    LogIsHistory(INITIAL, es, s);
  }

  predicate BegunInThePast(s: State) { forall i <- s.waits :: s.waits[i].since <= s.now }

  lemma CancelKeyKeepsWaits(s: State, k: Key, reason: string, now: int)
    ensures var t := CancelKey(s, k, reason, now);
            t.waits.Keys == s.waits.Keys && t.now == s.now && s.log <= t.log
            && forall i <- s.waits :: SameWait(t.waits[i], s.waits[i])
                 && (!s.waits[i].phase.Pending? ==> t.waits[i].phase == s.waits[i].phase)
  {
  }

  /** What a step other than its own end leaves of a settled wait. */
  lemma StepKeepsWait(s: State, e: Event, id: WaitId)
    requires Enabled(s, e) && id in s.waits && (e.Resume? ==> e.id != id)
    ensures var t := Apply(s, e);
            && id in t.waits && SameWait(t.waits[id], s.waits[id]) && s.log <= t.log
            && (s.waits[id].phase.Settled? ==> t.waits[id].phase == s.waits[id].phase)
  {
    if e.Cancel? {
      CancelKeepsWaits(s, e);
    }
  }

  lemma CancelKeepsWaits(s: State, e: Event)
    requires Enabled(s, e) && e.Cancel?
    ensures var t := Apply(s, e);
            t.waits.Keys == s.waits.Keys && t.now == e.now && s.log <= t.log
            && forall i <- s.waits :: SameWait(t.waits[i], s.waits[i])
                 && (!s.waits[i].phase.Pending? ==> t.waits[i].phase == s.waits[i].phase)
  {
    var t := Prune(s, e.now);
    var u := t;
    if e.req.Some? {
      CancelKeyKeepsWaits(t, RequestKey(e.req.value), e.reason, e.now);
      u := CancelKey(t, RequestKey(e.req.value), e.reason, e.now);
    }
    if e.lease.Some? {
      CancelKeyKeepsWaits(u, LeaseKey(e.lease.value), e.reason, e.now);
    }
  }

  lemma {:induction false} RunKeepsWait(s: State, es: seq<Event>, t: State, id: WaitId)
    requires Run(s, es, t) && id in s.waits && s.waits[id].phase.Settled? && forall e <- es :: e.Resume? ==> e.id != id
    ensures id in t.waits && SameWait(t.waits[id], s.waits[id]) && t.waits[id].phase == s.waits[id].phase && s.log <= t.log
    decreases |es|
  {
    if es != [] {
      assert es[0] in es && forall e <- es[1..] :: e in es;
      StepKeepsWait(s, es[0], id);
      RunKeepsWait(Apply(s, es[0]), es[1..], t, id);
    }
  }

  lemma StepKeepsPast(s: State, e: Event)
    requires BegunInThePast(s) && Enabled(s, e)
    ensures BegunInThePast(Apply(s, e)) && s.now <= Apply(s, e).now
  {
    if e.Cancel? {
      CancelKeepsWaits(s, e);
    }
  }

  lemma {:induction false} RunKeepsPast(s: State, es: seq<Event>, t: State)
    requires BegunInThePast(s) && Run(s, es, t)
    ensures BegunInThePast(t) && s.now <= t.now
    decreases |es|
  {
    if es != [] {
      StepKeepsPast(s, es[0]);
      RunKeepsPast(Apply(s, es[0]), es[1..], t);
    }
  }

  lemma {:induction false} RunAppend(s: State, a: seq<Event>, t: State, b: seq<Event>, u: State)
    requires Run(s, a, t) && Run(t, b, u)
    ensures Run(s, a + b, u)
    decreases |a|
  {
    if a == [] {
      assert a + b == b;
    } else {
      assert (a + b)[1..] == a[1..] + b;
      RunAppend(Apply(s, a[0]), a[1..], t, b, u);
    }
  }

  lemma {:induction false} RunSplit(s: State, a: seq<Event>, b: seq<Event>, u: State) returns (t: State)
    requires Run(s, a + b, u)
    ensures Run(s, a, t) && Run(t, b, u)
    decreases |a|
  {
    if a == [] {
      assert a + b == b;
      t := s;
    } else {
      assert (a + b)[1..] == a[1..] + b && (a + b)[0] == a[0];
      t := RunSplit(Apply(s, a[0]), a[1..], b, u);
    }
  }

  lemma StepKeepsKeys(s: State, e: Event, id: WaitId)
    requires Enabled(s, e) && id in s.waits
    ensures id in Apply(s, e).waits && SameWait(Apply(s, e).waits[id], s.waits[id])
  {
    if e.Cancel? {
      CancelKeepsWaits(s, e);
    }
  }

  lemma {:induction false} RunKeepsKeys(s: State, es: seq<Event>, t: State, id: WaitId)
    requires Run(s, es, t) && id in s.waits
    ensures id in t.waits && SameWait(t.waits[id], s.waits[id])
    decreases |es|
  {
    if es != [] {
      StepKeepsKeys(s, es[0], id);
      RunKeepsKeys(Apply(s, es[0]), es[1..], t, id);
    }
  }

  lemma NamedNow(s: State, e: Event)
    requires Enabled(s, e)
    ensures s.now <= Apply(s, e).now && forall c <- Named(e) :: s.now <= c.at <= Apply(s, e).now
  {
    if e.Cancel? {
      CancelKeepsWaits(s, e);
    }
  }

  lemma {:induction false} HistoryIsTimed(s: State, es: seq<Event>, t: State)
    requires Run(s, es, t)
    ensures s.now <= t.now && forall c <- History(es) :: s.now <= c.at <= t.now
    decreases |es|
  {
    if es != [] {
      NamedNow(s, es[0]);
      HistoryIsTimed(Apply(s, es[0]), es[1..], t);
    }
  }

  /** The whole life of a wait, told in events. If its work settles while it waits, nothing had cancelled it in the two
      minutes before it began, nor since. It then returns if and only if the work succeeded and no cancellation of its
      request or lease arrived between that moment and its return, apart from any older than two minutes by then. */
  lemma ReturnsIffNeverCancelled(before: seq<Event>, begin: Event, during: seq<Event>, ok: bool, rest: seq<Event>,
                                 s: State, now: int)
    requires begin.Begin? && Run(INITIAL, before + ([begin] + (during + ([WorkDone(begin.id, ok)] + rest))), s)
    requires Enabled(s, Resume(begin.id, now)) && forall e <- rest :: e.Resume? ==> e.id != begin.id
    ensures var keys := KeysOf(begin.req, begin.lease);
      && !Hit(before, keys, begin.now)
      && (forall c <- History(during) :: c.key !in keys)
      && var phase := Apply(s, Resume(begin.id, now)).waits[begin.id].phase;
         && (phase.Returned? <==> ok && !Hit(rest, keys, now))
         && (phase.Threw? <==> !phase.Returned?)
  {
    var id, work := begin.id, [WorkDone(begin.id, ok)];
    var s0 := RunSplit(INITIAL, before, [begin] + (during + (work + rest)), s);
    assert ([begin] + (during + (work + rest)))[1..] == during + (work + rest);
    var s1 := Apply(s0, begin);
    var s2 := RunSplit(s1, during, work + rest, s);
    assert (work + rest)[1..] == rest;
    var s3 := Apply(s2, WorkDone(id, ok));
    RunKeepsKeys(s1, during, s2, id);
    RunKeepsWait(s3, rest, s, id);
    var early := before + ([begin] + during);
    RunThrough(before, s0, begin, during, s2, early);
    BeginOnRecord(before, s0, begin, during, s2, early);
    RunThrough(early, s2, WorkDone(id, ok), rest, s, early + (work + rest));
    HistoryIsTimed(s3, rest, s);
    PendingThenReturns(early, begin, ok, rest, s, now, early + (work + rest));
  }

  /** A run, one event that cancels nothing, and another run. */
  lemma RunThrough(es: seq<Event>, s: State, e: Event, rest: seq<Event>, t: State, all: seq<Event>)
    requires Run(INITIAL, es, s) && Enabled(s, e) && Run(Apply(s, e), rest, t)
    requires !e.Cancel? && all == es + ([e] + rest)
    ensures Run(INITIAL, all, t) && History(all) == History(es) + History(rest)
  {
    var tail := [e] + rest;
    OneThenRun(s, e, rest, t, tail);
    RunAppend(INITIAL, es, s, tail, t);
    HistoryAppend(es, tail);
  }

  lemma OneThenRun(s: State, e: Event, rest: seq<Event>, t: State, tail: seq<Event>)
    requires Enabled(s, e) && Run(Apply(s, e), rest, t) && !e.Cancel?
    requires |tail| == |rest| + 1 && tail[0] == e && tail[1..] == rest
    ensures Run(s, tail, t) && History(tail) == History(rest)
  {
    NothingNamed(e, History(rest));
  }

  lemma NothingNamed(e: Event, later: seq<Cancelled>)
    requires !e.Cancel?
    ensures Named(e) + later == later
  {
  }

  /** What a wait that is still pending says about the events before and since it began. */
  lemma BeginOnRecord(before: seq<Event>, s0: State, begin: Event, during: seq<Event>, s2: State, all: seq<Event>)
    requires begin.Begin? && Enabled(s0, begin) && Run(Apply(s0, begin), during, s2)
    requires begin.id in s2.waits && s2.waits[begin.id].phase.Pending?
    requires SameWait(s2.waits[begin.id], Apply(s0, begin).waits[begin.id])
    requires Run(INITIAL, all, s2) && History(all) == History(before) + History(during)
    ensures !Hit(all, KeysOf(begin.req, begin.lease), begin.now)
    ensures !Hit(before, KeysOf(begin.req, begin.lease), begin.now)
    ensures forall c <- History(during) :: c.key !in KeysOf(begin.req, begin.lease)
    ensures Keys(s2.waits[begin.id]) == KeysOf(begin.req, begin.lease) && begin.now <= s2.now
  {
    PendingIsNotCancelled(all, s2, begin.id);
    HistoryIsTimed(Apply(s0, begin), during, s2);
    BeginsNow(s0, begin);
    SplitHit(all, before, during, KeysOf(begin.req, begin.lease), begin.now);
  }

  lemma BeginsNow(s: State, e: Event)
    requires Enabled(s, e) && e.Begin?
    ensures var t := Apply(s, e);
      t.now == e.now && e.id in t.waits && t.waits[e.id].since == e.now && Keys(t.waits[e.id]) == KeysOf(e.req, e.lease)
  {
  }

  lemma SplitHit(es: seq<Event>, before: seq<Event>, during: seq<Event>, keys: set<Key>, at: int)
    requires History(es) == History(before) + History(during) && !Hit(es, keys, at)
    requires forall c <- History(during) :: c.at >= at
    ensures !Hit(before, keys, at) && forall c <- History(during) :: c.key !in keys
  {
    forall c <- History(during) ensures c.key !in keys { assert c in History(es); }
    assert forall c <- History(before) :: c in History(es);
  }

  lemma LateHit(es: seq<Event>, early: seq<Event>, rest: seq<Event>, keys: set<Key>, at: int, now: int)
    requires History(es) == History(early) + History(rest) && !Hit(early, keys, at) && at <= now
    ensures Hit(es, keys, now) <==> Hit(rest, keys, now)
  {
    assert forall c :: c in History(es) <==> c in History(early) || c in History(rest);
  }

  lemma PendingThenReturns(es: seq<Event>, begin: Event, ok: bool, rest: seq<Event>, s: State, now: int, all: seq<Event>)
    requires begin.Begin? && Run(INITIAL, all, s) && Enabled(s, Resume(begin.id, now))
    requires History(all) == History(es) + History(rest)
    requires !Hit(es, KeysOf(begin.req, begin.lease), begin.now) && begin.now <= s.now
    requires Keys(s.waits[begin.id]) == KeysOf(begin.req, begin.lease) && s.waits[begin.id].phase == Settled(ok)
    ensures var phase := Apply(s, Resume(begin.id, now)).waits[begin.id].phase;
      && (phase.Returned? <==> ok && !Hit(rest, KeysOf(begin.req, begin.lease), now))
      && (phase.Threw? <==> !phase.Returned?)
  {
    ReturnsIffNotCancelled(all, s, begin.id, now);
    LateHit(all, es, rest, KeysOf(begin.req, begin.lease), begin.now, now);
  }

  /** Each wait is fired at most once over its two keys, a finished wait is filed nowhere, and no empty set is kept. */
  lemma FiredOnceAndFiledNowhere(es: seq<Event>, s: State)
    requires Run(INITIAL, es, s)
    ensures forall i <- s.waits :: s.waits[i].fired <= 1
    ensures forall i <- s.waits, k <- s.waiters :: s.waits[i].phase.Returned? || s.waits[i].phase.Threw? ==>
        i !in s.waiters[k]
    ensures forall k <- s.waiters :: s.waiters[k] != {}
  {
    RunKeepsInv(INITIAL, es, s);
  }

  // ---------- what each step does, told in the fields before and after ----------

  /** These keys have this record; every other record is kept for two minutes. */
  ghost predicate Records(s: State, t: State, now: int, keys: set<Key>, entry: Entry) {
    && t.now == now
    && forall k :: Recorded(t, k) == if k in keys then Some(entry)
                                     else if Recorded(s, k).Some? && Recorded(s, k).value.at >= now - MEMORY_MS then Recorded(s, k)
                                     else None
  }

  /** A cancellation recorded in the last two minutes matches. */
  predicate OnRecord(s: State, keys: set<Key>, now: int) {
    exists c <- s.log :: c.key in keys && c.at >= now - MEMORY_MS
  }

  /** A matching wait is fired once, and rejected with this reason if it was pending. */
  predicate Woken(v: Wait, w: Wait, keys: set<Key>, reason: string) {
    if Listening(v) && Keys(v) * keys != {} then
      w == v.(fired := 1, phase := if v.phase.Pending? then Rejected(reason) else v.phase)
    else w == v
  }

  /** Where a wait goes when it begins, and when it resumes. */
  function FirstPhase(hit: bool): Phase { if hit then Threw else Pending }
  function LastPhase(w: Wait, hit: bool): Phase { if w.phase == Settled(true) && !hit then Returned else Threw }

  ghost predicate Does(s: State, e: Event, t: State) {
    match e
    case Begin(id, req, lease, now) =>
      && t.waits == s.waits[id := Wait(req, lease, FirstPhase(OnRecord(s, KeysOf(req, lease), now)), 0, now)]
      && Records(s, t, now, {}, Entry("", now))
    case Cancel(req, lease, reason, now) =>
      && t.waits.Keys == s.waits.Keys
      && (forall i <- s.waits :: Woken(s.waits[i], t.waits[i], KeysOf(req, lease), reason))
      && Records(s, t, now, KeysOf(req, lease), Entry(reason, now))
    case WorkDone(id, ok) => id in s.waits && t == s.(waits := s.waits[id := s.waits[id].(phase := Settled(ok))])
    case Resume(id, now) =>
      && id in s.waits
      && t.waits == s.waits[id := s.waits[id].(phase := LastPhase(s.waits[id], OnRecord(s, Keys(s.waits[id]), now)))]
      && Records(s, t, now, {}, Entry("", now))
  }

  lemma PruneRecords(s: State, now: int)
    ensures Records(s, Prune(s, now), now, {}, Entry("", now))
  {
  }

  /** One key of a cancellation. */
  lemma CancelKeyDoes(s: State, k: Key, reason: string, now: int)
    requires Inv(s) && s.now == now
    ensures var t := CancelKey(s, k, reason, now);
      && t.waits.Keys == s.waits.Keys && t.now == now
      && (forall i <- s.waits :: Woken(s.waits[i], t.waits[i], {k}, reason))
      && (forall j :: Recorded(t, j) == if j == k then Some(Entry(reason, now)) else Recorded(s, j))
  {
    var mid := Record(s, k, reason, now);
    RecordAdds(s, k, reason, now);
    forall i <- s.waits ensures Woken(s.waits[i], Notify(mid, k, reason).waits[i], {k}, reason) {
      assert Keys(s.waits[i]) * {k} != {} <==> k in Keys(s.waits[i]);
      assert k in mid.waiters && i in mid.waiters[k] <==> Listening(s.waits[i]) && k in Keys(s.waits[i]);
    }
  }

  lemma WokenTwice(v: Wait, u: Wait, w: Wait, a: set<Key>, b: set<Key>, reason: string)
    requires Woken(v, u, a, reason) && Woken(u, w, b, reason)
    ensures Woken(v, w, a + b, reason)
  {
    assert Keys(v) * (a + b) == Keys(v) * a + Keys(v) * b;
  }

  function RequestKeyOf(e: Event): Option<Key>
    requires e.Cancel?
  {
    if e.req.Some? then Some(RequestKey(e.req.value)) else None
  }

  function LeaseKeyOf(e: Event): Option<Key>
    requires e.Cancel?
  {
    if e.lease.Some? then Some(LeaseKey(e.lease.value)) else None
  }

  function AsSet(k: Option<Key>): set<Key> { if k.Some? then {k.value} else {} }

  lemma CancelIs(s: State, e: Event)
    requires Enabled(s, e) && e.Cancel?
    ensures Apply(s, e) == MaybeCancelKey(MaybeCancelKey(Prune(s, e.now), RequestKeyOf(e), e.reason, e.now),
                                          LeaseKeyOf(e), e.reason, e.now)
  {
  }

  lemma CancelDoes(s: State, e: Event)
    requires Inv(s) && Enabled(s, e) && e.Cancel?
    ensures Does(s, e, Apply(s, e))
  {
    PruneKeepsInv(s, e.now);
    PruneRecords(s, e.now);
    CancelIs(s, e);
    var t := Prune(s, e.now);
    MaybeCancelDoes(t, RequestKeyOf(e), e.reason, e.now);
    var u := MaybeCancelKey(t, RequestKeyOf(e), e.reason, e.now);
    MaybeCancelDoes(u, LeaseKeyOf(e), e.reason, e.now);
    BothKeys(s, t, u, MaybeCancelKey(u, LeaseKeyOf(e), e.reason, e.now), e, AsSet(RequestKeyOf(e)), AsSet(LeaseKeyOf(e)));
  }

  function MaybeCancelKey(s: State, k: Option<Key>, reason: string, now: int): State {
    if k.Some? then CancelKey(s, k.value, reason, now) else s
  }

  lemma MaybeCancelDoes(s: State, k: Option<Key>, reason: string, now: int)
    requires Inv(s) && s.now == now
    ensures var t, keys := MaybeCancelKey(s, k, reason, now), AsSet(k);
      && Inv(t) && t.waits.Keys == s.waits.Keys && t.now == now
      && (forall i <- s.waits :: Woken(s.waits[i], t.waits[i], keys, reason))
      && (forall j :: Recorded(t, j) == if j in keys then Some(Entry(reason, now)) else Recorded(s, j))
  {
    if k.Some? {
      CancelKeyKeepsInv(s, k.value, reason, now);
      CancelKeyDoes(s, k.value, reason, now);
    }
  }

  lemma BothKeys(s: State, t: State, u: State, v: State, e: Event, a: set<Key>, b: set<Key>)
    requires e.Cancel? && KeysOf(e.req, e.lease) == a + b
    requires t.waits == s.waits && Records(s, t, e.now, {}, Entry("", e.now))
    requires u.waits.Keys == t.waits.Keys && v.waits.Keys == u.waits.Keys && v.now == e.now
    requires forall i <- t.waits :: Woken(t.waits[i], u.waits[i], a, e.reason)
    requires forall i <- u.waits :: Woken(u.waits[i], v.waits[i], b, e.reason)
    requires forall j :: Recorded(u, j) == if j in a then Some(Entry(e.reason, e.now)) else Recorded(t, j)
    requires forall j :: Recorded(v, j) == if j in b then Some(Entry(e.reason, e.now)) else Recorded(u, j)
    ensures Does(s, e, v)
  {
    forall i <- s.waits ensures Woken(s.waits[i], v.waits[i], a + b, e.reason) {
      WokenTwice(s.waits[i], u.waits[i], v.waits[i], a, b, e.reason);
    }
  }

  lemma BeginDoes(s: State, e: Event)
    requires Inv(s) && Enabled(s, e) && e.Begin?
    ensures Does(s, e, Apply(s, e))
  {
    PruneKeepsInv(s, e.now);
    PruneRecords(s, e.now);
    ReasonIffCancelled(Prune(s, e.now), e.req, e.lease);
  }

  lemma ResumeDoes(s: State, e: Event)
    requires Inv(s) && Enabled(s, e) && e.Resume?
    ensures Does(s, e, Apply(s, e))
  {
    PruneKeepsInv(s, e.now);
    PruneRecords(s, e.now);
    ReasonIffCancelled(Prune(s, e.now), s.waits[e.id].req, s.waits[e.id].lease);
  }

  lemma StepDoes(s: State, e: Event)
    requires Inv(s) && Enabled(s, e)
    ensures Does(s, e, Apply(s, e))
  {
    match e
    case Begin(_, _, _, _) => BeginDoes(s, e);
    case Cancel(_, _, _, _) => CancelDoes(s, e);
    case WorkDone(_, _) =>
    case Resume(_, _) => ResumeDoes(s, e);
  }

  // ---------- the module state ----------

  lemma UnregisterTwice(ws: map<Key, set<WaitId>>, a: set<WaitId>, b: set<WaitId>)
    ensures Unregister(Unregister(ws, a), b) == Unregister(ws, a + b)
  {
    forall k <- ws ensures ws[k] - a - b == ws[k] - (a + b) {}
  }

  class Registry {
    var requests: map<string, Entry>
    var leases: map<string, Entry>
    var waiters: map<Key, set<WaitId>>
    var waits: map<WaitId, Wait>
    ghost var log: seq<Cancelled>
    ghost var now: int

    ghost function S(): State reads this { State(requests, leases, waiters, waits, log, now) }

    constructor ()
      ensures S() == INITIAL && Inv(S())
    {
      requests, leases, waiters, waits, log, now := map[], map[], map[], map[], [], 0;
    }

    method PruneEntries(entries: map<string, Entry>, at: int) returns (kept: map<string, Entry>)
      ensures kept == PruneMap(entries, at)
    {
      var cutoff := at - MEMORY_MS;
      kept := entries;
      var rest := entries.Keys;
      while rest != {}
        invariant rest <= entries.Keys
        invariant kept == map k | k in entries && (k in rest || entries[k].at >= cutoff) :: entries[k]
      {
        var k :| k in rest;
        rest := rest - {k};
        if entries[k].at < cutoff {
          kept := kept - {k};
        }
      }
    }

    method PruneCancelled(at: int)
      modifies this
      ensures S() == Prune(old(S()), at)
    {
      requests := PruneEntries(requests, at);
      leases := PruneEntries(leases, at);
      now := at;
    }

    /** Removes both waiters of a wait. */
    method Cleanup(id: WaitId)
      requires id in waits
      requires forall k <- waiters :: waiters[k] != {} && (id in waiters[k] ==> k in Keys(waits[id]))
      modifies this`waiters
      ensures waiters == Unregister(old(waiters), {id})
    {
      var keys := Keys(waits[id]);
      ghost var start := waiters;
      assert forall k <- waiters :: id !in waiters[k] ==> waiters[k] - {id} == waiters[k];
      while keys != {}
        invariant keys <= Keys(waits[id])
        invariant forall k :: k in waiters <==> k in start && (k in keys || start[k] - {id} != {})
        invariant forall k <- waiters :: waiters[k] == if k in keys then start[k] else start[k] - {id}
        decreases keys
      {
        var k :| k in keys;
        keys := keys - {k};
        if k in waiters {
          if waiters[k] - {id} == {} {
            waiters := waiters - {k};
          } else {
            waiters := waiters[k := waiters[k] - {id}];
          }
        }
      }
    }

    method NotifyWaiters(k: Key, reason: string)
      requires Filed(S())
      modifies this`waiters, this`waits
      ensures S() == Notify(old(S()), k, reason)
    {
      if k !in waiters {
        return;
      }
      var rest := waiters[k];
      ghost var done: set<WaitId> := {};
      ghost var start := S();
      assert forall k <- start.waiters :: start.waiters[k] - {} == start.waiters[k];
      while rest != {}
        invariant done !! rest && done + rest == start.waiters[k]
        invariant S() == start.(waiters := Unregister(start.waiters, done), waits := FireAll(start.waits, done, reason))
        decreases rest
      {
        var id :| id in rest;
        rest := rest - {id};
        Cleanup(id);
        UnregisterTwice(start.waiters, done, {id});
        waits := waits[id := Fire(waits[id], reason)];
        done := done + {id};
      }
      assert done == start.waiters[k];
      waiters := waiters - {k};
    }

    method MarkCancelled(req: Option<string>, lease: Option<string>, reason: string, at: int)
      requires Inv(S()) && at >= now
      modifies this
      ensures S() == Apply(old(S()), Cancel(req, lease, reason, at)) && Inv(S())
      ensures Does(old(S()), Cancel(req, lease, reason, at), S())
    {
      StepDoes(S(), Cancel(req, lease, reason, at));
      StepKeepsInv(S(), Cancel(req, lease, reason, at));
      PruneKeepsInv(S(), at);
      PruneCancelled(at);
      MarkRequest(req, reason, at);
      MarkLease(lease, reason, at);
    }

    method MarkRequest(req: Option<string>, reason: string, at: int)
      requires Inv(S()) && now == at
      modifies this
      ensures S() == if req.Some? then CancelKey(old(S()), RequestKey(req.value), reason, at) else old(S())
      ensures Inv(S())
    {
      if req.Some? {
        CancelKeyKeepsInv(S(), RequestKey(req.value), reason, at);
        requests := requests[req.value := Entry(reason, at)];
        log := log + [Cancelled(RequestKey(req.value), at)];
        NotifyWaiters(RequestKey(req.value), reason);
      }
    }

    method MarkLease(lease: Option<string>, reason: string, at: int)
      requires Filed(S())
      modifies this
      ensures S() == if lease.Some? then CancelKey(old(S()), LeaseKey(lease.value), reason, at) else old(S())
    {
      if lease.Some? {
        leases := leases[lease.value := Entry(reason, at)];
        log := log + [Cancelled(LeaseKey(lease.value), at)];
        NotifyWaiters(LeaseKey(lease.value), reason);
      }
    }

    method ReasonFor(req: Option<string>, lease: Option<string>, at: int) returns (reason: Option<string>)
      modifies this
      ensures S() == Prune(old(S()), at) && reason == Reason(S(), req, lease)
    {
      PruneCancelled(at);
      if lease.Some? && lease.value in leases {
        return Some(leases[lease.value].reason);
      }
      if req.Some? && req.value in requests {
        return Some(requests[req.value].reason);
      }
      return None;
    }

    /** The start of a guarded wait: the check, then the waiters. */
    method BeginWait(id: WaitId, req: Option<string>, lease: Option<string>, at: int) returns (started: bool)
      requires Inv(S()) && Enabled(S(), Begin(id, req, lease, at))
      modifies this
      ensures S() == Apply(old(S()), Begin(id, req, lease, at)) && Inv(S())
      ensures started <==> waits[id].phase.Pending?
      ensures Does(old(S()), Begin(id, req, lease, at), S())
    {
      StepDoes(S(), Begin(id, req, lease, at));
      StepKeepsInv(S(), Begin(id, req, lease, at));
      var reason := ReasonFor(req, lease, at);
      if reason.Some? {
        waits := waits[id := Wait(req, lease, Threw, 0, at)];
        return false;
      }
      waits := waits[id := Wait(req, lease, Pending, 0, at)];
      AddWaiters(id, KeysOf(req, lease));
      return true;
    }

    method AddWaiters(id: WaitId, keys: set<Key>)
      modifies this`waiters
      ensures waiters == Register(old(waiters), keys, id)
    {
      ghost var start, done: set<Key> := waiters, {};
      var rest := keys;
      assert forall k <- start :: start[k] + {} == start[k];
      while rest != {}
        invariant done + rest == keys && done !! rest
        invariant waiters == Register(start, done, id)
        decreases rest
      {
        var k :| k in rest;
        rest := rest - {k};
        done := done + {k};
        var ids := if k in waiters then waiters[k] else {};
        waiters := waiters[k := ids + {id}];
      }
      assert done == keys;
    }

    method WorkSettles(id: WaitId, ok: bool)
      requires Inv(S()) && Enabled(S(), WorkDone(id, ok))
      modifies this`waits
      ensures S() == Apply(old(S()), WorkDone(id, ok)) && Inv(S())
      ensures Does(old(S()), WorkDone(id, ok), S())
    {
      StepDoes(S(), WorkDone(id, ok));
      StepKeepsInv(S(), WorkDone(id, ok));
      waits := waits[id := waits[id].(phase := Settled(ok))];
    }

    /** The continuation after the race: the second check, and the cleanup whatever its outcome. */
    method ResumeWait(id: WaitId, at: int) returns (returned: bool)
      requires Inv(S()) && Enabled(S(), Resume(id, at))
      modifies this
      ensures S() == Apply(old(S()), Resume(id, at)) && Inv(S())
      ensures returned <==> waits[id].phase.Returned?
      ensures Does(old(S()), Resume(id, at), S())
    {
      StepDoes(S(), Resume(id, at));
      StepKeepsInv(S(), Resume(id, at));
      PruneKeepsInv(S(), at);
      var w := waits[id];
      var reason := ReasonFor(w.req, w.lease, at);
      returned := w.phase == Settled(true) && reason.None?;
      waits := waits[id := w.(phase := if returned then Returned else Threw)];
      Cleanup(id);
    }
  }
}
