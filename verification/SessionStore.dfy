/** Workflow sessions in memory, their snapshots in storage, and the chain of writes between the two. */
module SessionStore {
  import opened Common

  datatype Lifecycle = Lifecycle(frozen: bool, discarded: bool, updatedAtMs: real)

  /** What a tab event or a stored record says of a tab's lifecycle; a field that is not a boolean is absent. */
  datatype Report = Report(frozen: Option<bool>, discarded: Option<bool>)

  datatype Session = Session(tab: Option<int>, url: Option<string>, lifecycle: Option<Lifecycle>, updatedAt: Option<real>)

  datatype StoredLifecycle = StoredLifecycle(report: Report, updatedAtMs: Option<real>)
  datatype Stored = Stored(
    tab: Option<int>, url: Option<string>, lifecycle: Option<StoredLifecycle>, updatedAt: real, bootId: Option<string>)

  type Sessions = map<string, Session>
  type Snapshot = map<string, Stored>

  const NO_BINDING := Session(None, None, None, None)

  // ---------- retained tab state ----------

  function UpdateRetained(previous: Option<Lifecycle>, r: Report, now: real): Lifecycle {
    Lifecycle(
      if r.frozen.Some? then r.frozen.value else previous.Some? && previous.value.frozen,
      if r.discarded.Some? then r.discarded.value else previous.Some? && previous.value.discarded,
      now)
  }

  function Retain(reports: seq<(Report, real)>): Option<Lifecycle> {
    if reports == [] then None
    else
      var last := reports[|reports| - 1];
      Some(UpdateRetained(Retain(reports[..|reports| - 1]), last.0, last.1))
  }

  datatype Flag = Frozen | Discarded

  function Mention(r: Report, f: Flag): Option<bool> { if f.Frozen? then r.frozen else r.discarded }

  predicate Raised(l: Lifecycle, f: Flag) { if f.Frozen? then l.frozen else l.discarded }

  /** Over any run of reports, a flag is what the latest report that mentioned it said, and false before any did. */
  lemma {:induction false} RetainedIsLatestMention(reports: seq<(Report, real)>, f: Flag, k: nat)
    requires k < |reports|
    requires forall i :: k < i < |reports| ==> Mention(reports[i].0, f).None?
    requires Mention(reports[k].0, f).Some? || k == 0
    ensures Raised(Retain(reports).value, f) == (Mention(reports[k].0, f) == Some(true))
    ensures Retain(reports).value.updatedAtMs == reports[|reports| - 1].1
  {
    if k < |reports| - 1 {
      RetainedIsLatestMention(reports[..|reports| - 1], f, k);
    }
  }

  // ---------- snapshots ----------

  predicate HasUrl(url: Option<string>) { url.Some? && url.value != "" }

  predicate Bound(s: Session) { s.tab.Some? || HasUrl(s.url) }

  function EncodeLifecycle(l: Lifecycle): StoredLifecycle {
    StoredLifecycle(Report(Some(l.frozen), Some(l.discarded)), Some(l.updatedAtMs))
  }

  function Encode(s: Session, now: real): Stored {
    Stored(s.tab, s.url, if s.lifecycle.Some? then Some(EncodeLifecycle(s.lifecycle.value)) else None,
           if s.updatedAt.Some? && s.updatedAt.value != 0.0 then s.updatedAt.value else now, None)
  }

  function SnapshotOf(mem: Sessions, now: real): Snapshot {
    map sid | sid in mem && (sid == DEFAULT_SESSION || Bound(mem[sid])) :: Encode(mem[sid], now)
  }

  function WithBoot(snap: Snapshot, boot: Option<string>): Snapshot {
    if boot.None? then snap else map sid | sid in snap :: snap[sid].(bootId := boot)
  }

  // ---------- reading storage ----------

  function Restore(v: Stored, now: real): Session {
    Session(v.tab, v.url,
            if v.lifecycle.None? then None
            else
              var at := v.lifecycle.value.updatedAtMs;
              Some(UpdateRetained(None, v.lifecycle.value.report,
                                  if at.Some? && at.value != 0.0 then at.value else now)),
            Some(v.updatedAt))
  }

  /** Without a boot id nothing is known to be from an earlier boot. */
  predicate FromThisBoot(v: Stored, boot: Option<string>) { boot.None? || v.bootId == boot }

  /** The load loop over the stored entries in the order storage lists them. */
  function LoadAll(entries: seq<(string, Stored)>, boot: Option<string>, now: real): Sessions {
    if entries == [] then map[]
    else
      var before, last := LoadAll(entries[..|entries| - 1], boot, now), entries[|entries| - 1];
      if FromThisBoot(last.1, boot) then before[NormalizeSessionId(last.0) := Restore(last.1, now)] else before
  }

  predicate SomeDropped(entries: seq<(string, Stored)>, boot: Option<string>) {
    exists e <- entries :: !FromThisBoot(e.1, boot)
  }

  /** `entries` lists a stored snapshot, each key once. */
  predicate Lists(entries: seq<(string, Stored)>, snap: Snapshot) {
    && (forall e <- entries :: e.0 in snap && snap[e.0] == e.1)
    && (forall sid <- snap :: (sid, snap[sid]) in entries)
    && (forall i, j :: 0 <= i < j < |entries| ==> entries[i].0 != entries[j].0)
  }

  predicate KeysNormalized(keys: set<string>) { forall sid <- keys :: NormalizeSessionId(sid) == sid }

  /** An entry that decides what the load makes of a session. */
  ghost predicate Provides(entries: seq<(string, Stored)>, boot: Option<string>, sid: string) {
    exists e <- entries :: e.0 == sid && FromThisBoot(e.1, boot)
  }

  lemma {:induction false} LoadAllAt(entries: seq<(string, Stored)>, boot: Option<string>, now: real, sid: string)
    requires forall e <- entries :: NormalizeSessionId(e.0) == e.0
    requires forall i, j :: 0 <= i < j < |entries| ==> entries[i].0 != entries[j].0
    ensures sid in LoadAll(entries, boot, now) <==> Provides(entries, boot, sid)
    ensures forall e <- entries :: e.0 == sid && FromThisBoot(e.1, boot) ==>
        sid in LoadAll(entries, boot, now) && LoadAll(entries, boot, now)[sid] == Restore(e.1, now)
  {
    if entries != [] {
      var init, last := entries[..|entries| - 1], entries[|entries| - 1];
      assert entries == init + [last];
      assert forall e <- init :: e in entries;
      LoadAllAt(init, boot, now, sid);
      assert last in entries && NormalizeSessionId(last.0) == last.0;
      LoadOneMore(init, last, LoadAll(init, boot, now), LoadAll(entries, boot, now), boot, now, sid);
    }
  }

  lemma LoadOneMore(init: seq<(string, Stored)>, last: (string, Stored), before: Sessions, after: Sessions,
                    boot: Option<string>, now: real, sid: string)
    requires forall e <- init :: e.0 != last.0
    requires after == if FromThisBoot(last.1, boot) then before[last.0 := Restore(last.1, now)] else before
    requires sid in before <==> Provides(init, boot, sid)
    requires forall e <- init :: e.0 == sid && FromThisBoot(e.1, boot) ==> sid in before && before[sid] == Restore(e.1, now)
    ensures sid in after <==> Provides(init + [last], boot, sid)
    ensures forall e <- init + [last] :: e.0 == sid && FromThisBoot(e.1, boot) ==>
        sid in after && after[sid] == Restore(e.1, now)
  {
    assert forall e :: e in init + [last] <==> e in init || e == last;
  }

  /** A stored session comes back if and only if it is from this boot, or no boot is known. */
  ghost predicate Loaded(mem: Sessions, snap: Snapshot, boot: Option<string>, now: real) {
    && (forall sid :: sid in mem <==> sid in snap && FromThisBoot(snap[sid], boot))
    && (forall sid :: sid in mem ==> mem[sid] == Restore(snap[sid], now) && RestoredAs(snap[sid], mem[sid], now))
  }

  /** Field by field; a flag that was not stored is down, and a lifecycle without a time gets the load's. */
  predicate RestoredAs(v: Stored, s: Session, now: real) {
    && s.tab == v.tab && s.url == v.url && s.updatedAt == Some(v.updatedAt)
    && (s.lifecycle.Some? <==> v.lifecycle.Some?)
    && (s.lifecycle.Some? ==>
          && s.lifecycle.value.frozen == (v.lifecycle.value.report.frozen == Some(true))
          && s.lifecycle.value.discarded == (v.lifecycle.value.report.discarded == Some(true))
          && s.lifecycle.value.updatedAtMs == if v.lifecycle.value.updatedAtMs in {None, Some(0.0)} then now
                                              else v.lifecycle.value.updatedAtMs.value)
  }

  lemma RestoreFields(v: Stored, now: real)
    ensures RestoredAs(v, Restore(v, now), now)
  {
  }

  lemma RestoredIffFromThisBoot(entries: seq<(string, Stored)>, snap: Snapshot, boot: Option<string>, now: real)
    requires Lists(entries, snap) && KeysNormalized(snap.Keys)
    ensures Loaded(LoadAll(entries, boot, now), snap, boot, now)
    ensures SomeDropped(entries, boot) <==> exists sid <- snap :: !FromThisBoot(snap[sid], boot)
  {
    var mem := LoadAll(entries, boot, now);
    forall sid: string
      ensures sid in mem <==> sid in snap && FromThisBoot(snap[sid], boot)
      ensures sid in mem ==> mem[sid] == Restore(snap[sid], now) && RestoredAs(snap[sid], mem[sid], now)
    {
      LoadAllAt(entries, boot, now, sid);
      if sid in snap {
        assert (sid, snap[sid]) in entries;
        RestoreFields(snap[sid], now);
      }
    }
  }

  // ---------- the run of one worker ----------

  /** `behind` is set while storage is known to lag memory because a read or the latest write failed. */
  datatype State = State(boot: Option<string>, mem: Sessions, store: Snapshot, chain: seq<Snapshot>, behind: bool)

  datatype Updates = Updates(
    tab: Option<Option<int>>, url: Option<Option<string>>, lifecycle: Option<Option<Lifecycle>>)

  datatype Event =
    | Touch(sid: string)
    | UpdateMetadata(sid: string, updates: Updates, now: real)
    | TabRemoved(tab: int, order: seq<string>, now: real)   // `order`: the sessions on that tab, as the map lists them
    | TabUpdated(tab: int, report: Report, lifecycleChanged: bool, url: string, now: real)  // "" for no URL change
    | Prune(sid: string)
    | Persist(ok: bool)

  function Schedule(s: State, now: real): State { s.(chain := s.chain + [SnapshotOf(s.mem, now)]) }

  function Touched(mem: Sessions, sid: string): Sessions {
    var n := NormalizeSessionId(sid);
    if n in mem then mem else mem[n := NO_BINDING]
  }

  function ApplyUpdates(s: Session, u: Updates, now: real): Session {
    Session(if u.tab.Some? then u.tab.value else s.tab,
            if u.url.Some? then u.url.value else s.url,
            if u.lifecycle.Some? then u.lifecycle.value else s.lifecycle,
            Some(now))
  }

  function OnTab(mem: Sessions, tab: int): set<string> { set sid | sid in mem && mem[sid].tab == Some(tab) }

  /** One round of the removal loop: the session loses its tab and a snapshot is scheduled. */
  function ClearOne(s: State, sid: string, now: real): State {
    Schedule(s.(mem := s.mem[sid := NO_BINDING.(updatedAt := Some(now))]), now)
  }

  function ClearAll(s: State, sids: seq<string>, now: real): State {
    if sids == [] then s else ClearOne(ClearAll(s, sids[..|sids| - 1], now), sids[|sids| - 1], now)
  }

  function Observed(s: Session, r: Report, url: string, now: real): Session {
    s.(lifecycle := Some(UpdateRetained(s.lifecycle, r, now)),
       url := if url != "" then Some(url) else s.url,
       updatedAt := Some(now))
  }

  function ObserveAll(mem: Sessions, tab: int, r: Report, url: string, now: real): Sessions {
    map sid | sid in mem :: if mem[sid].tab == Some(tab) then Observed(mem[sid], r, url, now) else mem[sid]
  }

  ghost predicate Enabled(s: State, e: Event) {
    match e
    case UpdateMetadata(_, u, now) =>
      now > 0.0 && (u.lifecycle.Some? && u.lifecycle.value.Some? ==> u.lifecycle.value.value.updatedAtMs > 0.0)
    case TabRemoved(tab, order, now) =>
      && now > 0.0
      && (forall sid :: sid in order <==> sid in OnTab(s.mem, tab))
      && (forall i, j :: 0 <= i < j < |order| ==> order[i] != order[j])
    case TabUpdated(_, _, _, _, now) => now > 0.0
    case Prune(sid) =>
      && sid in s.mem && sid != DEFAULT_SESSION && sid != CONTROL_PLANE_SESSION
      && s.mem[sid].tab.None? && !HasUrl(s.mem[sid].url) && s.mem[sid].lifecycle.None?
    case Persist(_) => s.chain != []
    case Touch(_) => true
  }

  function Apply(s: State, e: Event): State
    requires Enabled(s, e)
  {
    match e
    case Touch(sid) => s.(mem := Touched(s.mem, sid))
    case UpdateMetadata(sid, u, now) =>
      var mem := Touched(s.mem, sid);
      var n := NormalizeSessionId(sid);
      Schedule(s.(mem := mem[n := ApplyUpdates(mem[n], u, now)]), now)
    case TabRemoved(_, order, now) => ClearAll(s, order, now)
    case TabUpdated(tab, r, lifecycleChanged, url, now) =>
      if (!lifecycleChanged && url == "") || OnTab(s.mem, tab) == {} then s
      else Schedule(s.(mem := ObserveAll(s.mem, tab, r, url, now)), now)
    case Prune(sid) => s.(mem := s.mem - {sid})
    case Persist(ok) =>
      s.(store := if ok then WithBoot(s.chain[0], s.boot) else s.store, chain := s.chain[1..], behind := !ok)
  }

  /** The load, which precedes everything else a worker does with sessions. */
  function Start(store: Snapshot, entries: seq<(string, Stored)>, boot: Option<string>, ok: bool, now: real): State {
    if !ok then State(boot, map[], store, [], true)
    else
      var s := State(boot, LoadAll(entries, boot, now), store, [], false);
      if SomeDropped(entries, boot) then Schedule(s, now) else s
  }

  ghost predicate Run(s: State, es: seq<Event>, t: State)
    decreases |es|
  {
    if es == [] then s == t else Enabled(s, es[0]) && Run(Apply(s, es[0]), es[1..], t)
  }

  // ---------- the invariant ----------

  /** Tab, URL and lifecycle agree. */
  predicate SameBinding(v: Stored, s: Session) {
    && v.tab == s.tab && v.url == s.url
    && v.lifecycle == if s.lifecycle.Some? then Some(EncodeLifecycle(s.lifecycle.value)) else None
  }

  /** A session is bound by a tab or by a URL that is not empty. */
  predicate HasBinding(s: Session) { s.tab.Some? || (s.url.Some? && |s.url.value| > 0) }

  /** A snapshot that shows memory: every bound session, nothing else but the default one, and nothing outdated. */
  predicate Mirrors(snap: Snapshot, mem: Sessions) {
    && (forall sid <- mem :: HasBinding(mem[sid]) ==> sid in snap)
    && (forall sid <- snap :: sid in mem && SameBinding(snap[sid], mem[sid]) && (sid == "default" || HasBinding(mem[sid])))
  }

  predicate Timed(mem: Sessions) {
    forall sid <- mem :: mem[sid].lifecycle.Some? ==> mem[sid].lifecycle.value.updatedAtMs != 0.0
  }

  function Latest(s: State): Snapshot { if s.chain == [] then s.store else s.chain[|s.chain| - 1] }

  predicate Settled(s: State) { s.chain == [] && !s.behind }

  predicate Inv(s: State) {
    && KeysNormalized(s.mem.Keys) && Timed(s.mem)
    && (s.chain != [] || !s.behind ==> Mirrors(Latest(s), s.mem))
    && (Settled(s) && s.boot.Some? ==> forall sid <- s.store :: s.store[sid].bootId == s.boot)
  }

  /** What this code leaves in storage. */
  predicate WellStored(snap: Snapshot) {
    forall sid <- snap ::
      && NormalizeSessionId(sid) == sid
      && (sid == DEFAULT_SESSION || snap[sid].tab.Some? || HasUrl(snap[sid].url))
      && (snap[sid].lifecycle.Some? ==> Complete(snap[sid].lifecycle.value))
  }

  predicate Complete(l: StoredLifecycle) {
    l.report.frozen.Some? && l.report.discarded.Some? && l.updatedAtMs.Some? && l.updatedAtMs.value != 0.0
  }

  lemma SnapshotMirrors(mem: Sessions, now: real)
    ensures Mirrors(SnapshotOf(mem, now), mem)
  {
  }

  lemma ScheduleKeepsInv(s: State, mem: Sessions, now: real)
    requires KeysNormalized(mem.Keys) && Timed(mem)
    ensures Inv(Schedule(s.(mem := mem), now))
  {
    SnapshotMirrors(mem, now);
  }

  lemma {:induction false} ClearAllKeepsInv(s: State, sids: seq<string>, now: real)
    requires Inv(s) && forall sid <- sids :: sid in s.mem
    ensures Inv(ClearAll(s, sids, now))
    ensures ClearAll(s, sids, now).mem.Keys == s.mem.Keys
  {
    if sids != [] {
      var init, last := sids[..|sids| - 1], sids[|sids| - 1];
      assert last in sids && forall sid <- init :: sid in sids;
      ClearAllKeepsInv(s, init, now);
      var before := ClearAll(s, init, now);
      var mem := before.mem[last := NO_BINDING.(updatedAt := Some(now))];
      assert mem.Keys == before.mem.Keys;
      ScheduleKeepsInv(before, mem, now);
    }
  }

  lemma PersistKeepsInv(s: State, ok: bool)
    requires Inv(s) && s.chain != []
    ensures Inv(Apply(s, Persist(ok)))
  {
    var t := Apply(s, Persist(ok));
    if t.chain == [] {
      assert s.chain[0] == Latest(s);
    } else {
      assert Latest(t) == Latest(s);
    }
  }

  lemma NormalizedWith(keys: set<string>, raw: string)
    requires KeysNormalized(keys)
    ensures KeysNormalized(keys + {NormalizeSessionId(raw)})
  {
    NormalizeIsIdempotent(raw);
  }

  lemma NormalizedWithout(keys: set<string>, sid: string)
    requires KeysNormalized(keys)
    ensures KeysNormalized(keys - {sid})
  {
    forall k <- keys - {sid} ensures NormalizeSessionId(k) == k { assert k in keys; }
  }

  lemma UnboundIsInvisible(snap: Snapshot, mem: Sessions, sid: string)
    requires Mirrors(snap, mem)
    ensures sid !in mem ==> Mirrors(snap, mem[sid := NO_BINDING])
    ensures sid in mem && sid != DEFAULT_SESSION && !Bound(mem[sid]) ==> Mirrors(snap, mem - {sid})
  {
  }

  lemma TouchKeepsInv(s: State, sid: string)
    requires Inv(s)
    ensures Inv(s.(mem := Touched(s.mem, sid)))
  {
    var n := NormalizeSessionId(sid);
    NormalizedWith(s.mem.Keys, sid);
    assert Touched(s.mem, sid).Keys == s.mem.Keys + {n};
    if s.chain != [] || !s.behind {
      UnboundIsInvisible(Latest(s), s.mem, n);
    }
  }

  lemma UpdateKeepsInv(s: State, sid: string, u: Updates, now: real)
    requires Inv(s) && Enabled(s, UpdateMetadata(sid, u, now))
    ensures Inv(Apply(s, UpdateMetadata(sid, u, now)))
  {
    TouchKeepsInv(s, sid);
    var mem := Touched(s.mem, sid);
    var n := NormalizeSessionId(sid);
    assert n in mem.Keys;
    assert mem[n := ApplyUpdates(mem[n], u, now)].Keys == mem.Keys;
    ScheduleKeepsInv(s, mem[n := ApplyUpdates(mem[n], u, now)], now);
  }

  lemma ObserveKeepsInv(s: State, tab: int, r: Report, url: string, now: real)
    requires Inv(s) && now > 0.0
    ensures Inv(Schedule(s.(mem := ObserveAll(s.mem, tab, r, url, now)), now))
  {
    var mem := ObserveAll(s.mem, tab, r, url, now);
    assert mem.Keys == s.mem.Keys;
    assert Timed(mem);
    ScheduleKeepsInv(s, mem, now);
  }

  lemma TimedWithout(mem: Sessions, sid: string)
    requires Timed(mem)
    ensures Timed(mem - {sid})
  {
  }

  lemma PruneKeepsInv(s: State, sid: string)
    requires Inv(s) && sid in s.mem && sid != DEFAULT_SESSION && !Bound(s.mem[sid])
    ensures Inv(s.(mem := s.mem - {sid}))
  {
    NormalizedWithout(s.mem.Keys, sid);
    var t := s.(mem := s.mem - {sid});
    assert t.mem.Keys == s.mem.Keys - {sid} && Latest(t) == Latest(s);
    TimedWithout(s.mem, sid);
    if s.chain != [] || !s.behind {
      UnboundIsInvisible(Latest(s), s.mem, sid);
    }
  }

  lemma StepKeepsInv(s: State, e: Event)
    requires Inv(s) && Enabled(s, e)
    ensures Inv(Apply(s, e))
  {
    match e
    case Touch(sid) => TouchKeepsInv(s, sid);
    case UpdateMetadata(sid, u, now) => UpdateKeepsInv(s, sid, u, now);
    case TabRemoved(tab, order, now) => ClearAllKeepsInv(s, order, now);
    case TabUpdated(tab, r, _, url, now) => ObserveKeepsInv(s, tab, r, url, now);
    case Prune(sid) => PruneKeepsInv(s, sid);
    case Persist(ok) => PersistKeepsInv(s, ok);
  }

  lemma {:induction false} RunKeepsInv(s: State, es: seq<Event>, t: State)
    requires Inv(s) && Run(s, es, t)
    ensures Inv(t) && t.boot == s.boot
    decreases |es|
  {
    if es != [] {
      StepKeepsInv(s, es[0]);
      BootStays(s, es[0]);
      RunKeepsInv(Apply(s, es[0]), es[1..], t);
    }
  }

  lemma BootStays(s: State, e: Event)
    requires Enabled(s, e)
    ensures Apply(s, e).boot == s.boot
  {
    if e.TabRemoved? {
      ClearAllBoot(s, e.order, e.now);
    }
  }

  lemma {:induction false} ClearAllBoot(s: State, sids: seq<string>, now: real)
    ensures ClearAll(s, sids, now).boot == s.boot
  {
    if sids != [] {
      ClearAllBoot(s, sids[..|sids| - 1], now);
    }
  }

  lemma LoadedIsSound(mem: Sessions, store: Snapshot, boot: Option<string>, now: real)
    requires WellStored(store) && Loaded(mem, store, boot, now) && now > 0.0
    ensures KeysNormalized(mem.Keys) && Timed(mem)
    ensures (forall sid <- store :: FromThisBoot(store[sid], boot)) ==> Mirrors(store, mem)
  {
    forall sid <- store ensures SameBinding(store[sid], Restore(store[sid], now)) {
      RestoreKeepsBinding(store[sid], now);
    }
  }

  lemma StartHasInv(store: Snapshot, entries: seq<(string, Stored)>, boot: Option<string>, ok: bool, now: real)
    requires WellStored(store) && Lists(entries, store) && now > 0.0
    ensures Inv(Start(store, entries, boot, ok, now))
  {
    if ok {
      assert KeysNormalized(store.Keys);
      RestoredIffFromThisBoot(entries, store, boot, now);
      var mem := LoadAll(entries, boot, now);
      LoadedIsSound(mem, store, boot, now);
      if SomeDropped(entries, boot) {
        ScheduleKeepsInv(State(boot, mem, store, [], false), mem, now);
      }
    }
  }

  /** Whatever happened in a worker's lifetime, a drained chain whose last write succeeded leaves storage showing
      memory exactly: tab, URL and lifecycle of every bound session. Earlier failed writes do not matter. */
  lemma DrainedStoreMirrorsMemory(store: Snapshot, entries: seq<(string, Stored)>, boot: Option<string>, ok: bool,
                                  now: real, es: seq<Event>, t: State)
    requires WellStored(store) && Lists(entries, store) && now > 0.0
    requires Run(Start(store, entries, boot, ok, now), es, t) && Settled(t)
    ensures Mirrors(t.store, t.mem) && WellStored(t.store)
  {
    StartHasInv(store, entries, boot, ok, now);
    RunKeepsInv(Start(store, entries, boot, ok, now), es, t);
  }

  // ---------- boot ids across workers ----------

  predicate Unmarked(snap: Snapshot) { forall sid <- snap :: snap[sid].bootId.None? }

  /** Snapshots wait without a boot id, and a worker that knows none never writes one. */
  ghost predicate Marks(s: State, first: Snapshot) {
    && (forall snap <- s.chain :: Unmarked(snap))
    && (s.boot.None? ==> s.store == first || Unmarked(s.store))
  }

  lemma {:induction false} ClearAllKeepsMarks(s: State, sids: seq<string>, now: real, first: Snapshot)
    requires Marks(s, first)
    ensures Marks(ClearAll(s, sids, now), first)
  {
    if sids != [] {
      ClearAllKeepsMarks(s, sids[..|sids| - 1], now, first);
    }
  }

  lemma StepKeepsMarks(s: State, e: Event, first: Snapshot)
    requires Marks(s, first) && Enabled(s, e)
    ensures Marks(Apply(s, e), first)
  {
    match e
    case TabRemoved(_, order, now) => ClearAllKeepsMarks(s, order, now, first);
    case Persist(ok) =>
      assert s.chain[0] in s.chain;
      assert forall snap <- s.chain[1..] :: snap in s.chain;
    case _ =>
  }

  lemma {:induction false} RunKeepsMarks(s: State, es: seq<Event>, t: State, first: Snapshot)
    requires Marks(s, first) && Run(s, es, t)
    ensures Marks(t, first)
    decreases |es|
  {
    if es != [] {
      StepKeepsMarks(s, es[0], first);
      RunKeepsMarks(Apply(s, es[0]), es[1..], t, first);
    }
  }

  /** What a drained worker leaves in storage: its own boot id on every entry. A worker that could not learn its boot
      id leaves either the storage it found or entries without any. */
  lemma DrainedStoreIsOfBoot(store: Snapshot, entries: seq<(string, Stored)>, boot: Option<string>, ok: bool,
                             now: real, es: seq<Event>, t: State)
    requires WellStored(store) && Lists(entries, store) && now > 0.0
    requires Run(Start(store, entries, boot, ok, now), es, t) && Settled(t)
    ensures Mirrors(t.store, t.mem) && WellStored(t.store)
    ensures boot.Some? ==> forall sid <- t.store :: t.store[sid].bootId == boot
    ensures boot.None? ==> t.store == store || Unmarked(t.store)
  {
    DrainedStoreMirrorsMemory(store, entries, boot, ok, now, es, t);
    StartHasInv(store, entries, boot, ok, now);
    RunKeepsInv(Start(store, entries, boot, ok, now), es, t);
    RunKeepsMarks(Start(store, entries, boot, ok, now), es, t, store);
  }

  /** The next worker restores every binding. */
  ghost predicate ReopensAll(next: State, mem: Sessions) {
    next.chain == [] && forall sid <- mem :: HasBinding(mem[sid]) ==> sid in next.mem
  }

  /** The next worker restores nothing, and what storage held is replaced by an empty snapshot. */
  predicate ReopensNone(next: State) { next.mem == map[] && (next.store != map[] ==> next.chain == [map[]]) }

  /** What the next worker makes of a drained worker's storage. It restores everything if it cannot learn its boot id
      or is of the same boot, and nothing if it is of another boot. Where the drained worker could not learn its own
      boot id, a next worker that can restores nothing once anything was written, and of storage that was left as
      found exactly the entries of its own boot. Whatever comes back has the bindings memory had. */
  lemma ReloadRestoresIffSameBoot(store: Snapshot, entries: seq<(string, Stored)>, boot: Option<string>, ok: bool,
                                  now: real, es: seq<Event>, t: State,
                                  again: seq<(string, Stored)>, nextBoot: Option<string>, later: real)
    requires WellStored(store) && Lists(entries, store) && now > 0.0
    requires Run(Start(store, entries, boot, ok, now), es, t) && Settled(t)
    requires Lists(again, t.store) && later > 0.0
    ensures var next := Start(t.store, again, nextBoot, true, later);
            && (forall sid <- next.mem :: sid in t.mem && SameBinding(Encode(next.mem[sid], later), t.mem[sid]))
            && (nextBoot.None? ==> ReopensAll(next, t.mem))
            && (nextBoot.Some? && boot.Some? ==>
                  if nextBoot == boot then ReopensAll(next, t.mem) else ReopensNone(next))
            && (nextBoot.Some? && boot.None? ==>
                  if t.store != store then ReopensNone(next)
                  else forall sid :: sid in next.mem <==> sid in store && store[sid].bootId == nextBoot)
  {
    DrainedStoreIsOfBoot(store, entries, boot, ok, now, es, t);
    ReloadBindings(t, again, nextBoot, later);
    if nextBoot.None? || boot == nextBoot {
      ReloadAll(t, again, nextBoot, later);
    } else if boot.Some? || t.store != store {
      ReloadNone(t, again, nextBoot, later);
    }
  }

  lemma ReloadBindings(t: State, again: seq<(string, Stored)>, nextBoot: Option<string>, later: real)
    requires Mirrors(t.store, t.mem) && WellStored(t.store) && Lists(again, t.store) && later > 0.0
    ensures var mem := Start(t.store, again, nextBoot, true, later).mem;
            && (forall sid <- mem :: sid in t.mem && SameBinding(Encode(mem[sid], later), t.mem[sid]))
            && (forall sid :: sid in mem <==> sid in t.store && FromThisBoot(t.store[sid], nextBoot))
  {
    RestoredIffFromThisBoot(again, t.store, nextBoot, later);
    var mem := LoadAll(again, nextBoot, later);
    forall sid <- mem ensures sid in t.mem && SameBinding(Encode(mem[sid], later), t.mem[sid]) {
      assert sid in t.store && SameBinding(t.store[sid], t.mem[sid]);
      RestoreKeepsBinding(t.store[sid], later);
    }
  }

  lemma RestoreKeepsBinding(v: Stored, now: real)
    requires v.lifecycle.Some? ==> Complete(v.lifecycle.value)
    ensures SameBinding(v, Restore(v, now))
  {
    if v.lifecycle.Some? {
      var report := v.lifecycle.value.report;
      assert report == Report(Some(report.frozen.value), Some(report.discarded.value));
    }
  }

  lemma ReloadAll(t: State, again: seq<(string, Stored)>, nextBoot: Option<string>, later: real)
    requires Mirrors(t.store, t.mem) && WellStored(t.store) && Lists(again, t.store)
    requires forall sid <- t.store :: FromThisBoot(t.store[sid], nextBoot)
    ensures ReopensAll(Start(t.store, again, nextBoot, true, later), t.mem)
  {
    RestoredIffFromThisBoot(again, t.store, nextBoot, later);
  }

  lemma ReloadNone(t: State, again: seq<(string, Stored)>, nextBoot: Option<string>, later: real)
    requires WellStored(t.store) && Lists(again, t.store)
    requires forall sid <- t.store :: !FromThisBoot(t.store[sid], nextBoot)
    ensures ReopensNone(Start(t.store, again, nextBoot, true, later))
  {
    RestoredIffFromThisBoot(again, t.store, nextBoot, later);
    var mem := LoadAll(again, nextBoot, later);
    assert mem == map[] && SnapshotOf(mem, later) == map[];
  }

  // ---------- what each event does, told in the fields before and after ----------

  function TabOf(mem: Sessions, sid: string): Option<int> { if sid in mem then mem[sid].tab else None }
  function UrlOf(mem: Sessions, sid: string): Option<string> { if sid in mem then mem[sid].url else None }
  function LifecycleOf(mem: Sessions, sid: string): Option<Lifecycle> { if sid in mem then mem[sid].lifecycle else None }

  /** The session is there, and every other session is as it was. */
  predicate OnlyAt(mem: Sessions, after: Sessions, sid: string) {
    after.Keys == mem.Keys + {sid} && forall x <- mem :: x != sid ==> after[x] == mem[x]
  }

  /** One field of an update: the given value, or the old one if none is given. */
  predicate TakesGiven<T(==)>(given: Option<Option<T>>, before: Option<T>, after: Option<T>) {
    (given.Some? ==> after == given.value) && (given.None? ==> after == before)
  }

  /** A snapshot shows the bound sessions and the default one, with their bindings and times and without a boot id. */
  predicate Shows(snap: Snapshot, mem: Sessions, now: real) {
    && Mirrors(snap, mem) && Unmarked(snap) && (DEFAULT_SESSION in mem ==> DEFAULT_SESSION in snap)
    && forall sid <- snap :: sid in mem
         && snap[sid].updatedAt == if mem[sid].updatedAt in {None, Some(0.0)} then now else mem[sid].updatedAt.value
  }

  /** Snapshots were chained, the last of which shows memory as it is; storage is untouched. */
  predicate Chained(s: State, t: State, count: nat, now: real) {
    && |t.chain| == |s.chain| + count && s.chain <= t.chain && (count > 0 ==> Shows(t.chain[|t.chain| - 1], t.mem, now))
    && t.store == s.store && t.boot == s.boot && t.behind == s.behind
  }

  predicate UpdatesSession(s: State, t: State, sid: string, u: Updates, now: real) {
    var n := NormalizeSessionId(sid);
    && OnlyAt(s.mem, t.mem, n)
    && TakesGiven(u.tab, TabOf(s.mem, n), t.mem[n].tab)
    && TakesGiven(u.url, UrlOf(s.mem, n), t.mem[n].url)
    && TakesGiven(u.lifecycle, LifecycleOf(s.mem, n), t.mem[n].lifecycle)
    && t.mem[n].updatedAt == Some(now)
    && Chained(s, t, 1, now)
  }

  /** The tab's sessions lose tab, URL and lifecycle; one snapshot each. */
  predicate Clears(s: State, t: State, tab: int, count: nat, now: real) {
    && t.mem.Keys == s.mem.Keys
    && (forall sid <- s.mem ::
          t.mem[sid] == if s.mem[sid].tab == Some(tab) then Session(None, None, None, Some(now)) else s.mem[sid])
    && Chained(s, t, count, now)
  }

  /** A flag takes the reported value; if none is reported it keeps the old one, and is down if there is none. */
  predicate Flagged(reported: Option<bool>, before: Option<bool>, after: bool) {
    after == if reported.Some? then reported.value else before == Some(true)
  }

  /** A session on a tab that was frozen, discarded or navigated. */
  predicate Observes(v: Session, w: Session, r: Report, url: string, now: real) {
    && w.tab == v.tab && w.updatedAt == Some(now)
    && w.url == (if url != "" then Some(url) else v.url)
    && w.lifecycle.Some? && w.lifecycle.value.updatedAtMs == now
    && Flagged(r.frozen, if v.lifecycle.Some? then Some(v.lifecycle.value.frozen) else None, w.lifecycle.value.frozen)
    && Flagged(r.discarded, if v.lifecycle.Some? then Some(v.lifecycle.value.discarded) else None, w.lifecycle.value.discarded)
  }

  predicate ObservesTab(s: State, t: State, tab: int, r: Report, url: string, now: real) {
    && t.mem.Keys == s.mem.Keys
    && (forall sid <- s.mem :: if s.mem[sid].tab == Some(tab) then Observes(s.mem[sid], t.mem[sid], r, url, now)
                               else t.mem[sid] == s.mem[sid])
    && Chained(s, t, 1, now)
  }

  /** The oldest snapshot is written under the worker's boot id, if it knows one, or lost. */
  predicate Writes(s: State, t: State, ok: bool)
    requires s.chain != []
  {
    && t.mem == s.mem && t.chain == s.chain[1..] && t.boot == s.boot && t.behind == !ok
    && if !ok then t.store == s.store
       else
         && t.store.Keys == s.chain[0].Keys
         && forall sid <- t.store ::
              t.store[sid] == s.chain[0][sid].(bootId := if s.boot.Some? then s.boot else s.chain[0][sid].bootId)
  }

  ghost predicate Does(s: State, e: Event, t: State)
    requires Enabled(s, e)
  {
    match e
    case Touch(sid) =>
      var n := NormalizeSessionId(sid);
      && OnlyAt(s.mem, t.mem, n) && t.mem[n] == (if n in s.mem then s.mem[n] else Session(None, None, None, None))
      && t == s.(mem := t.mem)
    case UpdateMetadata(sid, u, now) => UpdatesSession(s, t, sid, u, now)
    case TabRemoved(tab, order, now) => Clears(s, t, tab, |order|, now)
    case TabUpdated(tab, r, lifecycleChanged, url, now) =>
      if (lifecycleChanged || url != "") && exists sid <- s.mem :: s.mem[sid].tab == Some(tab)
      then ObservesTab(s, t, tab, r, url, now) else t == s
    case Prune(sid) => t == s.(mem := t.mem) && t.mem.Keys == s.mem.Keys - {sid} && forall x <- t.mem :: t.mem[x] == s.mem[x]
    case Persist(ok) => Writes(s, t, ok)
  }

  lemma ScheduleDoes(s: State, now: real)
    ensures Chained(s, Schedule(s, now), 1, now) && Schedule(s, now).mem == s.mem
  {
  }

  lemma TouchDoes(mem: Sessions, sid: string)
    ensures var n, after := NormalizeSessionId(sid), Touched(mem, sid);
      OnlyAt(mem, after, n) && after[n] == (if n in mem then mem[n] else Session(None, None, None, None))
  {
  }

  lemma UpdateDoes(s: State, sid: string, u: Updates, now: real)
    requires Enabled(s, UpdateMetadata(sid, u, now))
    ensures UpdatesSession(s, Apply(s, UpdateMetadata(sid, u, now)), sid, u, now)
  {
    TouchDoes(s.mem, sid);
    var mem, n := Touched(s.mem, sid), NormalizeSessionId(sid);
    var after := mem[n := ApplyUpdates(mem[n], u, now)];
    assert after.Keys == mem.Keys;
    ScheduleDoes(s.(mem := after), now);
  }

  lemma {:induction false} ClearAllDoes(s: State, sids: seq<string>, now: real)
    requires forall sid <- sids :: sid in s.mem
    ensures var t := ClearAll(s, sids, now);
      && t.mem.Keys == s.mem.Keys && Chained(s, t, |sids|, now)
      && forall sid <- s.mem :: t.mem[sid] == if sid in sids then Session(None, None, None, Some(now)) else s.mem[sid]
  {
    if sids != [] {
      var init, last := sids[..|sids| - 1], sids[|sids| - 1];
      assert sids == init + [last];
      ClearAllDoes(s, init, now);
      var u := ClearAll(s, init, now);
      ScheduleDoes(u.(mem := u.mem[last := NO_BINDING.(updatedAt := Some(now))]), now);
    }
  }

  lemma ObserveDoes(s: State, tab: int, r: Report, url: string, now: real)
    ensures ObservesTab(s, Schedule(s.(mem := ObserveAll(s.mem, tab, r, url, now)), now), tab, r, url, now)
  {
    ScheduleDoes(s.(mem := ObserveAll(s.mem, tab, r, url, now)), now);
  }

  lemma StepDoes(s: State, e: Event)
    requires Enabled(s, e)
    ensures Does(s, e, Apply(s, e))
  {
    match e
    case Touch(sid) => TouchDoes(s.mem, sid);
    case UpdateMetadata(sid, u, now) => UpdateDoes(s, sid, u, now);
    case TabRemoved(tab, order, now) => ClearAllDoes(s, order, now);
    case TabUpdated(tab, r, _, url, now) =>
      ObserveDoes(s, tab, r, url, now);
      assert OnTab(s.mem, tab) != {} <==> exists sid <- OnTab(s.mem, tab) :: sid in s.mem;
    case Prune(sid) =>
    case Persist(ok) =>
  }

  // ---------- tab and URL over runs ----------

  /** What an event says of a session's tab: None if nothing, else the tab it sets, or no tab. */
  function TabSaid(e: Event, sid: string): Option<Option<int>> {
    match e
    case UpdateMetadata(raw, u, _) => if NormalizeSessionId(raw) == sid then u.tab else None
    case TabRemoved(_, order, _) => if sid in order then Some(None) else None
    case Prune(pruned) => if pruned == sid then Some(None) else None
    case _ => None
  }

  /** What it says of the URL of a session that is on this tab. */
  function UrlSaid(e: Event, sid: string, tab: Option<int>): Option<Option<string>> {
    match e
    case UpdateMetadata(raw, u, _) => if NormalizeSessionId(raw) == sid then u.url else None
    case TabRemoved(_, order, _) => if sid in order then Some(None) else None
    case TabUpdated(on, _, _, url, _) => if url != "" && tab == Some(on) then Some(Some(url)) else None
    case Prune(pruned) => if pruned == sid then Some(None) else None
    case Touch(_) => None
    case Persist(_) => None
  }

  datatype Binding = Binding(tab: Option<int>, url: Option<string>)

  function BindingOf(mem: Sessions, sid: string): Binding { Binding(TabOf(mem, sid), UrlOf(mem, sid)) }

  function Heard(b: Binding, e: Event, sid: string): Binding {
    var tab, url := TabSaid(e, sid), UrlSaid(e, sid, b.tab);
    Binding(if tab.Some? then tab.value else b.tab, if url.Some? then url.value else b.url)
  }

  /** The binding after everything these events say of the session, in order. */
  function AfterAll(b: Binding, es: seq<Event>, sid: string): Binding
    decreases |es|
  {
    if es == [] then b else AfterAll(Heard(b, es[0], sid), es[1..], sid)
  }

  lemma StepIsHeard(s: State, e: Event, sid: string)
    requires Enabled(s, e)
    ensures BindingOf(Apply(s, e).mem, sid) == Heard(BindingOf(s.mem, sid), e, sid)
  {
    StepDoes(s, e);
    if e.TabRemoved? {
      assert sid in e.order <==> sid in OnTab(s.mem, e.tab);
    }
  }

  /** Over any run a session's tab and URL are what the events said of them, told by the events alone. */
  lemma {:induction false} BindingIsWhatWasSaid(s: State, es: seq<Event>, t: State, sid: string)
    requires Run(s, es, t)
    ensures BindingOf(t.mem, sid) == AfterAll(BindingOf(s.mem, sid), es, sid)
    decreases |es|
  {
    if es != [] {
      StepIsHeard(s, es[0], sid);
      BindingIsWhatWasSaid(Apply(s, es[0]), es[1..], t, sid);
    }
  }

  /** The tab is the one that the latest event to say anything of it said, and the one at the start if none did. */
  lemma {:induction false} TabIsLatestSaid(s: State, es: seq<Event>, t: State, sid: string, k: nat)
    requires Run(s, es, t) && k <= |es| && (k > 0 ==> TabSaid(es[k - 1], sid).Some?)
    requires forall i :: k <= i < |es| ==> TabSaid(es[i], sid).None?
    ensures TabOf(t.mem, sid) == if k == 0 then TabOf(s.mem, sid) else TabSaid(es[k - 1], sid).value
    decreases |es|
  {
    if es != [] {
      StepIsHeard(s, es[0], sid);
      TabIsLatestSaid(Apply(s, es[0]), es[1..], t, sid, if k == 0 then 0 else k - 1);
    }
  }

  // ---------- the module state ----------

  class WorkflowSessions {
    const boot: Option<string>
    var mem: Sessions
    var store: Snapshot
    var chain: seq<Snapshot>
    ghost var behind: bool

    ghost function S(): State reads this { State(boot, mem, store, chain, behind) }

    /** Loading from storage; `entries` is storage's listing of `kept`. */
    constructor (kept: Snapshot, entries: seq<(string, Stored)>, bootId: Option<string>, ok: bool, now: real)
      ensures S() == Start(kept, entries, bootId, ok, now)
      ensures WellStored(kept) && Lists(entries, kept) && now > 0.0 ==> Inv(S())
    {
      boot, mem, store, chain, behind := bootId, map[], kept, [], !ok;
      new;
      if ok {
        var droppedStale := LoadEntries(entries, now);
        if droppedStale {
          SchedulePersist(now);
        }
      }
      if WellStored(kept) && Lists(entries, kept) && now > 0.0 {
        StartHasInv(kept, entries, bootId, ok, now);
      }
    }

    method LoadEntries(entries: seq<(string, Stored)>, now: real) returns (droppedStale: bool)
      requires mem == map[]
      modifies this`mem
      ensures mem == LoadAll(entries, boot, now) && droppedStale == SomeDropped(entries, boot)
    {
      droppedStale := false;
      for i := 0 to |entries|
        invariant mem == LoadAll(entries[..i], boot, now) && droppedStale == SomeDropped(entries[..i], boot)
      {
        assert entries[..i + 1][..i] == entries[..i];
        assert entries[..i + 1] == entries[..i] + [entries[i]];
        var value := entries[i].1;
        if boot.Some? && value.bootId != boot {
          droppedStale := true;
          continue;
        }
        mem := mem[NormalizeSessionId(entries[i].0) := Restore(value, now)];
      }
      assert entries[..|entries|] == entries;
    }

    method SchedulePersist(now: real)
      modifies this`chain
      ensures S() == Schedule(old(S()), now)
    {
      var snapshot := map[];
      var rest := mem.Keys;
      while rest != {}
        invariant rest <= mem.Keys
        invariant snapshot == map sid | sid in SnapshotOf(mem, now) && sid !in rest :: SnapshotOf(mem, now)[sid]
      {
        var sid :| sid in rest;
        rest := rest - {sid};
        var state := mem[sid];
        if sid != DEFAULT_SESSION && state.tab.None? && !HasUrl(state.url) {
          continue;
        }
        snapshot := snapshot[sid := Encode(state, now)];
      }
      assert snapshot == SnapshotOf(mem, now);
      chain := chain + [snapshot];
    }

    method GetSession(sid: string) returns (session: Session)
      requires Inv(S())
      modifies this`mem
      ensures Inv(S())
      ensures S() == Apply(old(S()), Touch(sid))
      ensures NormalizeSessionId(sid) in mem && session == mem[NormalizeSessionId(sid)]
      ensures Does(old(S()), Touch(sid), S())
    {
      StepDoes(S(), Touch(sid));
      TouchKeepsInv(S(), sid);
      var normalized := NormalizeSessionId(sid);
      if normalized !in mem {
        mem := mem[normalized := NO_BINDING];
      }
      session := mem[normalized];
    }

    method Update(sid: string, updates: Updates, now: real)
      requires Inv(S()) && Enabled(S(), UpdateMetadata(sid, updates, now))
      modifies this
      ensures Inv(S())
      ensures S() == Apply(old(S()), UpdateMetadata(sid, updates, now))
      ensures Does(old(S()), UpdateMetadata(sid, updates, now), S())
    {
      StepDoes(S(), UpdateMetadata(sid, updates, now));
      UpdateKeepsInv(S(), sid, updates, now);
      WriteFields(sid, updates, now);
      SchedulePersist(now);
    }

    method WriteFields(sid: string, updates: Updates, now: real)
      requires Inv(S())
      modifies this`mem
      ensures var before, n := Touched(old(mem), sid), NormalizeSessionId(sid);
              mem == before[n := ApplyUpdates(before[n], updates, now)]
    {
      var state := GetSession(sid);
      if updates.tab.Some? {
        state := state.(tab := updates.tab.value);
      }
      if updates.url.Some? {
        state := state.(url := updates.url.value);
      }
      if updates.lifecycle.Some? {
        state := state.(lifecycle := updates.lifecycle.value);
      }
      state := state.(updatedAt := Some(now));
      mem := mem[NormalizeSessionId(sid) := state];
    }

    /** The tab was closed. */
    method OnTabRemoved(tab: int, now: real) returns (ghost order: seq<string>)
      requires Inv(S()) && now > 0.0
      modifies this
      ensures Inv(S())
      ensures old(Enabled(S(), TabRemoved(tab, order, now)))
      ensures S() == ClearAll(old(S()), order, now)
      ensures OnTab(mem, tab) == {}
      ensures Clears(old(S()), S(), tab, |order|, now)
    {
      ghost var start := S();
      order := ClearSessionsOn(tab, now);
      ClearAllKeepsInv(start, order, now);
      ClearAllDoes(start, order, now);
    }

    method ClearSessionsOn(tab: int, now: real) returns (ghost order: seq<string>)
      modifies this`mem, this`chain
      ensures forall sid :: sid in order <==> sid in OnTab(old(mem), tab)
      ensures forall i, j :: 0 <= i < j < |order| ==> order[i] != order[j]
      ensures S() == ClearAll(old(S()), order, now)
      ensures OnTab(mem, tab) == {}
    {
      order := [];
      var rest := mem.Keys;
      ghost var start := S();
      while rest != {}
        invariant rest <= mem.Keys && mem.Keys == start.mem.Keys
        invariant S() == ClearAll(start, order, now)
        invariant forall sid <- rest :: mem[sid] == start.mem[sid]
        invariant forall sid :: sid in order <==> sid in OnTab(start.mem, tab) && sid !in rest
        invariant forall i, j :: 0 <= i < j < |order| ==> order[i] != order[j]
        invariant forall sid :: sid in OnTab(mem, tab) ==> sid in rest
      {
        var sid :| sid in rest;
        rest := rest - {sid};
        if mem[sid].tab == Some(tab) {
          assert (order + [sid])[..|order|] == order;
          ClearSession(sid, now);
          order := order + [sid];
        }
      }
    }

    method ClearSession(sid: string, now: real)
      modifies this`mem, this`chain
      ensures S() == ClearOne(old(S()), sid, now)
    {
      mem := mem[sid := NO_BINDING.(updatedAt := Some(now))];
      SchedulePersist(now);
    }

    /** The tab was frozen, discarded, or navigated. */
    method OnTabUpdated(tab: int, report: Report, lifecycleChanged: bool, url: string, now: real)
      requires Inv(S()) && now > 0.0
      modifies this
      ensures Inv(S())
      ensures S() == Apply(old(S()), TabUpdated(tab, report, lifecycleChanged, url, now))
      ensures Does(old(S()), TabUpdated(tab, report, lifecycleChanged, url, now), S())
    {
      StepDoes(S(), TabUpdated(tab, report, lifecycleChanged, url, now));
      if !lifecycleChanged && url == "" {
        return;
      }
      ObserveKeepsInv(S(), tab, report, url, now);
      var updated := ObserveSessionsOn(tab, report, url, now);
      if updated {
        SchedulePersist(now);
      }
    }

    method ObserveSessionsOn(tab: int, report: Report, url: string, now: real) returns (updated: bool)
      modifies this`mem
      ensures mem == ObserveAll(old(mem), tab, report, url, now)
      ensures updated <==> OnTab(old(mem), tab) != {}
      ensures !updated ==> mem == old(mem)
    {
      updated := false;
      var rest := mem.Keys;
      ghost var start := mem;
      while rest != {}
        invariant rest <= start.Keys && mem.Keys == start.Keys
        invariant forall sid <- rest :: mem[sid] == start[sid]
        invariant forall sid <- start :: sid !in rest ==> mem[sid] == ObserveAll(start, tab, report, url, now)[sid]
        invariant updated <==> exists sid <- OnTab(start, tab) :: sid !in rest
      {
        var sid :| sid in rest;
        rest := rest - {sid};
        var state := mem[sid];
        if state.tab == Some(tab) {
          state := state.(lifecycle := Some(UpdateRetained(state.lifecycle, report, now)));
          if url != "" {
            state := state.(url := Some(url));
          }
          mem := mem[sid := state.(updatedAt := Some(now))];
          updated := true;
          assert sid in OnTab(start, tab);
        }
      }
      assert mem == ObserveAll(start, tab, report, url, now);
      if !updated {
        assert forall sid :: sid !in OnTab(start, tab);
        assert mem == start;
      }
    }

    /** One link of the persist chain; `ok` is the outcome of the write. */
    method PersistStep(ok: bool)
      requires Inv(S()) && chain != []
      modifies this
      ensures Inv(S())
      ensures S() == Apply(old(S()), Persist(ok))
      ensures Does(old(S()), Persist(ok), S())
    {
      StepDoes(S(), Persist(ok));
      PersistKeepsInv(S(), ok);
      var snapshot := chain[0];
      if boot.Some? {
        var rest := snapshot.Keys;
        while rest != {}
          invariant rest <= snapshot.Keys && snapshot.Keys == chain[0].Keys
          invariant forall sid <- snapshot :: snapshot[sid] == if sid in rest then chain[0][sid] else chain[0][sid].(bootId := boot)
        {
          var sid :| sid in rest;
          snapshot := snapshot[sid := snapshot[sid].(bootId := boot)];
          rest := rest - {sid};
        }
        assert snapshot == WithBoot(chain[0], boot);
      }
      if ok {
        store := snapshot;
      }
      behind := !ok;
      chain := chain[1..];
    }
  }
}
