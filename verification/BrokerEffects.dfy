/** What each step of the broker does, told in the fields of the state before it and after it. */
module BrokerEffects {
  import opened Common
  import opened LeaseIndex
  import opened Broker
  import opened BrokerInvariant
  import opened BrokerSafety
  import opened BrokerTheorems

  // ---------- replies ----------

  /** `t` is `s` after a reply that, if it may go out, is the post `p`: it goes out on a live port, and if posting
      fails the port is lost. A reply that may not go out, or has no port, leaves posts, port and leases alone. */
  ghost predicate Replied(s: State, t: State, mayGo: bool, postOk: bool, p: Post) {
    if !s.portLive || !mayGo then
      t.posts == s.posts && t.portLive == s.portLive && t.portEpoch == s.portEpoch && t.leases == s.leases
    else if postOk then
      t.posts == s.posts + [p] && t.portLive && t.portEpoch == s.portEpoch && t.leases == s.leases
    else
      t.posts == s.posts && PortLost(s, t)
  }

  /** The port is gone under a new epoch, every registered lease is cancelled and no other lease is touched. */
  ghost predicate PortLost(s: State, t: State) {
    && !t.portLive && t.portEpoch == s.portEpoch + 1
    && t.leases.Keys == s.leases.Keys && t.index == s.index
    && (forall x <- s.leases ::
          t.leases[x] == if x in s.index.byId then s.leases[x].(cancelled := true) else s.leases[x])
  }

  /** Some registered lease goes by the reply's correlation id. */
  ghost predicate Reused(s: State, r: Response) {
    RequestIdOf(r.ids).Some?
    && exists x <- s.index.byId :: x in s.leases && s.leases[x].requestId == RequestIdOf(r.ids).value
  }

  /** The reply names this registered lease: by its lease id, or else as the only one of its correlation id. */
  ghost predicate Names(s: State, r: Response, id: string) {
    && id in s.index.byId
    && (r.leaseId == id
        || ((r.leaseId == "" || r.leaseId !in s.index.byId) && RequestIdOf(r.ids).Some?
            && forall x <- s.index.byId :: s.index.byId[x].requestId == RequestIdOf(r.ids).value <==> x == id))
  }

  /** The lease is uncancelled, of the live port, and of its session's epoch, which is 0 if the session is gone. */
  predicate UpToDate(s: State, id: string)
    requires id in s.leases
  {
    var l := s.leases[id];
    && !l.cancelled && l.portEpoch == s.portEpoch
    && l.sessionEpoch == if l.sessionId in s.sessions then s.sessions[l.sessionId].epoch else 0
  }

  /** An ordinary reply sent under a handler's lease, or by its own ids. */
  ghost predicate OrdinaryReply(s: State, t: State, r: Response, lease: Option<string>, postOk: bool) {
    if lease.Some? then
      && lease.value in s.leases
      && Replied(s, t, && UpToDate(s, lease.value) && lease.value !in s.timedOutLeases
                       && (lease.value in s.index.byId || !Reused(s, r)),
                 postOk, Post(lease, s.portEpoch, false))
    else
      && (forall id <- s.index.byId :: Names(s, r, id) && id in s.leases ==>
            Replied(s, t, UpToDate(s, id) && id !in s.timedOutLeases, postOk, Post(Some(id), s.portEpoch, false)))
      && ((forall id <- s.index.byId :: !Names(s, r, id)) ==>
            Replied(s, t, !(RequestIdOf(r.ids).Some? && RequestIdOf(r.ids).value in s.timedOutRequests),
                    postOk, Post(None, s.portEpoch, false)))
  }

  lemma SendReplies(s: State, r: Response, lease: Option<string>, afterWatchdog: bool, postOk: bool)
    requires LeasesOk(s)
    ensures Replied(s, Send(s, r, lease, afterWatchdog, postOk), Fence(s, r, lease, afterWatchdog).Deliver?,
                    postOk, Post(ReplyLease(s, r, lease), s.portEpoch, afterWatchdog))
  {
    var u := Checked(s, r, lease, afterWatchdog);
    CheckedKeeps(s, r, lease, afterWatchdog);
    if s.portLive && Fence(s, r, lease, afterWatchdog).Deliver? && !postOk {
      CheckedIs(s, r, lease, afterWatchdog);
      DropDoes(s, u);
    }
  }

  lemma CheckedIs(s: State, r: Response, lease: Option<string>, afterWatchdog: bool)
    ensures Checked(s, r, lease, afterWatchdog).index == s.index
  {
  }

  lemma DropDoes(s: State, u: State)
    requires LeasesOk(s) && u.leases == s.leases && u.index == s.index && u.portEpoch == s.portEpoch
    ensures PortLost(s, DropPort(u)) && DropPort(u).posts == u.posts
  {
    var t := DropPort(u);
    forall x | x in s.leases
      ensures t.leases[x] == if x in s.index.byId then s.leases[x].(cancelled := true) else s.leases[x]
    {
      if x in s.index.byId {
        assert RegisteredOk(s, x);
        assert s.leases[x].cancelled || x in RegisteredOn(u, s.portEpoch);
      }
    }
  }

  /** Which lease a reply without one belongs to. */
  lemma ReplyNames(s: State, r: Response, id: string)
    requires LeasesOk(s)
    ensures ReplyLease(s, r, None) == Some(id) <==> Names(s, r, id)
    ensures ReplyLease(s, r, None).Some? ==> ReplyLease(s, r, None).value in s.index.byId
  {
    var c := RequestIdOf(r.ids);
    assert forall x <- s.index.byId :: RegisteredOk(s, x);
    if !(r.leaseId != "" && r.leaseId in s.index.byId) && c.Some? {
      ActiveIsByRequest(s.index, c.value);
      LoneMatch(s, c.value, id);
      var found := Active(s.index, c.value);
      if |found| == 1 {
        assert Only(found) in found;
      }
    }
  }

  lemma LoneMatch(s: State, c: string, id: string)
    requires LeasesOk(s)
    ensures var found := Active(s.index, c);
            (|found| == 1 && Only(found).leaseId == id) <==>
            (id in s.index.byId && forall x <- s.index.byId :: s.index.byId[x].requestId == c <==> x == id)
  {
    var found := Active(s.index, c);
    ActiveIsByRequest(s.index, c);
    if |found| == 1 && Only(found).leaseId == id {
      var l := Only(found);
      assert l in found && l in Registered(s.index) && l.requestId == c;
      forall x <- s.index.byId ensures s.index.byId[x].requestId == c <==> x == id {
        assert s.index.byId[x] in Registered(s.index);
        if s.index.byId[x].requestId == c {
          assert s.index.byId[x] in found;
        }
      }
    }
    if id in s.index.byId && forall x <- s.index.byId :: s.index.byId[x].requestId == c <==> x == id {
      assert s.index.byId[id] in Registered(s.index);
      assert found == {s.index.byId[id]};
    }
  }

  lemma ReusedIs(s: State, r: Response)
    requires LeasesOk(s) && RequestIdOf(r.ids).Some?
    ensures Reused(s, r) <==> Active(s.index, RequestIdOf(r.ids).value) != {}
  {
    var c := RequestIdOf(r.ids).value;
    var found := Active(s.index, c);
    ActiveIsByRequest(s.index, c);
    if Reused(s, r) {
      var x :| x in s.index.byId && x in s.leases && s.leases[x].requestId == c;
      assert RegisteredOk(s, x);
      assert s.index.byId[x] in Registered(s.index) && s.index.byId[x] in found;
    }
    if found != {} {
      var l :| l in found;
      assert l in Registered(s.index) && l.requestId == c;
      assert l.leaseId in s.index.byId && s.index.byId[l.leaseId] == l;
      assert RegisteredOk(s, l.leaseId);
    }
  }

  /** A reply goes out exactly if it may: under a handler's lease if that lease is current, not timed out, and still
      registered unless a newer lease goes by the reply's id; by its own ids if the lease they name is current and not
      timed out, or they name none and are not those of a request that timed out. */
  lemma ReplyDoes(s: State, r: Response, lease: Option<string>, postOk: bool)
    requires Core(s) && (lease.Some? ==> lease.value in s.leases)
    ensures Does(s, Reply(r, lease, postOk), Send(s, r, lease, false, postOk))
  {
    SendKeepsRest(s, r, lease, false, postOk);
    if lease.Some? {
      LeaseReplyDoes(s, r, lease.value, postOk);
    } else {
      BareReplyDoes(s, r, postOk);
    }
  }

  predicate SameRest(s: State, t: State) {
    SameMemory(s, t) && t.tasks == s.tasks && t.nextTask == s.nextTask && t.index == s.index && t.prunes == s.prunes
  }

  lemma SendKeepsRest(s: State, r: Response, lease: Option<string>, afterWatchdog: bool, postOk: bool)
    ensures SameRest(s, Send(s, r, lease, afterWatchdog, postOk))
  {
    var t := SendIs(s, r, lease, afterWatchdog, postOk);
    TouchedKeepsRest(s, t);
    DropKeepsRest(t);
  }

  lemma TouchedKeepsRest(s: State, t: State)
    requires t == s || exists sid :: t == Touch(s, sid)
    ensures SameRest(s, t)
  {
  }

  lemma DropKeepsRest(s: State)
    ensures SameRest(s, DropPort(s))
  {
  }

  lemma LeaseReplyDoes(s: State, r: Response, id: string, postOk: bool)
    requires LeasesOk(s) && id in s.leases
    ensures OrdinaryReply(s, Send(s, r, Some(id), false, postOk), r, Some(id), postOk)
  {
    SendReplies(s, r, Some(id), false, postOk);
    if RequestIdOf(r.ids).Some? {
      ReusedIs(s, r);
    }
  }

  lemma BareReplyDoes(s: State, r: Response, postOk: bool)
    requires LeasesOk(s)
    ensures OrdinaryReply(s, Send(s, r, None, false, postOk), r, None, postOk)
  {
    var t := Send(s, r, None, false, postOk);
    SendReplies(s, r, None, false, postOk);
    forall id <- s.index.byId | Names(s, r, id) && id in s.leases
      ensures Replied(s, t, UpToDate(s, id) && id !in s.timedOutLeases, postOk, Post(Some(id), s.portEpoch, false))
    {
      ReplyNames(s, r, id);
    }
    if forall id <- s.index.byId :: !Names(s, r, id) {
      var l := ReplyLease(s, r, None);
      ReplyNames(s, r, if l.Some? then l.value else "");
    }
  }

  // ---------- what steps leave alone ----------

  predicate SamePort(s: State, t: State) { t.portLive == s.portLive && t.portEpoch == s.portEpoch && t.posts == s.posts }

  predicate SameMemory(s: State, t: State) {
    t.timedOutLeases == s.timedOutLeases && t.timedOutRequests == s.timedOutRequests
  }

  predicate SameLeases(s: State, t: State) { forall x <- s.leases :: x in t.leases && t.leases[x] == s.leases[x] }

  /** No chain but this one is touched, and a new one belongs to a new session object. */
  predicate ChainsKept(s: State, t: State) {
    forall oid <- s.chains :: oid in t.chains && t.chains[oid] == s.chains[oid]
  }

  /** The session is there at this epoch; its object and binding stay, and if it is new its chain is empty. Every other
      session is as it was. */
  ghost predicate SessionAt(s: State, t: State, sid: string, epoch: nat) {
    && t.sessions.Keys == s.sessions.Keys + {sid}
    && t.sessions[sid].epoch == epoch
    && (if sid in s.sessions then t.sessions[sid] == s.sessions[sid].(epoch := epoch)
        else !t.sessions[sid].bound && t.sessions[sid].oid !in s.chains
             && t.sessions[sid].oid in t.chains && t.chains[t.sessions[sid].oid] == [])
    && (forall x <- s.sessions :: x != sid ==> t.sessions[x] == s.sessions[x])
    && ChainsKept(s, t)
  }

  lemma TouchDoes(s: State, sid: string)
    requires SessionsOk(s)
    ensures var t := Touch(s, sid);
            && SessionAt(s, t, sid, SessionEpoch(s, sid))
            && t == s.(sessions := t.sessions, chains := t.chains, nextSerial := t.nextSerial)
  {
    var t, oid := Touch(s, sid), ObjectId(sid, s.nextSerial);
    if sid in s.sessions {
      assert s.sessions.Keys + {sid} == s.sessions.Keys;
    } else {
      assert oid !in s.chains;
      FreshSession(s, t, sid, oid);
    }
  }

  lemma FreshSession(s: State, t: State, sid: string, oid: ObjectId)
    requires sid !in s.sessions && oid !in s.chains
    requires t.sessions == s.sessions[sid := Session(oid, 0, false)] && t.chains == s.chains[oid := []]
    ensures SessionAt(s, t, sid, 0)
  {
  }

  lemma InvalidateDoes(s: State, sid: string)
    requires SessionsOk(s)
    ensures var t := Invalidate(s, sid);
            && SessionAt(s, t, sid, SessionEpoch(s, sid) + 1)
            && t == s.(sessions := t.sessions, chains := t.chains, nextSerial := t.nextSerial)
  {
    TouchDoes(s, sid);
    RaisedAt(s, Touch(s, sid), Invalidate(s, sid), sid, SessionEpoch(s, sid));
  }

  lemma RaisedAt(s: State, u: State, t: State, sid: string, epoch: nat)
    requires SessionAt(s, u, sid, epoch) && t.chains == u.chains
    requires t.sessions == u.sessions[sid := u.sessions[sid].(epoch := epoch + 1)]
    ensures SessionAt(s, t, sid, epoch + 1)
  {
    assert t.sessions.Keys == u.sessions.Keys;
  }

  /** Only sessions and chains matter. */
  lemma SameSessionAt(s: State, t: State, u: State, v: State, sid: string, epoch: nat)
    requires SessionAt(s, t, sid, epoch)
    requires u.sessions == s.sessions && u.chains == s.chains && v.sessions == t.sessions && v.chains == t.chains
    ensures SessionAt(u, v, sid, epoch)
  {
  }

  // ---------- handlers ----------

  /** A handler for `m` starts; if the message carries an id, under a lease stamped with the live port epoch and the
      given epoch of its session. */
  ghost predicate HandlerStarts(s: State, t: State, m: Message, id: string, home: Option<Home>, epoch: nat) {
    var request := RequestIdOf(m.ids);
    var lease := if request.Some? then Some(id) else None;
    && t.tasks == s.tasks[s.nextTask := Task(m, SessionOf(m), lease, home, false)] && t.nextTask == s.nextTask + 1
    && (request.None? ==> t.leases.Keys == s.leases.Keys && t.index == s.index)
    && (request.Some? ==>
          && t.leases.Keys == s.leases.Keys + {id}
          && t.index.byId == s.index.byId[id := LeaseRef(id, request.value)]
          && t.leases[id] == Lease(request.value, s.portEpoch, SessionOf(m), epoch, t.leases[id].cancelled, false, s.nextTask))
  }

  lemma BeginDoes(s: State, m: Message, id: string, home: Option<Home>)
    requires SessionsOk(s) && s.portLive && FreshLeaseId(s, id)
    ensures
      var sid := SessionOf(m);
      var t := Begin(s, m, sid, s.portEpoch, id, home);
      && HandlerStarts(s, t, m, id, home, SessionEpoch(s, sid))
      && SamePort(s, t) && SameMemory(s, t) && SameLeases(s, t) && t.prunes == s.prunes
      && t.arrived == s.arrived && t.outcomes == s.outcomes
      && (id in t.leases ==> !t.leases[id].cancelled)
      && (if RequestIdOf(m.ids).Some? then SessionAt(s, t, sid, SessionEpoch(s, sid))
          else t.sessions == s.sessions && t.chains == s.chains)
  {
    var sid := SessionOf(m);
    var t, u := Begin(s, m, sid, s.portEpoch, id, home), Touch(s, sid);
    if RequestIdOf(m.ids).Some? {
      TouchDoes(s, sid);
      SameSessionAt(s, u, s, t, sid, SessionEpoch(s, sid));
      assert t.leases.Keys == s.leases.Keys + {id};
    }
  }

  // ---------- messages that are not queued ----------

  /** session_close: every lease registered in the session is cancelled and no other, the session's epoch goes up by
      one, and the handler starts at the new epoch. */
  ghost predicate Closes(s: State, t: State, m: Message, id: string) {
    var sid := SessionOf(m);
    && HandlerStarts(s, t, m, id, None, SessionEpoch(s, sid) + 1)
    && SessionAt(s, t, sid, SessionEpoch(s, sid) + 1)
    && SamePort(s, t) && SameMemory(s, t)
    && (id in t.leases ==> !t.leases[id].cancelled)
    && (forall x <- s.leases ::
          && x in t.leases
          && t.leases[x] == if x in s.index.byId && s.leases[x].sessionId == sid then s.leases[x].(cancelled := true)
                            else s.leases[x])
  }

  lemma CloseDoes(s: State, m: Message, id: string)
    requires Core(s) && Enabled(s, Arrive(m, id, true)) && m.command.SessionClose?
    ensures Closes(s, Begin(CloseSession(s, SessionOf(m)), m, SessionOf(m), s.portEpoch, id, None), m, id)
  {
    var sid := SessionOf(m);
    var ids := RegisteredIn(s, sid);
    var u := CancelAll(s, ids);
    CancelAllWeakens(s, ids);
    InvalidateDoes(u, sid);
    var v := CloseSession(s, sid);
    InvalidateWeakens(u, sid);
    BeginDoes(v, m, id, None);
    ClosedStarts(s, v, Begin(v, m, sid, s.portEpoch, id, None), m, id);
  }

  lemma ClosedStarts(s: State, v: State, t: State, m: Message, id: string)
    requires var sid := SessionOf(m);
      && SessionAt(s, v, sid, SessionEpoch(s, sid) + 1)
      && v == s.(leases := v.leases, sessions := v.sessions, chains := v.chains, nextSerial := v.nextSerial)
      && v.leases.Keys == s.leases.Keys
      && (forall x <- s.leases ::
            v.leases[x] == if x in s.index.byId && s.leases[x].sessionId == sid then s.leases[x].(cancelled := true)
                           else s.leases[x])
      && HandlerStarts(v, t, m, id, None, SessionEpoch(s, sid) + 1)
      && SamePort(v, t) && SameMemory(v, t) && SameLeases(v, t) && (id in t.leases ==> !t.leases[id].cancelled)
      && (if RequestIdOf(m.ids).Some? then SessionAt(v, t, sid, SessionEpoch(s, sid) + 1)
          else t.sessions == v.sessions && t.chains == v.chains)
    ensures Closes(s, t, m, id)
  {
  }

  /** The message waits at the end of its session's queue, under the port epoch it came with. */
  ghost predicate Queues(s: State, t: State, m: Message) {
    var sid := SessionOf(m);
    && t.sessions.Keys == s.sessions.Keys + {sid}
    && (forall x <- s.sessions :: t.sessions[x] == s.sessions[x])
    && SessionEpoch(t, sid) == SessionEpoch(s, sid)
    && var oid := t.sessions[sid].oid;
    && (sid !in s.sessions ==> oid !in s.chains)
    && Chain(t, oid) == Chain(s, oid) + [Slot(m, s.portEpoch, Waiting)]
    && (forall o <- s.chains :: o != oid ==> Chain(t, o) == Chain(s, o))
    && SamePort(s, t) && SameMemory(s, t) && t.leases == s.leases && t.index == s.index && t.tasks == s.tasks
  }

  lemma EnqueueDoes(s: State, m: Message)
    requires SessionsOk(s)
    ensures Queues(s, Enqueue(s, m), m)
  {
    TouchDoes(s, SessionOf(m));
  }

  /** Some lease registered before the message came goes by this id. */
  ghost predicate Taken(s: State, request: string) { exists x <- s.index.byId :: s.index.byId[x].requestId == request }

  /** The message is a cancel request for this registered lease. */
  ghost predicate Targets(s: State, m: Message, x: string)
    requires m.command.CancelRequest?
  {
    x in s.index.byId && s.index.byId[x].requestId == m.command.target
  }

  /** What the answer to a cancel request may belong to: the request's own lease, unless it has none or shares its id. */
  ghost function AnswerLease(s: State, m: Message, id: string): Option<string> {
    var request := RequestIdOf(m.ids);
    if request.Some? && !Taken(s, request.value) then Some(id) else None
  }

  /** It may not go out if the request cancels itself, or if its lease or its shared id is remembered as timed out. */
  ghost predicate AnswerMayGo(s: State, m: Message, id: string)
    requires m.command.CancelRequest?
  {
    var request := RequestIdOf(m.ids);
    if request.None? then true
    else if Taken(s, request.value) then request.value !in s.timedOutRequests
    else request.value != m.command.target && id !in s.timedOutLeases
  }

  /** A cancel request: its handler starts; every lease registered for the target, its own included, is cancelled; no
      other lease is touched, unless the answer cannot be posted and the port is lost with all its leases. */
  ghost predicate Cancels(s: State, t: State, m: Message, id: string, postOk: bool)
    requires m.command.CancelRequest?
  {
    && HandlerStarts(s, t, m, id, None, SessionEpoch(s, SessionOf(m)))
    && TargetsCancelled(t, m)
    && (if AnswerMayGo(s, m, id) && !postOk then
          t.posts == s.posts && !t.portLive && t.portEpoch == s.portEpoch + 1
        else
          && t.posts == (if AnswerMayGo(s, m, id) then s.posts + [Post(AnswerLease(s, m, id), s.portEpoch, false)] else s.posts)
          && t.portLive && t.portEpoch == s.portEpoch
          && OnlyTargetsCancelled(s, t, m, id))
  }

  ghost predicate TargetsCancelled(t: State, m: Message)
    requires m.command.CancelRequest?
  {
    forall x <- t.index.byId :: Targets(t, m, x) ==> x in t.leases && t.leases[x].cancelled
  }

  ghost predicate OnlyTargetsCancelled(s: State, t: State, m: Message, id: string)
    requires m.command.CancelRequest?
  {
    && (forall x <- s.leases :: x in t.leases && (!Targets(s, m, x) ==> t.leases[x] == s.leases[x]))
    && (id in t.leases ==> t.leases[id].cancelled == (RequestIdOf(m.ids) == Some(m.command.target)))
  }

  lemma CancelAllDoes(s: State, target: string)
    requires LeasesOk(s)
    ensures var u := CancelAll(s, RegisteredFor(s, target));
            && u == s.(leases := u.leases) && u.leases.Keys == s.leases.Keys
            && forall x <- s.leases ::
                 u.leases[x] == if x in s.index.byId && s.index.byId[x].requestId == target
                                then s.leases[x].(cancelled := true) else s.leases[x]
  {
    ActiveIsByRequest(s.index, target);
    var ids := RegisteredFor(s, target);
    forall x <- s.leases ensures x in ids <==> x in s.index.byId && s.index.byId[x].requestId == target {
      if x in ids {
        var l :| l in Active(s.index, target) && l.leaseId == x;
        assert l in Registered(s.index) && s.index.byId[x] == l;
      }
      if x in s.index.byId && s.index.byId[x].requestId == target {
        assert s.index.byId[x] in Registered(s.index);
        assert s.index.byId[x] in Active(s.index, target) && s.index.byId[x].leaseId == x;
      }
    }
  }

  /** Which lease the answer names, once the request's handler has started. */
  lemma AnswerNames(s: State, u: State, m: Message, id: string)
    requires id !in s.index.byId && id != "" && "" !in s.index.byId
    requires var request := RequestIdOf(m.ids);
      u.index.byId == if request.Some? then s.index.byId[id := LeaseRef(id, request.value)] else s.index.byId
    ensures RequestIdOf(CancelReply(m).ids) == RequestIdOf(m.ids)
    ensures forall x <- u.index.byId :: Names(u, CancelReply(m), x) <==> AnswerLease(s, m, id) == Some(x)
  {
    var request := RequestIdOf(m.ids);
    ReplyIds(m);
    if request.Some? {
      assert u.index.byId[id].requestId == request.value;
      if Taken(s, request.value) {
        var y :| y in s.index.byId && s.index.byId[y].requestId == request.value;
        assert u.index.byId[y].requestId == request.value;
      }
    }
  }

  lemma ReplyIds(m: Message)
    ensures RequestIdOf(CancelReply(m).ids) == RequestIdOf(m.ids) && CancelReply(m).leaseId == ""
  {
    assert IsBlank("");
  }

  lemma CancelDoes(s: State, m: Message, id: string, postOk: bool)
    requires Core(s) && Enabled(s, Arrive(m, id, postOk)) && m.command.CancelRequest?
    ensures Cancels(s, Receive(s, m, id, postOk), m, id, postOk)
  {
    var b := Begin(s, m, SessionOf(m), s.portEpoch, id, None);
    BeginDoes(s, m, id, None);
    BeginKeepsCore(s, m, SessionOf(m), id);
    assert forall x <- s.index.byId :: RegisteredOk(s, x);
    assert forall x <- b.index.byId :: RegisteredOk(b, x);
    StartedCancels(s, b, m, id, postOk);
  }

  lemma StartedCancels(s: State, b: State, m: Message, id: string, postOk: bool)
    requires Core(s) && Core(b) && FreshLeaseId(s, id) && s.portLive && m.command.CancelRequest?
    requires HandlerStarts(s, b, m, id, None, SessionEpoch(s, SessionOf(m)))
    requires SamePort(s, b) && SameMemory(s, b) && SameLeases(s, b) && (id in b.leases ==> !b.leases[id].cancelled)
    requires RequestIdOf(m.ids).Some? ==> SessionAt(s, b, SessionOf(m), SessionEpoch(s, SessionOf(m)))
    requires id !in s.index.byId && "" !in s.index.byId && forall x <- b.index.byId :: x in b.leases
    ensures Cancels(s, CancelThenReply(b, m, postOk), m, id, postOk)
  {
    var target := m.command.target;
    var u := CancelAll(b, RegisteredFor(b, target));
    CancelAllDoes(b, target);
    CancelAllWeakens(b, RegisteredFor(b, target));
    WeakensKeepsCore(b, u);
    AnswerNames(s, u, m, id);
    AnswerReplied(s, u, m, id, postOk);
    SendKeepsRest(u, CancelReply(m), None, false, postOk);
    AnsweredCancels(s, b, u, Send(u, CancelReply(m), None, false, postOk), m, id, postOk);
  }

  /** After the cancellations, the answer goes out exactly if it may. */
  lemma AnswerReplied(s: State, u: State, m: Message, id: string, postOk: bool)
    requires Core(u) && m.command.CancelRequest? && u.portEpoch == s.portEpoch && SameMemory(s, u)
    requires RequestIdOf(CancelReply(m).ids) == RequestIdOf(m.ids)
    requires forall x <- u.index.byId :: Names(u, CancelReply(m), x) <==> AnswerLease(s, m, id) == Some(x)
    requires RequestIdOf(m.ids).Some? ==>
      id in u.index.byId && id in u.leases
      && (Current(u, id) <==> RequestIdOf(m.ids).value != m.command.target)
    ensures Replied(u, Send(u, CancelReply(m), None, false, postOk), AnswerMayGo(s, m, id), postOk,
                    Post(AnswerLease(s, m, id), s.portEpoch, false))
  {
    BareReplyDoes(u, CancelReply(m), postOk);
    if AnswerLease(s, m, id).Some? {
      assert Names(u, CancelReply(m), id);
    } else {
      assert forall x <- u.index.byId :: !Names(u, CancelReply(m), x);
    }
  }

  lemma AnsweredCancels(s: State, b: State, u: State, t: State, m: Message, id: string, postOk: bool)
    requires Core(s) && m.command.CancelRequest? && FreshLeaseId(s, id) && s.portLive
    requires HandlerStarts(s, b, m, id, None, SessionEpoch(s, SessionOf(m)))
    requires SamePort(s, b) && SameLeases(s, b) && (id in b.leases ==> !b.leases[id].cancelled)
    requires u == b.(leases := u.leases) && u.leases.Keys == b.leases.Keys && CutTargets(b, u, m)
    requires t.tasks == u.tasks && t.nextTask == u.nextTask && t.index == u.index
    requires Replied(u, t, AnswerMayGo(s, m, id), postOk, Post(AnswerLease(s, m, id), s.portEpoch, false))
    requires forall x <- b.index.byId :: x in b.leases
    ensures Cancels(s, t, m, id, postOk)
  {
    KeepsStart(s, b, u, t, m, id);
    if t.leases == u.leases {
      OthersUncut(s, b, u, m, id);
    }
  }

  ghost predicate CutTargets(b: State, u: State, m: Message)
    requires m.command.CancelRequest?
  {
    forall x <- b.leases :: x in u.leases
      && u.leases[x] == if Targets(b, m, x) then b.leases[x].(cancelled := true) else b.leases[x]
  }

  lemma KeepsStart(s: State, b: State, u: State, t: State, m: Message, id: string)
    requires m.command.CancelRequest? && HandlerStarts(s, b, m, id, None, SessionEpoch(s, SessionOf(m)))
    requires u == b.(leases := u.leases) && u.leases.Keys == b.leases.Keys && CutTargets(b, u, m)
    requires t.tasks == u.tasks && t.nextTask == u.nextTask && t.index == u.index
    requires t.leases == u.leases || PortLost(u, t)
    requires forall x <- b.index.byId :: x in b.leases
    ensures HandlerStarts(s, t, m, id, None, SessionEpoch(s, SessionOf(m))) && TargetsCancelled(t, m)
  {
    assert t.leases.Keys == b.leases.Keys;
    forall x <- t.index.byId | Targets(t, m, x) ensures x in t.leases && t.leases[x].cancelled {
      assert Targets(b, m, x) && u.leases[x].cancelled;
    }
  }

  lemma OthersUncut(s: State, b: State, u: State, m: Message, id: string)
    requires m.command.CancelRequest? && id !in s.leases && SameLeases(s, b) && CutTargets(b, u, m)
    requires HandlerStarts(s, b, m, id, None, SessionEpoch(s, SessionOf(m)))
    requires id in b.leases ==> !b.leases[id].cancelled
    requires u.leases.Keys == b.leases.Keys
    ensures OnlyTargetsCancelled(s, u, m, id)
  {
    forall x <- s.leases ensures x in u.leases && (!Targets(s, m, x) ==> u.leases[x] == s.leases[x]) {
      assert x != id && x in b.leases && (Targets(b, m, x) ==> Targets(s, m, x));
    }
  }

  // ---------- the watchdog ----------

  /** The watchdog may reply for a request that carries an id, if the lease is for the live port. */
  predicate TimeoutMayGo(s: State, k: Task) {
    RawIdOf(k.message.ids) != ""
    && (k.lease.Some? ==> k.lease.value in s.leases && s.leases[k.lease.value].portEpoch == s.portEpoch)
  }

  /** The timeout is remembered by lease, or by request id if there is no lease. */
  predicate RemembersTimeout(s: State, t: State, k: Task) {
    var raw := RawIdOf(k.message.ids);
    && t.timedOutLeases == s.timedOutLeases + (if raw != "" && k.lease.Some? then {k.lease.value} else {})
    && t.timedOutRequests == s.timedOutRequests + (if raw != "" && k.lease.None? then {raw} else {})
  }

  /** A handler is cut off: its lease alone is cancelled and marked, its session's epoch goes up by one, the timeout is
      remembered, and one watchdog reply goes out for the lease if it may; if posting it fails the port is lost. */
  ghost predicate CutsOff(s: State, t: State, task: nat, postOk: bool)
    requires task in s.tasks
  {
    var k := s.tasks[task];
    && t.tasks == s.tasks[task := k.(cut := true)] && t.index == s.index && RemembersTimeout(s, t, k)
    && (k.lease.Some? ==> k.lease.value in t.leases && t.leases[k.lease.value].cancelled)
    && (if s.portLive && TimeoutMayGo(s, k) && !postOk then
          t.posts == s.posts && !t.portLive && t.portEpoch == s.portEpoch + 1
        else
          && t.posts == (if s.portLive && TimeoutMayGo(s, k) then s.posts + [Post(k.lease, s.portEpoch, true)] else s.posts)
          && t.portLive == s.portLive && t.portEpoch == s.portEpoch
          && SessionAt(s, t, k.sessionId, SessionEpoch(s, k.sessionId) + 1)
          && CutsLease(s, t, k.lease))
  }

  ghost predicate CutsLease(s: State, t: State, lease: Option<string>) {
    && t.leases.Keys == s.leases.Keys
    && forall x <- s.leases ::
         t.leases[x] == if lease == Some(x) then s.leases[x].(cancelled := true, watchdogTimedOut := true) else s.leases[x]
  }

  lemma CancelTimedOutDoes(s: State, lease: Option<string>)
    requires lease.Some? ==> lease.value in s.leases && s.leases[lease.value].sessionId in s.sessions
    ensures CancelTimedOut(s, lease) == s.(leases := CancelTimedOut(s, lease).leases)
    ensures CutsLease(s, CancelTimedOut(s, lease), lease)
  {
    if lease.Some? {
      var id := lease.value;
      var marked := s.leases[id].(watchdogTimedOut := true, cancelled := true);
      assert CancelTimedOut(s, lease).leases == s.leases[id := marked];
    }
  }

  lemma TimedOutDoes(s: State, task: nat)
    requires SessionsOk(s) && task in s.tasks
    requires var lease := s.tasks[task].lease;
      lease.Some? ==> lease.value in s.leases && s.leases[lease.value].sessionId in s.sessions
    ensures var k, u := s.tasks[task], TimedOut(s, task);
      && CutsLease(s, u, k.lease) && RemembersTimeout(s, u, k) && SamePort(s, u)
      && SessionAt(s, u, k.sessionId, SessionEpoch(s, k.sessionId) + 1)
      && u.tasks == s.tasks && u.index == s.index
  {
    var k := s.tasks[task];
    CancelTimedOutDoes(s, k.lease);
    var c := CancelTimedOut(s, k.lease);
    InvalidateDoes(c, k.sessionId);
    TimeoutRemembered(s, c, Invalidate(c, k.sessionId), k);
  }

  lemma TimeoutRemembered(s: State, c: State, i: State, k: Task)
    requires c == s.(leases := c.leases) && CutsLease(s, c, k.lease)
    requires SessionAt(c, i, k.sessionId, SessionEpoch(s, k.sessionId) + 1)
    requires i == c.(sessions := i.sessions, chains := i.chains, nextSerial := i.nextSerial)
    ensures var u := Remember(i, k);
      && CutsLease(s, u, k.lease) && RemembersTimeout(s, u, k) && SamePort(s, u)
      && SessionAt(s, u, k.sessionId, SessionEpoch(s, k.sessionId) + 1)
      && u.tasks == s.tasks && u.index == s.index
  {
    SameSessionAt(c, i, s, Remember(i, k), k.sessionId, SessionEpoch(s, k.sessionId) + 1);
  }

  /** A reply whose lease's session exists changes no session, unless it costs the port. */
  lemma SendKeepsSessions(u: State, r: Response, afterWatchdog: bool, postOk: bool)
    requires var l := ReplyLease(u, r, None); l.Some? && l.value in u.leases ==> u.leases[l.value].sessionId in u.sessions
    ensures var t := Send(u, r, None, afterWatchdog, postOk);
      && SameMemory(u, t) && t.tasks == u.tasks && t.index == u.index
      && (t.portLive == u.portLive && t.portEpoch == u.portEpoch ==> t.sessions == u.sessions && t.chains == u.chains)
  {
  }

  lemma TimeoutFence(s: State, u: State, k: Task)
    requires ReplyLease(u, TimeoutReply(k), None) == k.lease && CutsLease(s, u, k.lease) && SamePort(s, u)
    requires k.lease.Some? ==> k.lease.value in s.leases
    requires RawIdOf(k.message.ids) != ""
    ensures Fence(u, TimeoutReply(k), None, true).Deliver? <==> TimeoutMayGo(s, k)
  {
  }

  lemma TimeoutReplied(s: State, u: State, k: Task, postOk: bool)
    requires ReplyLease(u, TimeoutReply(k), None) == k.lease && CutsLease(s, u, k.lease) && SamePort(s, u)
    requires k.lease.Some? ==> k.lease.value in s.leases && k.lease.value in u.leases && u.leases[k.lease.value].sessionId in u.sessions
    requires RawIdOf(k.message.ids) != "" && LeasesOk(u)
    ensures var v := Send(u, TimeoutReply(k), None, true, postOk);
      && Replied(u, v, TimeoutMayGo(s, k), postOk, Post(k.lease, s.portEpoch, true))
      && SameMemory(u, v) && v.tasks == u.tasks && v.index == u.index
      && (v.portLive == u.portLive && v.portEpoch == u.portEpoch ==> v.sessions == u.sessions && v.chains == u.chains)
  {
    TimeoutFence(s, u, k);
    SendReplies(u, TimeoutReply(k), None, true, postOk);
    SendKeepsSessions(u, TimeoutReply(k), true, postOk);
  }

  lemma WatchdogDoes(s: State, task: nat, postOk: bool)
    requires Core(s) && Enabled(s, FireWatchdog(task, postOk))
    ensures CutsOff(s, Watchdog(s, task, postOk), task, postOk)
  {
    var k := s.tasks[task];
    WatchdogReady(s, task);
    var u := TimedOut(s, task);
    if RawIdOf(k.message.ids) != "" {
      TimeoutReplied(s, u, k, postOk);
      TimeoutSent(s, u, Send(u, TimeoutReply(k), None, true, postOk), task, postOk);
    } else {
      Unsent(s, u, task, postOk);
    }
  }

  lemma WatchdogReady(s: State, task: nat)
    requires Core(s) && task in s.tasks && (s.tasks[task].lease.Some? ==> s.tasks[task].lease.value in s.leases)
    ensures var k, u := s.tasks[task], TimedOut(s, task);
      && CutsLease(s, u, k.lease) && RemembersTimeout(s, u, k) && SamePort(s, u)
      && SessionAt(s, u, k.sessionId, SessionEpoch(s, k.sessionId) + 1)
      && u.tasks == s.tasks && u.index == s.index && LeasesOk(u)
      && ReplyLease(u, TimeoutReply(k), None) == k.lease
      && (k.lease.Some? ==> k.lease.value in u.leases && u.leases[k.lease.value].sessionId in u.sessions)
  {
    var k := s.tasks[task];
    assert TaskOk(s, task);
    assert k.lease.Some? ==> RegisteredOk(s, k.lease.value);
    TimedOutDoes(s, task);
    var u := TimedOut(s, task);
    TimedOutWeakens(s, task);
    WeakensKeepsTasks(s, u);
    TimeoutReplyLease(s, u, task);
  }

  lemma Unsent(s: State, u: State, task: nat, postOk: bool)
    requires task in s.tasks && RawIdOf(s.tasks[task].message.ids) == ""
    requires var k := s.tasks[task];
      && CutsLease(s, u, k.lease) && RemembersTimeout(s, u, k) && SamePort(s, u)
      && SessionAt(s, u, k.sessionId, SessionEpoch(s, k.sessionId) + 1)
      && u.tasks == s.tasks && u.index == s.index
    requires s.tasks[task].lease.Some? ==> s.tasks[task].lease.value in s.leases
    ensures CutsOff(s, u.(tasks := u.tasks[task := s.tasks[task].(cut := true)]), task, postOk)
  {
  }

  lemma TimeoutSent(s: State, u: State, v: State, task: nat, postOk: bool)
    requires task in s.tasks && RawIdOf(s.tasks[task].message.ids) != ""
    requires var lease := s.tasks[task].lease; lease.Some? ==> lease.value in s.leases
    requires var k := s.tasks[task];
      && CutsLease(s, u, k.lease) && RemembersTimeout(s, u, k) && SamePort(s, u)
      && SessionAt(s, u, k.sessionId, SessionEpoch(s, k.sessionId) + 1)
      && u.tasks == s.tasks && u.index == s.index
      && Replied(u, v, TimeoutMayGo(s, k), postOk, Post(k.lease, s.portEpoch, true))
    requires SameMemory(u, v) && v.tasks == u.tasks && v.index == u.index
    requires v.portLive == u.portLive && v.portEpoch == u.portEpoch ==> v.sessions == u.sessions && v.chains == u.chains
    ensures CutsOff(s, v.(tasks := v.tasks[task := s.tasks[task].(cut := true)]), task, postOk)
  {
  }

  // ---------- turns ----------

  /** The link and no other gets this status. */
  predicate LinkBecomes(s: State, t: State, h: Home, status: Status) {
    && h.slot < |Chain(s, h.oid)| && t.chains.Keys == s.chains.Keys
    && Chain(t, h.oid) == Chain(s, h.oid)[h.slot := Chain(s, h.oid)[h.slot].(status := status)]
    && (forall oid <- s.chains :: oid != h.oid ==> t.chains[oid] == s.chains[oid])
  }

  /** A message whose turn has come starts its handler on the port it came from; on any other it leaves nothing behind
      but a resolved link and, if it carries an id, a cancelled lease that is not registered. */
  ghost predicate TakesTurn(s: State, t: State, h: Home, id: string)
    requires h.slot < |Chain(s, h.oid)|
  {
    var slot := Chain(s, h.oid)[h.slot];
    && SamePort(s, t) && SameMemory(s, t) && SameLeases(s, t) && t.sessions == s.sessions
    && if slot.portEpoch == s.portEpoch then
         && HandlerStarts(s, t, slot.message, id, Some(h), SessionEpoch(s, h.oid.sessionId))
         && (id in t.leases ==> !t.leases[id].cancelled)
         && LinkBecomes(s, t, h, Running(s.nextTask))
       else
         && t.tasks == s.tasks && t.index == s.index
         && t.leases.Keys <= s.leases.Keys + {id} && (id in t.leases ==> t.leases[id].cancelled)
         && LinkBecomes(s, t, h, Resolved)
  }

  lemma TurnDoes(s: State, h: Home, id: string)
    requires Core(s) && Enabled(s, StartChained(h, id))
    ensures TakesTurn(s, StartSlot(s, h, id), h, id)
  {
    var slot := Chain(s, h.oid)[h.slot];
    assert SlotOk(s, h.oid, h.slot);
    if slot.portEpoch == s.portEpoch {
      StartDoes(s, h, id);
    } else {
      DiscardDoes(s, h, id);
    }
  }

  lemma StartDoes(s: State, h: Home, id: string)
    requires Core(s) && Enabled(s, StartChained(h, id)) && s.chains[h.oid][h.slot].portEpoch == s.portEpoch
    ensures TakesTurn(s, StartSlot(s, h, id), h, id)
  {
    assert SlotOk(s, h.oid, h.slot);
    var t, k := StartSlotIs(s, h, id);
    StartedTurn(s, t, StartSlot(s, h, id), h, id, k);
  }

  lemma StartedTurn(s: State, t: State, u: State, h: Home, id: string, k: Task)
    requires h.slot < |Chain(s, h.oid)| && h.oid in s.chains && s.chains[h.oid][h.slot].portEpoch == s.portEpoch
    requires var m := s.chains[h.oid][h.slot].message;
      && t == Marked(s, h, Running(s.nextTask), Started(m)) && Begins(t, u, k, id)
      && k == Task(m, SessionOf(m), if RequestIdOf(m.ids).Some? then Some(id) else None, Some(h), false)
      && SessionOf(m) == h.oid.sessionId && h.oid.sessionId in s.sessions
    ensures TakesTurn(s, u, h, id)
  {
    if k.lease.Some? {
      assert u.leases.Keys == s.leases.Keys + {id};
    }
  }

  lemma DiscardDoes(s: State, h: Home, id: string)
    requires Core(s) && Enabled(s, StartChained(h, id)) && s.chains[h.oid][h.slot].portEpoch != s.portEpoch
    ensures TakesTurn(s, StartSlot(s, h, id), h, id)
  {
    var slot := s.chains[h.oid][h.slot];
    assert SlotOk(s, h.oid, h.slot);
    var t := Marked(s, h, Resolved, Discarded(slot.message));
    MarkedSlotKeepsTasks(s, t, h);
    if RequestIdOf(slot.message.ids).Some? {
      DiscardedLease(t, slot.message, slot.portEpoch, id);
    }
    DiscardedTurn(s, t, StartSlot(s, h, id), h, id);
  }

  lemma DiscardedTurn(s: State, t: State, u: State, h: Home, id: string)
    requires h.slot < |Chain(s, h.oid)| && h.oid in s.chains && s.chains[h.oid][h.slot].portEpoch != s.portEpoch
    requires id !in s.leases
    requires t == Marked(s, h, Resolved, Discarded(s.chains[h.oid][h.slot].message))
    requires u == t || (u == t.(leases := u.leases, prunes := u.prunes) && id in u.leases && u.leases[id].cancelled
                        && u.leases == t.leases[id := u.leases[id]])
    ensures TakesTurn(s, u, h, id)
  {
  }

  // ---------- the end of a handler, and pruning ----------

  /** The handler is gone and its lease, if it had one, unregistered; a prune of the lease's session is scheduled
      behind the queue as it is now, unless that session is permanent. */
  predicate Settles(s: State, t: State, task: nat)
    requires task in s.tasks
  {
    var lease := s.tasks[task].lease;
    && t == s.(tasks := s.tasks - {task}, index := t.index, prunes := t.prunes)
    && t.index.byId == (if lease.Some? then s.index.byId - {lease.value} else s.index.byId)
    && t.prunes == s.prunes +
         if lease.Some? && lease.value in s.leases && s.leases[lease.value].sessionId in s.sessions
            && s.leases[lease.value].sessionId != "default" && s.leases[lease.value].sessionId != "__control_plane"
         then multiset{PruneOf(s, s.leases[lease.value].sessionId)} else multiset{}
  }

  function PruneOf(s: State, sid: string): Prune
    requires sid in s.sessions
  {
    Prune(sid, s.sessions[sid].oid, |Chain(s, s.sessions[sid].oid)|)
  }

  lemma SettleDoes(s: State, task: nat)
    requires Core(s) && Enabled(s, SettleHandler(task))
    ensures Settles(s, Settle(s, task), task)
  {
    SettleIs(s, task);
  }

  /** A due prune deletes the session exactly if it is still the same object, unbound, with nothing queued since and no
      registered lease; either way it is spent. */
  predicate Prunes(s: State, t: State, p: Prune) {
    && t == s.(prunes := s.prunes - multiset{p}, sessions := t.sessions)
    && (forall sid <- t.sessions :: sid in s.sessions && t.sessions[sid] == s.sessions[sid])
    && (forall sid <- s.sessions :: sid !in t.sessions <==>
          && sid == p.sessionId && s.sessions[sid].oid == p.oid && !s.sessions[sid].bound && |Chain(s, p.oid)| == p.tail
          && forall id <- s.index.byId :: id in s.leases ==> s.leases[id].sessionId != sid)
  }

  lemma PruneDoes(s: State, p: Prune)
    ensures Prunes(s, FirePrune(s, p), p)
  {
  }

  // ---------- the port ----------

  /** How many registered leases of the lost port a session had. */
  function LostLeases(s: State, sid: string): set<string> {
    set x | x in s.index.byId && x in s.leases && s.leases[x].portEpoch == s.portEpoch && s.leases[x].sessionId == sid
  }

  /** The loss of the port cancels every registered lease and raises each session's epoch once for each lease of that
      port it had. */
  predicate LosesPort(s: State, t: State) {
    && !t.portLive && t.portEpoch == s.portEpoch + 1
    && t == s.(portLive := false, portEpoch := t.portEpoch, leases := t.leases, sessions := t.sessions)
    && t.leases.Keys == s.leases.Keys
    && (forall x <- s.leases ::
          t.leases[x] == if x in s.index.byId then s.leases[x].(cancelled := true) else s.leases[x])
    && t.sessions.Keys == s.sessions.Keys
    && (forall sid <- s.sessions ::
          t.sessions[sid] == s.sessions[sid].(epoch := s.sessions[sid].epoch + |LostLeases(s, sid)|))
  }

  lemma LossDoes(s: State)
    requires LeasesOk(s)
    ensures LosesPort(s, DropPort(s))
  {
    DropDoes(s, s);
    var u := s.(portEpoch := s.portEpoch + 1, portLive := false);
    forall sid <- s.sessions
      ensures DropPort(s).sessions[sid] == s.sessions[sid].(epoch := s.sessions[sid].epoch + |LostLeases(s, sid)|)
    {
      assert InSession(u, RegisteredOn(u, s.portEpoch), sid) == LostLeases(s, sid);
    }
  }

  // ---------- every step ----------

  ghost predicate Does(s: State, step: Step, t: State)
    requires Enabled(s, step)
  {
    match step
    case ConnectPort => t == s.(portLive := true, portEpoch := s.portEpoch + 1)
    case DisconnectPort => LosesPort(s, t)
    case Arrive(m, id, postOk) => Arrives(s, t, m, id, postOk)
    case StartChained(h, id) => TakesTurn(s, t, h, id)
    case ResolveSlot(h) => LinkBecomes(s, t, h, Resolved) && t == s.(chains := t.chains)
    case Reply(r, lease, postOk) =>
      && OrdinaryReply(s, t, r, lease, postOk)
      && SameRest(s, t)
    case SettleHandler(task) => Settles(s, t, task)
    case FireWatchdog(task, postOk) => CutsOff(s, t, task, postOk)
    case PruneSession(p) => Prunes(s, t, p)
    case BindSession(sid, bound) => Binds(s, t, sid, bound)
    case ForgetTimedOut(key) =>
      && t == s.(timedOutLeases := t.timedOutLeases, timedOutRequests := t.timedOutRequests)
      && (forall x :: x in t.timedOutLeases <==> x in s.timedOutLeases && x != key)
      && (forall x :: x in t.timedOutRequests <==> x in s.timedOutRequests && x != key)
  }

  /** A message from the live port: a ping starts at once, session_close and cancel requests act first, and everything
      else is queued. */
  ghost predicate Arrives(s: State, t: State, m: Message, id: string, postOk: bool) {
    && GoesTo(m, SessionOf(m))
    && match m.command
    case Other => Queues(s, t, m)
    case SessionClose => Closes(s, t, m, id)
    case Ping =>
      && HandlerStarts(s, t, m, id, None, SessionEpoch(s, SessionOf(m)))
      && SamePort(s, t) && SameMemory(s, t) && SameLeases(s, t) && (id in t.leases ==> !t.leases[id].cancelled)
    case CancelRequest(_) => Cancels(s, t, m, id, postOk)
  }

  /** Pings and cancel requests belong to the control plane, and every other message to the session it names. */
  ghost predicate GoesTo(m: Message, sid: string) {
    if m.command.Ping? || m.command.CancelRequest? then sid == "__control_plane" else NamesSession(m.rawSession, sid)
  }

  lemma GoesWhere(m: Message)
    ensures GoesTo(m, SessionOf(m))
  {
    NormalizeIff(m.rawSession, SessionOf(m));
  }

  /** The id of a request is the first of its two ids that is not white space. The watchdog goes by the first that is
      not empty, which is the request's exactly if it is not white space. */
  lemma RequestIdIs(ids: Ids)
    ensures RequestIdOf(ids) == if !AllWhite(ids.reqId) then Some(ids.reqId)
                                else if !AllWhite(ids.taskId) then Some(ids.taskId) else None
    ensures RawIdOf(ids) == if |ids.reqId| > 0 then ids.reqId else ids.taskId
    ensures RequestIdOf(ids) == Some(RawIdOf(ids)) <==> !AllWhite(RawIdOf(ids))
  {
    TrimIff(ids.reqId, "");
    TrimIff(ids.taskId, "");
  }

  lemma ArrivalDoes(s: State, m: Message, id: string, postOk: bool)
    requires Core(s) && Enabled(s, Arrive(m, id, postOk))
    ensures Arrives(s, Receive(s, m, id, postOk), m, id, postOk)
  {
    GoesWhere(m);
    match m.command
    case Other => EnqueueDoes(s, m);
    case SessionClose => CloseDoes(s, m, id);
    case Ping => BeginDoes(s, m, id, None);
    case CancelRequest(_) => CancelDoes(s, m, id, postOk);
  }

  /** The session is there and has this binding; its object and epoch stay, and so does every other session. */
  predicate Binds(s: State, t: State, sid: string, bound: bool) {
    && t == s.(sessions := t.sessions, chains := t.chains, nextSerial := t.nextSerial) && ChainsKept(s, t)
    && t.sessions.Keys == s.sessions.Keys + {sid}
    && t.sessions[sid].bound == bound && t.sessions[sid].epoch == SessionEpoch(s, sid)
    && (sid in s.sessions ==> t.sessions[sid].oid == s.sessions[sid].oid)
    && (forall x <- s.sessions :: x != sid ==> t.sessions[x] == s.sessions[x])
  }

  lemma BindDoes(s: State, sid: string, bound: bool)
    requires SessionsOk(s)
    ensures Binds(s, SetBound(s, sid, bound), sid, bound)
  {
    TouchDoes(s, sid);
    BoundAt(s, Touch(s, sid), SetBound(s, sid, bound), sid, bound);
  }

  lemma BoundAt(s: State, u: State, t: State, sid: string, bound: bool)
    requires SessionAt(s, u, sid, SessionEpoch(s, sid))
    requires u == s.(sessions := u.sessions, chains := u.chains, nextSerial := u.nextSerial)
    requires t == u.(sessions := u.sessions[sid := u.sessions[sid].(bound := bound)])
    ensures Binds(s, t, sid, bound)
  {
    assert t.sessions.Keys == u.sessions.Keys;
  }

  lemma StepDoes(s: State, step: Step)
    requires Core(s) && Enabled(s, step)
    ensures Does(s, step, Apply(s, step))
  {
    match step
    case ConnectPort =>
    case DisconnectPort => LossDoes(s);
    case Arrive(m, id, postOk) => ArrivalDoes(s, m, id, postOk);
    case StartChained(h, id) => TurnDoes(s, h, id);
    case ResolveSlot(h) =>
    case Reply(r, lease, postOk) => ReplyDoes(s, r, lease, postOk);
    case SettleHandler(task) => SettleDoes(s, task);
    case FireWatchdog(task, postOk) => WatchdogDoes(s, task, postOk);
    case PruneSession(p) => PruneDoes(s, p);
    case BindSession(sid, bound) => BindDoes(s, sid, bound);
    case ForgetTimedOut(key) =>
  }

  // ---------- in every run ----------

  /** In every reachable state, every step does what it should. */
  lemma EveryStepDoes(ss: seq<State>, i: nat, step: Step)
    requires Behaviour(ss) && i < |ss| && Enabled(ss[i], step)
    ensures Does(ss[i], step, Apply(ss[i], step))
  {
    Always(ss, i);
    StepDoes(ss[i], step);
  }

  /** A handler's ordinary reply is posted, once and for its lease, if and only if the port is live and takes it, the
      lease is current and has not timed out, and it is registered or no newer lease goes by the reply's id. */
  lemma PostedIff(ss: seq<State>, i: nat, r: Response, id: string, postOk: bool)
    requires Behaviour(ss) && i < |ss| && id in ss[i].leases
    ensures var s, t := ss[i], Apply(ss[i], Reply(r, Some(id), postOk));
      && (t.posts == s.posts + [Post(Some(id), s.portEpoch, false)] <==>
            s.portLive && postOk && UpToDate(s, id) && id !in s.timedOutLeases && (id in s.index.byId || !Reused(s, r)))
      && (t.posts == s.posts || t.posts == s.posts + [Post(Some(id), s.portEpoch, false)])
  {
    EveryStepDoes(ss, i, Reply(r, Some(id), postOk));
    NotLonger(ss[i].posts, Post(Some(id), ss[i].portEpoch, false));
  }

  lemma NotLonger<T>(xs: seq<T>, x: T)
    ensures xs + [x] != xs
  {
    assert |xs + [x]| == |xs| + 1;
  }

  /** A reply sent without a lease, by a request id that exactly one registered lease goes by, is posted for that lease
      if and only if the port is live and takes it and the lease is current and has not timed out. */
  lemma PostedByIdIff(ss: seq<State>, i: nat, r: Response, id: string, postOk: bool)
    requires Behaviour(ss) && i < |ss| && Names(ss[i], r, id)
    ensures id in ss[i].leases
    ensures var s, t := ss[i], Apply(ss[i], Reply(r, None, postOk));
      && (t.posts == s.posts + [Post(Some(id), s.portEpoch, false)] <==>
            s.portLive && postOk && UpToDate(s, id) && id !in s.timedOutLeases)
      && (t.posts == s.posts || t.posts == s.posts + [Post(Some(id), s.portEpoch, false)])
  {
    Always(ss, i);
    assert RegisteredOk(ss[i], id);
    EveryStepDoes(ss, i, Reply(r, None, postOk));
    NotLonger(ss[i].posts, Post(Some(id), ss[i].portEpoch, false));
  }

  /** A reply that names no registered lease is posted, once and for no lease, if and only if the port is live and takes
      it and no request of its id has timed out. */
  lemma PostedUnclaimedIff(ss: seq<State>, i: nat, r: Response, postOk: bool)
    requires Behaviour(ss) && i < |ss| && forall id <- ss[i].index.byId :: !Names(ss[i], r, id)
    ensures var s, t, request := ss[i], Apply(ss[i], Reply(r, None, postOk)), RequestIdOf(r.ids);
      && (t.posts == s.posts + [Post(None, s.portEpoch, false)] <==>
            s.portLive && postOk && (request.Some? ==> request.value !in s.timedOutRequests))
      && (t.posts == s.posts || t.posts == s.posts + [Post(None, s.portEpoch, false)])
  {
    EveryStepDoes(ss, i, Reply(r, None, postOk));
    NotLonger(ss[i].posts, Post(None, ss[i].portEpoch, false));
  }

  /** A watchdog replies, once and for its handler's lease, if and only if the port is live and takes it, the request
      carries an id, and the lease is for that port. */
  lemma WatchdogRepliesIff(ss: seq<State>, i: nat, task: nat, postOk: bool)
    requires Behaviour(ss) && i < |ss| && Enabled(ss[i], FireWatchdog(task, postOk))
    ensures var s, t, k := ss[i], Apply(ss[i], FireWatchdog(task, postOk)), ss[i].tasks[task];
      && (t.posts == s.posts + [Post(k.lease, s.portEpoch, true)] <==>
            s.portLive && postOk && RawIdOf(k.message.ids) != ""
            && (k.lease.Some? ==> s.leases[k.lease.value].portEpoch == s.portEpoch))
      && (t.posts == s.posts || t.posts == s.posts + [Post(k.lease, s.portEpoch, true)])
  {
    EveryStepDoes(ss, i, FireWatchdog(task, postOk));
    NotLonger(ss[i].posts, Post(ss[i].tasks[task].lease, ss[i].portEpoch, true));
  }

  /** A cancel request cancels every lease registered for its target; if its answer can be posted or is not sent, it
      changes no other lease that was there. */
  lemma CancelRequestCancels(ss: seq<State>, i: nat, m: Message, id: string, postOk: bool, x: string)
    requires Behaviour(ss) && i < |ss| && Enabled(ss[i], Arrive(m, id, postOk)) && m.command.CancelRequest?
    requires x in ss[i].leases
    ensures var s, t := ss[i], Apply(ss[i], Arrive(m, id, postOk));
      && x in t.leases
      && (x in s.index.byId && s.leases[x].requestId == m.command.target ==> t.leases[x].cancelled)
      && (postOk && !(x in s.index.byId && s.leases[x].requestId == m.command.target) ==> t.leases[x] == s.leases[x])
  {
    Always(ss, i);
    EveryStepDoes(ss, i, Arrive(m, id, postOk));
    StepKeepsCore(ss[i], Arrive(m, id, postOk));
    assert x in ss[i].index.byId ==> RegisteredOk(ss[i], x);
    StepEvolves(ss[i], Arrive(m, id, postOk));
    CancelsTargetOnly(ss[i], Apply(ss[i], Arrive(m, id, postOk)), m, id, postOk, x);
  }

  lemma CancelsTargetOnly(s: State, t: State, m: Message, id: string, postOk: bool, x: string)
    requires m.command.CancelRequest? && Cancels(s, t, m, id, postOk)
    requires x in s.leases && x != id && x in t.leases
    requires x in s.index.byId ==> s.index.byId[x].requestId == s.leases[x].requestId
    ensures x in s.index.byId && s.leases[x].requestId == m.command.target ==> t.leases[x].cancelled
    ensures postOk && !(x in s.index.byId && s.leases[x].requestId == m.command.target) ==> t.leases[x] == s.leases[x]
  {
    if x in s.index.byId {
      assert Targets(s, m, x) ==> Targets(t, m, x);
    }
  }
}
