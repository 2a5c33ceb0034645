/** The broker of the extension as a state machine: one step per stretch of code between awaits. */
module Broker {
  import opened Common
  import opened LeaseIndex

  // ---------- messages and replies ----------

  /** The correlation fields of a message or reply; "" stands for a missing or non-string field. */
  datatype Ids = Ids(reqId: string, taskId: string)

  /** The id a lease is registered under and a reply is correlated by. */
  function RequestIdOf(ids: Ids): Option<string> {
    if !IsBlank(ids.reqId) then Some(ids.reqId)
    else if !IsBlank(ids.taskId) then Some(ids.taskId)
    else None
  }

  /** `req_id || task_id`, which the watchdog reads: a blank req_id shadows a good task_id. */
  function RawIdOf(ids: Ids): string { if ids.reqId != "" then ids.reqId else ids.taskId }

  datatype Command = Ping | CancelRequest(target: string) | SessionClose | Other

  datatype Message = Message(ids: Ids, rawSession: string, command: Command)

  predicate IsControlPlane(m: Message) { m.command.Ping? || m.command.CancelRequest? }

  function SessionOf(m: Message): string {
    if IsControlPlane(m) then CONTROL_PLANE_SESSION else NormalizeSessionId(m.rawSession)
  }

  datatype Response = Response(ids: Ids, leaseId: string)

  // ---------- state ----------

  datatype Lease = Lease(
    requestId: string, portEpoch: nat, sessionId: string, sessionEpoch: nat,
    cancelled: bool, watchdogTimedOut: bool,
    owner: nat)  // the dispatch that registered it

  /** The identity of a session object: its name and when it was created. A pruned session that comes back
      is a new object. */
  datatype ObjectId = ObjectId(sessionId: string, serial: nat)
  datatype Session = Session(oid: ObjectId, epoch: nat, bound: bool)

  datatype Status = Waiting | Running(task: nat) | Resolved
  /** One link of a session's promise chain. */
  datatype Slot = Slot(message: Message, portEpoch: nat, status: Status)

  datatype Home = Home(oid: ObjectId, slot: nat)
  /** A handler that has started and not settled; `cut` once its watchdog has fired. */
  datatype Task = Task(message: Message, sessionId: string, lease: Option<string>, home: Option<Home>, cut: bool)

  /** A pending pruneIfIdle callback: session name, object identity, and chain length when scheduled. */
  datatype Prune = Prune(sessionId: string, oid: ObjectId, tail: nat)

  datatype Post = Post(lease: Option<string>, portEpoch: nat, watchdog: bool)
  datatype Outcome = Started(message: Message) | Discarded(message: Message)

  datatype State = State(
    portLive: bool, portEpoch: nat,
    leases: map<string, Lease>,          // every lease object ever created
    index: Index,                        // the registered ones
    sessions: map<string, Session>, nextSerial: nat,
    chains: map<ObjectId, seq<Slot>>,         // the promise chain of every session object ever created
    tasks: map<nat, Task>, nextTask: nat,
    prunes: multiset<Prune>,
    timedOutLeases: set<string>, timedOutRequests: set<string>,
    posts: seq<Post>,                    // everything posted to the native port
    arrived: map<string, seq<Message>>,  // per session, every message sent to its queue
    outcomes: map<string, seq<Outcome>>) // per session, what became of them

  function At<T>(log: map<string, seq<T>>, sid: string): seq<T> { if sid in log then log[sid] else [] }

  function Append<T>(log: map<string, seq<T>>, sid: string, x: T): map<string, seq<T>> {
    log[sid := At(log, sid) + [x]]
  }

  // ---------- sessions ----------

  /** getWorkflowSessionState: reading a session creates it. */
  function Touch(s: State, sid: string): State {
    if sid in s.sessions then s
    else
      var oid := ObjectId(sid, s.nextSerial);
      s.(sessions := s.sessions[sid := Session(oid, 0, false)],
         chains := s.chains[oid := []],
         nextSerial := s.nextSerial + 1)
  }

  function Invalidate(s: State, sid: string): State {
    var t := Touch(s, sid);
    t.(sessions := t.sessions[sid := t.sessions[sid].(epoch := t.sessions[sid].epoch + 1)])
  }

  function SetBound(s: State, sid: string, bound: bool): State {
    var t := Touch(s, sid);
    t.(sessions := t.sessions[sid := t.sessions[sid].(bound := bound)])
  }

  predicate NeverPruned(sid: string) { sid == DEFAULT_SESSION || sid == CONTROL_PLANE_SESSION }

  function SchedulePrune(s: State, sid: string): State {
    if NeverPruned(sid) || sid !in s.sessions then s
    else
      var oid := s.sessions[sid].oid;
      s.(prunes := s.prunes + multiset{Prune(sid, oid, |Chain(s, oid)|)})
  }

  function Chain(s: State, oid: ObjectId): seq<Slot> { if oid in s.chains then s.chains[oid] else [] }

  /** The promise a prune waits for: the chain as it was when the prune was scheduled. */
  predicate TailResolved(s: State, p: Prune) {
    p.tail == 0 || (p.tail <= |Chain(s, p.oid)| && Chain(s, p.oid)[p.tail - 1].status.Resolved?)
  }

  predicate PruneApplies(s: State, p: Prune) {
    && p.sessionId in s.sessions
    && s.sessions[p.sessionId].oid == p.oid
    && |Chain(s, p.oid)| == p.tail
    && !s.sessions[p.sessionId].bound
    && NoLeaseIn(s, p.sessionId)
  }

  predicate NoLeaseIn(s: State, sid: string) {
    forall id <- s.index.byId :: id in s.leases ==> s.leases[id].sessionId != sid
  }

  function FirePrune(s: State, p: Prune): State {
    var t := s.(prunes := s.prunes - multiset{p});
    if PruneApplies(s, p) then t.(sessions := s.sessions - {p.sessionId}) else t
  }

  // ---------- leases ----------

  function RefOf(id: string, l: Lease): LeaseRef { LeaseRef(id, l.requestId) }

  function Register(s: State, m: Message, sid: string, portEpoch: nat, id: string): State
    requires RequestIdOf(m.ids).Some?
  {
    var t := Touch(s, sid);
    var l := Lease(RequestIdOf(m.ids).value, portEpoch, sid, t.sessions[sid].epoch, false, false, s.nextTask);
    t.(leases := t.leases[id := l], index := Add(t.index, RefOf(id, l)))
  }

  function Clear(s: State, id: string): State
    requires id in s.leases
  {
    SchedulePrune(s.(index := Remove(s.index, RefOf(id, s.leases[id]))), s.leases[id].sessionId)
  }

  function Cancel(s: State, id: string): State
    requires id in s.leases
  {
    if s.leases[id].cancelled then s
    else Touch(s.(leases := s.leases[id := s.leases[id].(cancelled := true)]), s.leases[id].sessionId)
  }

  /** Cancel a set of registered leases (their sessions exist). */
  function CancelAll(s: State, ids: set<string>): State {
    s.(leases := map id | id in s.leases ::
         if id in ids then s.leases[id].(cancelled := true) else s.leases[id])
  }

  function RegisteredIn(s: State, sid: string): set<string> {
    set id | id in s.index.byId && id in s.leases && s.leases[id].sessionId == sid
  }

  function RegisteredOn(s: State, portEpoch: nat): set<string> {
    set id | id in s.index.byId && id in s.leases && s.leases[id].portEpoch == portEpoch
  }

  function RegisteredFor(s: State, requestId: string): set<string> {
    set l | l in Active(s.index, requestId) :: l.leaseId
  }

  function InSession(s: State, ids: set<string>, sid: string): set<string> {
    set id | id in ids && id in s.leases && s.leases[id].sessionId == sid
  }

  /** Cancel each of a set of registered leases and raise its session's epoch, once per lease. */
  function CancelEach(s: State, ids: set<string>): State {
    CancelAll(s, ids).(
      sessions := map sid | sid in s.sessions ::
        s.sessions[sid].(epoch := s.sessions[sid].epoch + |InSession(s, ids, sid)|))
  }

  /** cancelBrokerLeasesForNativePortEpoch. */
  function CancelPort(s: State, portEpoch: nat): State { CancelEach(s, RegisteredOn(s, portEpoch)) }

  function SessionEpoch(s: State, sid: string): nat { if sid in s.sessions then s.sessions[sid].epoch else 0 }

  predicate LeaseCurrent(s: State, l: Lease) {
    !l.cancelled && l.portEpoch == s.portEpoch && l.sessionEpoch == SessionEpoch(s, l.sessionId)
  }

  predicate Current(s: State, id: string)
    requires id in s.leases
  {
    LeaseCurrent(s, s.leases[id])
  }

  // ---------- the native port ----------

  function Connect(s: State): State { s.(portLive := true, portEpoch := s.portEpoch + 1) }

  function DropPort(s: State): State {
    CancelPort(s.(portEpoch := s.portEpoch + 1, portLive := false), s.portEpoch)
  }

  // ---------- replies ----------

  datatype Verdict =
    | ReusedByNewerLease | FromCancelledLease | AfterWatchdog | StalePort | StaleSession
    | Deliver

  ghost function ReplyLease(s: State, r: Response, handlerLease: Option<string>): Option<string> {
    if handlerLease.Some? then handlerLease
    else
      var found := Resolve(s.index, RequestIdOf(r.ids), r.leaseId);
      if found.Some? then Some(found.value.leaseId) else None
  }

  /** The checks a reply passes before it may be posted, in order. */
  ghost function Fence(s: State, r: Response, handlerLease: Option<string>, afterWatchdog: bool): Verdict {
    var correlation := RequestIdOf(r.ids);
    var lease := ReplyLease(s, r, handlerLease);
    var known := lease.Some? && lease.value in s.leases;
    if handlerLease.Some? && correlation.Some? && handlerLease.value !in s.index.byId
       && Active(s.index, correlation.value) != {} && !afterWatchdog then ReusedByNewerLease
    else if known && s.leases[lease.value].cancelled && !afterWatchdog then FromCancelledLease
    else if ((lease.Some? && lease.value in s.timedOutLeases)
             || (lease.None? && correlation.Some? && correlation.value in s.timedOutRequests))
            && !afterWatchdog then AfterWatchdog
    else if known && s.leases[lease.value].portEpoch != s.portEpoch then StalePort
    else if known && s.leases[lease.value].sessionEpoch != SessionEpoch(s, s.leases[lease.value].sessionId)
            && !afterWatchdog then StaleSession
    else Deliver
  }

  /** The session-epoch check reads, and so creates, the lease's session. */
  ghost function Checked(s: State, r: Response, handlerLease: Option<string>, afterWatchdog: bool): State {
    var lease := ReplyLease(s, r, handlerLease);
    var verdict := Fence(s, r, handlerLease, afterWatchdog);
    if (verdict.StaleSession? || verdict.Deliver?) && lease.Some? && lease.value in s.leases
    then Touch(s, s.leases[lease.value].sessionId) else s
  }

  /** sendResponseToBroker. `postOk` is whether postMessage succeeds; a failed post drops the port. */
  ghost function Send(s: State, r: Response, handlerLease: Option<string>, afterWatchdog: bool, postOk: bool): State {
    var t := Checked(s, r, handlerLease, afterWatchdog);
    if !Fence(s, r, handlerLease, afterWatchdog).Deliver? || !s.portLive then t
    else if postOk then t.(posts := t.posts + [Post(ReplyLease(s, r, handlerLease), s.portEpoch, afterWatchdog)])
    else DropPort(t)
  }

  // ---------- running a message ----------

  /** handleBrokerMessageWithWatchdog up to its first await. */
  function Begin(s: State, m: Message, sid: string, portEpoch: nat, id: string, home: Option<Home>): State {
    var hasId := RequestIdOf(m.ids).Some?;
    if portEpoch != s.portEpoch then
      if hasId then Clear(Cancel(Register(s, m, sid, portEpoch, id), id), id) else s
    else
      var t := if hasId then Register(s, m, sid, portEpoch, id) else s;
      t.(tasks := t.tasks[s.nextTask := Task(m, sid, if hasId then Some(id) else None, home, false)],
         nextTask := s.nextTask + 1)
  }

  function SetStatus(s: State, h: Home, status: Status): State
    requires h.slot < |Chain(s, h.oid)|
  {
    s.(chains := s.chains[h.oid := s.chains[h.oid][h.slot := s.chains[h.oid][h.slot].(status := status)]])
  }

  /** A chained message whose turn has come: it starts, or is discarded because its port is gone. */
  function StartSlot(s: State, h: Home, id: string): State
    requires h.slot < |Chain(s, h.oid)|
  {
    var slot := s.chains[h.oid][h.slot];
    var sid := SessionOf(slot.message);
    var t := SetStatus(s, h, if slot.portEpoch == s.portEpoch then Running(s.nextTask) else Resolved);
    var u := t.(outcomes := Append(s.outcomes, sid,
                  if slot.portEpoch == s.portEpoch then Started(slot.message) else Discarded(slot.message)));
    Begin(u, slot.message, sid, slot.portEpoch, id, Some(h))
  }

  function Enqueue(s: State, m: Message): State {
    var sid := SessionOf(m);
    var t := Touch(s, sid);
    var oid := t.sessions[sid].oid;
    t.(chains := t.chains[oid := Chain(t, oid) + [Slot(m, s.portEpoch, Waiting)]],
       arrived := Append(t.arrived, sid, m))
  }

  /** session_close: cancel the session's leases, raise its epoch. */
  function CloseSession(s: State, sid: string): State { Invalidate(CancelAll(s, RegisteredIn(s, sid)), sid) }

  /** dispatchBrokerMessageWithWatchdog for a message from the live port. */
  ghost function Receive(s: State, m: Message, id: string, postOk: bool): State {
    var sid := SessionOf(m);
    match m.command
    case Other => Enqueue(s, m)
    case SessionClose => Begin(CloseSession(s, sid), m, sid, s.portEpoch, id, None)
    case Ping => Begin(s, m, sid, s.portEpoch, id, None)
    case CancelRequest(target) =>
      CancelThenReply(Begin(s, m, sid, s.portEpoch, id, None), m, postOk)
  }

  /** The handler of a cancel request cancels the request's leases and replies before its first await. */
  ghost function CancelThenReply(s: State, m: Message, postOk: bool): State
    requires m.command.CancelRequest?
  {
    Send(CancelAll(s, RegisteredFor(s, m.command.target)), CancelReply(m), None, false, postOk)
  }

  function CancelReply(m: Message): Response {
    var id := RequestIdOf(m.ids);
    Response(Ids(if id.Some? then id.value else "", ""), "")
  }

  /** The handler's finally block. */
  function Settle(s: State, task: nat): State
    requires task in s.tasks
    requires s.tasks[task].lease.Some? ==> s.tasks[task].lease.value in s.leases
  {
    var t := s.(tasks := s.tasks - {task});
    if s.tasks[task].lease.Some? then Clear(t, s.tasks[task].lease.value) else t
  }

  /** The watchdog timer of an unsettled handler. */
  ghost function Watchdog(s: State, task: nat, postOk: bool): State
    requires task in s.tasks
    requires s.tasks[task].lease.Some? ==> s.tasks[task].lease.value in s.leases
  {
    var u := BeforeCut(s, task, postOk);
    u.(tasks := u.tasks[task := s.tasks[task].(cut := true)])
  }

  ghost function BeforeCut(s: State, task: nat, postOk: bool): State
    requires task in s.tasks
    requires s.tasks[task].lease.Some? ==> s.tasks[task].lease.value in s.leases
  {
    var t := TimedOut(s, task);
    if RawIdOf(s.tasks[task].message.ids) == "" then t
    else Send(t, TimeoutReply(s.tasks[task]), None, true, postOk)
  }

  /** The watchdog's reply names its lease, so it reaches that lease and no other. */
  function TimeoutReply(k: Task): Response {
    Response(Ids(RawIdOf(k.message.ids), ""), if k.lease.Some? then k.lease.value else "")
  }

  /** What the watchdog does before it replies: cancel the lease, raise the session's epoch, remember the timeout. */
  function TimedOut(s: State, task: nat): State
    requires task in s.tasks
    requires s.tasks[task].lease.Some? ==> s.tasks[task].lease.value in s.leases
  {
    var k := s.tasks[task];
    Remember(Invalidate(CancelTimedOut(s, k.lease), k.sessionId), k)
  }

  function CancelTimedOut(s: State, lease: Option<string>): State
    requires lease.Some? ==> lease.value in s.leases
  {
    if lease.None? then s
    else Cancel(s.(leases := s.leases[lease.value := s.leases[lease.value].(watchdogTimedOut := true)]), lease.value)
  }

  /** markBrokerRequestTimedOut: by lease if there is one, else by request id. */
  function Remember(s: State, k: Task): State {
    var named := RawIdOf(k.message.ids) != "";
    s.(timedOutLeases := if named && k.lease.Some? then s.timedOutLeases + {k.lease.value} else s.timedOutLeases,
       timedOutRequests := if named && k.lease.None? then s.timedOutRequests + {RawIdOf(k.message.ids)}
                           else s.timedOutRequests)
  }

  // ---------- steps ----------

  datatype Step =
    | ConnectPort
    | DisconnectPort
    | Arrive(message: Message, id: string, postOk: bool)
    | StartChained(home: Home, id: string)
    | ResolveSlot(home: Home)
    | Reply(response: Response, lease: Option<string>, postOk: bool)
    | SettleHandler(task: nat)
    | FireWatchdog(task: nat, postOk: bool)
    | PruneSession(prune: Prune)
    | BindSession(sessionId: string, bound: bool)  // tab, URL and lifecycle commits, and any other session access
    | ForgetTimedOut(key: string)                   // the stale-reply memory expires

  ghost predicate FreshLeaseId(s: State, id: string) { id != "" && ValidLeaseId(id) && id !in s.leases }

  ghost predicate Enabled(s: State, step: Step) {
    match step
    case ConnectPort => !s.portLive
    case DisconnectPort => s.portLive
    case Arrive(m, id, _) => s.portLive && FreshLeaseId(s, id)
    case StartChained(h, id) =>
      && FreshLeaseId(s, id)
      && h.slot < |Chain(s, h.oid)|
      && Chain(s, h.oid)[h.slot].status.Waiting?
      && (h.slot == 0 || Chain(s, h.oid)[h.slot - 1].status.Resolved?)
    case ResolveSlot(h) =>
      && h.slot < |Chain(s, h.oid)|
      && Chain(s, h.oid)[h.slot].status.Running?
      && var t := Chain(s, h.oid)[h.slot].status.task;
         t in s.tasks ==> s.tasks[t].cut
    case Reply(_, lease, _) => lease.Some? ==> lease.value in s.leases
    case SettleHandler(t) => t in s.tasks && (s.tasks[t].lease.Some? ==> s.tasks[t].lease.value in s.leases)
    case FireWatchdog(t, _) =>
      t in s.tasks && !s.tasks[t].cut && (s.tasks[t].lease.Some? ==> s.tasks[t].lease.value in s.leases)
    case PruneSession(p) => p in s.prunes && TailResolved(s, p)
    case BindSession(_, _) => true
    case ForgetTimedOut(_) => true
  }

  ghost function Apply(s: State, step: Step): State
    requires Enabled(s, step)
  {
    match step
    case ConnectPort => Connect(s)
    case DisconnectPort => DropPort(s)
    case Arrive(m, id, postOk) => Receive(s, m, id, postOk)
    case StartChained(h, id) => StartSlot(s, h, id)
    case ResolveSlot(h) => SetStatus(s, h, Resolved)
    case Reply(r, lease, postOk) => Send(s, r, lease, false, postOk)
    case SettleHandler(t) => Settle(s, t)
    case FireWatchdog(t, postOk) => Watchdog(s, t, postOk)
    case PruneSession(p) => FirePrune(s, p)
    case BindSession(sid, bound) => SetBound(s, sid, bound)
    case ForgetTimedOut(key) => s.(timedOutLeases := s.timedOutLeases - {key},
                                   timedOutRequests := s.timedOutRequests - {key})
  }

  /** After the stored sessions have been loaded: any sessions, all at epoch 0 with an empty chain. */
  ghost predicate Init(s: State) {
    && !s.portLive && s.portEpoch == 0
    && s.leases == map[] && s.index == EMPTY && s.tasks == map[] && s.nextTask == 0
    && s.prunes == multiset{} && s.timedOutLeases == {} && s.timedOutRequests == {}
    && s.posts == [] && s.arrived == map[] && s.outcomes == map[]
    && (forall sid <- s.sessions ::
          s.sessions[sid].epoch == 0 && s.sessions[sid].oid.sessionId == sid && s.sessions[sid].oid in s.chains)
    && (forall oid <- s.chains :: oid.serial < s.nextSerial && s.chains[oid] == [])
  }

  ghost predicate Next(s: State, s': State) { exists step :: Enabled(s, step) && s' == Apply(s, step) }

  ghost predicate StepIn(ss: seq<State>, i: nat)
    requires i + 1 < |ss|
  {
    Next(ss[i], ss[i + 1])
  }

  /** A finite run. */
  ghost predicate Behaviour(ss: seq<State>) {
    |ss| > 0 && Init(ss[0]) && forall i: nat :: i + 1 < |ss| ==> StepIn(ss, i)
  }
}
