/** The native port, its reconnect timer and heartbeat, and the control requests that wait for an answer on it. */
module Connection {
  import opened Common

  /** A control request waiting for its answer; `responseCmd` is "" when any command will do. */
  datatype Callback = Callback(epoch: nat, responseCmd: string)
  datatype Settlement = Answered | Failed

  /** A heartbeat in progress: the port and epoch it started on, and its request once sent. */
  datatype Beat = Beat(port: nat, epoch: nat, request: Option<string>)

  /** How an attempt to open the port goes. A thrown error may say that the host is not installed. */
  datatype Attempt = Opens | ConnectThrows(unavailable: bool) | ListenerThrows(unavailable: bool)

  datatype State = State(
    port: Option<nat>, epoch: nat,
    epochOf: map<nat, nat>, nextPort: nat,      // every port object, with the epoch its listeners captured
    reconnectTimer: bool, attempts: nat, slowMode: bool, inFlight: bool,
    heartbeat: bool, missed: nat,
    callbacks: map<string, Callback>, timers: set<string>,
    lateRequests: set<string>,                 // timed out, late answer to be dropped
    suppressed: set<nat>,
    settled: map<string, seq<Settlement>>,     // what each request was told, in order
    beats: map<nat, Beat>, nextBeat: nat,
    flushes: multiset<nat>)                    // delayed disconnects, by the epoch they were scheduled in

  const BLANK := State(None, 0, map[], 0, false, 0, false, false, false, 0, map[], {}, {}, {}, map[], map[], 0, multiset{})

  const MISSES_BEFORE_RECONNECT := 2

  // ---------- operations ----------

  function ScheduleReconnect(s: State): State { s.(reconnectTimer := true) }

  /** The reconnect timer is spent or cleared; the backoff may be reset with it. */
  function ClearTimer(s: State, attempts: nat, slowMode: bool): State {
    s.(reconnectTimer := false, attempts := attempts, slowMode := slowMode)
  }

  function ClearHeartbeat(s: State): State { s.(heartbeat := false, missed := 0) }

  function Told(s: State, req: string): seq<Settlement> { if req in s.settled then s.settled[req] else [] }

  function SettleRequest(s: State, req: string, how: Settlement): State {
    s.(settled := s.settled[req := Told(s, req) + [how]])
  }

  function ClearCallback(s: State, req: string): State {
    s.(callbacks := s.callbacks - {req}, timers := s.timers - {req})
  }

  /** Every one of these requests is told that it failed. */
  function TellFailed(settled: map<string, seq<Settlement>>, reqs: set<string>): map<string, seq<Settlement>> {
    map r | r in settled.Keys + reqs ::
      (if r in settled then settled[r] else []) + if r in reqs then [Failed] else []
  }

  function RejectAll(s: State): State {
    s.(settled := TellFailed(s.settled, s.callbacks.Keys), timers := s.timers - s.callbacks.Keys, callbacks := map[])
  }

  function Disconnect(s: State): State {
    if s.port.None? then s
    else
      RejectAll(ClearHeartbeat(s.(epoch := s.epoch + 1, suppressed := s.suppressed + {s.port.value},
                                  port := None, inFlight := false)))
  }

  /** connectToNative. `available` is whether the browser offers native messaging at all. */
  function Connect(s: State, available: bool, attempt: Attempt): State {
    if !available || s.port.Some? || s.inFlight then s
    else
      match attempt
      case Opens =>
        s.(port := Some(s.nextPort), epoch := s.epoch + 1, epochOf := s.epochOf[s.nextPort := s.epoch + 1],
           nextPort := s.nextPort + 1, reconnectTimer := false, inFlight := false, heartbeat := true, missed := 0)
      case ConnectThrows(unavailable) =>
        ScheduleReconnect(s.(inFlight := false, slowMode := s.slowMode || unavailable))
      case ListenerThrows(unavailable) =>
        ScheduleReconnect(s.(epoch := s.epoch + 1, epochOf := s.epochOf[s.nextPort := s.epoch + 1],
                             nextPort := s.nextPort + 1, inFlight := false, slowMode := s.slowMode || unavailable))
  }

  /** A control request, once the port is known to be there or not. */
  function Issue(s: State, req: string, responseCmd: string, postOk: bool): State {
    if s.port.None? then s
    else
      var t := s.(callbacks := s.callbacks[req := Callback(s.epoch, responseCmd)], timers := s.timers + {req});
      if postOk then t
      else SettleRequest(ScheduleReconnect(Disconnect(ClearCallback(t, req))), req, Failed)
  }

  function ControlTimeout(s: State, req: string): State {
    SettleRequest(ClearCallback(s, req).(lateRequests := s.lateRequests + {req}), req, Failed)
  }

  /** maybeResolveNativeControlCallback; "" is a missing request id. */
  function Answer(s: State, req: string, cmd: string): State {
    if req == "" then s
    else if req !in s.callbacks then s.(lateRequests := s.lateRequests - {req})
    else if s.callbacks[req].epoch != s.epoch then SettleRequest(ClearCallback(s, req), req, Failed)
    else if s.callbacks[req].responseCmd != "" && cmd != s.callbacks[req].responseCmd then s
    else SettleRequest(ClearCallback(s, req), req, Answered)
  }

  /** The onMessage listener of a port drops what is not for the live port and epoch. */
  predicate Listens(s: State, port: nat) {
    s.port == Some(port) && port in s.epochOf && s.epochOf[port] == s.epoch
  }

  function PortLost(s: State, port: nat, unavailable: bool): State {
    if s.port != Some(port) then s
    else
      var t := ClearHeartbeat(RejectAll(s.(epoch := s.epoch + 1)).(port := None, inFlight := false));
      if port in s.suppressed then t
      else ScheduleReconnect(t.(slowMode := t.slowMode || unavailable))
  }

  function BeatCalls(s: State, b: nat, req: string, postOk: bool): State
    requires b in s.beats
  {
    if s.port.None? then s.(beats := s.beats - {b})
    else Issue(s, req, "ping_response", postOk).(beats := s.beats[b := s.beats[b].(request := Some(req))])
  }

  /** One more miss, and a reconnect after the second. */
  function CountedMiss(s: State): State {
    var t := s.(missed := s.missed + 1);
    if t.missed >= MISSES_BEFORE_RECONNECT then ScheduleReconnect(Disconnect(t)) else t
  }

  /** The heartbeat's request is settled. `healthy` is whether an answer says that the bridge is connected. */
  function BeatEnds(s: State, b: nat, healthy: bool): State
    requires b in s.beats && s.beats[b].request.Some? && Told(s, s.beats[b].request.value) != []
  {
    var beat := s.beats[b];
    var t := s.(beats := s.beats - {b});
    if s.port != Some(beat.port) || s.epoch != beat.epoch then t
    else if Told(s, beat.request.value)[0].Answered? && healthy then t.(missed := 0, attempts := 0, slowMode := false)
    else CountedMiss(t)
  }

  // ---------- steps ----------

  datatype Step =
    | ConnectNow(attempt: Attempt)                     // startup, install and reconnect-alarm hooks
    | TimerFires(attempt: Attempt)
    | Wake                                             // keepalive alarm, content port, wake message
    | WakeReset(attempt: Attempt)
    | EnsureConnected(attempt: Attempt)
    | IssueControl(request: string, responseCmd: string, postOk: bool)
    | TimeoutFires(request: string)
    | ForgetLate(request: string)
    | PortMessage(port: nat, request: string, cmd: string)
    | PortDisconnects(port: nat, unavailable: bool)
    | HeartbeatTick
    | HeartbeatCalls(beat: nat, request: string, postOk: bool)
    | HeartbeatEnds(beat: nat, healthy: bool)
    | RecoveryPingAnswered
    | ScheduleFlush
    | FlushFires(epoch: nat)
    | ReplyPostFails
    | ReplyWithoutPort

  /** Request ids are drawn at random and not used again. */
  predicate FreshRequest(s: State, req: string) { req != "" && req !in s.callbacks && req !in s.settled }

  predicate Enabled(s: State, step: Step) {
    match step
    case TimerFires(_) => s.reconnectTimer
    case IssueControl(req, _, _) => FreshRequest(s, req)
    case TimeoutFires(req) => req in s.timers
    case PortMessage(p, _, _) => p in s.epochOf
    case PortDisconnects(p, _) => p in s.epochOf
    case HeartbeatTick => s.heartbeat
    case HeartbeatCalls(b, req, _) => b in s.beats && s.beats[b].request.None? && FreshRequest(s, req)
    case HeartbeatEnds(b, _) => b in s.beats && s.beats[b].request.Some? && Told(s, s.beats[b].request.value) != []
    case FlushFires(e) => e in s.flushes
    case ReplyPostFails => s.port.Some?
    case ReplyWithoutPort => s.port.None?
    case _ => true
  }

  function Apply(s: State, available: bool, step: Step): State
    requires Enabled(s, step)
  {
    match step
    case ConnectNow(a) => Connect(s, available, a)
    case TimerFires(a) => Connect(ClearTimer(s, s.attempts + 1, s.slowMode), available, a)
    case Wake => if s.port.None? then ScheduleReconnect(s) else s
    case WakeReset(a) => Connect(ClearTimer(s, 0, false), available, a)
    case EnsureConnected(a) =>
      if s.port.Some? || s.slowMode then s else Connect(ClearTimer(s, s.attempts, s.slowMode), available, a)
    case IssueControl(req, cmd, postOk) => Issue(s, req, cmd, postOk)
    case TimeoutFires(req) => ControlTimeout(s, req)
    case ForgetLate(req) => s.(lateRequests := s.lateRequests - {req})
    case PortMessage(p, req, cmd) => if Listens(s, p) then Answer(s, req, cmd) else s
    case PortDisconnects(p, unavailable) => PortLost(s, p, unavailable)
    case HeartbeatTick =>
      if s.port.None? then s
      else s.(beats := s.beats[s.nextBeat := Beat(s.port.value, s.epoch, None)], nextBeat := s.nextBeat + 1)
    case HeartbeatCalls(b, req, postOk) => BeatCalls(s, b, req, postOk)
    case HeartbeatEnds(b, healthy) => BeatEnds(s, b, healthy)
    case RecoveryPingAnswered => s.(missed := 0)
    case ScheduleFlush => s.(flushes := s.flushes + multiset{s.epoch})
    case FlushFires(e) =>
      var t := s.(flushes := s.flushes - multiset{e});
      if s.epoch != e then t else ScheduleReconnect(Disconnect(t))
    case ReplyPostFails => ScheduleReconnect(Disconnect(s))
    case ReplyWithoutPort => ScheduleReconnect(s)
  }

  /** Between event handlers of one worker lifetime: the script's first connect, then any events. */
  ghost predicate Reachable(s: State, available: bool) {
    exists first, steps :: Run(Connect(BLANK, available, first), available, steps, s)
  }

  predicate Run(s: State, available: bool, steps: seq<Step>, t: State)
    decreases |steps|
  {
    if steps == [] then s == t
    else Enabled(s, steps[0]) && Run(Apply(s, available, steps[0]), available, steps[1..], t)
  }

  // ---------- the invariant ----------

  ghost predicate LinkOk(s: State) {
    && !s.inFlight
    && (s.heartbeat <==> s.port.Some?)
    && s.missed < MISSES_BEFORE_RECONNECT && (s.port.None? ==> s.missed == 0)
    && (s.port.Some? ==> s.port.value in s.epochOf && s.epochOf[s.port.value] == s.epoch && s.port.value !in s.suppressed)
    && (forall p <- s.epochOf :: p < s.nextPort && s.epochOf[p] <= s.epoch)
    && (forall p <- s.suppressed :: p < s.nextPort)
  }

  ghost predicate RequestsOk(s: State) {
    && s.timers == s.callbacks.Keys
    && (forall r <- s.callbacks :: s.callbacks[r].epoch == s.epoch && s.port.Some? && r !in s.settled)
    && (forall r <- s.settled :: |s.settled[r]| == 1)
  }

  /** Exactly one of a live port and a pending reconnect timer. */
  predicate Linked(s: State) { s.port.Some? != s.reconnectTimer }

  ghost predicate Inv(s: State, available: bool) {
    && LinkOk(s) && RequestsOk(s)
    && (if available then Linked(s) else s.port.None?)
  }

  /** Before the first connect, or with the reconnect timer spent or cleared, the link may still be missing. */
  ghost predicate MayConnect(s: State, available: bool) {
    LinkOk(s) && RequestsOk(s) && (s.port.Some? ==> !s.reconnectTimer && available)
  }

  lemma ConnectKeepsInv(s: State, available: bool, attempt: Attempt)
    requires MayConnect(s, available)
    ensures Inv(Connect(s, available, attempt), available)
  {
  }

  lemma DisconnectKeepsInv(s: State, available: bool)
    requires RequestsOk(s) && LinkOk(s.(missed := 0))
    ensures LinkOk(ScheduleReconnect(Disconnect(s))) || (s.port.None? && s.missed != 0)
    ensures RequestsOk(Disconnect(s)) && Disconnect(s).port.None?
    ensures forall r <- s.settled :: Told(Disconnect(s), r) == Told(s, r)
    ensures forall r :: r !in s.settled && r !in s.callbacks ==> r !in Disconnect(s).settled
  {
  }

  lemma IssueKeepsInv(s: State, available: bool, req: string, cmd: string, postOk: bool)
    requires Inv(s, available) && FreshRequest(s, req)
    ensures Inv(Issue(s, req, cmd, postOk), available)
    ensures s.port.Some? && !postOk ==> Told(Issue(s, req, cmd, postOk), req) == [Failed]
  {
    if s.port.Some? && !postOk {
      var t := ClearCallback(s.(callbacks := s.callbacks[req := Callback(s.epoch, cmd)], timers := s.timers + {req}), req);
      assert t.callbacks == s.callbacks && t.timers == s.timers;
      DisconnectKeepsInv(t, available);
    }
  }

  lemma AnswerKeepsInv(s: State, available: bool, req: string, cmd: string)
    requires Inv(s, available)
    ensures Inv(Answer(s, req, cmd), available)
  {
  }

  lemma TimeoutKeepsInv(s: State, available: bool, req: string)
    requires Inv(s, available) && req in s.timers
    ensures Inv(ControlTimeout(s, req), available)
  {
  }

  lemma PortLostKeepsInv(s: State, available: bool, port: nat, unavailable: bool)
    requires Inv(s, available)
    ensures Inv(PortLost(s, port, unavailable), available)
  {
  }

  lemma BeatCallsKeepsInv(s: State, available: bool, b: nat, req: string, postOk: bool)
    requires Inv(s, available) && Enabled(s, HeartbeatCalls(b, req, postOk))
    ensures Inv(BeatCalls(s, b, req, postOk), available)
  {
    IssueKeepsInv(s, available, req, "ping_response", postOk);
  }

  lemma BeatEndsKeepsInv(s: State, available: bool, b: nat, healthy: bool)
    requires Inv(s, available) && Enabled(s, HeartbeatEnds(b, healthy))
    ensures Inv(BeatEnds(s, b, healthy), available)
  {
    if s.port.Some? {
      DropLinkKeepsInv(s, s.(beats := s.beats - {b}, missed := s.missed + 1), available);
    }
  }

  /** Tear the port down and schedule a reconnect. */
  lemma DropLinkKeepsInv(s: State, t: State, available: bool)
    requires Inv(s, available)
    requires t == s.(beats := t.beats, flushes := t.flushes, missed := t.missed) && (t.port.None? ==> t.missed == 0)
    ensures Inv(ScheduleReconnect(Disconnect(t)), available)
  {
    DisconnectKeepsInv(t, available);
  }

  predicate Connects(step: Step) {
    step.ConnectNow? || step.TimerFires? || step.WakeReset? || step.EnsureConnected?
  }

  predicate Drops(step: Step) {
    step.PortDisconnects? || step.HeartbeatEnds? || step.FlushFires? || step.ReplyPostFails?
  }

  predicate Asks(step: Step) {
    step.IssueControl? || step.TimeoutFires? || step.PortMessage? || step.HeartbeatCalls?
  }

  lemma ConnectStep(s: State, available: bool, step: Step)
    requires Inv(s, available) && Enabled(s, step) && Connects(step)
    ensures Inv(Apply(s, available, step), available)
  {
    match step
    case ConnectNow(a) => ConnectKeepsInv(s, available, a);
    case TimerFires(a) => TimerClearedKeepsInv(s, Apply(s, available, step), available, s.attempts + 1, s.slowMode, a);
    case WakeReset(a) => TimerClearedKeepsInv(s, Apply(s, available, step), available, 0, false, a);
    case EnsureConnected(a) =>
      if s.port.None? && !s.slowMode {
        TimerClearedKeepsInv(s, Apply(s, available, step), available, s.attempts, s.slowMode, a);
      }
  }

  lemma TimerClearedKeepsInv(s: State, t: State, available: bool, attempts: nat, slowMode: bool, attempt: Attempt)
    requires Inv(s, available) && t == Connect(ClearTimer(s, attempts, slowMode), available, attempt)
    ensures Inv(t, available)
  {
    TimerSpentMayConnect(s, available, attempts, slowMode);
    ConnectKeepsInv(ClearTimer(s, attempts, slowMode), available, attempt);
  }

  lemma TimerSpentMayConnect(s: State, available: bool, attempts: nat, slowMode: bool)
    requires Inv(s, available)
    ensures MayConnect(ClearTimer(s, attempts, slowMode), available)
  {
    assert LinkOk(ClearTimer(s, attempts, slowMode));
  }

  lemma DropStep(s: State, available: bool, step: Step)
    requires Inv(s, available) && Enabled(s, step) && Drops(step)
    ensures Inv(Apply(s, available, step), available)
  {
    match step
    case PortDisconnects(p, unavailable) => PortLostKeepsInv(s, available, p, unavailable);
    case HeartbeatEnds(b, healthy) => BeatEndsKeepsInv(s, available, b, healthy);
    case FlushFires(e) => DropLinkKeepsInv(s, s.(flushes := s.flushes - multiset{e}), available);
    case ReplyPostFails => DropLinkKeepsInv(s, s, available);
  }

  lemma AskStep(s: State, available: bool, step: Step)
    requires Inv(s, available) && Enabled(s, step) && Asks(step)
    ensures Inv(Apply(s, available, step), available)
  {
    match step
    case IssueControl(req, cmd, postOk) => IssueKeepsInv(s, available, req, cmd, postOk);
    case TimeoutFires(req) => TimeoutKeepsInv(s, available, req);
    case PortMessage(p, req, cmd) => AnswerKeepsInv(s, available, req, cmd);
    case HeartbeatCalls(b, req, postOk) => BeatCallsKeepsInv(s, available, b, req, postOk);
  }

  lemma StepKeepsInv(s: State, available: bool, step: Step)
    requires Inv(s, available) && Enabled(s, step)
    ensures Inv(Apply(s, available, step), available)
  {
    if Connects(step) {
      ConnectStep(s, available, step);
    } else if Drops(step) {
      DropStep(s, available, step);
    } else if Asks(step) {
      AskStep(s, available, step);
    } else {
      SmallStep(s, available, step);
    }
  }

  lemma SmallStep(s: State, available: bool, step: Step)
    requires Inv(s, available) && Enabled(s, step)
    requires !Connects(step) && !Drops(step) && !Asks(step)
    ensures Inv(Apply(s, available, step), available)
  {
  }

  lemma {:induction false} RunKeepsInv(s: State, available: bool, steps: seq<Step>, t: State)
    requires Inv(s, available) && Run(s, available, steps, t)
    ensures Inv(t, available)
    decreases |steps|
  {
    if steps != [] {
      StepKeepsInv(s, available, steps[0]);
      RunKeepsInv(Apply(s, available, steps[0]), available, steps[1..], t);
    }
  }

  lemma ReachableHasInv(s: State, available: bool)
    requires Reachable(s, available)
    ensures Inv(s, available)
  {
    var first, steps :| Run(Connect(BLANK, available, first), available, steps, s);
    ConnectKeepsInv(BLANK, available, first);
    RunKeepsInv(Connect(BLANK, available, first), available, steps, s);
  }

  // ---------- what it guarantees ----------

  /** Between handlers exactly one of a live port and a pending reconnect timer exists, the heartbeat timer runs
      exactly while the port is live, and fewer than two heartbeats have been missed. */
  lemma LinkAlwaysHeld(s: State)
    requires Reachable(s, true)
    ensures s.port.Some? != s.reconnectTimer
    ensures s.heartbeat <==> s.port.Some?
    ensures s.missed < 2 && (s.port.None? ==> s.missed == 0)
  {
    ReachableHasInv(s, true);
  }

  /** That holds exactly when the browser offers native messaging. Without it there is never a port, and the first
      connect leaves neither port nor timer. */
  lemma LinkHeldIffAvailable(available: bool)
    ensures available <==> forall s :: Reachable(s, available) ==> Linked(s)
  {
    if available {
      forall s | Reachable(s, available) ensures Linked(s) {
        ReachableHasInv(s, available);
      }
    } else {
      var s := Connect(BLANK, available, Opens);
      assert Run(s, available, [], s);
      assert Reachable(s, available) && !Linked(s);
    }
  }

  /** Every pending control request is for the live port and has its timeout armed; a lost port leaves none. */
  lemma PendingRequestsAreLive(s: State, available: bool, req: string)
    requires Reachable(s, available) && req in s.callbacks
    ensures s.port.Some? && s.callbacks[req].epoch == s.epoch && req in s.timers
    ensures Listens(s, s.port.value)
  {
    ReachableHasInv(s, available);
  }

  /** A settled request stays as it was told; a pending one stays pending or is told once. */
  ghost predicate SettledOnce(s: State, t: State) {
    && (forall r <- s.settled :: Told(t, r) == Told(s, r))
    && (forall r <- s.callbacks :: r in t.callbacks || |Told(t, r)| == 1)
  }

  lemma StepSettlesOnce(s: State, available: bool, step: Step)
    requires Inv(s, available) && Enabled(s, step)
    ensures SettledOnce(s, Apply(s, available, step))
  {
    StepKeepsInv(s, available, step);
    StepTells(s, available, step);
  }

  /** No step takes back or adds to what a settled request was told, or forgets a pending one. */
  ghost predicate Tells(s: State, t: State) {
    && (forall r <- s.settled :: Told(t, r) == Told(s, r))
    && (forall r <- s.callbacks :: r in t.callbacks || r in t.settled)
  }

  lemma StepTells(s: State, available: bool, step: Step)
    requires Inv(s, available) && Enabled(s, step)
    ensures Tells(s, Apply(s, available, step))
  {
    if Drops(step) {
      DropTells(s, available, step);
    } else if Asks(step) {
      AskTells(s, available, step);
    } else {
      QuietTells(s, available, step);
    }
  }

  lemma DropTells(s: State, available: bool, step: Step)
    requires Inv(s, available) && Enabled(s, step) && Drops(step)
    ensures Tells(s, Apply(s, available, step))
  {
    match step
    case HeartbeatEnds(b, _) => DisconnectTells(s.(beats := s.beats - {b}, missed := s.missed + 1));
    case FlushFires(e) => DisconnectTells(s.(flushes := s.flushes - multiset{e}));
    case ReplyPostFails => DisconnectTells(s);
    case PortDisconnects(p, unavailable) => PortLostTells(s, p, unavailable);
  }

  lemma AskTells(s: State, available: bool, step: Step)
    requires Inv(s, available) && Enabled(s, step) && Asks(step)
    ensures Tells(s, Apply(s, available, step))
  {
    match step
    case IssueControl(req, cmd, postOk) => IssueTells(s, req, cmd, postOk);
    case HeartbeatCalls(b, req, postOk) => IssueTells(s, req, "ping_response", postOk);
    case PortMessage(p, req, cmd) => AnswerTells(s, req, cmd);
    case TimeoutFires(req) => assert req !in s.settled;
  }

  lemma ConnectTells(s: State, u: State, available: bool, attempt: Attempt)
    requires u.settled == s.settled && u.callbacks == s.callbacks
    ensures Tells(s, Connect(u, available, attempt))
  {
  }

  lemma QuietTells(s: State, available: bool, step: Step)
    requires Enabled(s, step) && !Drops(step) && !Asks(step)
    ensures Tells(s, Apply(s, available, step))
  {
    if Connects(step) {
      AttemptTells(s, available, step);
    } else {
      SmallTells(s, available, step);
    }
  }

  lemma AttemptTells(s: State, available: bool, step: Step)
    requires Enabled(s, step) && Connects(step)
    ensures Tells(s, Apply(s, available, step))
  {
    match step
    case ConnectNow(a) => ConnectTells(s, s, available, a);
    case TimerFires(a) => ConnectTells(s, ClearTimer(s, s.attempts + 1, s.slowMode), available, a);
    case WakeReset(a) => ConnectTells(s, ClearTimer(s, 0, false), available, a);
    case EnsureConnected(a) =>
      ConnectTells(s, ClearTimer(s, s.attempts, s.slowMode), available, a);
      SameTells(s);
  }

  lemma SameTells(s: State)
    ensures Tells(s, s)
  {
  }

  lemma SmallTells(s: State, available: bool, step: Step)
    requires Enabled(s, step) && !Drops(step) && !Asks(step) && !Connects(step)
    ensures Tells(s, Apply(s, available, step))
  {
  }

  lemma AnswerTells(s: State, req: string, cmd: string)
    requires RequestsOk(s)
    ensures Tells(s, Answer(s, req, cmd))
  {
    if req in s.callbacks {
      SettledTells(s, req, Failed);
      SettledTells(s, req, Answered);
    }
  }

  lemma SettledTells(s: State, req: string, how: Settlement)
    requires RequestsOk(s) && req in s.callbacks
    ensures Tells(s, SettleRequest(ClearCallback(s, req), req, how))
  {
  }

  lemma FailedKeepsTold(settled: map<string, seq<Settlement>>, reqs: set<string>)
    requires reqs !! settled.Keys
    ensures settled.Keys + reqs == TellFailed(settled, reqs).Keys
    ensures forall r <- settled :: TellFailed(settled, reqs)[r] == settled[r]
    ensures forall r <- reqs :: TellFailed(settled, reqs)[r] == [Failed]
  {
    assert forall r <- settled :: settled[r] + [] == settled[r];
  }

  lemma FailingTells(s: State, t: State)
    requires s.callbacks.Keys !! s.settled.Keys && t.settled == TellFailed(s.settled, s.callbacks.Keys)
    ensures Tells(s, t)
  {
    FailedKeepsTold(s.settled, s.callbacks.Keys);
  }

  lemma PortLostTells(s: State, port: nat, unavailable: bool)
    requires RequestsOk(s)
    ensures Tells(s, PortLost(s, port, unavailable))
  {
    if s.port == Some(port) {
      FailingTells(s, PortLost(s, port, unavailable));
    }
  }

  lemma DisconnectTells(s: State)
    requires RequestsOk(s)
    ensures Tells(s, Disconnect(s))
  {
    if s.port.Some? {
      FailingTells(s, Disconnect(s));
    }
  }

  lemma IssueTells(s: State, req: string, cmd: string, postOk: bool)
    requires RequestsOk(s) && FreshRequest(s, req)
    ensures Tells(s, Issue(s, req, cmd, postOk))
  {
    if s.port.Some? && !postOk {
      var t := ClearCallback(s.(callbacks := s.callbacks[req := Callback(s.epoch, cmd)], timers := s.timers + {req}), req);
      assert t.callbacks == s.callbacks && t.timers == s.timers;
      DisconnectTells(t);
    }
  }

  /** Over any run: whoever made a control request is told at most once, and once told hears nothing else. */
  lemma {:induction false} RequestSettlesOnce(s: State, available: bool, steps: seq<Step>, t: State, req: string)
    requires Inv(s, available) && Run(s, available, steps, t)
    requires req in s.callbacks || req in s.settled
    ensures |Told(t, req)| <= 1 && (req in t.callbacks <==> Told(t, req) == [])
    ensures req in s.settled ==> Told(t, req) == Told(s, req)
    decreases |steps|
  {
    if steps != [] {
      var u := Apply(s, available, steps[0]);
      StepKeepsInv(s, available, steps[0]);
      StepSettlesOnce(s, available, steps[0]);
      RequestSettlesOnce(u, available, steps[1..], t, req);
    }
  }

  /** The listener's epoch test is implied by its port test, and the stale-callback branch is never taken. */
  lemma StaleBranchesAreDead(s: State, available: bool, port: nat, req: string)
    requires Reachable(s, available)
    ensures Listens(s, port) <==> s.port == Some(port)
    ensures req in s.callbacks ==> s.callbacks[req].epoch == s.epoch
    ensures s.port.Some? ==> s.port.value !in s.suppressed
  {
    ReachableHasInv(s, available);
  }

  /** Nothing a replaced port says changes anything. */
  lemma ReplacedPortIsMute(s: State, available: bool, port: nat, req: string, cmd: string, unavailable: bool)
    requires Reachable(s, available) && port in s.epochOf && s.port != Some(port)
    ensures Apply(s, available, PortMessage(port, req, cmd)) == s
    ensures Apply(s, available, PortDisconnects(port, unavailable)) == s
  {
    ReachableHasInv(s, available);
  }

  // ---------- what each step does, told in the fields before and after ----------

  predicate SameLink(s: State, t: State) {
    && t.port == s.port && t.epoch == s.epoch && t.epochOf == s.epochOf && t.nextPort == s.nextPort
    && t.heartbeat == s.heartbeat
  }

  predicate SameBackoff(s: State, t: State) { t.attempts == s.attempts && t.slowMode == s.slowMode }

  predicate SameRequests(s: State, t: State) {
    t.callbacks == s.callbacks && t.timers == s.timers && t.settled == s.settled && t.lateRequests == s.lateRequests
  }

  predicate SameBeats(s: State, t: State) { t.beats == s.beats && t.nextBeat == s.nextBeat }

  /** The port is gone under a new epoch, the heartbeat is off, a reconnect is scheduled, and these requests, every
      pending one among them, have been told once that they failed; nobody else was told anything. */
  ghost predicate LinkLost(s: State, t: State, failed: set<string>) {
    && t.port.None? && t.epoch == s.epoch + 1 && t.epochOf == s.epochOf && t.nextPort == s.nextPort
    && !t.heartbeat && t.missed == 0 && t.reconnectTimer
    && t.callbacks == map[] && t.timers == {} && s.callbacks.Keys <= failed
    && (forall r: string :: Told(t, r) == if r in failed then [Failed] else Told(s, r))
  }

  /** One pending request has been answered or given up; nothing else about requests or link changed. */
  ghost predicate OneSettled(s: State, t: State, req: string, how: Settlement) {
    && t.callbacks == s.callbacks - {req} && t.timers == s.timers - {req}
    && (forall r: string :: Told(t, r) == if r == req then [how] else Told(s, r))
    && SameLink(s, t) && SameBackoff(s, t) && SameBeats(s, t)
    && t.reconnectTimer == s.reconnectTimer && t.missed == s.missed
  }

  /** A new port object is made under a new epoch. */
  predicate PortMade(s: State, t: State) {
    t.epoch == s.epoch + 1 && t.epochOf == s.epochOf[s.nextPort := t.epoch] && t.nextPort == s.nextPort + 1
  }

  /** An attempt to connect, with these backoff values and with or without a timer left. */
  predicate Attempted(s: State, t: State, available: bool, attempt: Attempt, timer: bool, attempts: nat, slowMode: bool) {
    && SameRequests(s, t) && SameBeats(s, t) && t.flushes == s.flushes && t.attempts == attempts
    && if !available || s.port.Some? then
         SameLink(s, t) && t.missed == s.missed && t.reconnectTimer == timer && t.slowMode == slowMode
       else if attempt.Opens? then
         && t.port == Some(s.nextPort) && t.port.value !in s.epochOf && PortMade(s, t)
         && t.heartbeat && t.missed == 0 && !t.reconnectTimer && t.slowMode == slowMode
       else
         && t.port.None? && !t.heartbeat && t.missed == s.missed
         && (if attempt.ListenerThrows? then PortMade(s, t)
             else t.epoch == s.epoch && t.epochOf == s.epochOf && t.nextPort == s.nextPort)
         && t.reconnectTimer && t.slowMode == (slowMode || attempt.unavailable)
  }

  /** A request that was issued waits for its answer; without a port it is not issued, and a failed post costs the link
      and fails it with all others. */
  ghost predicate Issued(s: State, t: State, req: string, responseCmd: string, postOk: bool) {
    if s.port.None? then SameLink(s, t) && SameRequests(s, t) && t.reconnectTimer == s.reconnectTimer && t.missed == s.missed
    else if postOk then
      && SameLink(s, t) && t.reconnectTimer == s.reconnectTimer && t.missed == s.missed
      && t.callbacks == s.callbacks[req := Callback(s.epoch, responseCmd)] && t.timers == s.timers + {req}
      && t.settled == s.settled && t.lateRequests == s.lateRequests
    else LinkLost(s, t, s.callbacks.Keys + {req})
  }

  /** A message of the live port answers the pending request it names if it carries the expected command, and is no
      request's answer otherwise; one for a request that timed out is consumed. Other ports are not listened to. */
  ghost predicate Heard(s: State, t: State, port: nat, req: string, cmd: string) {
    if s.port != Some(port) || req == "" then t == s
    else if req in s.callbacks then
      if s.callbacks[req].responseCmd in {"", cmd} then OneSettled(s, t, req, Answered) && t.lateRequests == s.lateRequests
      else t == s
    else t == s.(lateRequests := s.lateRequests - {req})
  }

  /** A heartbeat's outcome counts only on the port and epoch it started on: an answer from a connected bridge clears
      the misses and the backoff, anything else is a miss, and the second miss costs the link. */
  ghost predicate BeatCounted(s: State, t: State, b: nat, healthy: bool)
    requires b in s.beats && s.beats[b].request.Some? && Told(s, s.beats[b].request.value) != []
  {
    && t.beats == s.beats - {b} && t.nextBeat == s.nextBeat && t.flushes == s.flushes
    && if s.port != Some(s.beats[b].port) || s.epoch != s.beats[b].epoch then
         SameLink(s, t) && SameBackoff(s, t) && SameRequests(s, t) && t.missed == s.missed && t.reconnectTimer == s.reconnectTimer
       else if healthy && Told(s, s.beats[b].request.value)[0].Answered? then
         && SameLink(s, t) && SameRequests(s, t) && t.reconnectTimer == s.reconnectTimer
         && t.missed == 0 && t.attempts == 0 && !t.slowMode
       else if s.missed == 0 then
         && SameLink(s, t) && SameBackoff(s, t) && SameRequests(s, t) && t.reconnectTimer == s.reconnectTimer
         && t.missed == s.missed + 1
       else LinkLost(s, t, s.callbacks.Keys) && SameBackoff(s, t)
  }

  ghost predicate Does(s: State, available: bool, step: Step, t: State)
    requires Enabled(s, step)
  {
    match step
    case ConnectNow(a) => Attempted(s, t, available, a, s.reconnectTimer, s.attempts, s.slowMode)
    case TimerFires(a) => Attempted(s, t, available, a, false, s.attempts + 1, s.slowMode)
    case Wake => t == s.(reconnectTimer := s.reconnectTimer || s.port.None?)
    case WakeReset(a) => Attempted(s, t, available, a, false, 0, false)
    case EnsureConnected(a) =>
      if s.port.Some? || s.slowMode then t == s else Attempted(s, t, available, a, false, s.attempts, s.slowMode)
    case IssueControl(req, cmd, postOk) => Issued(s, t, req, cmd, postOk) && SameBackoff(s, t) && SameBeats(s, t)
    case TimeoutFires(req) => OneSettled(s, t, req, Failed) && t.lateRequests == s.lateRequests + {req}
    case ForgetLate(req) => t == s.(lateRequests := s.lateRequests - {req})
    case PortMessage(p, req, cmd) => Heard(s, t, p, req, cmd)
    case PortDisconnects(p, unavailable) =>
      if s.port != Some(p) then t == s
      else LinkLost(s, t, s.callbacks.Keys) && t.attempts == s.attempts && t.slowMode == (s.slowMode || unavailable)
    case HeartbeatTick =>
      if s.port.None? then t == s
      else t == s.(beats := s.beats[s.nextBeat := Beat(s.port.value, s.epoch, None)], nextBeat := s.nextBeat + 1)
    case HeartbeatCalls(b, req, postOk) =>
      && Issued(s, t, req, "ping_response", postOk) && SameBackoff(s, t)
      && t.beats == if s.port.None? then s.beats - {b} else s.beats[b := s.beats[b].(request := Some(req))]
    case HeartbeatEnds(b, healthy) => BeatCounted(s, t, b, healthy)
    case RecoveryPingAnswered => t == s.(missed := 0)
    case ScheduleFlush => t == s.(flushes := s.flushes + multiset{s.epoch})
    case FlushFires(e) =>
      && t.flushes == s.flushes - multiset{e} && SameBackoff(s, t) && SameBeats(s, t)
      && if e == s.epoch && s.port.Some? then LinkLost(s, t, s.callbacks.Keys)
         else SameLink(s, t) && SameRequests(s, t) && t.missed == s.missed && t.reconnectTimer == (s.reconnectTimer || e == s.epoch)
    case ReplyPostFails => LinkLost(s, t, s.callbacks.Keys) && SameBackoff(s, t) && SameBeats(s, t) && t.flushes == s.flushes
    case ReplyWithoutPort => t == s.(reconnectTimer := true)
  }

  lemma FailedTold(settled: map<string, seq<Settlement>>, reqs: set<string>, r: string)
    requires reqs !! settled.Keys
    ensures (if r in TellFailed(settled, reqs) then TellFailed(settled, reqs)[r] else [])
         == if r in reqs then [Failed] else if r in settled then settled[r] else []
  {
    FailedKeepsTold(settled, reqs);
  }

  lemma DisconnectDoes(s: State)
    requires RequestsOk(s) && s.port.Some?
    ensures LinkLost(s, ScheduleReconnect(Disconnect(s)), s.callbacks.Keys)
  {
    var t := ScheduleReconnect(Disconnect(s));
    forall r: string ensures Told(t, r) == if r in s.callbacks.Keys then [Failed] else Told(s, r) {
      FailedTold(s.settled, s.callbacks.Keys, r);
    }
  }

  lemma LossDoes(s: State, available: bool, port: nat, unavailable: bool)
    requires Inv(s, available) && s.port == Some(port)
    ensures LinkLost(s, PortLost(s, port, unavailable), s.callbacks.Keys)
    ensures PortLost(s, port, unavailable).attempts == s.attempts
    ensures PortLost(s, port, unavailable).slowMode == (s.slowMode || unavailable)
  {
    var t := PortLost(s, port, unavailable);
    forall r: string ensures Told(t, r) == if r in s.callbacks.Keys then [Failed] else Told(s, r) {
      FailedTold(s.settled, s.callbacks.Keys, r);
    }
  }

  lemma IssueDoes(s: State, req: string, cmd: string, postOk: bool)
    requires RequestsOk(s) && FreshRequest(s, req)
    ensures var t := Issue(s, req, cmd, postOk); Issued(s, t, req, cmd, postOk) && SameBackoff(s, t) && SameBeats(s, t)
  {
    if s.port.Some? && !postOk {
      var u := ClearCallback(s.(callbacks := s.callbacks[req := Callback(s.epoch, cmd)], timers := s.timers + {req}), req);
      assert u.callbacks == s.callbacks && u.timers == s.timers;
      DisconnectDoes(u);
      FailedLast(s, ScheduleReconnect(Disconnect(u)), req);
    }
  }

  lemma FailedLast(s: State, v: State, req: string)
    requires LinkLost(s, v, s.callbacks.Keys) && Told(s, req) == [] && req !in s.callbacks
    ensures LinkLost(s, SettleRequest(v, req, Failed), s.callbacks.Keys + {req})
  {
    var t := SettleRequest(v, req, Failed);
    forall r: string ensures Told(t, r) == if r in s.callbacks.Keys + {req} then [Failed] else Told(s, r) {
      assert Told(v, r) == if r in s.callbacks.Keys then [Failed] else Told(s, r);
    }
  }

  lemma SettleDoes(s: State, req: string, how: Settlement)
    requires RequestsOk(s) && req in s.callbacks
    ensures OneSettled(s, SettleRequest(ClearCallback(s, req), req, how), req, how)
  {
    assert Told(s, req) == [];
  }

  lemma HearDoes(s: State, available: bool, port: nat, req: string, cmd: string)
    requires Inv(s, available) && Enabled(s, PortMessage(port, req, cmd))
    ensures Heard(s, Apply(s, available, PortMessage(port, req, cmd)), port, req, cmd)
  {
    if req in s.callbacks {
      SettleDoes(s, req, Answered);
    }
  }

  lemma BeatDoes(s: State, available: bool, b: nat, healthy: bool)
    requires Inv(s, available) && Enabled(s, HeartbeatEnds(b, healthy))
    ensures BeatCounted(s, BeatEnds(s, b, healthy), b, healthy)
  {
    if s.port.Some? {
      MissDoes(s, s.(beats := s.beats - {b}, missed := s.missed + 1));
    }
  }

  lemma MissDoes(s: State, u: State)
    requires RequestsOk(s) && s.port.Some? && u == s.(beats := u.beats, flushes := u.flushes, missed := u.missed)
    ensures LinkLost(s, ScheduleReconnect(Disconnect(u)), s.callbacks.Keys)
  {
    DisconnectDoes(u);
    var t := ScheduleReconnect(Disconnect(u));
    forall r: string ensures Told(t, r) == if r in s.callbacks.Keys then [Failed] else Told(s, r) {
      assert Told(u, r) == Told(s, r);
    }
  }

  lemma AttemptDoes(s: State, available: bool, attempt: Attempt, timer: bool, attempts: nat, slowMode: bool)
    requires LinkOk(s)
    ensures Attempted(s, Connect(s.(reconnectTimer := timer, attempts := attempts, slowMode := slowMode), available, attempt),
                      available, attempt, timer, attempts, slowMode)
  {
  }

  lemma ConnectingDoes(s: State, available: bool, step: Step)
    requires Inv(s, available) && Enabled(s, step) && Connects(step)
    ensures Does(s, available, step, Apply(s, available, step))
  {
    match step
    case ConnectNow(a) => AttemptNowDoes(s, available, a);
    case TimerFires(a) => ClearedAttemptDoes(s, available, a, s.attempts + 1, s.slowMode);
    case WakeReset(a) => ClearedAttemptDoes(s, available, a, 0, false);
    case EnsureConnected(a) => ClearedAttemptDoes(s, available, a, s.attempts, s.slowMode);
  }

  lemma AttemptNowDoes(s: State, available: bool, attempt: Attempt)
    requires LinkOk(s)
    ensures Attempted(s, Connect(s, available, attempt), available, attempt, s.reconnectTimer, s.attempts, s.slowMode)
  {
    AttemptDoes(s, available, attempt, s.reconnectTimer, s.attempts, s.slowMode);
    assert s == s.(reconnectTimer := s.reconnectTimer, attempts := s.attempts, slowMode := s.slowMode);
  }

  lemma ClearedAttemptDoes(s: State, available: bool, attempt: Attempt, attempts: nat, slowMode: bool)
    requires LinkOk(s)
    ensures Attempted(s, Connect(ClearTimer(s, attempts, slowMode), available, attempt), available, attempt, false, attempts, slowMode)
  {
    AttemptDoes(s, available, attempt, false, attempts, slowMode);
  }

  lemma DroppingDoes(s: State, available: bool, step: Step)
    requires Inv(s, available) && Enabled(s, step) && Drops(step)
    ensures Does(s, available, step, Apply(s, available, step))
  {
    match step
    case PortDisconnects(p, unavailable) =>
      if s.port == Some(p) {
        LossDoes(s, available, p, unavailable);
      }
    case HeartbeatEnds(b, healthy) => BeatDoes(s, available, b, healthy);
    case FlushFires(e) =>
      if s.port.Some? {
        MissDoes(s, s.(flushes := s.flushes - multiset{e}));
      }
    case ReplyPostFails => DisconnectDoes(s);
  }

  lemma AskingDoes(s: State, available: bool, step: Step)
    requires Inv(s, available) && Enabled(s, step) && Asks(step)
    ensures Does(s, available, step, Apply(s, available, step))
  {
    match step
    case IssueControl(req, cmd, postOk) => IssueDoes(s, req, cmd, postOk);
    case TimeoutFires(req) => SettleDoes(s, req, Failed);
    case PortMessage(p, req, cmd) => HearDoes(s, available, p, req, cmd);
    case HeartbeatCalls(b, req, postOk) => IssueDoes(s, req, "ping_response", postOk);
  }

  lemma StepDoes(s: State, available: bool, step: Step)
    requires Inv(s, available) && Enabled(s, step)
    ensures Does(s, available, step, Apply(s, available, step))
  {
    if Connects(step) {
      ConnectingDoes(s, available, step);
    } else if Drops(step) {
      DroppingDoes(s, available, step);
    } else if Asks(step) {
      AskingDoes(s, available, step);
    }
  }

  /** In every reachable state the loss of the live port gives it up, fails what was pending once, and reconnects. */
  lemma LivePortLost(s: State, available: bool, port: nat, unavailable: bool)
    requires Reachable(s, available) && s.port == Some(port)
    ensures port in s.epochOf
    ensures var t := Apply(s, available, PortDisconnects(port, unavailable));
      && t.port.None? && t.reconnectTimer && t.epoch == s.epoch + 1 && !t.heartbeat && t.callbacks == map[]
      && forall r <- s.callbacks :: Told(t, r) == [Failed]
  {
    ReachableHasInv(s, available);
    StepDoes(s, available, PortDisconnects(port, unavailable));
  }

  /** In every reachable state without a port, an attempt that succeeds opens a new one under a new epoch and starts its
      heartbeat in place of the timer; one that throws leaves the timer armed. */
  lemma PortOpened(s: State, step: Step, attempt: Attempt)
    requires Reachable(s, true) && s.port.None? && Enabled(s, step)
    requires step in {ConnectNow(attempt), TimerFires(attempt), WakeReset(attempt), EnsureConnected(attempt)}
    requires step.EnsureConnected? ==> !s.slowMode
    ensures var t := Apply(s, true, step);
      && (t.port.Some? <==> attempt.Opens?) && (t.heartbeat <==> attempt.Opens?) && (t.reconnectTimer <==> !attempt.Opens?)
      && (attempt.Opens? ==>
            && t.port.value !in s.epochOf && t.epoch == s.epoch + 1
            && t.port.value in t.epochOf && t.epochOf[t.port.value] == t.epoch && t.missed == 0)
      && t.callbacks == map[] && t.settled == s.settled
  {
    ReachableHasInv(s, true);
    StepDoes(s, true, step);
  }

  /** In every reachable state a message of the live port tells the pending request it names that it was answered, once,
      exactly if it carries an id and the command that request waits for; no other request hears anything. */
  lemma AnsweredIff(s: State, available: bool, port: nat, req: string, cmd: string)
    requires Reachable(s, available) && s.port == Some(port) && req in s.callbacks
    ensures port in s.epochOf
    ensures var t := Apply(s, available, PortMessage(port, req, cmd));
      && (req !in t.callbacks <==> req != "" && s.callbacks[req].responseCmd in {"", cmd})
      && (req !in t.callbacks <==> Told(t, req) == [Answered])
      && (forall r <- s.callbacks :: r != req ==> r in t.callbacks)
      && forall r: string :: r != req ==> Told(t, r) == Told(s, r)
  {
    ReachableHasInv(s, available);
    StepDoes(s, available, PortMessage(port, req, cmd));
    assert Told(s, req) == [];
  }

  function RejectOne(s: State, req: string): State { SettleRequest(ClearCallback(s, req), req, Failed) }

  lemma TellOneThenRest(settled: map<string, seq<Settlement>>, reqs: set<string>, req: string)
    requires req in reqs
    ensures TellFailed(settled[req := (if req in settled then settled[req] else []) + [Failed]], reqs - {req})
         == TellFailed(settled, reqs)
  {
    var one := settled[req := (if req in settled then settled[req] else []) + [Failed]];
    assert one.Keys + (reqs - {req}) == settled.Keys + reqs;
    assert one[req] + [] == one[req];
  }

  /** In whatever order the callbacks are rejected, the outcome is the same. */
  lemma RejectOneThenAll(s: State, req: string)
    requires req in s.callbacks
    ensures RejectAll(RejectOne(s, req)) == RejectAll(s)
  {
    var t := RejectOne(s, req);
    assert t.callbacks.Keys == s.callbacks.Keys - {req};
    TellOneThenRest(s.settled, s.callbacks.Keys, req);
    assert t.timers - t.callbacks.Keys == s.timers - s.callbacks.Keys;
  }

  lemma RejectNone(s: State)
    requires s.callbacks.Keys == {}
    ensures RejectAll(s) == s
  {
    assert s.callbacks == map[];
    FailedKeepsTold(s.settled, {});
    assert RejectAll(s).timers == s.timers;
  }

  // ---------- the module state ----------

  class NativeConnection {
    const available: bool   // whether the browser offers native messaging at all
    var port: Option<nat>
    var epoch: nat
    var epochOf: map<nat, nat>
    var nextPort: nat
    var reconnectTimer: bool
    var attempts: nat
    var slowMode: bool
    var inFlight: bool
    var heartbeat: bool
    var missed: nat
    var callbacks: map<string, Callback>
    var timers: set<string>
    var lateRequests: set<string>
    var suppressed: set<nat>
    var settled: map<string, seq<Settlement>>
    var beats: map<nat, Beat>
    var nextBeat: nat
    var flushes: multiset<nat>

    ghost function S(): State reads this {
      State(port, epoch, epochOf, nextPort, reconnectTimer, attempts, slowMode, inFlight, heartbeat, missed,
            callbacks, timers, lateRequests, suppressed, settled, beats, nextBeat, flushes)
    }

    constructor (offered: bool)
      ensures S() == BLANK && available == offered && MayConnect(S(), available)
    {
      available := offered;
      port, epoch, epochOf, nextPort := None, 0, map[], 0;
      reconnectTimer, attempts, slowMode, inFlight, heartbeat, missed := false, 0, false, false, false, 0;
      callbacks, timers, lateRequests, suppressed, settled := map[], {}, {}, {}, map[];
      beats, nextBeat, flushes := map[], 0, multiset{};
    }

    method ScheduleReconnectTimer()
      modifies this`reconnectTimer
      ensures S() == ScheduleReconnect(old(S()))
    {
      if reconnectTimer {
        return;
      }
      reconnectTimer := true;
    }

    method StopHeartbeat()
      modifies this`heartbeat, this`missed
      ensures S() == ClearHeartbeat(old(S()))
    {
      if heartbeat {
        heartbeat := false;
      }
      missed := 0;
    }

    method Settle(req: string, how: Settlement)
      modifies this`settled
      ensures S() == SettleRequest(old(S()), req, how)
    {
      settled := settled[req := (if req in settled then settled[req] else []) + [how]];
    }

    method ClearControlCallback(req: string)
      requires req !in callbacks ==> req !in timers
      modifies this`callbacks, this`timers
      ensures S() == ClearCallback(old(S()), req)
    {
      if req !in callbacks {
        assert callbacks - {req} == callbacks && timers - {req} == timers;
        return;
      }
      timers := timers - {req};
      callbacks := callbacks - {req};
    }

    method RejectOneCallback(req: string)
      modifies this`callbacks, this`timers, this`settled
      ensures S() == RejectOne(old(S()), req)
    {
      timers := timers - {req};
      callbacks := callbacks - {req};
      Settle(req, Failed);
    }

    method RejectAllCallbacks()
      modifies this`callbacks, this`timers, this`settled
      ensures S() == RejectAll(old(S()))
    {
      while callbacks.Keys != {}
        invariant RejectAll(S()) == RejectAll(old(S()))
        decreases |callbacks.Keys|
      {
        var req :| req in callbacks.Keys;
        RejectOneThenAll(S(), req);
        ghost var before := callbacks.Keys;
        RejectOneCallback(req);
        assert callbacks.Keys == before - {req};
      }
      RejectNone(S());
    }

    method DisconnectNativePort()
      modifies this
      ensures S() == Disconnect(old(S()))
    {
      if port.None? {
        return;
      }
      ReleasePort();
      StopHeartbeat();
      RejectAllCallbacks();
    }

    method ReleasePort()
      requires port.Some?
      modifies this`epoch, this`suppressed, this`port, this`inFlight
      ensures S() == old(S()).(epoch := old(epoch) + 1, suppressed := old(suppressed) + {old(port).value},
                               port := None, inFlight := false)
    {
      epoch := epoch + 1;
      suppressed := suppressed + {port.value};
      port := None;
      inFlight := false;
    }

    method OpenPort()
      modifies this`port, this`epoch, this`epochOf, this`nextPort
      ensures S() == old(S()).(port := Some(old(nextPort)), epoch := old(epoch) + 1,
                               epochOf := old(epochOf)[old(nextPort) := old(epoch) + 1], nextPort := old(nextPort) + 1)
    {
      port := Some(nextPort);
      epoch := epoch + 1;
      epochOf := epochOf[nextPort := epoch];
      nextPort := nextPort + 1;
    }

    method ConnectFailed(unavailable: bool)
      modifies this`port, this`inFlight, this`slowMode, this`reconnectTimer
      ensures S() == ScheduleReconnect(old(S()).(port := None, inFlight := false, slowMode := old(slowMode) || unavailable))
    {
      port := None;
      inFlight := false;
      if unavailable {
        slowMode := true;
      }
      ScheduleReconnectTimer();
    }

    method StartLink()
      modifies this
      ensures S() == old(S()).(port := Some(old(nextPort)), epoch := old(epoch) + 1,
                               epochOf := old(epochOf)[old(nextPort) := old(epoch) + 1], nextPort := old(nextPort) + 1,
                               reconnectTimer := false, inFlight := false, heartbeat := true, missed := 0)
    {
      OpenPort();
      reconnectTimer, inFlight, missed, heartbeat := false, false, 0, true;
    }

    method ConnectToNative(attempt: Attempt)
      requires MayConnect(S(), available)
      modifies this
      ensures Inv(S(), available)
      ensures S() == Connect(old(S()), available, attempt)
      ensures Attempted(old(S()), S(), available, attempt, old(reconnectTimer), old(attempts), old(slowMode))
    {
      AttemptNowDoes(S(), available, attempt);
      ConnectKeepsInv(S(), available, attempt);
      if !available || port.Some? || inFlight {
        return;
      }
      inFlight := true;
      match attempt {
        case Opens =>
          StartLink();
        case ConnectThrows(unavailable) =>
          ConnectFailed(unavailable);
        case ListenerThrows(unavailable) =>
          OpenPort();
          ConnectFailed(unavailable);
      }
    }

    /** The reconnect timer's callback. */
    method ReconnectTimerFires(attempt: Attempt)
      requires Inv(S(), available) && reconnectTimer
      modifies this
      ensures Inv(S(), available)
      ensures S() == Apply(old(S()), available, TimerFires(attempt))
      ensures Does(old(S()), available, TimerFires(attempt), S())
    {
      StepDoes(S(), available, TimerFires(attempt));
      TimerSpentMayConnect(S(), available, attempts + 1, slowMode);
      reconnectTimer := false;
      attempts := attempts + 1;
      ConnectToNative(attempt);
    }

    /** The first half of ensureNativeHostConnected, before it waits for the port. */
    method EnsureHostConnected(attempt: Attempt)
      requires Inv(S(), available)
      modifies this
      ensures Inv(S(), available)
      ensures S() == Apply(old(S()), available, EnsureConnected(attempt))
      ensures Does(old(S()), available, EnsureConnected(attempt), S())
    {
      StepDoes(S(), available, EnsureConnected(attempt));
      if port.None? && !slowMode {
        TimerSpentMayConnect(S(), available, attempts, slowMode);
        reconnectTimer := false;
        ConnectToNative(attempt);
      }
    }

    method CloseLostPort()
      modifies this
      ensures S() == ClearHeartbeat(RejectAll(old(S()).(epoch := old(epoch) + 1)).(port := None, inFlight := false))
    {
      epoch := epoch + 1;
      RejectAllCallbacks();
      port := None;
      inFlight := false;
      StopHeartbeat();
    }

    method HandlePortDisconnect(lost: nat, unavailable: bool)
      requires Inv(S(), available)
      modifies this
      ensures Inv(S(), available)
      ensures S() == PortLost(old(S()), lost, unavailable)
      ensures (if old(port) != Some(lost) then S() == old(S())
               else LinkLost(old(S()), S(), old(callbacks).Keys) && slowMode == (old(slowMode) || unavailable))
    {
      if port == Some(lost) {
        LossDoes(S(), available, lost, unavailable);
      }
      PortLostKeepsInv(S(), available, lost, unavailable);
      if port != Some(lost) {
        return;
      }
      CloseLostPort();
      if lost in suppressed {
        return;
      }
      if unavailable {
        slowMode := true;
      }
      ScheduleReconnectTimer();
    }

    /** disconnectNativePort and scheduleReconnect, which always come together. */
    method DropLink()
      modifies this
      ensures S() == ScheduleReconnect(Disconnect(old(S())))
    {
      DisconnectNativePort();
      ScheduleReconnectTimer();
    }

    /** The delayed disconnect that follows a flushed response; `scheduled` is the epoch it was asked for in. */
    method FlushTimerFires(scheduled: nat)
      requires Inv(S(), available) && scheduled in flushes
      modifies this
      ensures Inv(S(), available)
      ensures S() == Apply(old(S()), available, FlushFires(scheduled))
      ensures Does(old(S()), available, FlushFires(scheduled), S())
    {
      StepDoes(S(), available, FlushFires(scheduled));
      DropStep(S(), available, FlushFires(scheduled));
      SpendFlush(scheduled);
      if epoch == scheduled {
        DropLink();
      }
    }

    method SpendFlush(scheduled: nat)
      modifies this`flushes
      ensures S() == old(S()).(flushes := old(flushes) - multiset{scheduled})
    {
      flushes := flushes - multiset{scheduled};
    }

    method CallControl(req: string, responseCmd: string, postOk: bool)
      requires Inv(S(), available) && FreshRequest(S(), req)
      modifies this
      ensures Inv(S(), available)
      ensures S() == Issue(old(S()), req, responseCmd, postOk)
      ensures Does(old(S()), available, IssueControl(req, responseCmd, postOk), S())
    {
      StepDoes(S(), available, IssueControl(req, responseCmd, postOk));
      IssueKeepsInv(S(), available, req, responseCmd, postOk);
      PostControl(req, responseCmd, postOk);
    }

    method PostControl(req: string, responseCmd: string, postOk: bool)
      requires FreshRequest(S(), req) && timers == callbacks.Keys
      modifies this
      ensures S() == Issue(old(S()), req, responseCmd, postOk)
    {
      if port.None? {
        return;
      }
      callbacks := callbacks[req := Callback(epoch, responseCmd)];
      timers := timers + {req};
      if !postOk {
        ClearControlCallback(req);
        DropLink();
        Settle(req, Failed);
      }
    }

    method ControlTimesOut(req: string)
      requires Inv(S(), available) && req in timers
      modifies this
      ensures Inv(S(), available)
      ensures S() == ControlTimeout(old(S()), req)
      ensures Does(old(S()), available, TimeoutFires(req), S())
    {
      StepDoes(S(), available, TimeoutFires(req));
      TimeoutKeepsInv(S(), available, req);
      callbacks := callbacks - {req};
      timers := timers - {req};
      lateRequests := lateRequests + {req};
      Settle(req, Failed);
    }

    /** Whether the message was an answer to a control request; if not, it goes on to the broker. */
    method ResolveCallback(req: string, cmd: string) returns (consumed: bool)
      requires timers == callbacks.Keys
      modifies this
      ensures S() == Answer(old(S()), req, cmd)
      ensures consumed == (req != "" &&
                if req !in old(callbacks) then req in old(lateRequests)
                else old(callbacks)[req].epoch != epoch || old(callbacks)[req].responseCmd in {"", cmd})
    {
      if req == "" {
        return false;
      }
      if req !in callbacks {
        consumed := req in lateRequests;
        lateRequests := lateRequests - {req};
        return;
      }
      var callback := callbacks[req];
      if callback.epoch != epoch {
        ClearControlCallback(req);
        Settle(req, Failed);
        return true;
      }
      if callback.responseCmd != "" && cmd != callback.responseCmd {
        return false;
      }
      ClearControlCallback(req);
      Settle(req, Answered);
      return true;
    }

    /** The onMessage listener of a port. */
    method OnPortMessage(from: nat, req: string, cmd: string) returns (consumed: bool)
      requires Inv(S(), available) && Enabled(S(), PortMessage(from, req, cmd))
      modifies this
      ensures Inv(S(), available)
      ensures S() == Apply(old(S()), available, PortMessage(from, req, cmd))
      ensures consumed ==> old(port) == Some(from)
      ensures Does(old(S()), available, PortMessage(from, req, cmd), S())
    {
      StepDoes(S(), available, PortMessage(from, req, cmd));
      AnswerKeepsInv(S(), available, req, cmd);
      if port != Some(from) || epochOf[from] != epoch {
        return false;
      }
      consumed := ResolveCallback(req, cmd);
    }

    /** The end of runNativeHeartbeat. */
    method HeartbeatSettled(b: nat, healthy: bool)
      requires Inv(S(), available) && Enabled(S(), HeartbeatEnds(b, healthy))
      modifies this
      ensures Inv(S(), available)
      ensures S() == BeatEnds(old(S()), b, healthy)
      ensures Does(old(S()), available, HeartbeatEnds(b, healthy), S())
    {
      StepDoes(S(), available, HeartbeatEnds(b, healthy));
      BeatEndsKeepsInv(S(), available, b, healthy);
      EndBeat(b, healthy);
    }

    method EndBeat(b: nat, healthy: bool)
      requires Enabled(S(), HeartbeatEnds(b, healthy))
      modifies this
      ensures S() == BeatEnds(old(S()), b, healthy)
    {
      var beat := beats[b];
      var outcome := settled[beat.request.value][0];
      beats := beats - {b};
      if port != Some(beat.port) || epoch != beat.epoch {
        return;
      }
      if outcome.Answered? && healthy {
        missed := 0;
        attempts := 0;
        slowMode := false;
      } else {
        CountMiss();
      }
    }

    method CountMiss()
      modifies this
      ensures S() == CountedMiss(old(S()))
    {
      missed := missed + 1;
      if missed >= MISSES_BEFORE_RECONNECT {
        DropLink();
      }
    }
  }
}
