/**
 The bridge's commands as functions on its state: who holds control, in which order stop and
 release are sent, and what a failed start undoes.

 Each RPC of a command is a window: what the executor ran meanwhile, and the reply.
 */
module Ownership {
  import opened Wrappers
  import opened ControlSession
  import opened SessionSafety
  import opened Client
  import V = Velocity
  import P = Poll

  /** What the bridge node remembers between commands. */
  datatype Bridge = Bridge(
    s: Session,
    rpcReady: bool,
    observing: bool,
    action: string,
    channel: V.Channel,
    motion: P.Poll)

  /** The result of a command; an exception out of startControl reaches the worker loop. */
  datatype Outcome = Done(success: bool, error: Error, rollback: Rollback := NoRollback) | Escaped

  /** What a failed start says about control it had acquired: nothing, that it was released, or
      that it could not be released. */
  datatype Rollback = NoRollback | Released | NotReleased

  /** The surroundings of connect_client: the service, the readiness queries, and the calls that
      set up observation. */
  datatype ConnectEnv = ConnectEnv(
    at: int, serviceUp: bool, leaseMs: int, probes: seq<Window>, setup: seq<Window>, observed: bool)

  /** The surroundings of a command: of connect_client, of its take, and of its other RPCs. */
  datatype Env = Env(connect: ConnectEnv, take: Window, first: Window, second: Window)

  datatype Command =
    | ConnectCommand
    | AcquireCommand
    | StartCommand(action: string, paramsOk: bool)
    | StopCommand
    | EmergencyCommand
    | ParamsCommand(paramsOk: bool)
    | ReleaseCommand
    | QueryCommand

  /** Reading the client's last error also clears it. */
  function TakeError(s: Session): Session {
    s.(lastError := NoError)
  }

  /** Query until accepted, or out of attempts. */
  function Probe(s: Session, ws: seq<Window>): (Session, bool)
    decreases ws
  {
    if ws == [] then (s, false)
    else
      var (s', ok) := PerformCall(s, Query, true, ws[0]);
      if ok then (s', true) else Probe(s', ws[1..])
  }

  function QueryAll(s: Session, ws: seq<Window>): Session
    decreases ws
  {
    if ws == [] then s else QueryAll(PerformCall(s, Query, true, ws[0]).0, ws[1..])
  }

  function DoConnect(b: Bridge, env: ConnectEnv): (Bridge, Outcome)
  {
    if b.s.state != Disconnected && b.rpcReady then (b, Done(true, NoError))
    else
      var joined := if b.s.state == Disconnected then ConnectSession(b.s, env.serviceUp, env.leaseMs) else b.s;
      var unready := if b.s.state == Disconnected then b.(s := joined, rpcReady := false) else b;
      if joined.state == Disconnected then
        (unready.(s := TakeError(joined)), Done(false, joined.lastError))
      else
        var (probed, ready) := Probe(joined, env.probes);
        if !ready then
          (unready.(s := TakeError(probed)),
           Done(false, if probed.lastError == NoError then RpcConnectFailed else probed.lastError))
        else
          (b.(s := if b.observing then probed else QueryAll(probed, env.setup),
              rpcReady := true,
              observing := b.observing || env.observed,
              motion := P.RearmQuery(b.motion)),
           Done(true, NoError))
  }

  /** startControl with the timing of Client.StartControl already settled in the window. */
  function StartControl(s: Session, w: Window): (Session, CallOutcome)
  {
    var (begun, sending) := BeginCall(s, Acquire, true);
    if !sending then (begun, Returned(s.state == Controlled))
    else
      (FinishCall(Callbacks(begun, w.callbacks), Acquire, w.end, w.reply),
       if UnusableGrant(w.reply) then Raised else Returned(Granted(w.reply)))
  }

  /** acquire_control; the flag says that control was acquired by this call. */
  function DoAcquire(b: Bridge, env: Env): (Bridge, Outcome, bool)
  {
    var (connected, outcome) := DoConnect(b, env.connect);
    if !(outcome.Done? && outcome.success) then (connected, outcome, false)
    else if connected.s.state == Controlled then (connected, Done(true, NoError), false)
    else
      var (s, taken) := StartControl(connected.s, env.take);
      match taken
      case Raised => (connected.(s := s), Escaped, false)
      case Returned(ok) =>
        if ok then (connected.(s := s), Done(true, NoError), true)
        else (connected.(s := TakeError(s)), Done(false, s.lastError), false)
  }

  /** stop_action and emergency_stop. */
  function Halt(b: Bridge, call: MotionCall, w: Window): (Bridge, Outcome)
  {
    if b.s.state != Controlled then (b, Done(false, NotControlled))
    else
      var (s, ok) := PerformCall(b.s, Motion(call), true, w);
      if ok then
        (b.(s := s, channel := V.ResetTracking(b.channel), motion := P.RearmQuery(b.motion)), Done(true, NoError))
      else (b.(s := TakeError(s)), Done(false, s.lastError))
  }

  function DoRelease(b: Bridge, env: Env): (Bridge, Outcome)
  {
    if b.s.state != Controlled then (b, Done(true, NoError))
    else
      var (stopped, outcome) := if b.action == "" then (b, Done(true, NoError)) else Halt(b, StopAction, env.first);
      if !outcome.success then (stopped, outcome) else ReleaseStopped(stopped, env.second)
  }

  /** release_control once no action is in the way. */
  function ReleaseStopped(b: Bridge, w: Window): (Bridge, Outcome)
  {
    var (s, ok) := PerformCall(b.s, Release(false), true, w);
    if ok then (b.(s := s, action := "", channel := V.ResetTracking(b.channel)), Done(true, NoError))
    else (b.(s := TakeError(s)), Done(false, s.lastError))
  }

  function DoStart(b: Bridge, action: string, paramsOk: bool, env: Env): (Bridge, Outcome)
  {
    if action == "" then (b, Done(false, ActionRejected))
    else
      var (connected, joined) := DoConnect(b, env.connect);
      if !(joined.Done? && joined.success) then (connected, joined)
      else
        var (held, acquired, acquiredNow) := DoAcquire(connected, env);
        if !(acquired.Done? && acquired.success) then (held, acquired)
        else StartHeld(held, acquiredNow, action, paramsOk, env)
  }

  /** start_action once control is held: start, and roll a fresh acquisition back on failure. */
  function StartHeld(held: Bridge, acquiredNow: bool, action: string, paramsOk: bool, env: Env): (Bridge, Outcome)
  {
    var (s, ok) := PerformCall(held.s, Motion(StartAction), paramsOk, env.first);
    if ok then
      (held.(s := s, action := action, channel := V.ResetTracking(held.channel), motion := P.RearmQuery(held.motion)),
       Done(true, NoError))
    else
      var failed := held.(s := TakeError(s));
      if !acquiredNow then (failed, Done(false, s.lastError))
      else
        var (rolled, released) := RollBack(failed.s, env.second);
        (failed.(s := rolled), Done(false, s.lastError, if released then Released else NotReleased))
  }

  /** Give up control acquired for a start that failed; a failed release's error is dropped. */
  function RollBack(s: Session, w: Window): (Session, bool)
  {
    var (rolled, released) := PerformCall(s, Release(false), true, w);
    (if released then rolled else TakeError(rolled), released)
  }

  function SetParams(b: Bridge, paramsOk: bool, env: Env): (Bridge, Outcome)
  {
    if !paramsOk then (b, Done(false, ActionRejected))
    else if b.s.state != Controlled then (b, Done(false, NotControlled))
    else
      var (connected, joined) := DoConnect(b, env.connect);
      if !(joined.Done? && joined.success) then (connected, joined)
      else
        var (s, ok) := PerformCall(connected.s, Motion(SetActionParams), paramsOk, env.first);
        if ok then
          (connected.(s := s, channel := V.ResetTracking(connected.channel), motion := P.RearmQuery(connected.motion)),
           Done(true, NoError))
        else (connected.(s := TakeError(s)), Done(false, s.lastError))
  }

  function DoQuery(b: Bridge, env: Env): (Bridge, Outcome)
  {
    var (connected, joined) := DoConnect(b, env.connect);
    if !(joined.Done? && joined.success) then (connected, joined)
    else
      var (s, ok) := PerformCall(connected.s, Query, true, env.first);
      if ok then (connected.(s := s), Done(true, NoError))
      else (connected.(s := TakeError(s)), Done(false, s.lastError))
  }

  /** What the worker does after its loop: stop an active action, switch observation off, and
      disconnect, releasing control if it is still held. */
  function Leave(b: Bridge, env: Env): Bridge
  {
    Depart(StopActive(b, env.first), env.connect.setup, env.second)
  }

  function StopActive(b: Bridge, w: Window): Bridge
  {
    var cancelled := b.(motion := P.CancelQuery(b.motion));
    if b.s.state == Controlled && b.action != "" then Halt(cancelled, StopAction, w).0 else cancelled
  }

  function Depart(b: Bridge, queries: seq<Window>, w: Window): Bridge
  {
    var quiet := if b.observing then QueryAll(b.s, queries) else b.s;
    b.(s := PerformCall(quiet, Release(true), true, w).0, rpcReady := false, observing := false, action := "")
  }

  function Execute(b: Bridge, command: Command, env: Env): (Bridge, Outcome)
  {
    match command
    case ConnectCommand => DoConnect(b, env.connect)
    case AcquireCommand => var (b', outcome, _) := DoAcquire(b, env); (b', outcome)
    case StartCommand(action, paramsOk) => DoStart(b, action, paramsOk, env)
    case StopCommand => Halt(b, StopAction, env.first)
    case EmergencyCommand => Halt(b, EmergencyStop, env.first)
    case ParamsCommand(paramsOk) => SetParams(b, paramsOk, env)
    case ReleaseCommand => DoRelease(b, env)
    case QueryCommand => DoQuery(b, env)
  }

  // ---------- what one RPC does to control ----------

  predicate MayLose(s: Session, s': Session) {
    s'.state == s.state || (s.state == Controlled && s'.state == Connected)
  }

  /** The error codes of a call: the local refusal; or, by the reply, an action rejected, a failed
      RPC, or none.  It succeeds exactly when it is sent and accepted. */
  lemma CallErrorIs(s: Session, call: Call, paramsOk: bool, w: Window)
    requires call != Acquire && call != Release(true)
    ensures var (s', ok) := PerformCall(s, call, paramsOk, w);
      && (ok <==> Sends(s, call, paramsOk) && w.reply.Accepted?)
      && s'.lastError ==
           if !Sends(s, call, paramsOk) then Refusal(s, call)
           else ReplyCode(w.reply)
  {
    hide Callbacks;
  }

  lemma CallFacts(s: Session, call: Call, paramsOk: bool, w: Window)
    requires TimerDiscipline(s) && call != Acquire && call != Release(true)
    ensures var (s', ok) := PerformCall(s, call, paramsOk, w);
      && TimerDiscipline(s')
      && s'.rpcs == s.rpcs + (if BeginCall(s, call, paramsOk).1 then [Rpc(call, ok)] else [])
      && (!ok || !call.Release? ==> MayLose(s, s'))
      && (ok && call.Release? ==> s.state == Controlled && s'.state == Connected)
  {
    CallbacksInertWhenIdle(s, w.callbacks);
    CallDiscipline(Callbacks(s, w.callbacks), call, w.end, paramsOk, w.reply);
    CallDiscipline(s, call, w.end, paramsOk, w.reply);
  }

  lemma ReleaseCallFacts(s: Session, w: Window)
    requires TimerDiscipline(s)
    ensures var (s', ok) := PerformCall(s, Release(false), true, w);
      && TimerDiscipline(s')
      && s'.rpcs == s.rpcs + (if s.state == Controlled then [Rpc(Release(false), ok)] else [])
      && MayLose(s, s')
      && (ok ==> s.state == Controlled && s'.state != Controlled)
      && (!ok && s.state != Controlled ==> s'.state != Controlled)
  {
    hide PerformCall;
    CallFacts(s, Release(false), true, w);
  }

  lemma MotionCallFacts(s: Session, call: MotionCall, paramsOk: bool, w: Window)
    requires TimerDiscipline(s)
    ensures var (s', ok) := PerformCall(s, Motion(call), paramsOk, w);
      && TimerDiscipline(s')
      && s'.rpcs == s.rpcs + (if s.state == Controlled && paramsOk then [Rpc(Motion(call), ok)] else [])
      && MayLose(s, s')
  {
    hide PerformCall;
    CallFacts(s, Motion(call), paramsOk, w);
  }

  /** The RPCs that completed between two states of the session. */
  function NewRpcs(s: Session, s': Session): seq<Rpc> {
    if |s.rpcs| <= |s'.rpcs| then s'.rpcs[|s.rpcs|..] else []
  }

  lemma NewRpcsAre(s: Session, s': Session, sent: seq<Rpc>)
    requires s'.rpcs == s.rpcs + sent
    ensures NewRpcs(s, s') == sent
  {
  }

  predicate OnlyQueries(rpcs: seq<Rpc>) {
    forall i :: 0 <= i < |rpcs| ==> rpcs[i].call == Query
  }

  lemma {:induction false} ProbeFacts(s: Session, ws: seq<Window>) returns (sent: seq<Rpc>)
    requires TimerDiscipline(s)
    ensures var s' := Probe(s, ws).0; TimerDiscipline(s') && MayLose(s, s') && s'.rpcs == s.rpcs + sent
    ensures OnlyQueries(sent)
    decreases ws
  {
    hide PerformCall;
    sent := [];
    if ws != [] {
      CallFacts(s, Query, true, ws[0]);
      var (s', ok) := PerformCall(s, Query, true, ws[0]);
      var first := if BeginCall(s, Query, true).1 then [Rpc(Query, ok)] else [];
      if ok {
        sent := first;
      } else {
        sent := ProbeFacts(s', ws[1..]);
        sent := first + sent;
      }
    }
  }

  lemma {:induction false} QueryAllFacts(s: Session, ws: seq<Window>) returns (sent: seq<Rpc>)
    requires TimerDiscipline(s)
    ensures var s' := QueryAll(s, ws); TimerDiscipline(s') && MayLose(s, s') && s'.rpcs == s.rpcs + sent
    ensures OnlyQueries(sent)
    decreases ws
  {
    hide PerformCall;
    sent := [];
    if ws != [] {
      CallFacts(s, Query, true, ws[0]);
      var (s', ok) := PerformCall(s, Query, true, ws[0]);
      sent := QueryAllFacts(s', ws[1..]);
      sent := (if BeginCall(s, Query, true).1 then [Rpc(Query, ok)] else []) + sent;
    }
  }

  /** A controlled bridge has a ready RPC path, and a ready path is connected. */
  predicate BridgeInv(b: Bridge) {
    && TimerDiscipline(b.s)
    && (b.s.state == Controlled ==> b.rpcReady)
    && (b.rpcReady ==> b.s.state != Disconnected)
  }

  lemma ConnectFacts(b: Bridge, env: ConnectEnv) returns (sent: seq<Rpc>)
    requires BridgeInv(b)
    ensures var (b', outcome) := DoConnect(b, env);
      && BridgeInv(b') && outcome.Done? && outcome.rollback == NoRollback
      && b'.s.rpcs == b.s.rpcs + sent
      && (outcome.success ==> b'.s.state != Disconnected && b'.rpcReady)
      && (b.s.state == Controlled ==> b' == b && outcome == Done(true, NoError))
      && (b.s.state != Controlled ==> b'.s.state != Controlled)
      && b'.action == b.action && b'.channel == b.channel
    ensures OnlyQueries(sent)
  {
    hide PerformCall, Probe, QueryAll;
    sent := [];
    if !(b.s.state != Disconnected && b.rpcReady) {
      var joined := if b.s.state == Disconnected then ConnectSession(b.s, env.serviceUp, env.leaseMs) else b.s;
      if joined.state != Disconnected {
        sent := ProbeFacts(joined, env.probes);
        var (probed, ready) := Probe(joined, env.probes);
        if ready && !b.observing {
          var more := QueryAllFacts(probed, env.setup);
          sent := sent + more;
        }
      }
    }
  }

  predicate NoRelease(rpcs: seq<Rpc>) {
    forall i :: 0 <= i < |rpcs| ==> !rpcs[i].call.Release?
  }

  lemma StartControlFacts(s: Session, w: Window)
    requires TimerDiscipline(s) && s.state == Connected
    ensures var (s', taken) := StartControl(s, w);
      && TimerDiscipline(s')
      && s'.rpcs == s.rpcs + [Rpc(Acquire, w.reply.Accepted?)]
      && (s'.state == Controlled <==> taken == Returned(true))
      && s'.state != Disconnected
      && (taken == Returned(true) ==> w.reply.Accepted?)
  {
    CallbacksInertWhenIdle(s, w.callbacks);
    CallDiscipline(s, Acquire, w.end, true, w.reply);
  }

  /** acquire_control sends queries and at most one acquisition, and says truthfully whether
      control was acquired by it. */
  lemma AcquireFacts(b: Bridge, env: Env) returns (sent: seq<Rpc>)
    requires BridgeInv(b)
    ensures var (b', outcome, acquiredNow) := DoAcquire(b, env);
      && BridgeInv(b')
      && b'.s.rpcs == b.s.rpcs + sent
      && (b.s.state == Controlled ==> b' == b && outcome == Done(true, NoError) && !acquiredNow)
      && (outcome.Done? && outcome.success <==> b'.s.state == Controlled)
      && (outcome.Done? ==> outcome.rollback == NoRollback)
      && (acquiredNow <==> b.s.state != Controlled && b'.s.state == Controlled)
      && (acquiredNow ==> Rpc(Acquire, true) in sent)
      && b'.action == b.action && b'.channel == b.channel
    ensures NoRelease(sent)
    ensures forall i :: 0 <= i < |sent| ==> !sent[i].call.Motion?
  {
    hide DoConnect, StartControl;
    sent := ConnectFacts(b, env.connect);
    var (connected, outcome) := DoConnect(b, env.connect);
    if outcome.success && connected.s.state != Controlled {
      StartControlFacts(connected.s, env.take);
      sent := sent + [Rpc(Acquire, env.take.reply.Accepted?)];
    }
  }

  // ---------- start_action is a transaction on ownership ----------

  lemma RollBackFacts(s: Session, w: Window) returns (sent: seq<Rpc>)
    requires TimerDiscipline(s)
    ensures var (s', released) := RollBack(s, w);
      && TimerDiscipline(s')
      && s'.rpcs == s.rpcs + sent
      && MayLose(s, s')
      && sent == (if s.state == Controlled then [Rpc(Release(false), released)] else [])
      && (released ==> s.state == Controlled && s'.state != Controlled)
  {
    hide PerformCall, BeginCall;
    ReleaseCallFacts(s, w);
    sent := if s.state == Controlled then [Rpc(Release(false), PerformCall(s, Release(false), true, w).1)] else [];
  }

  /** Once control is held: what was sent, and who holds control afterwards. */
  lemma StartHeldFacts(held: Bridge, acquiredNow: bool, action: string, paramsOk: bool, env: Env)
    returns (sent: seq<Rpc>)
    requires BridgeInv(held) && held.s.state == Controlled
    ensures var (b', outcome) := StartHeld(held, acquiredNow, action, paramsOk, env);
      && BridgeInv(b') && outcome.Done?
      && b'.s.rpcs == held.s.rpcs + sent
      && (if outcome.success then b'.action == action && b'.channel == V.ResetTracking(held.channel)
          else b'.action == held.action && b'.channel == held.channel)
      && (outcome.rollback != NoRollback <==> !outcome.success && acquiredNow)
      && (outcome.rollback == Released <==> Rpc(Release(false), true) in sent)
      && (outcome.rollback == Released ==> b'.s.state != Controlled)
      && (!outcome.success && acquiredNow ==> b'.s.state != Controlled || Rpc(Release(false), false) in sent)
      && (forall i :: 0 <= i < |sent| && sent[i].call.Release? ==>
            acquiredNow && Rpc(Motion(StartAction), true) !in sent)
  {
    hide PerformCall, BeginCall, RollBack, V.ResetTracking, P.RearmQuery;
    MotionCallFacts(held.s, StartAction, paramsOk, env.first);
    var (s, ok) := PerformCall(held.s, Motion(StartAction), paramsOk, env.first);
    sent := if paramsOk then [Rpc(Motion(StartAction), ok)] else [];
    if !ok && acquiredNow {
      var rollback := RollBackFacts(TakeError(s), env.second);
      sent := sent + rollback;
    }
  }

  /** Why a release may follow the RPCs `sent` earlier in the same command: release_control
      found no action or stopped it; start_action acquired control itself and its start was
      not accepted. */
  predicate Justification(command: Command, actionBefore: string, sent: seq<Rpc>) {
    match command
    case ReleaseCommand => actionBefore == "" || Rpc(Motion(StopAction), true) in sent
    case StartCommand(_, _) => Rpc(Acquire, true) in sent && Rpc(Motion(StartAction), true) !in sent
    case _ => false
  }

  /** Every release among the RPCs of a command is justified by those before it. */
  predicate ReleasesJustified(command: Command, actionBefore: string, rpcs: seq<Rpc>) {
    forall i :: 0 <= i < |rpcs| && rpcs[i].call.Release? ==> Justification(command, actionBefore, rpcs[..i])
  }

  /** Leaving the loop releases without an action, or after trying to stop it. */
  predicate LeavingJustified(actionBefore: string, rpcs: seq<Rpc>) {
    forall i :: 0 <= i < |rpcs| && rpcs[i].call.Release? ==>
      actionBefore == "" || Rpc(Motion(StopAction), true) in rpcs[..i] || Rpc(Motion(StopAction), false) in rpcs[..i]
  }

  lemma StartReleasesJustified(
    command: Command, actionBefore: string, before: seq<Rpc>, start: seq<Rpc>, acquiredNow: bool)
    requires command.StartCommand?
    requires NoRelease(before) && (forall i :: 0 <= i < |before| ==> !before[i].call.Motion?)
    requires acquiredNow ==> Rpc(Acquire, true) in before
    requires forall i :: 0 <= i < |start| && start[i].call.Release? ==>
               acquiredNow && Rpc(Motion(StartAction), true) !in start
    ensures ReleasesJustified(command, actionBefore, before + start)
    ensures !acquiredNow ==> NoRelease(before + start)
  {
    var all := before + start;
    forall i | 0 <= i < |all| && all[i].call.Release? ensures Justification(command, actionBefore, all[..i]) {
      assert i >= |before| && start[i - |before|] == all[i];
      assert all[..i] == before + start[..i - |before|];
    }
  }

  /** The start acquired control itself. */
  predicate AcquiresNow(b: Bridge, action: string, env: Env)
  {
    action != "" &&
    var (connected, joined) := DoConnect(b, env.connect);
    joined.Done? && joined.success && DoAcquire(connected, env).2
  }

  /** Entered without control and failing, start_action leaves the client without control, or
      reports that control could not be released after the robot refused the rollback; entered
      with control it sends no release at all; and on success the action is the new one and
      velocity tracking starts over.  A rollback is reported exactly when a start failed after
      acquiring control itself, as released exactly when a release was accepted. */
  lemma StartIsTransactional(b: Bridge, action: string, paramsOk: bool, env: Env)
    requires BridgeInv(b)
    ensures var (b', outcome) := DoStart(b, action, paramsOk, env);
      var succeeded := outcome.Done? && outcome.success;
      && BridgeInv(b') && b.s.rpcs <= b'.s.rpcs
      && (b.s.state != Controlled && !succeeded ==>
            b'.s.state != Controlled
            || (outcome.Done? && outcome.rollback == NotReleased && Rpc(Release(false), false) in NewRpcs(b.s, b'.s)))
      && (outcome.Done? && outcome.rollback != NoRollback <==> !succeeded && AcquiresNow(b, action, env))
      && (outcome.Done? && outcome.rollback == Released <==> Rpc(Release(false), true) in NewRpcs(b.s, b'.s))
      && (b.s.state == Controlled ==> NoRelease(NewRpcs(b.s, b'.s)))
      && (if succeeded then action != "" && b'.action == action && b'.channel == V.ResetTracking(b.channel)
          else b'.action == b.action && b'.channel == b.channel)
      && ReleasesJustified(StartCommand(action, paramsOk), b.action, NewRpcs(b.s, b'.s))
  {
    hide DoConnect, DoAcquire, StartHeld, NewRpcs, ReleasesJustified, V.ResetTracking, TimerDiscipline;
    var (b', outcome) := DoStart(b, action, paramsOk, env);
    var before, start: seq<Rpc>, acquiredNow := [], [], false;
    if action != "" {
      before := ConnectFacts(b, env.connect);
      var (connected, joined) := DoConnect(b, env.connect);
      if joined.success {
        var more := AcquireFacts(connected, env);
        before := before + more;
        var (held, acquired, now) := DoAcquire(connected, env);
        if acquired.Done? && acquired.success {
          acquiredNow := now;
          start := StartHeldFacts(held, acquiredNow, action, paramsOk, env);
        }
      }
    }
    assert b'.s.rpcs == b.s.rpcs + (before + start);
    NewRpcsAre(b.s, b'.s, before + start);
    assert Rpc(Release(false), true) !in before;
    assert Rpc(Release(false), true) in before + start <==> Rpc(Release(false), true) in start;
    StartReleasesJustified(StartCommand(action, paramsOk), b.action, before, start, acquiredNow);
  }

  // ---------- stop before release ----------

  lemma HaltFacts(b: Bridge, call: MotionCall, w: Window) returns (sent: seq<Rpc>)
    requires BridgeInv(b)
    ensures var (b', outcome) := Halt(b, call, w);
      && BridgeInv(b') && outcome.Done?
      && b'.s.rpcs == b.s.rpcs + sent
      && sent == (if b.s.state == Controlled then [Rpc(Motion(call), outcome.success)] else [])
      && (outcome.success ==> b.s.state == Controlled && b'.channel == V.ResetTracking(b.channel))
      && (!outcome.success ==> b'.channel == b.channel)
      && b'.action == b.action && b'.observing == b.observing
  {
    hide PerformCall, BeginCall, V.ResetTracking, P.RearmQuery;
    MotionCallFacts(b.s, call, true, w);
    sent := if b.s.state == Controlled then [Rpc(Motion(call), PerformCall(b.s, Motion(call), true, w).1)] else [];
  }

  lemma ReleaseStoppedFacts(b: Bridge, w: Window) returns (sent: seq<Rpc>)
    requires BridgeInv(b)
    ensures var (b', outcome) := ReleaseStopped(b, w);
      && BridgeInv(b') && outcome.Done?
      && b'.s.rpcs == b.s.rpcs + sent
      && sent == (if b.s.state == Controlled then [Rpc(Release(false), outcome.success)] else [])
      && (outcome.success ==>
            b.s.state == Controlled && b'.s.state != Controlled
            && b'.action == "" && b'.channel.pending == None && !b'.channel.active)
  {
    hide PerformCall, BeginCall, V.ResetTracking;
    ReleaseCallFacts(b.s, w);
    ResetClears(b.channel);
    sent := if b.s.state == Controlled then [Rpc(Release(false), PerformCall(b.s, Release(false), true, w).1)] else [];
  }

  /** release_control sends the release only after an accepted stop or without an action; when
      it succeeds control is gone, the action forgotten and the velocity tracking empty; and
      without control it sends nothing and succeeds. */
  lemma ReleaseFacts(b: Bridge, env: Env)
    requires BridgeInv(b)
    ensures var (b', outcome) := DoRelease(b, env);
      && BridgeInv(b') && outcome.Done? && b.s.rpcs <= b'.s.rpcs
      && ReleasesJustified(ReleaseCommand, b.action, NewRpcs(b.s, b'.s))
      && (outcome.success ==> b'.s.state != Controlled)
      && (outcome.success && b.s.state == Controlled ==>
            b'.action == "" && b'.channel.pending == None && !b'.channel.active
            && Rpc(Release(false), true) in NewRpcs(b.s, b'.s))
      && (b.s.state != Controlled ==> b' == b && outcome == Done(true, NoError))
  {
    hide Halt, ReleaseStopped;
    var stop: seq<Rpc>, release: seq<Rpc> := [], [];
    var b' := DoRelease(b, env).0;
    if b.s.state == Controlled && b.action == "" {
      release := ReleaseStoppedFacts(b, env.second);
    } else if b.s.state == Controlled {
      stop := HaltFacts(b, StopAction, env.first);
      var (stopped, halted) := Halt(b, StopAction, env.first);
      if halted.success {
        release := ReleaseStoppedFacts(stopped, env.second);
      }
    }
    assert b'.s.rpcs == b.s.rpcs + (stop + release);
    NewRpcsAre(b.s, b'.s, stop + release);
    StopThenRelease(b.action, stop, release);
  }

  lemma ResetClears(ch: V.Channel)
    ensures V.ResetTracking(ch).pending == None && !V.ResetTracking(ch).active
  {
  }

  lemma StopThenRelease(actionBefore: string, stop: seq<Rpc>, release: seq<Rpc>)
    requires NoRelease(stop) && |release| <= 1
    requires release != [] ==> actionBefore == "" || Rpc(Motion(StopAction), true) in stop
    ensures ReleasesJustified(ReleaseCommand, actionBefore, stop + release)
  {
    assert release != [] ==> (stop + release)[..|stop|] == stop;
  }

  /** Repeating release_control after it succeeded, whatever callbacks ran in between, sends no
      RPC, succeeds, and changes nothing. */
  lemma ReleaseIsIdempotent(b: Bridge, env: Env, between: Spins, again: Env)
    requires BridgeInv(b)
    requires DoRelease(b, env).1.success
    ensures var released := DoRelease(b, env).0;
      var spun := released.(s := Callbacks(released.s, between));
      spun == released && DoRelease(spun, again) == (released, Done(true, NoError))
  {
    hide Halt, ReleaseStopped;
    ReleaseFacts(b, env);
    CallbacksInertWhenIdle(DoRelease(b, env).0.s, between);
  }

  // ---------- leaving ----------

  /** Leaving the loop always ends disconnected.  With control held and an action running it
      first tries to stop the action. */
  lemma LeaveFacts(b: Bridge, env: Env)
    requires BridgeInv(b)
    ensures var b' := Leave(b, env);
      && BridgeInv(b') && b'.s.state == Disconnected && b.s.rpcs <= b'.s.rpcs
      && b'.action == "" && !b'.rpcReady && !b'.observing
      && LeavingJustified(b.action, NewRpcs(b.s, b'.s))
      && (b.s.state == Controlled && b.action != "" ==>
            Rpc(Motion(StopAction), env.first.reply.Accepted?) in NewRpcs(b.s, b'.s))
  {
    hide StopActive, QueryAll, PerformCall;
    var stop := StopActiveFacts(b, env.first);
    var stopped := StopActive(b, env.first);
    var queries, release := DepartFacts(stopped, env.connect.setup, env.second);
    NewRpcsAre(b.s, Leave(b, env).s, stop + queries + release);
    LeaveIsJustified(b.action, stop, queries, release);
  }

  lemma StopActiveFacts(b: Bridge, w: Window) returns (stop: seq<Rpc>)
    requires BridgeInv(b)
    ensures var b' := StopActive(b, w);
      && BridgeInv(b') && b'.s.rpcs == b.s.rpcs + stop && NoRelease(stop)
      && stop == (if b.s.state == Controlled && b.action != ""
                  then [Rpc(Motion(StopAction), w.reply.Accepted?)] else [])
      && b'.action == b.action && b'.observing == b.observing
      && (b.s.state != Controlled ==> b'.s.state != Controlled)
  {
    hide Halt, P.CancelQuery;
    stop := [];
    HaltSucceedsIff(b.(motion := P.CancelQuery(b.motion)), StopAction, w);
    if b.s.state == Controlled && b.action != "" {
      stop := HaltFacts(b.(motion := P.CancelQuery(b.motion)), StopAction, w);
    }
  }

  lemma DepartFacts(b: Bridge, queries: seq<Window>, w: Window) returns (asked: seq<Rpc>, release: seq<Rpc>)
    requires BridgeInv(b)
    ensures var b' := Depart(b, queries, w);
      BridgeInv(b') && b'.s.state == Disconnected && b'.s.rpcs == b.s.rpcs + asked + release
    ensures OnlyQueries(asked)
    ensures release == (if (if b.observing then QueryAll(b.s, queries) else b.s).state == Controlled
                        then [Rpc(Release(false), w.reply.Accepted?)] else [])
    ensures release != [] ==> b.s.state == Controlled
  {
    hide QueryAll, PerformCall;
    asked := [];
    if b.observing {
      asked := QueryAllFacts(b.s, queries);
    }
    release := DisconnectFacts(if b.observing then QueryAll(b.s, queries) else b.s, w);
  }

  lemma DisconnectFacts(s: Session, w: Window) returns (sent: seq<Rpc>)
    requires TimerDiscipline(s)
    ensures var s' := PerformCall(s, Release(true), true, w).0;
      TimerDiscipline(s') && s'.state == Disconnected && s'.rpcs == s.rpcs + sent
    ensures sent == if s.state == Controlled then [Rpc(Release(false), w.reply.Accepted?)] else []
  {
    CallbacksInertWhenIdle(s, w.callbacks);
    CallDiscipline(Callbacks(s, w.callbacks), Release(true), w.end, true, w.reply);
    CallDiscipline(s, Release(true), w.end, true, w.reply);
    sent := if s.state == Controlled then [Rpc(Release(false), w.reply.Accepted?)] else [];
  }

  lemma LeaveIsJustified(actionBefore: string, stop: seq<Rpc>, queries: seq<Rpc>, release: seq<Rpc>)
    requires NoRelease(stop) && OnlyQueries(queries) && |release| <= 1
    requires release != [] && actionBefore != "" ==>
               Rpc(Motion(StopAction), true) in stop || Rpc(Motion(StopAction), false) in stop
    ensures LeavingJustified(actionBefore, stop + queries + release)
  {
    var all := stop + queries + release;
    forall i | 0 <= i < |all| && all[i].call.Release?
      ensures actionBefore == ""
              || Rpc(Motion(StopAction), true) in all[..i] || Rpc(Motion(StopAction), false) in all[..i]
    {
      assert i == |stop| + |queries|;
      assert all[..i] == stop + queries;
    }
  }

  // ---------- any command ----------

  lemma NoReleaseIsJustified(command: Command, actionBefore: string, sent: seq<Rpc>)
    requires NoRelease(sent)
    ensures ReleasesJustified(command, actionBefore, sent)
  {
  }

  lemma SetParamsFacts(b: Bridge, paramsOk: bool, env: Env) returns (sent: seq<Rpc>)
    requires BridgeInv(b)
    ensures var b' := SetParams(b, paramsOk, env).0; BridgeInv(b') && b'.s.rpcs == b.s.rpcs + sent
    ensures NoRelease(sent)
  {
    hide DoConnect, PerformCall, BeginCall, V.ResetTracking, P.RearmQuery;
    sent := [];
    if paramsOk && b.s.state == Controlled {
      sent := ConnectFacts(b, env.connect);
      var connected := DoConnect(b, env.connect).0;
      MotionCallFacts(connected.s, SetActionParams, paramsOk, env.first);
      var ok := PerformCall(connected.s, Motion(SetActionParams), paramsOk, env.first).1;
      sent := sent + [Rpc(Motion(SetActionParams), ok)];
    }
  }

  lemma QueryFacts(b: Bridge, env: Env) returns (sent: seq<Rpc>)
    requires BridgeInv(b)
    ensures var b' := DoQuery(b, env).0; BridgeInv(b') && b'.s.rpcs == b.s.rpcs + sent
    ensures NoRelease(sent)
  {
    hide DoConnect, PerformCall;
    sent := ConnectFacts(b, env.connect);
    var (connected, joined) := DoConnect(b, env.connect);
    if joined.success {
      CallFacts(connected.s, Query, true, env.first);
      sent := sent + [Rpc(Query, PerformCall(connected.s, Query, true, env.first).1)];
    }
  }

  lemma ExecuteFacts(b: Bridge, command: Command, env: Env)
    requires BridgeInv(b)
    ensures var b' := Execute(b, command, env).0;
      BridgeInv(b') && b.s.rpcs <= b'.s.rpcs && ReleasesJustified(command, b.action, NewRpcs(b.s, b'.s))
  {
    hide DoConnect, DoStart, DoAcquire, DoRelease, Leave, Halt, SetParams, DoQuery;
    var b' := Execute(b, command, env).0;
    var sent: seq<Rpc> := [];
    match command
    case StartCommand(action, paramsOk) => StartIsTransactional(b, action, paramsOk, env); return;
    case ReleaseCommand => ReleaseFacts(b, env); return;
    case ConnectCommand => sent := ConnectFacts(b, env.connect);
    case AcquireCommand => sent := AcquireFacts(b, env);
    case StopCommand => sent := HaltFacts(b, StopAction, env.first);
    case EmergencyCommand => sent := HaltFacts(b, EmergencyStop, env.first);
    case ParamsCommand(paramsOk) => sent := SetParamsFacts(b, paramsOk, env);
    case QueryCommand => sent := QueryFacts(b, env);
    NewRpcsAre(b.s, b'.s, sent);
    NoReleaseIsJustified(command, b.action, sent);
  }

  /** Leaving the loop tries to give up control that is still held after its other calls. */
  lemma LeaveReleases(b: Bridge, env: Env)
    requires BridgeInv(b)
    ensures var stopped := StopActive(b, env.first);
      var quiet := if stopped.observing then QueryAll(stopped.s, env.connect.setup) else stopped.s;
      quiet.state == Controlled ==> Rpc(Release(false), env.second.reply.Accepted?) in NewRpcs(b.s, Leave(b, env).s)
  {
    hide StopActive, Depart;
    var stop := StopActiveFacts(b, env.first);
    var queries, release := DepartFacts(StopActive(b, env.first), env.connect.setup, env.second);
    NewRpcsAre(b.s, Leave(b, env).s, stop + queries + release);
  }

  // ---------- when commands succeed ----------

  predicate Succeeded(outcome: Outcome) {
    outcome.Done? && outcome.success
  }

  predicate AnyAccepted(ws: seq<Window>) {
    exists i :: 0 <= i < |ws| && ws[i].reply.Accepted?
  }

  lemma {:induction false} ProbeSucceedsIff(s: Session, ws: seq<Window>)
    requires TimerDiscipline(s) && s.state != Disconnected
    ensures Probe(s, ws).1 <==> AnyAccepted(ws)
    ensures ws != [] && !AnyAccepted(ws) ==> Probe(s, ws).0.lastError == ReplyCode(ws[|ws| - 1].reply)
    decreases ws
  {
    hide PerformCall;
    if ws != [] {
      CallFacts(s, Query, true, ws[0]);
      CallErrorIs(s, Query, true, ws[0]);
      if !ws[0].reply.Accepted? {
        ProbeSucceedsIff(PerformCall(s, Query, true, ws[0]).0, ws[1..]);
        assert AnyAccepted(ws[1..]) <==> AnyAccepted(ws) by {
          if AnyAccepted(ws) {
            var i :| 0 <= i < |ws| && ws[i].reply.Accepted?;
            assert ws[1..][i - 1] == ws[i];
          }
        }
      }
    }
  }

  /** The RPC path becomes usable. */
  predicate Reachable(b: Bridge, env: ConnectEnv) {
    || (b.s.state != Disconnected && b.rpcReady)
    || ((b.s.state != Disconnected || env.serviceUp) && AnyAccepted(env.probes))
  }

  /** connect_client succeeds exactly when the path is ready already, or the service is up and some
      readiness query is accepted; a path newly ready turns observation on as it can and re-arms
      the motion poll. */
  lemma ConnectSucceedsIff(b: Bridge, env: ConnectEnv)
    requires BridgeInv(b)
    ensures var (b', outcome) := DoConnect(b, env);
      && (Succeeded(outcome) <==> Reachable(b, env))
      && (Succeeded(outcome) && !(b.s.state != Disconnected && b.rpcReady) ==>
            b'.motion == P.RearmQuery(b.motion) && b'.observing == (b.observing || env.observed))
      && (!Succeeded(outcome) ==> b'.motion == b.motion && b'.observing == b.observing)
      && (!Succeeded(outcome) ==> b'.s.lastError == NoError)
      && (b.s.state == Disconnected && !env.serviceUp ==> outcome == Done(false, RpcConnectFailed))
      && (!Succeeded(outcome) && (b.s.state != Disconnected || env.serviceUp) && env.probes != [] ==>
            outcome == Done(false, ReplyCode(env.probes[|env.probes| - 1].reply)))
  {
    hide Probe, QueryAll, P.RearmQuery;
    if b.s.state != Disconnected || env.serviceUp {
      var joined := if b.s.state == Disconnected then ConnectSession(b.s, env.serviceUp, env.leaseMs) else b.s;
      ProbeSucceedsIff(joined, env.probes);
    }
  }

  /** acquire_control succeeds exactly when control is held already, or the path is usable and the
      robot grants the take; an unusable grant raises, and any other reply is an acquisition
      rejected. */
  lemma AcquireSucceedsIff(b: Bridge, env: Env)
    requires BridgeInv(b)
    ensures var (b', outcome, acquiredNow) := DoAcquire(b, env);
      var takes := b.s.state != Controlled && Reachable(b, env.connect);
      && (Succeeded(outcome) <==> b.s.state == Controlled || (takes && Granted(env.take.reply)))
      && (outcome.Escaped? <==> takes && UnusableGrant(env.take.reply))
      && (takes && outcome.Done? && !outcome.success ==> outcome.error == RpcAcquireRejected)
      && (takes ==> b'.s.rpcs != [] && b'.s.rpcs[|b'.s.rpcs| - 1] == Rpc(Acquire, env.take.reply.Accepted?))
  {
    hide DoConnect;
    ConnectSucceedsIff(b, env.connect);
    var _ := ConnectFacts(b, env.connect);
    var connected := DoConnect(b, env.connect).0;
    if connected.s.state == Connected {
      CallbacksInertWhenIdle(connected.s, env.take.callbacks);
    }
  }

  /** stop_action and emergency_stop succeed exactly when control is held and the robot accepts
      this very call; then, and only then, the velocity tracking and the motion poll start over. */
  lemma HaltSucceedsIff(b: Bridge, call: MotionCall, w: Window)
    ensures var (b', outcome) := Halt(b, call, w);
      && (Succeeded(outcome) <==> b.s.state == Controlled && w.reply.Accepted?)
      && b'.channel == (if Succeeded(outcome) then V.ResetTracking(b.channel) else b.channel)
      && b'.motion == (if Succeeded(outcome) then P.RearmQuery(b.motion) else b.motion)
      && (b.s.state != Controlled ==> outcome == Done(false, NotControlled))
      && (b.s.state == Controlled && !w.reply.Accepted? ==>
            outcome == Done(false, if w.reply.Rejected? then ActionRejected else RpcCallFailed)
            && b'.s.lastError == NoError)
  {
    hide PerformCall, V.ResetTracking, P.RearmQuery;
    CallErrorIs(b.s, Motion(call), true, w);
  }

  /** With control held, start_action succeeds exactly when the robot accepts the start; then, and
      only then, the action is the new one and tracking and motion poll start over.  After a failure
      no error lingers, that of a failed rollback included.  A start that
      fails under fresh control is followed by a release, if control is still held. */
  lemma StartHeldIff(held: Bridge, acquiredNow: bool, action: string, paramsOk: bool, env: Env)
    requires BridgeInv(held) && held.s.state == Controlled
    ensures var (b', outcome) := StartHeld(held, acquiredNow, action, paramsOk, env);
      var accepted := paramsOk && env.first.reply.Accepted?;
      var after := PerformCall(held.s, Motion(StartAction), paramsOk, env.first).0;
      && outcome.Done? && (outcome.success <==> accepted)
      && b'.action == (if accepted then action else held.action)
      && b'.channel == (if accepted then V.ResetTracking(held.channel) else held.channel)
      && b'.motion == (if accepted then P.RearmQuery(held.motion) else held.motion)
      && b'.s.rpcs == held.s.rpcs
           + (if paramsOk then [Rpc(Motion(StartAction), env.first.reply.Accepted?)] else [])
           + (if !accepted && acquiredNow && after.state == Controlled
              then [Rpc(Release(false), env.second.reply.Accepted?)] else [])
      && (!accepted ==>
            && outcome.error == (if !paramsOk || env.first.reply.Rejected? then ActionRejected else RpcCallFailed)
            && b'.s.lastError == NoError)
  {
    hide PerformCall, V.ResetTracking, P.RearmQuery;
    CallErrorIs(held.s, Motion(StartAction), paramsOk, env.first);
    MotionCallFacts(held.s, StartAction, paramsOk, env.first);
    var s := TakeError(PerformCall(held.s, Motion(StartAction), paramsOk, env.first).0);
    CallErrorIs(s, Release(false), true, env.second);
    ReleaseCallFacts(s, env.second);
  }

  /** start_action succeeds exactly when it names an action, control is or gets held, and the robot
      accepts the start: when the start was accepted in the RPC trace of the command. */
  lemma StartSucceedsIff(b: Bridge, action: string, paramsOk: bool, env: Env)
    requires BridgeInv(b)
    ensures var (b', outcome) := DoStart(b, action, paramsOk, env);
      && (Succeeded(outcome) <==>
            && action != "" && paramsOk && env.first.reply.Accepted?
            && (b.s.state == Controlled || (Reachable(b, env.connect) && Granted(env.take.reply))))
      && (Succeeded(outcome) <==> Rpc(Motion(StartAction), true) in NewRpcs(b.s, b'.s))
      && (Succeeded(outcome) ==> b'.action == action && b'.motion == P.RearmQuery(DoConnect(b, env.connect).0.motion))
      && (!Succeeded(outcome) ==> b'.action == b.action)
  {
    hide DoConnect, DoAcquire, StartHeld, PerformCall, P.RearmQuery;
    var (b', outcome) := DoStart(b, action, paramsOk, env);
    var sent: seq<Rpc>, start: seq<Rpc> := [], [];
    if action != "" {
      sent := ConnectFacts(b, env.connect);
      ConnectSucceedsIff(b, env.connect);
      var (connected, joined) := DoConnect(b, env.connect);
      if joined.success {
        var more := AcquireFacts(connected, env);
        sent := sent + more;
        AcquireSucceedsIff(connected, env);
        AcquireKeepsPoll(connected, env);
        var (held, acquired, acquiredNow) := DoAcquire(connected, env);
        if acquired.Done? && acquired.success {
          StartHeldIff(held, acquiredNow, action, paramsOk, env);
          var after := PerformCall(held.s, Motion(StartAction), paramsOk, env.first).0;
          var accepted := paramsOk && env.first.reply.Accepted?;
          start := (if paramsOk then [Rpc(Motion(StartAction), env.first.reply.Accepted?)] else [])
                   + (if !accepted && acquiredNow && after.state == Controlled
                      then [Rpc(Release(false), env.second.reply.Accepted?)] else []);
          assert Rpc(Motion(StartAction), true) in start <==> accepted;
        }
      }
    }
    assert b'.s.rpcs == b.s.rpcs + (sent + start);
    NewRpcsAre(b.s, b'.s, sent + start);
    assert Rpc(Motion(StartAction), true) !in sent;
  }

  /** On a ready path acquire_control leaves the poll alone. */
  lemma AcquireKeepsPoll(b: Bridge, env: Env)
    requires b.s.state != Disconnected && b.rpcReady
    ensures DoAcquire(b, env).0.motion == b.motion
  {
    hide StartControl;
  }

  /** set_action_params succeeds exactly when control is held and the robot accepts the change. */
  lemma ParamsSucceedsIff(b: Bridge, paramsOk: bool, env: Env)
    requires BridgeInv(b)
    ensures var (b', outcome) := SetParams(b, paramsOk, env);
      && (Succeeded(outcome) <==> paramsOk && b.s.state == Controlled && env.first.reply.Accepted?)
      && b'.channel == (if Succeeded(outcome) then V.ResetTracking(b.channel) else b.channel)
      && b'.motion == (if Succeeded(outcome) then P.RearmQuery(b.motion) else b.motion)
      && b'.action == b.action
      && b'.s.rpcs == b.s.rpcs + (if paramsOk && b.s.state == Controlled
                                  then [Rpc(Motion(SetActionParams), env.first.reply.Accepted?)] else [])
      && (!paramsOk ==> outcome == Done(false, ActionRejected))
      && (paramsOk && b.s.state != Controlled ==> outcome == Done(false, NotControlled))
      && (paramsOk && b.s.state == Controlled && !Succeeded(outcome) ==>
            && outcome.Done? && b'.s.lastError == NoError
            && outcome.error == if env.first.reply.Rejected? then ActionRejected else RpcCallFailed)
  {
    hide PerformCall, DoConnect, V.ResetTracking, P.RearmQuery;
    var _ := ConnectFacts(b, env.connect);
    CallErrorIs(b.s, Motion(SetActionParams), true, env.first);
    MotionCallFacts(b.s, SetActionParams, true, env.first);
  }

  /** A capability query succeeds exactly when the path is usable and the query is accepted. */
  lemma QuerySucceedsIff(b: Bridge, env: Env)
    requires BridgeInv(b)
    ensures Succeeded(DoQuery(b, env).1) <==> Reachable(b, env.connect) && env.first.reply.Accepted?
  {
    hide PerformCall, DoConnect;
    ConnectSucceedsIff(b, env.connect);
    var _ := ConnectFacts(b, env.connect);
    CallErrorIs(DoConnect(b, env.connect).0.s, Query, true, env.first);
  }

  /** What release_control sends, exactly, and when it succeeds: a stop if an action runs; the
      release if there was none or the stop was accepted, and control is still held; and success
      exactly without control at the start or with the release accepted. */
  lemma ReleaseSucceedsIff(b: Bridge, env: Env)
    requires BridgeInv(b)
    ensures var (b', outcome) := DoRelease(b, env);
      var after := if b.action == "" then b.s else Halt(b, StopAction, env.first).0.s;
      var releases := (b.action == "" || env.first.reply.Accepted?) && after.state == Controlled;
      && (Succeeded(outcome) <==> b.s.state != Controlled || (releases && env.second.reply.Accepted?))
      && b'.s.rpcs == b.s.rpcs
           + (if b.s.state == Controlled && b.action != ""
              then [Rpc(Motion(StopAction), env.first.reply.Accepted?)] else [])
           + (if b.s.state == Controlled && releases then [Rpc(Release(false), env.second.reply.Accepted?)] else [])
      && (!Succeeded(outcome) ==> b'.action == b.action)
  {
    hide Halt, ReleaseStopped;
    if b.s.state == Controlled {
      HaltSucceedsIff(b, StopAction, env.first);
      var _ := HaltFacts(b, StopAction, env.first);
      var stopped := if b.action == "" then b else Halt(b, StopAction, env.first).0;
      var _ := ReleaseStoppedFacts(stopped, env.second);
      ReleaseStoppedIff(stopped, env.second);
    }
  }

  lemma ReleaseStoppedIff(b: Bridge, w: Window)
    ensures var (b', outcome) := ReleaseStopped(b, w);
      && outcome.Done? && (outcome.success <==> b.s.state == Controlled && w.reply.Accepted?)
      && (!outcome.success ==> b'.action == b.action && b'.s.lastError == NoError)
  {
    hide PerformCall, V.ResetTracking;
    CallErrorIs(b.s, Release(false), true, w);
  }

  // ---------- answers ----------

  lemma CallError(s: Session, call: Call, paramsOk: bool, w: Window)
    requires call != Acquire && call != Release(true)
    ensures var (s', ok) := PerformCall(s, call, paramsOk, w); ok <==> s'.lastError == NoError
  {
    hide Callbacks;
  }

  lemma TakeOutcome(s: Session, w: Window)
    requires s.state != Controlled
    ensures var (s', taken) := StartControl(s, w); taken == Returned(false) ==> s'.lastError != NoError
  {
    hide Callbacks;
  }

  /** The answer names an error exactly when the command failed. */
  predicate Truthful(outcome: Outcome) {
    outcome.Done? ==> (outcome.success <==> outcome.error == NoError)
  }

  lemma ConnectIsTruthful(b: Bridge, env: ConnectEnv)
    ensures Truthful(DoConnect(b, env).1)
  {
    hide Probe, QueryAll, P.RearmQuery;
  }

  lemma AcquireIsTruthful(b: Bridge, env: Env)
    ensures Truthful(DoAcquire(b, env).1)
  {
    hide DoConnect, StartControl;
    ConnectIsTruthful(b, env.connect);
    var connected := DoConnect(b, env.connect).0;
    if connected.s.state != Controlled {
      TakeOutcome(connected.s, env.take);
    }
  }

  /** Whatever the client and the robot do, a command's answer names an error exactly when the
      command failed: the client's error is read before anything overwrites or clears it. */
  lemma AnswersAreTruthful(b: Bridge, command: Command, env: Env)
    ensures Truthful(Execute(b, command, env).1)
  {
    hide PerformCall, DoConnect, DoAcquire, RollBack, V.ResetTracking, P.RearmQuery;
    ConnectIsTruthful(b, env.connect);
    var connected := DoConnect(b, env.connect).0;
    match command
    case ConnectCommand =>
    case AcquireCommand => AcquireIsTruthful(b, env);
    case StartCommand(_, paramsOk) =>
      AcquireIsTruthful(connected, env);
      CallError(DoAcquire(connected, env).0.s, Motion(StartAction), paramsOk, env.first);
    case StopCommand => CallError(b.s, Motion(StopAction), true, env.first);
    case EmergencyCommand => CallError(b.s, Motion(EmergencyStop), true, env.first);
    case ParamsCommand(paramsOk) => CallError(connected.s, Motion(SetActionParams), paramsOk, env.first);
    case ReleaseCommand =>
      CallError(b.s, Motion(StopAction), true, env.first);
      CallError(if b.action == "" then b.s else Halt(b, StopAction, env.first).0.s, Release(false), true, env.second);
    case QueryCommand => CallError(connected.s, Query, true, env.first);
  }

  /** Every command that asks the robot for an action does ask for that action, and succeeds
      exactly when the robot accepted it, as the RPC trace of the command shows. */
  lemma SuccessIsInTrace(b: Bridge, command: Command, env: Env)
    requires BridgeInv(b)
    ensures var (b', outcome) := Execute(b, command, env);
      var sent := NewRpcs(b.s, b'.s);
      match command
      case StartCommand(_, _) => Succeeded(outcome) <==> Rpc(Motion(StartAction), true) in sent
      case StopCommand => Succeeded(outcome) <==> Rpc(Motion(StopAction), true) in sent
      case EmergencyCommand => Succeeded(outcome) <==> Rpc(Motion(EmergencyStop), true) in sent
      case ParamsCommand(_) => Succeeded(outcome) <==> Rpc(Motion(SetActionParams), true) in sent
      case ReleaseCommand => Succeeded(outcome) <==> b.s.state != Controlled || Rpc(Release(false), true) in sent
      case AcquireCommand => Succeeded(outcome) <==> b'.s.state == Controlled
      case ConnectCommand => Succeeded(outcome) <==> Reachable(b, env.connect)
      case QueryCommand => Succeeded(outcome) <==> Reachable(b, env.connect) && env.first.reply.Accepted?
  {
    hide DoConnect, DoStart, DoAcquire, DoRelease, Halt, SetParams, DoQuery;
    var b' := Execute(b, command, env).0;
    match command
    case StartCommand(action, paramsOk) => StartSucceedsIff(b, action, paramsOk, env);
    case StopCommand =>
      var sent := HaltFacts(b, StopAction, env.first);
      NewRpcsAre(b.s, b'.s, sent);
    case EmergencyCommand =>
      var sent := HaltFacts(b, EmergencyStop, env.first);
      NewRpcsAre(b.s, b'.s, sent);
    case ParamsCommand(paramsOk) =>
      ParamsSucceedsIff(b, paramsOk, env);
      NewRpcsAre(b.s, b'.s, if paramsOk && b.s.state == Controlled
                            then [Rpc(Motion(SetActionParams), env.first.reply.Accepted?)] else []);
    case ReleaseCommand =>
      ReleaseSucceedsIff(b, env);
      ReleaseInTrace(b, env);
    case AcquireCommand => var _ := AcquireFacts(b, env);
    case ConnectCommand => ConnectSucceedsIff(b, env.connect);
    case QueryCommand => QuerySucceedsIff(b, env);
  }

  lemma ReleaseInTrace(b: Bridge, env: Env)
    requires BridgeInv(b)
    ensures var after := if b.action == "" then b.s else Halt(b, StopAction, env.first).0.s;
      Rpc(Release(false), true) in NewRpcs(b.s, DoRelease(b, env).0.s) <==>
        && b.s.state == Controlled && (b.action == "" || env.first.reply.Accepted?)
        && after.state == Controlled && env.second.reply.Accepted?
  {
    hide Halt, DoRelease;
    ReleaseSucceedsIff(b, env);
    var after := if b.action == "" then b.s else Halt(b, StopAction, env.first).0.s;
    var releases := (b.action == "" || env.first.reply.Accepted?) && after.state == Controlled;
    var stop := if b.s.state == Controlled && b.action != ""
                then [Rpc(Motion(StopAction), env.first.reply.Accepted?)] else [];
    var release := if b.s.state == Controlled && releases
                   then [Rpc(Release(false), env.second.reply.Accepted?)] else [];
    NewRpcsAre(b.s, DoRelease(b, env).0.s, stop + release);
  }
}
