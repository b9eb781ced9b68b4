/** MotionBridgeNode with its mutable fields: the cmd_vel channel, the asynchronous polls, and
    the commands of the worker thread, each tied to its specification. */
module BridgeNode {
  import opened Wrappers
  import opened ControlSession
  import opened SessionSafety
  import opened Client
  import opened Acquisition
  import opened Ownership
  import opened Worker
  import opened WorkerCommands
  import V = Velocity
  import P = Poll

  // ---------- cmd_vel ----------

  class CmdVelChannel {
    const config: V.Config
    var pendingVelocity: Option<V.Command>
    var lastVelocityReceivedAt: int
    var nextVelocityDispatchAt: int
    var velocityCommandActive: bool
    var velocityWatchdogFired: bool
    /** What passed through the channel. */
    var received: seq<V.Command>
    var dispatched: seq<V.Dispatch>
    var attempts: seq<V.Attempt>
    var floors: V.Floors

    ghost function View(): V.Channel
      reads this
    {
      V.Channel(pendingVelocity, lastVelocityReceivedAt, nextVelocityDispatchAt, velocityCommandActive,
                velocityWatchdogFired, received, dispatched, attempts, floors)
    }

    constructor (config: V.Config)
      ensures View() == V.Fresh() && this.config == config
    {
      this.config := config;
      pendingVelocity, lastVelocityReceivedAt, nextVelocityDispatchAt := None, V.NEVER, V.NEVER;
      velocityCommandActive, velocityWatchdogFired := false, false;
      received, dispatched, attempts, floors := [], [], [], [0];
    }

    method OnCmdVel(now: int, m: V.Message)
      modifies this
      ensures View() == V.OnCmdVel(old(View()), now, m)
    {
      match m {
        case NotFinite =>
        case Finite(twist) =>
          var command := V.Command(twist, now, |received|);
          received := received + [command];
          pendingVelocity := Some(command);
          lastVelocityReceivedAt := now;
      }
    }

    method Receive(arrivals: seq<Arrival>)
      modifies this
      ensures View() == Arrivals(old(View()), arrivals)
    {
      hide V.OnCmdVel;
      for i := 0 to |arrivals|
        invariant View() == Arrivals(old(View()), arrivals[..i])
      {
        assert arrivals[..i + 1] == arrivals[..i] + [arrivals[i]];
        ArrivalsSnoc(old(View()), arrivals[..i], arrivals[i]);
        OnCmdVel(arrivals[i].at, arrivals[i].message);
      }
      assert arrivals[..|arrivals|] == arrivals;
    }

    /** apply_velocity(): messages arrive while the RPC runs. */
    method ApplyVelocity(client: MotionHighLevelClient, twist: V.Twist, arrivals: seq<Arrival>, w: Window)
      returns (ok: bool)
      modifies this, client
      ensures ok == PerformCall(old(client.View()), Motion(SetActionParams), true, w).1
      ensures client.View() == SessionAfterSend(old(client.View()), V.Zeroing, w).0
      ensures var arrived := Arrivals(old(View()), arrivals);
        View() == arrived.(active := if ok then V.AnyNonzero(twist) else arrived.active)
    {
      hide PerformCall, V.OnCmdVel;
      ok := client.MotionRpc(SetActionParams, true, w);
      Receive(arrivals);
      if ok {
        velocityCommandActive := V.AnyNonzero(twist);
      } else {
        var _ := client.GetLastError();
      }
    }

    method DispatchPendingVelocity(client: MotionHighLevelClient, now: int, arrivals: seq<Arrival>, w: Window)
      modifies this, client
      ensures var begun := V.BeginDispatch(config, old(View()), now);
        var (s, ok) := SessionAfterSend(old(client.View()), begun.1, w);
        client.View() == s && View() == AfterSend(begun, arrivals, ok)
    {
      hide PerformCall, Arrivals;
      if pendingVelocity.None? || now < nextVelocityDispatchAt {
        return;
      }
      var command := pendingVelocity.value;
      pendingVelocity := None;
      nextVelocityDispatchAt := now + config.periodMs;
      if now - command.receivedAt > config.timeoutMs {
        return;
      }
      velocityWatchdogFired := false;
      dispatched := dispatched + [V.Dispatch(command, now, |floors| - 1, |received|)];
      var _ := ApplyVelocity(client, command.twist, arrivals, w);
    }

    method EnforceCmdVelWatchdog(client: MotionHighLevelClient, now: int, arrivals: seq<Arrival>, w: Window)
      modifies this, client
      ensures var begun := V.BeginWatch(config, old(View()), now, old(client.state) == Controlled);
        var (s, ok) := SessionAfterSend(old(client.View()), begun.1, w);
        client.View() == s && View() == AfterSend(begun, arrivals, ok)
    {
      hide PerformCall, Arrivals;
      if !velocityCommandActive || velocityWatchdogFired || client.state != Controlled {
        return;
      }
      if lastVelocityReceivedAt == V.NEVER {
        return;
      }
      if now - lastVelocityReceivedAt > config.timeoutMs {
        attempts := attempts + [V.Attempt(now, |dispatched|, |floors| - 1)];
        var zero := V.Twist(0.0, 0.0, 0.0);
        var _ := ApplyVelocity(client, zero, arrivals, w);
        ArrivalsLeaveFlags(V.BeginWatch(config, old(View()), now, true).0, arrivals);
        velocityWatchdogFired := true;
      }
    }

    method ResetVelocityTracking()
      modifies this
      ensures View() == V.ResetTracking(old(View()))
    {
      pendingVelocity := None;
      lastVelocityReceivedAt := V.NEVER;
      nextVelocityDispatchAt := V.NEVER;
      velocityCommandActive := false;
      velocityWatchdogFired := false;
      floors := floors + [|received|];
    }
  }

  lemma {:induction false} ArrivalsLeaveFlags(ch: V.Channel, arrivals: seq<Arrival>)
    ensures Arrivals(ch, arrivals).active == ch.active && Arrivals(ch, arrivals).fired == ch.fired
    decreases arrivals
  {
    if arrivals != [] {
      ArrivalsLeaveFlags(V.OnCmdVel(ch, arrivals[0].at, arrivals[0].message), arrivals[1..]);
    }
  }

  // ---------- polls ----------

  /** The fields of update_motion_status(), or of update_battery_status(). */
  class StatusPoll {
    const config: P.Config
    var pendingQuery: Option<nat>
    var querySequence: nat
    var responseAt: Option<int>
    var queryDeadline: int
    var nextQueryAt: int
    var arrived: Option<P.Body>
    /** What the poll did. */
    var sends: seq<P.Sent>
    var accepted: seq<P.Accepted>
    var givenUp: set<nat>
    var held: set<nat>

    ghost function View(): P.Poll
      reads this
    {
      P.Poll(pendingQuery, querySequence, responseAt, queryDeadline, nextQueryAt, arrived,
             sends, accepted, givenUp, held)
    }

    constructor (config: P.Config)
      ensures View() == P.Fresh() && this.config == config
    {
      this.config := config;
      pendingQuery, querySequence, responseAt, queryDeadline, nextQueryAt := None, 0, None, P.EPOCH, P.EPOCH;
      arrived, sends, accepted, givenUp, held := None, [], [], {}, {};
    }

    method CancelQuery()
      modifies this
      ensures View() == P.CancelQuery(old(View()))
    {
      querySequence := querySequence + 1;
      responseAt := None;
      if pendingQuery.Some? {
        held := held - {pendingQuery.value};
        givenUp := givenUp + {pendingQuery.value};
        pendingQuery := None;
        arrived := None;
      }
    }

    method Rearm()
      modifies this
      ensures View() == P.RearmQuery(old(View()))
    {
      CancelQuery();
      nextQueryAt := P.EPOCH;
    }

    /** The catch block. */
    method Abandon(now: int)
      modifies this
      ensures View() == P.Abandon(config, old(View()), now)
    {
      CancelQuery();
      nextQueryAt := now + config.periodMs;
    }

    method HandleReply(now: int, sequence: nat, body: P.Body)
      modifies this
      ensures View() == P.HandleReply(old(View()), now, sequence, body)
    {
      if sequence == querySequence {
        responseAt := Some(now);
      }
      if pendingQuery == Some(sequence) {
        arrived := Some(body);
      }
      held := held - {sequence};
    }

    /** The replies whose callbacks spin_some runs. */
    method Receive(replies: seq<PollReply>)
      modifies this
      ensures View() == Replies(old(View()), replies)
    {
      hide P.HandleReply;
      for i := 0 to |replies|
        invariant Replies(old(View()), replies) == Replies(View(), replies[i..])
      {
        assert replies[i..][1..] == replies[i + 1..];
        HandleReply(replies[i].at, replies[i].sequence, replies[i].body);
      }
    }

    method SendQuery(now: int, sendThrows: bool)
      modifies this
      ensures View() == P.SendQuery(config, old(View()), now, sendThrows)
    {
      hide P.CancelQuery;
      querySequence := querySequence + 1;
      responseAt := None;
      if sendThrows {
        Abandon(now);
        return;
      }
      pendingQuery := Some(querySequence);
      arrived := None;
      held := held + {querySequence};
      sends := sends + [P.Sent(querySequence, now)];
      queryDeadline := now + P.DEADLINE_MS;
    }

    method Consume(now: int)
      requires pendingQuery.Some? && arrived.Some? && responseAt.Some?
      modifies this
      ensures View() == P.Consume(config, old(View()), now)
    {
      hide P.Abandon;
      var body, sequence := arrived.value, pendingQuery.value;
      pendingQuery := None;
      arrived := None;
      nextQueryAt := now + config.periodMs;
      match body {
        case Bad => Abandon(now);
        case Rejected =>
          if config.rejectionThrows {
            Abandon(now);
          }
        case Good(value) =>
          accepted := accepted + [P.Accepted(sequence, queryDeadline - P.DEADLINE_MS, responseAt.value, now, value)];
      }
    }

    /** update_motion_status() and update_battery_status(). */
    method Update(now: int, enabled: bool, sendThrows: bool)
      modifies this
      ensures View() == P.UpdatePoll(config, old(View()), now, enabled, sendThrows)
    {
      hide P.CancelQuery, P.Abandon, P.SendQuery, P.Consume;
      if !enabled {
        CancelQuery();
        return;
      }
      if pendingQuery.None? {
        if now < nextQueryAt {
          return;
        }
        SendQuery(now, sendThrows);
        return;
      }
      if (if responseAt.Some? then responseAt.value else now) >= queryDeadline {
        Abandon(now);
        return;
      }
      if arrived.None? || responseAt.None? {
        return;
      }
      Consume(now);
    }
  }

  // ---------- commands ----------

  /** How the surroundings time a command: its startControl, and its readiness wait with how
      each query is treated. */
  datatype Timing = Timing(start: int, script: AcquireScript, waitFrom: int, robot: nat -> Attempt)

  /** Enough windows for every query the wait can make, answered as its timing says. */
  predicate Supplies(env: ConnectEnv, timing: Timing) {
    && |env.probes| >= 25
    && forall i :: 0 <= i < |env.probes| ==> timing.robot(i).accepted == env.probes[i].reply.Accepted?
  }

  /** Of the queries supplied, those within the readiness wait. */
  function MetConnect(env: ConnectEnv, timing: Timing): (met: ConnectEnv)
    requires Supplies(env, timing)
  {
    ReadinessTells(timing.waitFrom, timing.robot);
    env.(probes := env.probes[..|ReadinessOf(timing.waitFrom, timing.robot).begun|])
  }

  const ACQUIRE_TIMEOUT_MS: int := 10000

  /** The surroundings as a command meets them: the readiness queries there was time for, and the
      take as startControl's own timing lets it come. */
  function Met(env: Env, timing: Timing): (met: Env)
    requires Supplies(env.connect, timing)
  {
    env.(connect := MetConnect(env.connect, timing),
         take := TakeWindow(env.take, timing.start, ACQUIRE_TIMEOUT_MS, timing.script))
  }

  /** acquire_control leaves the robot time: one that switches its master promptly is asked. */
  lemma AcquireLeavesTime(start: int, script: AcquireScript)
    requires Prompt(script)
    ensures TimelineOf(start, ACQUIRE_TIMEOUT_MS, script).takeAt.Some?
  {
    NeverTakesIff(start, ACQUIRE_TIMEOUT_MS);
  }

  function MetTurn(turn: Turn, timing: Timing): (met: Turn)
    requires Supplies(turn.env.connect, timing)
  {
    turn.(env := Met(turn.env, timing))
  }

  /** The readiness queries met: between 1 and 25, all refused but the last; and that one is
      accepted, or no other query could have begun within the wait. */
  lemma QueriesMet(env: ConnectEnv, timing: Timing)
    requires Supplies(env, timing)
    ensures var made, begun := MetConnect(env, timing).probes, ReadinessOf(timing.waitFrom, timing.robot).begun;
      && 1 <= |made| == |begun| <= 25 && made <= env.probes
      && (forall i :: 0 <= i < |made| - 1 ==> !made[i].reply.Accepted?)
      && var last := |made| - 1;
         made[last].reply.Accepted?
         || NextAttempt(begun[last], timing.waitFrom + READINESS_TIMEOUT_MS, READINESS_RPC_TIMEOUT_MS,
                        READINESS_RETRY_MS, timing.robot(last))
            >= timing.waitFrom + READINESS_TIMEOUT_MS
  {
    ReadinessTells(timing.waitFrom, timing.robot);
    var made, begun := MetConnect(env, timing).probes, ReadinessOf(timing.waitFrom, timing.robot).begun;
    forall i | 0 <= i < |made| - 1 ensures !made[i].reply.Accepted? {
      assert BegunInTurn(begun, i + 1, timing.waitFrom, timing.waitFrom + READINESS_TIMEOUT_MS,
                         READINESS_RPC_TIMEOUT_MS, READINESS_RETRY_MS, timing.robot);
    }
  }

  class MotionBridgeNode {
    const client: MotionHighLevelClient
    const channel: CmdVelChannel
    const motionPoll: StatusPoll
    const batteryPoll: StatusPoll
    var rpcReady: bool
    var motionObservedEnabled: bool
    var currentAction: string
    const batteryFromSystemStatus: bool
    var commands: seq<Job>
    var ended: bool
    /** The commands submitted and the answers given. */
    var submitted: seq<Command>
    var answers: seq<Answer>

    ghost function View(): Bridge
      reads this, client, channel, motionPoll
    {
      Bridge(client.View(), rpcReady, motionObservedEnabled, currentAction, channel.View(), motionPoll.View())
    }

    ghost function NodeView(): Node
      reads this, client, channel, motionPoll, batteryPoll
    {
      Node(View(), batteryPoll.View(), commands, submitted, answers, ended)
    }

    ghost function Configured(): Settings {
      Settings(channel.config, motionPoll.config, batteryPoll.config, batteryFromSystemStatus)
    }

    constructor (client: MotionHighLevelClient, channel: CmdVelChannel,
                 motionPoll: StatusPoll, batteryPoll: StatusPoll, batteryWanted: bool)
      requires batteryPoll.View() == P.Fresh()
      ensures this.client == client && this.channel == channel
      ensures this.motionPoll == motionPoll && this.batteryPoll == batteryPoll
      ensures View() == Bridge(client.View(), false, false, "", channel.View(), motionPoll.View())
      ensures NodeView() == Worker.Start(View())
    {
      this.client, this.channel, this.motionPoll, this.batteryPoll := client, channel, motionPoll, batteryPoll;
      batteryFromSystemStatus := batteryWanted;
      rpcReady, motionObservedEnabled, currentAction := false, false, "";
      commands, ended, submitted, answers := [], false, [], [];
    }

    /** wait_for_rpc_ready(): the queries that WaitForRpcReady finds time for. */
    method ProbeUntilReady(env: ConnectEnv, timing: Timing) returns (ready: bool)
      requires Supplies(env, timing) && client.state != Disconnected && TimerDiscipline(client.View())
      modifies client
      ensures (client.View(), ready) == Probe(old(client.View()), MetConnect(env, timing).probes)
    {
      hide PerformCall;
      var waited := WaitForRpcReady(timing.waitFrom, timing.robot);
      var count := |waited.begun|;
      QueriesMet(env, timing);
      ghost var made := MetConnect(env, timing).probes;
      ready := false;
      for i := 0 to count
        invariant client.state != Disconnected && TimerDiscipline(client.View())
        invariant ready ==> i == count
        invariant if ready then (client.View(), true) == Probe(old(client.View()), made)
                  else Probe(old(client.View()), made) == Probe(client.View(), made[i..])
      {
        assert made[i..][1..] == made[i + 1..] && made[i] == env.probes[i];
        CallFacts(client.View(), Query, true, env.probes[i]);
        QueryIsAnswered(client.View(), env.probes[i]);
        ready := client.QueryRpc(true, env.probes[i]);
      }
    }

    method RunQueries(queries: seq<Window>)
      modifies client
      ensures client.View() == QueryAll(old(client.View()), queries)
    {
      hide PerformCall;
      for i := 0 to |queries|
        invariant QueryAll(old(client.View()), queries) == QueryAll(client.View(), queries[i..])
      {
        assert queries[i..][1..] == queries[i + 1..];
        var _ := client.QueryRpc(true, queries[i]);
      }
    }

    method ConnectClient(env: ConnectEnv, timing: Timing) returns (outcome: Outcome)
      requires Supplies(env, timing) && TimerDiscipline(client.View())
      modifies this`rpcReady, this`motionObservedEnabled, client, motionPoll
      ensures (View(), outcome) == DoConnect(old(View()), MetConnect(env, timing))
    {
      hide Probe, QueryAll, P.RearmQuery;
      if client.state != Disconnected && rpcReady {
        return Done(true, NoError);
      }
      if client.state == Disconnected {
        rpcReady := false;
        var connected := client.Connect(env.serviceUp, env.leaseMs);
        if !connected {
          var error := client.GetLastError();
          return Done(false, error);
        }
      }
      var ready := ProbeUntilReady(env, timing);
      if !ready {
        var error := client.GetLastError();
        return Done(false, if error == NoError then RpcConnectFailed else error);
      }
      rpcReady := true;
      if !motionObservedEnabled {
        RunQueries(env.setup);
        motionObservedEnabled := env.observed;
      }
      motionPoll.Rearm();
      return Done(true, NoError);
    }

    method AcquireControl(env: Env, timing: Timing) returns (outcome: Outcome, acquiredNow: bool)
      requires Supplies(env.connect, timing) && BridgeInv(View())
      modifies this`rpcReady, this`motionObservedEnabled, client, motionPoll
      ensures (View(), outcome, acquiredNow) == DoAcquire(old(View()), Met(env, timing))
    {
      hide DoConnect, FinishCall, Callbacks, MetConnect, TimelineOf;
      ghost var met := Met(env, timing);
      var _ := ConnectFacts(View(), met.connect);
      var connected := ConnectClient(env.connect, timing);
      if !connected.success {
        return connected, false;
      }
      if client.state == Controlled {
        return Done(true, NoError), false;
      }
      CallbacksInertWhenIdle(client.View(), env.take.callbacks);
      ghost var before := client.View();
      var taken := client.StartControl(timing.start, ACQUIRE_TIMEOUT_MS, timing.script, env.take);
      assert (client.View(), taken) == StartControl(before, met.take);
      match taken {
        case Raised => return Escaped, false;
        case Returned(ok) =>
          if ok {
            return Done(true, NoError), true;
          }
          var error := client.GetLastError();
          return Done(false, error), false;
      }
    }

    /** stop_action() and emergency_stop(). */
    method HaltAction(call: MotionCall, w: Window) returns (outcome: Outcome)
      modifies client, channel, motionPoll
      ensures (View(), outcome) == Halt(old(View()), call, w)
    {
      hide PerformCall, V.ResetTracking, P.RearmQuery;
      if client.state != Controlled {
        return Done(false, NotControlled);
      }
      var ok := client.MotionRpc(call, true, w);
      if !ok {
        var error := client.GetLastError();
        return Done(false, error);
      }
      channel.ResetVelocityTracking();
      motionPoll.Rearm();
      return Done(true, NoError);
    }

    method ReleaseControl(env: Env) returns (outcome: Outcome)
      modifies this`currentAction, client, channel, motionPoll
      ensures (View(), outcome) == DoRelease(old(View()), env)
    {
      hide PerformCall, Halt, V.ResetTracking;
      if client.state != Controlled {
        return Done(true, NoError);
      }
      if currentAction != "" {
        var stopped := HaltAction(StopAction, env.first);
        HaltIsDone(old(View()), StopAction, env.first);
        if !stopped.success {
          return stopped;
        }
      }
      var ok := client.ReleaseControl(env.second);
      if !ok {
        var error := client.GetLastError();
        return Done(false, error);
      }
      currentAction := "";
      channel.ResetVelocityTracking();
      return Done(true, NoError);
    }

    /** The rest of start_action once control is held. */
    method StartUnderControl(acquiredNow: bool, action: string, paramsOk: bool, env: Env) returns (outcome: Outcome)
      modifies this`currentAction, client, channel, motionPoll
      ensures (View(), outcome) == StartHeld(old(View()), acquiredNow, action, paramsOk, env)
    {
      hide PerformCall, V.ResetTracking, P.RearmQuery;
      var ok := client.MotionRpc(ControlSession.StartAction, paramsOk, env.first);
      if ok {
        currentAction := action;
        channel.ResetVelocityTracking();
        motionPoll.Rearm();
        return Done(true, NoError);
      }
      var error := client.GetLastError();
      if !acquiredNow {
        return Done(false, error);
      }
      var rolledBack := client.ReleaseControl(env.second);
      if !rolledBack {
        var _ := client.GetLastError();
      }
      return Done(false, error, if rolledBack then Released else NotReleased);
    }

    method StartAction(action: string, paramsOk: bool, env: Env, timing: Timing) returns (outcome: Outcome)
      requires Supplies(env.connect, timing) && BridgeInv(View())
      modifies this`rpcReady, this`motionObservedEnabled, this`currentAction, client, channel, motionPoll
      ensures (View(), outcome) == DoStart(old(View()), action, paramsOk, Met(env, timing))
    {
      hide StartHeld, DoConnect, DoAcquire, MetConnect, TakeWindow;
      if action == "" {
        return Done(false, ActionRejected);
      }
      var _ := ConnectFacts(View(), Met(env, timing).connect);
      var connected := ConnectClient(env.connect, timing);
      if !connected.success {
        return connected;
      }
      var acquired, acquiredNow := AcquireControl(env, timing);
      if !(acquired.Done? && acquired.success) {
        return acquired;
      }
      StartHeldNeedsWindows(View(), acquiredNow, action, paramsOk, env, Met(env, timing));
      outcome := StartUnderControl(acquiredNow, action, paramsOk, env);
    }

    /** The motion/set_action_params service. */
    method SetActionParams(paramsOk: bool, env: Env, timing: Timing) returns (outcome: Outcome)
      requires Supplies(env.connect, timing) && BridgeInv(View())
      modifies this`rpcReady, this`motionObservedEnabled, client, channel, motionPoll
      ensures (View(), outcome) == SetParams(old(View()), paramsOk, Met(env, timing))
    {
      hide PerformCall, DoConnect, MetConnect, TakeWindow, V.ResetTracking, P.RearmQuery;
      if !paramsOk {
        return Done(false, ActionRejected);
      }
      if client.state != Controlled {
        return Done(false, NotControlled);
      }
      var _ := ConnectFacts(View(), Met(env, timing).connect);
      var connected := ConnectClient(env.connect, timing);
      if !connected.success {
        return connected;
      }
      var ok := client.MotionRpc(ControlSession.SetActionParams, paramsOk, env.first);
      if !ok {
        var error := client.GetLastError();
        return Done(false, error);
      }
      channel.ResetVelocityTracking();
      motionPoll.Rearm();
      return Done(true, NoError);
    }

    method QueryCapabilities(env: Env, timing: Timing) returns (outcome: Outcome)
      requires Supplies(env.connect, timing) && BridgeInv(View())
      modifies this`rpcReady, this`motionObservedEnabled, client, motionPoll
      ensures (View(), outcome) == DoQuery(old(View()), Met(env, timing))
    {
      hide PerformCall, DoConnect, MetConnect, TakeWindow;
      var connected := ConnectClient(env.connect, timing);
      if !(connected.Done? && connected.success) {
        return connected;
      }
      var ok := client.QueryRpc(true, env.first);
      if !ok {
        var error := client.GetLastError();
        return Done(false, error);
      }
      return Done(true, NoError);
    }

    /** Call what a queued command stands for. */
    method RunCommand(command: Command, env: Env, timing: Timing) returns (outcome: Outcome)
      requires Supplies(env.connect, timing) && BridgeInv(View())
      modifies this`rpcReady, this`motionObservedEnabled, this`currentAction, client, channel, motionPoll
      ensures (View(), outcome) == Execute(old(View()), command, Met(env, timing))
    {
      hide DoConnect, DoAcquire, DoStart, Halt, SetParams, DoQuery, MetConnect, TakeWindow;
      match command {
        case ConnectCommand => outcome := ConnectClient(env.connect, timing);
        case AcquireCommand =>
          var acquired;
          outcome, acquired := AcquireControl(env, timing);
        case StartCommand(action, paramsOk) => outcome := StartAction(action, paramsOk, env, timing);
        case StopCommand => outcome := HaltAction(StopAction, env.first);
        case EmergencyCommand => outcome := HaltAction(EmergencyStop, env.first);
        case ParamsCommand(paramsOk) => outcome := SetActionParams(paramsOk, env, timing);
        case ReleaseCommand => outcome := ReleaseControl(env);
        case QueryCommand => outcome := QueryCapabilities(env, timing);
      }
    }

    // ---------- the worker thread ----------

    /** enqueue(): put a command behind the others. */
    method Enqueue(command: Command)
      modifies this`commands, this`submitted
      ensures NodeView() == Worker.Enqueue(old(NodeView()), command)
    {
      commands := commands + [Job(|submitted|, command)];
      submitted := submitted + [command];
    }

    /** The first half of a turn. */
    method Act(turn: Turn, timing: Timing)
      requires Supplies(turn.env.connect, timing) && BridgeInv(View())
      modifies this`rpcReady, this`motionObservedEnabled, this`currentAction, this`commands, this`answers
      modifies client, channel, motionPoll
      ensures View() == Worker.Act(Configured(), old(NodeView()), MetTurn(turn, timing)).b
      ensures commands == (if old(commands) == [] then [] else old(commands)[1..])
      ensures answers == Worker.Act(Configured(), old(NodeView()), MetTurn(turn, timing)).answers
    {
      hide Execute, SessionAfterSend, AfterSend, Arrivals, Met;
      channel.Receive(turn.early);
      if commands != [] {
        var job := commands[0];
        commands := commands[1..];
        var outcome := RunCommand(job.command, turn.env, timing);
        answers := answers + [Answer(job, if outcome.Escaped? then Done(false, RpcCallFailed) else outcome)];
      } else {
        channel.DispatchPendingVelocity(client, turn.dispatch.at, turn.dispatch.arrivals, turn.dispatch.window);
      }
    }

    /** update_motion_status() and update_battery_status(), once the RPC path is ready. */
    method UpdateStatus(turn: Turn)
      requires motionPoll != batteryPoll
      modifies this`currentAction, motionPoll, batteryPoll
      ensures NodeView() == UpdatePolls(Configured(), old(NodeView()), turn)
    {
      hide P.UpdatePoll;
      if rpcReady {
        var before := |motionPoll.accepted|;
        motionPoll.Update(turn.motion.at, client.state != Disconnected, turn.motion.sendThrows);
        if |motionPoll.accepted| > before {
          currentAction := turn.learned;
        }
        batteryPoll.Update(turn.battery.at, batteryFromSystemStatus && motionObservedEnabled, turn.battery.sendThrows);
      }
    }

    /** The middle of a turn: the watchdog, and spin_some(). */
    method WatchAndSpin(turn: Turn)
      requires motionPoll != batteryPoll
      modifies client, channel, motionPoll, batteryPoll
      ensures NodeView() == SpinSome(Watch(Configured(), old(NodeView()), turn), turn)
    {
      hide SessionAfterSend, AfterSend, Arrivals, Callbacks, Replies, V.BeginWatch;
      channel.EnforceCmdVelWatchdog(client, turn.watch.at, turn.watch.arrivals, turn.watch.window);
      client.Spin(turn.callbacks);
      motionPoll.Receive(turn.motion.replies);
      batteryPoll.Receive(turn.battery.replies);
    }

    /** One turn of worker_loop. */
    method WorkOnce(turn: Turn, timing: Timing)
      requires Supplies(turn.env.connect, timing)
      requires BridgeInv(View()) && motionPoll != batteryPoll
      modifies this`rpcReady, this`motionObservedEnabled, this`currentAction, this`commands, this`answers
      modifies client, channel, motionPoll, batteryPoll
      ensures NodeView() == TakeTurn(Configured(), old(NodeView()), MetTurn(turn, timing))
      ensures BridgeInv(View())
    {
      hide Execute, Send, Arrivals, Callbacks, Replies, P.UpdatePoll, V.BeginWatch, V.BeginDispatch;
      ghost var n := NodeView();
      Act(turn, timing);
      ghost var seen := MetTurn(turn, timing);
      WatchAndSpin(turn);
      UpdateStatus(turn);
      TurnJustified(Configured(), n, seen);
    }

    method StopActive(w: Window)
      modifies client, channel, motionPoll
      ensures View() == Ownership.StopActive(old(View()), w)
    {
      hide PerformCall, Halt, P.CancelQuery;
      motionPoll.CancelQuery();
      if client.state == Controlled && currentAction != "" {
        var _ := HaltAction(StopAction, w);
      }
    }

    /** disable_motion_observed() and disconnect(). */
    method Depart(queries: seq<Window>, w: Window)
      modifies this`rpcReady, this`motionObservedEnabled, this`currentAction, client
      ensures View() == Ownership.Depart(old(View()), queries, w)
    {
      hide PerformCall, QueryAll;
      if motionObservedEnabled {
        RunQueries(queries);
        motionObservedEnabled := false;
      }
      client.Disconnect(w);
      rpcReady := false;
      currentAction := "";
    }

    /** What worker_loop does when it ends. */
    method LeaveLoop(env: Env)
      requires motionPoll != batteryPoll
      modifies this`rpcReady, this`motionObservedEnabled, this`currentAction, this`ended
      modifies client, channel, motionPoll, batteryPoll
      ensures NodeView() == QuitLoop(old(NodeView()), env)
    {
      hide Ownership.StopActive, Ownership.Depart, P.CancelQuery;
      batteryPoll.CancelQuery();
      StopActive(env.first);
      Depart(env.connect.setup, env.second);
      ended := true;
    }
  }

  lemma QueryIsAnswered(s: Session, w: Window)
    requires s.state != Disconnected
    ensures PerformCall(s, Query, true, w).1 == w.reply.Accepted?
  {
  }

  lemma StartHeldNeedsWindows(held: Bridge, acquiredNow: bool, action: string, paramsOk: bool, env: Env, env': Env)
    requires env.first == env'.first && env.second == env'.second
    ensures StartHeld(held, acquiredNow, action, paramsOk, env) == StartHeld(held, acquiredNow, action, paramsOk, env')
  {
    hide PerformCall, RollBack;
  }

  lemma HaltIsDone(b: Bridge, call: MotionCall, w: Window)
    ensures Halt(b, call, w).1.Done?
  {
  }
}
