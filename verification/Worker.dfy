/**
 The worker thread of the bridge: a FIFO of commands that other threads submit, and in every
 turn of its loop one command or one velocity dispatch, then the watchdog, the executor's
 callbacks, and the two polls.

 A cmd_vel message that comes in during the RPCs of a command is listed before the command's
 effect, and a poll reply after it.  The command looks at neither; and a reset discards the
 message, and a re-arming the reply, in either order.
 */
module Worker {
  import opened Wrappers
  import opened ControlSession
  import opened SessionSafety
  import opened Client
  import opened Ownership
  import V = Velocity
  import P = Poll

  datatype Arrival = Arrival(at: int, message: V.Message)

  /** The subscription thread stores messages while the worker is inside an RPC. */
  function Arrivals(ch: V.Channel, arrivals: seq<Arrival>): V.Channel
    decreases arrivals
  {
    if arrivals == [] then ch
    else Arrivals(V.OnCmdVel(ch, arrivals[0].at, arrivals[0].message), arrivals[1..])
  }

  lemma {:induction false} ArrivalsSnoc(ch: V.Channel, arrivals: seq<Arrival>, a: Arrival)
    ensures Arrivals(ch, arrivals + [a]) == V.OnCmdVel(Arrivals(ch, arrivals), a.at, a.message)
    decreases arrivals
  {
    hide V.OnCmdVel;
    if arrivals == [] {
      assert arrivals + [a] == [a];
      assert Arrivals(V.OnCmdVel(ch, a.at, a.message), []) == V.OnCmdVel(ch, a.at, a.message);
    } else {
      assert (arrivals + [a])[1..] == arrivals[1..] + [a];
      ArrivalsSnoc(V.OnCmdVel(ch, arrivals[0].at, arrivals[0].message), arrivals[1..], a);
    }
  }

  /** The channel after a send step that began with `begun` and whose RPC was answered `ok`. */
  function AfterSend(begun: (V.Channel, V.Sending), arrivals: seq<Arrival>, ok: bool): V.Channel {
    if begun.1.Nothing? then begun.0 else V.EndSend(Arrivals(begun.0, arrivals), begun.1, ok)
  }

  /** The session after the setActionParams of a send step, its error read on failure. */
  function SessionAfterSend(s: Session, sending: V.Sending, w: Window): (Session, bool)
  {
    if sending.Nothing? then (s, false)
    else
      var (s', ok) := PerformCall(s, Motion(SetActionParams), true, w);
      (if ok then s' else TakeError(s'), ok)
  }

  // ---------- one turn ----------

  /** A velocity send: when it begins, the messages during its RPC, the RPC, and its end. */
  datatype SendEnv = SendEnv(at: int, arrivals: seq<Arrival>, window: Window, end: int)

  function Send(b: Bridge, begun: (V.Channel, V.Sending), env: SendEnv): Bridge
  {
    var (s, ok) := SessionAfterSend(b.s, begun.1, env.window);
    b.(s := s, channel := AfterSend(begun, env.arrivals, ok))
  }

  datatype PollReply = PollReply(at: int, sequence: nat, body: P.Body)

  function Replies(p: P.Poll, replies: seq<PollReply>): P.Poll
    decreases replies
  {
    if replies == [] then p
    else Replies(P.HandleReply(p, replies[0].at, replies[0].sequence, replies[0].body), replies[1..])
  }

  datatype PollEnv = PollEnv(replies: seq<PollReply>, at: int, sendThrows: bool)

  datatype Settings = Settings(velocity: V.Config, motion: P.Config, battery: P.Config, batteryWanted: bool) {
    predicate Valid() {
      velocity.Valid() && motion.Valid() && battery.Valid()
    }
  }

  /** A submitted command, numbered in the order of submission, and its answer. */
  datatype Job = Job(number: nat, command: Command)
  datatype Answer = Answer(job: Job, outcome: Outcome)

  datatype Node = Node(
    b: Bridge,
    battery: P.Poll,
    commands: seq<Job>,
    submitted: seq<Command>,
    answers: seq<Answer>,
    ended: bool)

  /** The surroundings of one turn: the messages before its first step, the windows of a
      command, the two velocity sends, the executor's callbacks, and the polls.  `learned` is
      the action that a motion state names. */
  datatype Turn = Turn(
    early: seq<Arrival>,
    env: Env,
    dispatch: SendEnv,
    watch: SendEnv,
    callbacks: Spins,
    motion: PollEnv,
    battery: PollEnv,
    learned: string)

  datatype Input = Submit(command: Command) | Loop(turn: Turn) | Quit(at: int, env: Env)

  function Start(b: Bridge): Node {
    Node(b, P.Fresh(), [], [], [], false)
  }

  /** An exception out of a command is answered as a failed call. */
  function Settle(outcome: Outcome): Outcome {
    if outcome.Escaped? then Done(false, RpcCallFailed) else outcome
  }

  function Enqueue(n: Node, command: Command): Node {
    n.(commands := n.commands + [Job(|n.submitted|, command)], submitted := n.submitted + [command])
  }

  function Meet(n: Node, turn: Turn): Bridge {
    n.b.(channel := Arrivals(n.b.channel, turn.early))
  }

  /** One queued command, or, with an empty queue, the pending velocity. */
  function Act(c: Settings, n: Node, turn: Turn): Node
  {
    var met := Meet(n, turn);
    if n.commands == [] then
      n.(b := Send(met, V.BeginDispatch(c.velocity, met.channel, turn.dispatch.at), turn.dispatch))
    else
      var (b, outcome) := Execute(met, n.commands[0].command, turn.env);
      n.(b := b, commands := n.commands[1..],
         answers := n.answers + [Answer(n.commands[0], Settle(outcome))])
  }

  function Watch(c: Settings, n: Node, turn: Turn): Node
  {
    n.(b := Send(n.b, V.BeginWatch(c.velocity, n.b.channel, turn.watch.at, n.b.s.state == Controlled), turn.watch))
  }

  function SpinSome(n: Node, turn: Turn): Node
  {
    n.(b := n.b.(s := Callbacks(n.b.s, turn.callbacks), motion := Replies(n.b.motion, turn.motion.replies)),
       battery := Replies(n.battery, turn.battery.replies))
  }

  function UpdatePolls(c: Settings, n: Node, turn: Turn): Node {
    if !n.b.rpcReady then n
    else
      var motion :=
        P.UpdatePoll(c.motion, n.b.motion, turn.motion.at, n.b.s.state != Disconnected, turn.motion.sendThrows);
      var stated := |motion.accepted| > |n.b.motion.accepted|;
      n.(b := n.b.(motion := motion, action := if stated then turn.learned else n.b.action),
         battery := P.UpdatePoll(c.battery, n.battery, turn.battery.at, c.batteryWanted && n.b.observing,
                                 turn.battery.sendThrows))
  }

  function TakeTurn(c: Settings, n: Node, turn: Turn): Node
  {
    var acted := Act(c, n, turn);
    UpdatePolls(c, SpinSome(Watch(c, acted, turn), turn), turn)
  }

  /** The end of the loop. */
  function QuitLoop(n: Node, env: Env): Node
  {
    n.(b := Leave(n.b, env), battery := P.CancelQuery(n.battery), ended := true)
  }

  function StepNode(c: Settings, n: Node, input: Input): Node
  {
    match input
    case Submit(command) => Enqueue(n, command)
    case Loop(turn) => if n.ended then n else TakeTurn(c, n, turn)
    case Quit(_, env) => if n.ended then n else QuitLoop(n, env)
  }

  function RunNode(c: Settings, n: Node, inputs: seq<Input>): Node
    decreases inputs
  {
    if inputs == [] then n
    else
      RunNode(c, StepNode(c, n, inputs[0]), inputs[1..])
  }

  // ---------- what a command does to the channel and the motion poll ----------

  function Resets(ch: V.Channel, count: nat): V.Channel {
    if count == 0 then ch else V.ResetTracking(Resets(ch, count - 1))
  }

  function Rearms(p: P.Poll, count: nat): P.Poll {
    if count == 0 then p else P.RearmQuery(Rearms(p, count - 1))
  }

  /** The commands whose success discards what cmd_vel has asked for.  A release does only when
      control is held: without, it succeeds and touches nothing. */
  predicate Discards(b: Bridge, command: Command) {
    match command
    case StartCommand(_, _) => true
    case StopCommand => true
    case EmergencyCommand => true
    case ParamsCommand(_) => true
    case ReleaseCommand => b.s.state == Controlled
    case _ => false
  }

  lemma ConnectEffects(b: Bridge, env: ConnectEnv) returns (rearms: nat)
    ensures var b' := DoConnect(b, env).0; b'.channel == b.channel && b'.motion == Rearms(b.motion, rearms)
  {
    hide Probe, QueryAll, P.RearmQuery;
    rearms := if DoConnect(b, env).0.motion == b.motion then 0 else 1;
    assert Rearms(b.motion, 1) == P.RearmQuery(Rearms(b.motion, 0));
  }

  lemma AcquireEffects(b: Bridge, env: Env) returns (rearms: nat)
    ensures var b' := DoAcquire(b, env).0; b'.channel == b.channel && b'.motion == Rearms(b.motion, rearms)
  {
    hide DoConnect, StartControl;
    rearms := ConnectEffects(b, env.connect);
  }

  lemma {:induction false} RearmsAdd(p: P.Poll, m: nat, n: nat)
    ensures Rearms(Rearms(p, m), n) == Rearms(p, m + n)
    decreases n
  {
    if n > 0 {
      RearmsAdd(p, m, n - 1);
    }
  }

  lemma HaltEffects(b: Bridge, call: MotionCall, w: Window) returns (count: nat)
    ensures var (b', outcome) := Halt(b, call, w);
      && b'.channel == Resets(b.channel, count) && b'.motion == Rearms(b.motion, count)
      && count == if outcome.Done? && outcome.success then 1 else 0
  {
    hide PerformCall, V.ResetTracking, P.RearmQuery;
    var outcome := Halt(b, call, w).1;
    count := if outcome.Done? && outcome.success then 1 else 0;
    assert Resets(b.channel, 0) == b.channel && Rearms(b.motion, 0) == b.motion;
  }

  lemma StartEffects(b: Bridge, action: string, paramsOk: bool, env: Env) returns (rearms: nat)
    ensures var (b', outcome) := DoStart(b, action, paramsOk, env);
      && b'.channel == (if outcome.Done? && outcome.success then V.ResetTracking(b.channel) else b.channel)
      && b'.motion == Rearms(b.motion, rearms)
  {
    hide PerformCall, DoConnect, DoAcquire, RollBack, V.ResetTracking, P.RearmQuery;
    rearms := 0;
    if action != "" {
      rearms := ConnectEffects(b, env.connect);
      var (connected, joined) := DoConnect(b, env.connect);
      if joined.Done? && joined.success {
        var more := AcquireEffects(connected, env);
        RearmsAdd(b.motion, rearms, more);
        var held := DoAcquire(connected, env).0;
        rearms := rearms + more;
        if DoStart(b, action, paramsOk, env).0.motion != held.motion {
          rearms := rearms + 1;
        }
      }
    }
  }

  lemma ReleaseEffects(b: Bridge, env: Env) returns (resets: nat, rearms: nat)
    ensures var (b', outcome) := DoRelease(b, env);
      && b'.channel == Resets(b.channel, resets) && b'.motion == Rearms(b.motion, rearms)
      && (outcome.Done? && outcome.success && b.s.state == Controlled ==> resets > 0)
      && (b.s.state != Controlled ==> resets == 0)
  {
    hide PerformCall, Halt, V.ResetTracking;
    resets, rearms := 0, 0;
    if b.s.state == Controlled {
      if b.action != "" {
        rearms := HaltEffects(b, StopAction, env.first);
        resets := rearms;
      }
      if DoRelease(b, env).1 == Done(true, NoError) {
        resets := resets + 1;
      }
    }
  }

  lemma ParamsEffects(b: Bridge, paramsOk: bool, env: Env) returns (rearms: nat)
    ensures var (b', outcome) := SetParams(b, paramsOk, env);
      && b'.channel == (if outcome.Done? && outcome.success then V.ResetTracking(b.channel) else b.channel)
      && b'.motion == Rearms(b.motion, rearms)
  {
    hide PerformCall, DoConnect, V.ResetTracking, P.RearmQuery;
    rearms := 0;
    if paramsOk && b.s.state == Controlled {
      rearms := ConnectEffects(b, env.connect);
      var connected := DoConnect(b, env.connect).0;
      if SetParams(b, paramsOk, env).0.motion != connected.motion {
        rearms := rearms + 1;
      }
    }
  }

  /** A command touches the velocity channel only by resetting its tracking and the motion poll
      only by re-arming it; those that discard do reset when they succeed, and others never do. */
  lemma ExecuteEffects(b: Bridge, command: Command, env: Env) returns (resets: nat, rearms: nat)
    ensures var (b', outcome) := Execute(b, command, env);
      && b'.channel == Resets(b.channel, resets) && b'.motion == Rearms(b.motion, rearms)
      && (Discards(b, command) && outcome.Done? && outcome.success ==> resets > 0)
      && (!Discards(b, command) ==> resets == 0)
  {
    hide DoConnect, DoStart, DoAcquire, DoRelease, Leave, Halt, SetParams, V.ResetTracking, P.RearmQuery;
    var (b', outcome) := Execute(b, command, env);
    resets, rearms := if outcome.Done? && outcome.success then 1 else 0, 0;
    assert Resets(b.channel, 1) == V.ResetTracking(Resets(b.channel, 0));
    match command
    case ConnectCommand => rearms := ConnectEffects(b, env.connect); resets := 0;
    case AcquireCommand => rearms := AcquireEffects(b, env); resets := 0;
    case StartCommand(action, paramsOk) => rearms := StartEffects(b, action, paramsOk, env);
    case StopCommand => rearms := HaltEffects(b, StopAction, env.first);
    case EmergencyCommand => rearms := HaltEffects(b, EmergencyStop, env.first);
    case ParamsCommand(paramsOk) => rearms := ParamsEffects(b, paramsOk, env);
    case ReleaseCommand => resets, rearms := ReleaseEffects(b, env);
    case QueryCommand => rearms := ConnectEffects(b, env.connect); resets := 0;
  }

  // ---------- sends, and the end of the loop ----------

  lemma SendKeepsDispatched(b: Bridge, begun: (V.Channel, V.Sending), env: SendEnv)
    ensures Send(b, begun, env).channel.dispatched == begun.0.dispatched
  {
    hide PerformCall;
    ArrivalsKeepHistory(begun.0, env.arrivals);
  }

  lemma {:induction false} ArrivalsKeepHistory(ch: V.Channel, arrivals: seq<Arrival>)
    ensures Arrivals(ch, arrivals).dispatched == ch.dispatched && Arrivals(ch, arrivals).attempts == ch.attempts
    decreases arrivals
  {
    if arrivals != [] {
      ArrivalsKeepHistory(V.OnCmdVel(ch, arrivals[0].at, arrivals[0].message), arrivals[1..]);
    }
  }

  lemma QuitEffects(n: Node, env: Env) returns (count: nat)
    ensures var n' := QuitLoop(n, env);
      && n'.b.channel == Resets(n.b.channel, count)
      && n'.b.motion == Rearms(P.CancelQuery(n.b.motion), count) && n'.battery == P.CancelQuery(n.battery)
  {
    hide Halt, PerformCall, QueryAll, P.CancelQuery;
    count := 0;
    if n.b.s.state == Controlled && n.b.action != "" {
      count := HaltEffects(n.b.(motion := P.CancelQuery(n.b.motion)), StopAction, env.first);
    }
  }

  lemma {:induction false} RunNodeConcat(c: Settings, n: Node, before: seq<Input>, after: seq<Input>)
    ensures RunNode(c, n, before + after) == RunNode(c, RunNode(c, n, before), after)
    decreases before
  {
    hide StepNode;
    if before == [] {
      assert before + after == after;
    } else {
      assert (before + after)[1..] == before[1..] + after;
      RunNodeConcat(c, StepNode(c, n, before[0]), before[1..], after);
    }
  }

  // ---------- what the steps leave alone ----------

  /** The node after the executor's callbacks of a turn. */
  function Spun(c: Settings, n: Node, turn: Turn): Node
  {
    SpinSome(Watch(c, Act(c, n, turn), turn), turn)
  }

  lemma PollsTouchNothingElse(c: Settings, n: Node, turn: Turn)
    ensures var b := UpdatePolls(c, n, turn).b; b.channel == n.b.channel && b.s == n.b.s
  {
  }

  lemma {:induction false} CallbacksKeepRpcs(s: Session, es: Spins)
    ensures Callbacks(s, es).rpcs == s.rpcs
    decreases es
  {
    if es != [] {
      CallbacksKeepRpcs(Callback(s, es[0]), es[1..]);
    }
  }

  lemma {:induction false} ArrivalsKeepActive(ch: V.Channel, arrivals: seq<Arrival>)
    ensures Arrivals(ch, arrivals).active == ch.active
    decreases arrivals
  {
    if arrivals != [] {
      ArrivalsKeepActive(V.OnCmdVel(ch, arrivals[0].at, arrivals[0].message), arrivals[1..]);
    }
  }

  lemma {:induction false} RearmsKeepAccepted(p: P.Poll, count: nat)
    ensures Rearms(p, count).accepted == p.accepted && Rearms(p, count).sends == p.sends
  {
    if count > 0 {
      RearmsKeepAccepted(p, count - 1);
    }
  }

  lemma {:induction false} RepliesKeepAccepted(p: P.Poll, replies: seq<PollReply>)
    ensures Replies(p, replies).accepted == p.accepted
    decreases replies
  {
    if replies != [] {
      RepliesKeepAccepted(P.HandleReply(p, replies[0].at, replies[0].sequence, replies[0].body), replies[1..]);
    }
  }

  lemma {:induction false} EndedKeeps(c: Settings, n: Node, inputs: seq<Input>)
    requires n.ended
    ensures var n' := RunNode(c, n, inputs); n'.b == n.b && n'.battery == n.battery && n'.ended
    decreases inputs
  {
    hide TakeTurn, QuitLoop;
    if inputs != [] {
      EndedKeeps(c, StepNode(c, n, inputs[0]), inputs[1..]);
    }
  }

  lemma QuitEnds(c: Settings, n: Node, inputs: seq<Input>)
    requires inputs != [] && inputs[0].Quit?
    ensures RunNode(c, n, inputs).ended
  {
    hide Leave;
    EndedKeeps(c, StepNode(c, n, inputs[0]), inputs[1..]);
  }

  lemma {:induction false} ResetsKeepHistory(ch: V.Channel, count: nat)
    ensures Resets(ch, count).dispatched == ch.dispatched && Resets(ch, count).received == ch.received
    ensures count > 0 ==> Resets(ch, count).pending.None?
  {
    if count > 0 {
      ResetsKeepHistory(ch, count - 1);
    }
  }
}
