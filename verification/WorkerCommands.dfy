/** Ownership over whole runs of the worker: stop before release, and the current action. */
module WorkerCommands {
  import opened Wrappers
  import opened ControlSession
  import opened SessionSafety
  import opened Client
  import opened Ownership
  import opened Worker
  import V = Velocity
  import P = Poll

  // ---------- stop before release ----------

  lemma SendIsNoRelease(b: Bridge, begun: (V.Channel, V.Sending), env: SendEnv) returns (sent: seq<Rpc>)
    requires BridgeInv(b)
    ensures var b' := Send(b, begun, env);
      BridgeInv(b') && b'.s.rpcs == b.s.rpcs + sent && b'.action == b.action
    ensures NoRelease(sent)
  {
    hide PerformCall, BeginCall, AfterSend;
    sent := [];
    if !begun.1.Nothing? {
      MotionCallFacts(b.s, SetActionParams, true, env.window);
      if b.s.state == Controlled {
        sent := [Rpc(Motion(SetActionParams), PerformCall(b.s, Motion(SetActionParams), true, env.window).1)];
      }
    }
  }

  /** A release among the RPCs of a step is justified within the command that sent it; a turn
      without a command sends none. */
  predicate StepJustified(n: Node, input: Input, rpcs: seq<Rpc>) {
    match input
    case Submit(_) => rpcs == []
    case Loop(_) =>
      if n.commands == [] then NoRelease(rpcs)
      else ReleasesJustified(n.commands[0].command, n.b.action, rpcs)
    case Quit(_, _) => LeavingJustified(n.b.action, rpcs)
  }

  lemma MoreWithoutRelease(command: Command, action: string, rpcs: seq<Rpc>, more: seq<Rpc>)
    requires ReleasesJustified(command, action, rpcs) && NoRelease(more)
    ensures ReleasesJustified(command, action, rpcs + more)
  {
    var all := rpcs + more;
    forall i | 0 <= i < |all| && all[i].call.Release? ensures Justification(command, action, all[..i]) {
      assert i < |rpcs| && all[..i] == rpcs[..i];
    }
  }

  lemma TurnJustified(c: Settings, n: Node, turn: Turn)
    requires BridgeInv(n.b)
    ensures var n' := TakeTurn(c, n, turn);
      && BridgeInv(n'.b) && n.b.s.rpcs <= n'.b.s.rpcs
      && StepJustified(n, Loop(turn), NewRpcs(n.b.s, n'.b.s))
  {
    hide Execute, Send, P.UpdatePoll, V.BeginWatch, V.BeginDispatch, Arrivals, Replies, Callbacks;
    var met, acted := Meet(n, turn), Act(c, n, turn);
    var first: seq<Rpc>;
    if n.commands == [] {
      first := SendIsNoRelease(met, V.BeginDispatch(c.velocity, met.channel, turn.dispatch.at), turn.dispatch);
    } else {
      ExecuteFacts(met, n.commands[0].command, turn.env);
      first := NewRpcs(met.s, acted.b.s);
    }
    var begun := V.BeginWatch(c.velocity, acted.b.channel, turn.watch.at, acted.b.s.state == Controlled);
    var second := SendIsNoRelease(acted.b, begun, turn.watch);
    CallbacksInertWhenIdle(Send(acted.b, begun, turn.watch).s, turn.callbacks);
    NewRpcsAre(n.b.s, TakeTurn(c, n, turn).b.s, first + second);
    if n.commands != [] {
      MoreWithoutRelease(n.commands[0].command, n.b.action, first, second);
    }
  }

  predicate TraceJustified(c: Settings, n: Node, inputs: seq<Input>)
    decreases inputs
  {
    inputs == [] || (
      var n' := StepNode(c, n, inputs[0]);
      && n.b.s.rpcs <= n'.b.s.rpcs
      && StepJustified(n, inputs[0], NewRpcs(n.b.s, n'.b.s))
      && TraceJustified(c, n', inputs[1..]))
  }

  /** Stop before release, over every run of the worker: each release it ever sends follows an
      accepted stop in the same command or finds no action, rolls back control acquired in the
      same command, or belongs to the shutdown after a stop was tried. */
  lemma {:induction false} ReleaseOrdering(c: Settings, n: Node, inputs: seq<Input>)
    requires BridgeInv(n.b)
    ensures TraceJustified(c, n, inputs)
    decreases inputs
  {
    hide TakeTurn, Leave;
    if inputs != [] {
      if inputs[0].Loop? && !n.ended {
        TurnJustified(c, n, inputs[0].turn);
      } else if inputs[0].Quit? && !n.ended {
        LeaveFacts(n.b, inputs[0].env);
      }
      ReleaseOrdering(c, StepNode(c, n, inputs[0]), inputs[1..]);
    }
  }

  // ---------- the current action ----------

  lemma ConnectKeepsAction(b: Bridge, env: Env)
    ensures DoConnect(b, env.connect).0.action == b.action
    ensures DoAcquire(b, env).0.action == b.action
  {
    hide Probe, QueryAll, P.RearmQuery, StartControl;
  }

  lemma ExecuteAction(b: Bridge, command: Command, env: Env)
    ensures var b' := Execute(b, command, env).0;
      || b'.action == b.action
      || (command.StartCommand? && b'.action == command.action)
      || (command.ReleaseCommand? && b'.action == "")
  {
    hide PerformCall, DoConnect, DoAcquire, RollBack, V.ResetTracking, P.RearmQuery;
    ConnectKeepsAction(b, env);
    ConnectKeepsAction(DoConnect(b, env.connect).0, env);
  }

  /** In a turn that publishes no motion state the current action changes only by the start or
      release that the turn executes; a turn that publishes one takes the action from it. */
  lemma ActionChanges(c: Settings, n: Node, turn: Turn)
    ensures var n' := TakeTurn(c, n, turn);
      if |n'.b.motion.accepted| > |n.b.motion.accepted| then n'.b.action == turn.learned
      else
        || n'.b.action == n.b.action
        || (n.commands != [] && n.commands[0].command.StartCommand? && n'.b.action == n.commands[0].command.action)
        || (n.commands != [] && n.commands[0].command.ReleaseCommand? && n'.b.action == "")
  {
    hide Execute, SessionAfterSend, AfterSend, Arrivals, Callbacks, Replies, P.UpdatePoll,
         V.BeginWatch, V.BeginDispatch;
    var acted := Act(c, n, turn);
    if n.commands != [] {
      var command := n.commands[0].command;
      ExecuteAction(Meet(n, turn), command, turn.env);
      var _, rearms := ExecuteEffects(Meet(n, turn), command, turn.env);
      RearmsKeepAccepted(n.b.motion, rearms);
    }
    RepliesKeepAccepted(acted.b.motion, turn.motion.replies);
  }
}
