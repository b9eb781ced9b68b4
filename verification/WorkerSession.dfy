/** The client's session inside the worker: whatever the worker does, its session goes through a
    run of ControlSession, so that the session and lease theorems hold of the bridge thread. */
module WorkerSession {
  import opened Wrappers
  import opened ControlSession
  import opened SessionSafety
  import opened Lease
  import opened Client
  import opened Ownership
  import opened SessionTrace
  import V = Velocity
  import P = Poll
  import W = Worker

  // ---------- the end of the loop ----------

  /** The end of the loop: a stop, the calls that switch observation off, and disconnect(). */
  function LeaveTrace(b: Bridge, env: Env): seq<Event>
  {
    var stopped := StopActive(b, env.first);
    var quiet := if stopped.observing then QueryAll(stopped.s, env.connect.setup) else stopped.s;
    (if b.s.state == Controlled && b.action != "" then HaltTrace(b, StopAction, env.first) else [])
    + (if stopped.observing then QueryAllTrace(stopped.s, env.connect.setup) else [])
    + CallTrace(quiet, Release(true), true, env.second)
  }

  lemma LeaveReaches(w: World, b: Bridge, env: Env)
    requires w.inFlight.None? && w.s == b.s
    ensures Run(w, LeaveTrace(b, env)).s == Leave(b, env).s && Run(w, LeaveTrace(b, env)).inFlight.None?
  {
    hide Run, PerformCall, QueryAll, QueryAllTrace, HaltTrace, CallTrace, Halt, P.CancelQuery;
    Stay(w);
    var stopping := b.s.state == Controlled && b.action != "";
    var es := if stopping then HaltTrace(b, StopAction, env.first) else [];
    HaltReaches(w, b, StopAction, env.first);
    HaltIgnoresPoll(b, StopAction, env.first);
    var stopped := StopActive(b, env.first);
    var w1 := Run(w, es);
    Stay(w1);
    QueryAllReaches(w1, env.connect.setup);
    var fs := if stopped.observing then QueryAllTrace(stopped.s, env.connect.setup) else [];
    var w2 := Run(w1, fs);
    RunConcat(w, es, fs);
    CallReaches(w2, Release(true), true, env.second);
    RunConcat(w, es + fs, CallTrace(w2.s, Release(true), true, env.second));
  }

  lemma HaltIgnoresPoll(b: Bridge, call: MotionCall, w: Window)
    ensures Halt(b.(motion := P.CancelQuery(b.motion)), call, w).0.s == Halt(b, call, w).0.s
  {
    hide PerformCall, P.CancelQuery;
  }

  // ---------- turns and runs ----------

  function SendTrace(b: Bridge, sending: V.Sending, env: W.SendEnv): seq<Event>
  {
    if sending.Nothing? then [] else AskTrace(b.s, Motion(SetActionParams), true, env.window)
  }

  lemma SendReaches(w: World, b: Bridge, begun: (V.Channel, V.Sending), env: W.SendEnv)
    requires w.inFlight.None? && w.s == b.s
    ensures Reaches(w, SendTrace(b, begun.1, env), W.Send(b, begun, env).s)
  {
    hide Run, AskTrace, PerformCall, W.AfterSend;
    Stay(w);
    AskReaches(w, Motion(SetActionParams), true, env.window);
  }

  function ActTrace(c: W.Settings, n: W.Node, turn: W.Turn): seq<Event>
  {
    var met := W.Meet(n, turn);
    if n.commands == [] then
      SendTrace(met, V.BeginDispatch(c.velocity, met.channel, turn.dispatch.at).1, turn.dispatch)
    else ExecuteTrace(met, n.commands[0].command, turn.env)
  }

  lemma ActReaches(w: World, c: W.Settings, n: W.Node, turn: W.Turn)
    requires w.inFlight.None? && w.s == n.b.s
    ensures Reaches(w, ActTrace(c, n, turn), W.Act(c, n, turn).b.s)
  {
    hide Run, SendTrace, ExecuteTrace, Execute, W.Send, W.Arrivals, V.BeginDispatch;
    var met := W.Meet(n, turn);
    if n.commands == [] {
      SendReaches(w, met, V.BeginDispatch(c.velocity, met.channel, turn.dispatch.at), turn.dispatch);
    } else {
      ExecuteReaches(w, met, n.commands[0].command, turn.env);
    }
  }

  /** A turn: a command or a dispatch, a watchdog step, and the executor's callbacks. */
  function TurnTrace(c: W.Settings, n: W.Node, turn: W.Turn): seq<Event>
  {
    var b := W.Act(c, n, turn).b;
    ActTrace(c, n, turn)
    + SendTrace(b, V.BeginWatch(c.velocity, b.channel, turn.watch.at, b.s.state == Controlled).1, turn.watch)
    + turn.callbacks
  }

  lemma TurnReaches(w: World, c: W.Settings, n: W.Node, turn: W.Turn)
    requires w.inFlight.None? && w.s == n.b.s
    ensures Reaches(w, TurnTrace(c, n, turn), W.TakeTurn(c, n, turn).b.s)
  {
    hide Run, ActTrace, SendTrace, W.Act, W.Send, V.BeginWatch, W.UpdatePolls, Callbacks;
    ActReaches(w, c, n, turn);
    var b := W.Act(c, n, turn).b;
    var begun := V.BeginWatch(c.velocity, b.channel, turn.watch.at, b.s.state == Controlled);
    var es, fs := ActTrace(c, n, turn), SendTrace(b, begun.1, turn.watch);
    var w1 := Run(w, es);
    SendReaches(w1, b, begun, turn.watch);
    Then(w, es, fs, W.Send(b, begun, turn.watch).s);
    var w2 := Run(w, es + fs);
    CallbacksAreRun(w2, turn.callbacks);
    Then(w, es + fs, turn.callbacks, Callbacks(w2.s, turn.callbacks));
    W.PollsTouchNothingElse(c, W.Spun(c, n, turn), turn);
  }

  function WorkerTrace(c: W.Settings, n: W.Node, inputs: seq<W.Input>): seq<Event>
    decreases inputs
  {
    if inputs == [] then []
    else
      (match inputs[0]
       case Submit(_) => []
       case Loop(turn) => if n.ended then [] else TurnTrace(c, n, turn)
       case Quit(_, env) => if n.ended then [] else LeaveTrace(n.b, env))
      + WorkerTrace(c, W.StepNode(c, n, inputs[0]), inputs[1..])
  }

  /** Whatever the worker goes through, its session goes through this run of ControlSession. */
  lemma {:induction false} WorkerIsSessionRun(c: W.Settings, n: W.Node, inputs: seq<W.Input>, w: World)
    requires w.inFlight.None? && w.s == n.b.s
    ensures var v := Run(w, WorkerTrace(c, n, inputs)); v.s == W.RunNode(c, n, inputs).b.s && v.inFlight.None?
    ensures !W.RunNode(c, n, inputs).ended ==> NoDisconnect(WorkerTrace(c, n, inputs))
    decreases inputs
  {
    hide Run, TurnTrace, LeaveTrace, W.TakeTurn, W.QuitLoop;
    Stay(w);
    if inputs != [] {
      var n' := W.StepNode(c, n, inputs[0]);
      var es: seq<Event> := [];
      if inputs[0].Loop? && !n.ended {
        es := TurnTrace(c, n, inputs[0].turn);
        TurnReaches(w, c, n, inputs[0].turn);
      } else if inputs[0].Quit? && !n.ended {
        es := LeaveTrace(n.b, inputs[0].env);
        LeaveReaches(w, n.b, inputs[0].env);
        QuitIsLeave(c, n, inputs);
      }
      WorkerIsSessionRun(c, n', inputs[1..], Run(w, es));
      RunConcat(w, es, WorkerTrace(c, n', inputs[1..]));
      assert WorkerTrace(c, n, inputs) == es + WorkerTrace(c, n', inputs[1..]);
    }
  }

  lemma QuitIsLeave(c: W.Settings, n: W.Node, inputs: seq<W.Input>)
    requires !n.ended && inputs != [] && inputs[0].Quit?
    ensures W.StepNode(c, n, inputs[0]).b == Leave(n.b, inputs[0].env)
    ensures W.RunNode(c, n, inputs).ended
  {
    hide Leave;
    W.EndedKeeps(c, W.StepNode(c, n, inputs[0]), inputs[1..]);
  }

  /** The session theorems of the bridge thread.  If the clock does not go back and replies
      answer renewals that were sent, then after any run of a new worker: a renewal in flight
      belongs to the session it was sent by, notices were truthful, and while the worker runs
      the last one tells control. */
  lemma WorkerSession(c: W.Settings, b: Bridge, inputs: seq<W.Input>, at: int)
    requires b.s == Fresh(at)
    requires PossibleRun(Initial(at), WorkerTrace(c, W.Start(b), inputs))
    ensures var n, w := W.RunNode(c, W.Start(b), inputs), Run(Initial(at), WorkerTrace(c, W.Start(b), inputs));
      && w.s == n.b.s && Inv(w) && NoticesTruthful(n.b.s)
      && (!n.ended ==> LastNoticeTellsControl(n.b.s))
  {
    WorkerIsSessionRun(c, W.Start(b), inputs, Initial(at));
    RunInv(Initial(at), WorkerTrace(c, W.Start(b), inputs));
    NotificationCoherence(at, WorkerTrace(c, W.Start(b), inputs));
  }

  /** The lease bound of the bridge thread: with ticks at most `delta` apart, no step finds the
      bridge controlled lease + 3000 + delta after the latest accepted control call or renewal,
      whatever commands, velocities and callbacks its worker goes through. */
  lemma WorkerKeepsLease(c: W.Settings, b: Bridge, inputs: seq<W.Input>, at: int, e: Event, delta: int)
    requires b.s == Fresh(at)
    requires PunctualRun(Initial(at), WorkerTrace(c, W.Start(b), inputs) + [e], delta)
    ensures var s := W.RunNode(c, W.Start(b), inputs).b.s;
      s.state == Controlled && s.controller != "" ==>
        e.at < LatestRefresh(Initial(at), WorkerTrace(c, W.Start(b), inputs), at)
               + EffectiveLease(s.lease) + RENEW_TIMEOUT_MS + delta
  {
    WorkerIsSessionRun(c, W.Start(b), inputs, Initial(at));
    LeaseOverrunBound(at, WorkerTrace(c, W.Start(b), inputs), e, delta);
  }
}
