/** The velocity channel of the worker: its run of Velocity, silence, and what a command discards. */
module WorkerVelocity {
  import opened Wrappers
  import opened ControlSession
  import opened SessionSafety
  import opened Client
  import opened Ownership
  import opened Worker
  import V = Velocity
  import P = Poll

  // ---------- the worker's channel is a run of Velocity ----------

  /** The arrivals come in order, at `from` or later. */
  predicate InTime(from: int, arrivals: seq<Arrival>)
    decreases arrivals
  {
    arrivals == [] || (from <= arrivals[0].at && V.NEVER < arrivals[0].at && InTime(arrivals[0].at, arrivals[1..]))
  }

  function LastOf(from: int, arrivals: seq<Arrival>): int
    decreases arrivals
  {
    if arrivals == [] then from else LastOf(arrivals[0].at, arrivals[1..])
  }

  predicate SendInTime(from: int, env: SendEnv) {
    && from <= env.at && V.NEVER < env.at
    && InTime(env.at, env.arrivals) && LastOf(env.at, env.arrivals) <= env.end
  }

  /** The clock does not go back within a turn that begins after `from`. */
  predicate TurnInTime(from: int, turn: Turn) {
    && InTime(from, turn.early)
    && SendInTime(LastOf(from, turn.early), turn.dispatch)
    && SendInTime(turn.dispatch.end, turn.watch)
  }

  predicate InputsInTime(from: int, inputs: seq<Input>)
    decreases inputs
  {
    inputs == [] || match inputs[0]
      case Submit(_) => InputsInTime(from, inputs[1..])
      case Loop(turn) => TurnInTime(from, turn) && InputsInTime(turn.watch.end, inputs[1..])
      case Quit(at, _) => from <= at && V.NEVER < at && InputsInTime(at, inputs[1..])
  }

  function Receives(arrivals: seq<Arrival>): seq<V.Event> {
    seq(|arrivals|, i requires 0 <= i < |arrivals| => V.Event(arrivals[i].at, V.Receive(arrivals[i].message)))
  }

  lemma {:induction false} ReceivesAreRun(c: V.Config, v: V.World, arrivals: seq<Arrival>)
    requires InTime(v.clock, arrivals)
    ensures V.PossibleRun(c, v, Receives(arrivals))
    ensures V.Run(c, v, Receives(arrivals)) == v.(ch := Arrivals(v.ch, arrivals), clock := LastOf(v.clock, arrivals))
    ensures V.Watches(Receives(arrivals)) == []
    decreases arrivals
  {
    if arrivals != [] {
      assert Receives(arrivals)[0] == V.Event(arrivals[0].at, V.Receive(arrivals[0].message));
      assert Receives(arrivals)[1..] == Receives(arrivals[1..]);
      ReceivesAreRun(c, V.Step(c, v, Receives(arrivals)[0]), arrivals[1..]);
    }
  }

  lemma RunOne(c: V.Config, v: V.World, e: V.Event)
    ensures V.Run(c, v, [e]) == V.Step(c, v, e)
    ensures V.PossibleRun(c, v, [e]) <==> V.Possible(v, e)
  {
    hide V.Step;
    assert V.Run(c, V.Step(c, v, e), []) == V.Step(c, v, e);
  }

  /** Where a run of the channel stands between two steps of the worker. */
  predicate Stands(v: V.World, ch: V.Channel, until: int) {
    v.ch == ch && v.sending.Nothing? && v.clock <= until
  }

  /** A send step of the worker is a run of the channel: begun, any messages, ended. */
  lemma SendIsRun(c: V.Config, v: V.World, begin: V.Event, b: Bridge, env: SendEnv) returns (es: seq<V.Event>)
    requires Stands(v, b.channel, env.at) && SendInTime(env.at, env)
    requires begin.at == env.at && (begin.action.DispatchPending? || begin.action.Watch?)
    ensures var begun := V.Step(c, v, begin);
      V.PossibleRun(c, v, es) && Stands(V.Run(c, v, es), Send(b, (begun.ch, begun.sending), env).channel, env.end)
    ensures es != [] && es[0] == begin && V.Watches(es[1..]) == []
  {
    hide PerformCall, V.Watches;
    NoWatches(env.end, true);
    NoWatches(env.end, false);
    var begun := V.Step(c, v, begin);
    RunOne(c, v, begin);
    LastIsLater(env.at, env.arrivals);
    es := [begin];
    if !begun.sending.Nothing? {
      var ok := SessionAfterSend(b.s, begun.sending, env.window).1;
      var applied := V.Event(env.end, V.Applied(ok));
      V.RunConcat(c, v, [begin], Receives(env.arrivals));
      ReceivesAreRun(c, begun, env.arrivals);
      V.RunConcat(c, v, [begin] + Receives(env.arrivals), [applied]);
      RunOne(c, V.Run(c, v, [begin] + Receives(env.arrivals)), applied);
      es := [begin] + Receives(env.arrivals) + [applied];
      assert es[1..] == Receives(env.arrivals) + [applied];
      V.WatchesConcat(Receives(env.arrivals), [applied]);
    } else {
      assert es[1..] == [];
    }
  }

  lemma NoWatches(at: int, ok: bool)
    ensures V.Watches([]) == []
    ensures V.Watches([V.Event(at, V.Applied(ok))]) == [] && V.Watches([V.Event(at, V.Reset)]) == []
  {
  }

  lemma {:induction false} LastIsLater(from: int, arrivals: seq<Arrival>)
    requires InTime(from, arrivals)
    ensures from <= LastOf(from, arrivals)
    decreases arrivals
  {
    if arrivals != [] {
      LastIsLater(arrivals[0].at, arrivals[1..]);
    }
  }

  lemma {:induction false} ResetsAreRun(c: V.Config, v: V.World, count: nat, at: int) returns (es: seq<V.Event>)
    requires Stands(v, v.ch, at) && V.NEVER < at
    ensures V.PossibleRun(c, v, es) && Stands(V.Run(c, v, es), Resets(v.ch, count), at)
    ensures V.Watches(es) == []
  {
    hide V.Watches;
    NoWatches(at, true);
    es := [];
    if count > 0 {
      es := ResetsAreRun(c, v, count - 1, at);
      var reset := V.Event(at, V.Reset);
      V.RunConcat(c, v, es, [reset]);
      RunOne(c, V.Run(c, v, es), reset);
      V.WatchesConcat(es, [reset]);
      es := es + [reset];
    }
  }

  /** The first half of a turn, as a run: messages, then resets or a dispatch. */
  lemma ActIsRun(c: Settings, n: Node, turn: Turn, v: V.World, from: int) returns (es: seq<V.Event>)
    requires Stands(v, n.b.channel, from)
    requires InTime(from, turn.early) && SendInTime(LastOf(from, turn.early), turn.dispatch)
    ensures V.PossibleRun(c.velocity, v, es)
    ensures Stands(V.Run(c.velocity, v, es), Act(c, n, turn).b.channel, turn.dispatch.end)
    ensures V.Watches(es) == []
  {
    hide Execute, Send, Arrivals, V.Step;
    var met := Meet(n, turn);
    EarlierInTime(v.clock, from, turn.early);
    ReceivesAreRun(c.velocity, v, turn.early);
    LastIsLater(turn.dispatch.at, turn.dispatch.arrivals);
    var u := V.Run(c.velocity, v, Receives(turn.early));
    if n.commands == [] {
      var begin := V.Event(turn.dispatch.at, V.DispatchPending);
      DispatchStep(c.velocity, u, turn.dispatch.at);
      es := SendIsRun(c.velocity, u, begin, met, turn.dispatch);
    } else {
      var resets, _ := ExecuteEffects(met, n.commands[0].command, turn.env);
      es := ResetsAreRun(c.velocity, u, resets, turn.dispatch.at);
    }
    V.RunConcat(c.velocity, v, Receives(turn.early), es);
    V.WatchesConcat(Receives(turn.early), es);
    es := Receives(turn.early) + es;
  }

  lemma DispatchStep(c: V.Config, v: V.World, at: int)
    ensures var begun := V.Step(c, v, V.Event(at, V.DispatchPending));
      (begun.ch, begun.sending) == V.BeginDispatch(c, v.ch, at)
  {
  }

  lemma WatchStep(c: V.Config, v: V.World, at: int, controlled: bool)
    ensures var begun := V.Step(c, v, V.Event(at, V.Watch(controlled)));
      (begun.ch, begun.sending) == V.BeginWatch(c, v.ch, at, controlled)
  {
  }

  lemma EarlierInTime(from: int, later: int, arrivals: seq<Arrival>)
    requires from <= later && InTime(later, arrivals)
    ensures InTime(from, arrivals) && LastOf(from, arrivals) <= LastOf(later, arrivals)
  {
  }

  /** The watchdog step of a turn: when, and whether the client holds control then. */
  function WatchOf(c: Settings, n: Node, turn: Turn): V.Event
  {
    V.Event(turn.watch.at, V.Watch(Act(c, n, turn).b.s.state == Controlled))
  }

  function WatchesOf(c: Settings, n: Node, inputs: seq<Input>): seq<V.Event>
    decreases inputs
  {
    if inputs == [] then []
    else
      (if inputs[0].Loop? && !n.ended then [WatchOf(c, n, inputs[0].turn)] else [])
      + WatchesOf(c, StepNode(c, n, inputs[0]), inputs[1..])
  }

  /** When a run that begins after `from` has ended. */
  function EndOf(from: int, inputs: seq<Input>): int
    decreases inputs
  {
    if inputs == [] then from
    else
      EndOf(if inputs[0].Loop? then inputs[0].turn.watch.end else if inputs[0].Quit? then inputs[0].at else from,
            inputs[1..])
  }

  /** A whole turn, as a run. */
  lemma TurnIsRun(c: Settings, n: Node, turn: Turn, v: V.World, from: int) returns (es: seq<V.Event>)
    requires Stands(v, n.b.channel, from) && TurnInTime(from, turn)
    ensures V.PossibleRun(c.velocity, v, es)
    ensures Stands(V.Run(c.velocity, v, es), TakeTurn(c, n, turn).b.channel, turn.watch.end)
    ensures V.Watches(es) == [WatchOf(c, n, turn)]
  {
    hide Act, Send, P.UpdatePoll, V.Step, V.BeginWatch;
    es := ActIsRun(c, n, turn, v, from);
    var acted := Act(c, n, turn);
    var u := V.Run(c.velocity, v, es);
    var begin := WatchOf(c, n, turn);
    WatchStep(c.velocity, u, turn.watch.at, acted.b.s.state == Controlled);
    var more := SendIsRun(c.velocity, u, begin, acted.b, turn.watch);
    V.RunConcat(c.velocity, v, es, more);
    V.WatchesConcat(es, more);
    es := es + more;
  }

  lemma QuitIsRun(c: Settings, n: Node, env: Env, v: V.World, at: int) returns (es: seq<V.Event>)
    requires Stands(v, n.b.channel, at) && V.NEVER < at
    ensures V.PossibleRun(c.velocity, v, es)
    ensures Stands(V.Run(c.velocity, v, es), QuitLoop(n, env).b.channel, at) && V.Watches(es) == []
  {
    hide QuitLoop, V.Step;
    var count := QuitEffects(n, env);
    es := ResetsAreRun(c.velocity, v, count, at);
  }

  /** Whatever commands, velocities and shutdown the worker goes through, its channel goes
      through a run of Velocity, whose watchdog steps are those of the worker's turns. */
  lemma {:induction false} WorkerIsVelocityRun(c: Settings, n: Node, inputs: seq<Input>, v: V.World, from: int)
    returns (es: seq<V.Event>)
    requires Stands(v, n.b.channel, from) && InputsInTime(from, inputs)
    ensures V.PossibleRun(c.velocity, v, es)
    ensures Stands(V.Run(c.velocity, v, es), RunNode(c, n, inputs).b.channel, EndOf(from, inputs))
    ensures V.Watches(es) == WatchesOf(c, n, inputs)
    decreases inputs
  {
    hide TakeTurn, QuitLoop, V.Step, TurnInTime, WatchOf;
    es := [];
    if inputs != [] {
      match inputs[0] {
        case Submit(_) =>
        case Loop(turn) =>
          if !n.ended { es := TurnIsRun(c, n, turn, v, from); } else { LaterTurn(from, turn); }
        case Quit(at, env) =>
          if !n.ended { es := QuitIsRun(c, n, env, v, at); }
      }
      var later := if inputs[0].Loop? then inputs[0].turn.watch.end else if inputs[0].Quit? then inputs[0].at else from;
      var more := WorkerIsVelocityRun(c, StepNode(c, n, inputs[0]), inputs[1..], V.Run(c.velocity, v, es), later);
      V.RunConcat(c.velocity, v, es, more);
      V.WatchesConcat(es, more);
      es := es + more;
    }
  }

  lemma LaterTurn(from: int, turn: Turn)
    requires TurnInTime(from, turn)
    ensures from <= turn.watch.end
  {
    LastIsLater(from, turn.early);
    LastIsLater(turn.dispatch.at, turn.dispatch.arrivals);
    LastIsLater(turn.watch.at, turn.watch.arrivals);
  }

  /** Over any run of a new worker, dispatches are an in-order subsequence of the messages
      received, each the newest and fresh when taken, and watchdog attempts are separated by a
      dispatch or a reset. */
  lemma WorkerPipeline(c: Settings, b: Bridge, inputs: seq<Input>)
    requires c.Valid() && b.channel == V.Fresh() && InputsInTime(V.NEVER, inputs)
    ensures var ch := RunNode(c, Start(b), inputs).b.channel;
      && (forall i :: 0 <= i < |ch.dispatched| ==> V.GoodDispatch(c.velocity, ch, ch.dispatched[i]))
      && (forall i, j :: 0 <= i < j < |ch.dispatched| ==>
            ch.dispatched[i].command.number < ch.dispatched[j].command.number)
      && (forall i, j :: 0 <= i < j < |ch.attempts| ==> V.Separated(ch.attempts[i], ch.attempts[j]))
  {
    var es := WorkerIsVelocityRun(c, Start(b), inputs, V.Initial(), V.NEVER);
    V.PipelineSafety(c.velocity, es);
    var ch := RunNode(c, Start(b), inputs).b.channel;
    forall i, j | 0 <= i < j < |ch.attempts| ensures V.Separated(ch.attempts[i], ch.attempts[j]) {
      V.AttemptsAreSeparated(c.velocity, es, i, j);
    }
  }

  // ---------- silence is answered ----------

  /** A velocity sent counts exactly when control is held and the robot accepts it: then it is in
      force; otherwise the one before stays in force, and no error lingers. */
  lemma SendFollowsRobot(b: Bridge, begun: (V.Channel, V.Sending), env: SendEnv)
    requires begun.1.Applying?
    ensures var b' := Send(b, begun, env);
      var accepted := b.s.state == Controlled && env.window.reply.Accepted?;
      && b'.channel.active == (if accepted then V.AnyNonzero(begun.1.command.twist) else begun.0.active)
      && (!accepted ==> b'.s.lastError == NoError)
      && b'.s.rpcs == b.s.rpcs
           + (if b.s.state == Controlled then [Rpc(Motion(SetActionParams), accepted)] else [])
  {
    hide Callbacks, Arrivals;
    CallErrorIs(b.s, Motion(SetActionParams), true, env.window);
    CallbacksKeepRpcs(b.s, env.window.callbacks);
    ArrivalsKeepActive(begun.0, env.arrivals);
  }

  /** What a turn's watchdog step does: it fires exactly on an active velocity under control
      whose newest message is too old and which it has not yet fired on; then it sends one more
      setActionParams and is marked, and otherwise it sends nothing. */
  lemma TurnFires(c: Settings, n: Node, turn: Turn)
    ensures var acted, n' := Act(c, n, turn).b, TakeTurn(c, n, turn).b;
      var ch := acted.channel;
      if V.WatchFires(c.velocity, ch, turn.watch.at, acted.s.state == Controlled) then
        && |n'.channel.attempts| == |ch.attempts| + 1 && n'.channel.attempts[|ch.attempts|].at == turn.watch.at
        && n'.channel.fired
        && exists ok :: n'.s.rpcs == acted.s.rpcs + [Rpc(Motion(SetActionParams), ok)]
      else n'.channel.attempts == ch.attempts && n'.s.rpcs == acted.s.rpcs
  {
    hide Execute, Act, P.UpdatePoll, Send, Callbacks, V.BeginWatch, V.WatchFires, UpdatePolls, Replies;
    var acted := Act(c, n, turn);
    var watched := WatchSend(c.velocity, acted.b, turn.watch);
    ZeroIsSent(c.velocity, acted.b, turn.watch);
    CallbacksKeepRpcs(watched.s, turn.callbacks);
    assert Watch(c, acted, turn).b == watched;
    var spun := SpinSome(Watch(c, acted, turn), turn);
    assert spun.b.channel == watched.channel && spun.b.s.rpcs == watched.s.rpcs;
    PollsTouchNothingElse(c, spun, turn);
  }

  function WatchSend(c: V.Config, b: Bridge, env: SendEnv): Bridge
  {
    Send(b, V.BeginWatch(c, b.channel, env.at, b.s.state == Controlled), env)
  }

  lemma ZeroIsSent(c: V.Config, b: Bridge, env: SendEnv)
    ensures var ch, b' := b.channel, WatchSend(c, b, env);
      if V.WatchFires(c, ch, env.at, b.s.state == Controlled)
      then
        && b'.channel.attempts == ch.attempts + [V.Attempt(env.at, |ch.dispatched|, |ch.floors| - 1)]
        && b'.channel.fired
        && exists ok :: b'.s.rpcs == b.s.rpcs + [Rpc(Motion(SetActionParams), ok)]
      else b'.channel.attempts == ch.attempts && b'.s.rpcs == b.s.rpcs
  {
    hide Callbacks, Arrivals, V.OnCmdVel;
    var begun := V.BeginWatch(c, b.channel, env.at, b.s.state == Controlled);
    ArrivalsKeepHistory(begun.0, env.arrivals);
    CallbacksKeepRpcs(b.s, env.window.callbacks);
    var ok := PerformCall(b.s, Motion(SetActionParams), true, env.window).1;
    if !begun.1.Nothing? {
      assert WatchSend(c, b, env).s.rpcs == b.s.rpcs + [Rpc(Motion(SetActionParams), ok)];
    }
  }

  /** The client holds control when the turn reaches its watchdog step. */
  predicate ControlledAtWatch(c: Settings, n: Node, turn: Turn)
  {
    Act(c, n, turn).b.s.state == Controlled
  }

  /** One turn under control makes its watchdog step speak for the input, and finds the input
      no older than the step before it allowed. */
  lemma TurnWatches(c: Settings, n: Node, turn: Turn, v: V.World, from: int) returns (v': V.World)
    requires c.Valid() && Stands(v, n.b.channel, from) && TurnInTime(from, turn)
    requires V.Inv(c.velocity, v) && ControlledAtWatch(c, n, turn)
    ensures Stands(v', TakeTurn(c, n, turn).b.channel, turn.watch.end)
    ensures V.Watched(c.velocity, v') && v'.lastWatch == turn.watch.at
    ensures var ch := Act(c, n, turn).b.channel;
      && (ch.fired <==> V.AttemptedSince(ch))
      && (ch.active ==> ch.lastReceivedAt != V.NEVER)
      && (V.Watched(c.velocity, v) && ch.active && !V.AttemptedSince(ch) ==>
            v.lastWatch <= ch.lastReceivedAt + c.velocity.timeoutMs)
  {
    hide Act, Send, P.UpdatePoll, V.Step, V.Run, V.PossibleRun, V.BeginWatch, V.Inv;
    var es := ActIsRun(c, n, turn, v, from);
    var acted := Act(c, n, turn);
    var u := V.Run(c.velocity, v, es);
    V.RunInv(c.velocity, v, es);
    V.InvTells(c.velocity, u);
    if V.Watched(c.velocity, v) {
      V.UnwatchedRun(c.velocity, v, es);
    }
    var begin := WatchOf(c, n, turn);
    WatchStep(c.velocity, u, turn.watch.at, true);
    var more := SendIsRun(c.velocity, u, begin, acted.b, turn.watch);
    assert more == [begin] + more[1..];
    V.RunConcat(c.velocity, u, [begin], more[1..]);
    RunOne(c.velocity, u, begin);
    V.WatchEstablishes(c.velocity, u, begin);
    WatchIsLast(c.velocity, u, begin);
    V.UnwatchedRun(c.velocity, V.Step(c.velocity, u, begin), more[1..]);
    v' := V.Run(c.velocity, u, more);
  }

  lemma WatchIsLast(c: V.Config, v: V.World, e: V.Event)
    requires e.action.Watch?
    ensures V.Step(c, v, e).lastWatch == e.at
  {
  }

  /** In any run of a new worker, the watchdog step of a turn makes an attempt exactly when the
      client holds control, a non-zero velocity is in force, none was made since the latest
      dispatch or reset, and the newest message is older than the timeout. */
  lemma WorkerFiresIff(c: Settings, b: Bridge, before: seq<Input>, turn: Turn)
    requires c.Valid() && b.channel == V.Fresh()
    requires InputsInTime(V.NEVER, before) && TurnInTime(EndOf(V.NEVER, before), turn)
    ensures var n := RunNode(c, Start(b), before);
      var acted := Act(c, n, turn).b;
      |TakeTurn(c, n, turn).b.channel.attempts| > |acted.channel.attempts| <==>
        && acted.s.state == Controlled && acted.channel.active && !V.AttemptedSince(acted.channel)
        && turn.watch.at - acted.channel.lastReceivedAt > c.velocity.timeoutMs
  {
    hide TakeTurn, Act, TurnInTime;
    var n := RunNode(c, Start(b), before);
    var es := WorkerIsVelocityRun(c, Start(b), before, V.Initial(), V.NEVER);
    V.RunInv(c.velocity, V.Initial(), es);
    TurnFires(c, n, turn);
    ActIsArmed(c, n, turn, V.Run(c.velocity, V.Initial(), es), EndOf(V.NEVER, before));
  }

  /** When a turn reaches its watchdog step, the watchdog's mark says whether it has made an
      attempt since the latest dispatch or reset. */
  lemma ActIsArmed(c: Settings, n: Node, turn: Turn, v: V.World, from: int)
    requires c.Valid() && Stands(v, n.b.channel, from) && TurnInTime(from, turn)
    requires V.Inv(c.velocity, v)
    ensures var ch := Act(c, n, turn).b.channel;
      (ch.fired <==> V.AttemptedSince(ch)) && (ch.active ==> ch.lastReceivedAt != V.NEVER)
  {
    hide Act, V.Step, V.Run, V.PossibleRun, V.Inv;
    var es := ActIsRun(c, n, turn, v, from);
    V.RunInv(c.velocity, v, es);
    V.InvTells(c.velocity, V.Run(c.velocity, v, es));
  }

  /** A turn without a command dispatches exactly a pending velocity whose time has come and
      that is fresh, counting the messages before the turn's first step. */
  lemma TurnDispatchesIff(c: Settings, n: Node, turn: Turn)
    requires n.commands == []
    ensures var ch, ch' := Meet(n, turn).channel, TakeTurn(c, n, turn).b.channel;
      if ch.pending.Some? && turn.dispatch.at >= ch.nextDispatchAt
         && turn.dispatch.at - ch.pending.value.receivedAt <= c.velocity.timeoutMs
      then
        |ch'.dispatched| == |ch.dispatched| + 1 && ch'.dispatched[|ch.dispatched|].command == ch.pending.value
      else ch'.dispatched == ch.dispatched
  {
    hide Send, P.UpdatePoll, Arrivals;
    var met, acted := Meet(n, turn), Act(c, n, turn);
    SendKeepsDispatched(met, V.BeginDispatch(c.velocity, met.channel, turn.dispatch.at), turn.dispatch);
    var begun := V.BeginWatch(c.velocity, acted.b.channel, turn.watch.at, acted.b.s.state == Controlled);
    SendKeepsDispatched(acted.b, begun, turn.watch);
  }

  /** The worker keeps turning under control: every watchdog step finds control held, at most
      `gap` ms after the one before. */
  predicate Attentive(c: Settings, n: Node, inputs: seq<Input>, last: int, gap: int)
    decreases inputs
  {
    inputs == [] || (
      match inputs[0]
      case Submit(_) => Attentive(c, StepNode(c, n, inputs[0]), inputs[1..], last, gap)
      case Loop(turn) =>
        && !n.ended && ControlledAtWatch(c, n, turn) && turn.watch.at <= last + gap
        && Attentive(c, StepNode(c, n, inputs[0]), inputs[1..], turn.watch.at, gap)
      case Quit(_, _) => false)
  }

  /** No turn comes to its watchdog step with a non-zero velocity in force that the watchdog has
      not fired on and whose newest message is older than `age`. */
  predicate NeverSilent(c: Settings, n: Node, inputs: seq<Input>, age: int)
    decreases inputs
  {
    inputs == [] || (
      && (inputs[0].Loop? && !n.ended ==>
            var turn, ch := inputs[0].turn, Act(c, n, inputs[0].turn).b.channel;
            ch.active && !V.AttemptedSince(ch) ==> turn.watch.at <= ch.lastReceivedAt + age)
      && NeverSilent(c, StepNode(c, n, inputs[0]), inputs[1..], age))
  }

  lemma {:induction false} AttentiveIsNeverSilent(
    c: Settings, n: Node, inputs: seq<Input>, v: V.World, from: int, gap: int)
    requires c.Valid() && Stands(v, n.b.channel, from) && InputsInTime(from, inputs)
    requires V.Watched(c.velocity, v) && Attentive(c, n, inputs, v.lastWatch, gap)
    ensures NeverSilent(c, n, inputs, c.velocity.timeoutMs + gap)
    decreases inputs
  {
    hide TakeTurn, QuitLoop, Act, V.Inv, TurnInTime;
    if inputs != [] {
      var n' := StepNode(c, n, inputs[0]);
      match inputs[0] {
        case Submit(_) => AttentiveIsNeverSilent(c, n', inputs[1..], v, from, gap);
        case Loop(turn) =>
          var v' := TurnWatches(c, n, turn, v, from);
          AttentiveIsNeverSilent(c, n', inputs[1..], v', turn.watch.end, gap);
        case Quit(_, _) =>
      }
    }
  }

  /** Input silence is answered by the worker.  After any run of a new worker and one turn under
      control, while the worker keeps turning under control with watchdog steps at most `gap` ms
      apart, no turn comes to its watchdog step with a non-zero velocity in force, not yet fired
      on, and the newest message older than the timeout plus `gap`.  TurnFires says what the
      step then does. */
  lemma WorkerAnswersSilence(c: Settings, b: Bridge, before: seq<Input>, first: Turn, inputs: seq<Input>, gap: int)
    requires c.Valid() && b.channel == V.Fresh()
    requires InputsInTime(V.NEVER, before) && TurnInTime(EndOf(V.NEVER, before), first)
    requires InputsInTime(first.watch.end, inputs)
    requires var n := RunNode(c, Start(b), before);
      && !n.ended && ControlledAtWatch(c, n, first)
      && Attentive(c, TakeTurn(c, n, first), inputs, first.watch.at, gap)
    ensures var n := RunNode(c, Start(b), before);
      NeverSilent(c, TakeTurn(c, n, first), inputs, c.velocity.timeoutMs + gap)
  {
    hide TakeTurn, Act, Attentive, NeverSilent, TurnInTime;
    var n := RunNode(c, Start(b), before);
    var es := WorkerIsVelocityRun(c, Start(b), before, V.Initial(), V.NEVER);
    V.RunInv(c.velocity, V.Initial(), es);
    var v := TurnWatches(c, n, first, V.Run(c.velocity, V.Initial(), es), EndOf(V.NEVER, before));
    AttentiveIsNeverSilent(c, TakeTurn(c, n, first), inputs, v, first.watch.end, gap);
  }

  // ---------- nothing crosses a command ----------

  /** Between tracking resets the worker dispatches at most window / period + 1 velocities in any
      window. */
  lemma WorkerRateBound(c: Settings, b: Bridge, inputs: seq<Input>, i: nat, j: nat, window: nat)
    requires c.Valid() && b.channel == V.Fresh() && InputsInTime(V.NEVER, inputs)
    requires i < j <= |RunNode(c, Start(b), inputs).b.channel.dispatched|
    requires var ds := RunNode(c, Start(b), inputs).b.channel.dispatched;
      ds[i].epoch == ds[j - 1].epoch && ds[j - 1].at - ds[i].at <= window
    ensures j - i <= window / c.velocity.periodMs + 1
  {
    var es := WorkerIsVelocityRun(c, Start(b), inputs, V.Initial(), V.NEVER);
    V.RateBound(c.velocity, es, i, j, window);
  }

  /** The turn executes a command that discards velocities, and the command succeeds. */
  predicate Succeeds(n: Node, turn: Turn)
  {
    n.commands != [] &&
    var outcome := Execute(Meet(n, turn), n.commands[0].command, turn.env).1;
    Discards(n.b, n.commands[0].command) && outcome.Done? && outcome.success
  }

  /** A command that succeeds empties a full slot if and only if it is a start, stop, emergency
      stop or parameter change, or a release that begins with control held. */
  lemma SuccessDiscardsIff(b: Bridge, command: Command, env: Env)
    requires b.channel.pending.Some?
    requires var outcome := Execute(b, command, env).1; outcome.Done? && outcome.success
    ensures Execute(b, command, env).0.channel.pending.None? <==> Discards(b, command)
  {
    hide Execute;
    var resets, _ := ExecuteEffects(b, command, env);
    ResetsKeepHistory(b.channel, resets);
  }

  /** A turn at 100 with nothing around it but these messages. */
  function QuietTurn(early: seq<Arrival>): Turn {
    var w := Window([], 100, TransportFailure);
    var env := Env(ConnectEnv(100, false, 0, [], [], false), w, w, w);
    var send := SendEnv(100, [], w, 100);
    var polls := PollEnv([], 100, false);
    Turn(early, env, send, send, [], polls, polls, "")
  }

  function Walk(): V.Twist {
    V.Twist(1.0, 0.0, 0.0)
  }

  /** A velocity of 1 m/s arrives at 100, while a bridge without control is about to release. */
  function ReleasingTurns(): seq<Input> {
    [Submit(ReleaseCommand), Loop(QuietTurn([Arrival(100, V.Finite(Walk()))])), Loop(QuietTurn([]))]
  }

  function Unconnected(ch: V.Channel): Bridge {
    Bridge(Fresh(0), false, false, "", ch, P.Fresh())
  }

  lemma ReleasingTurn(c: Settings, n: Node)
    requires n == Enqueue(Start(Unconnected(V.Fresh())), ReleaseCommand)
    ensures var n' := TakeTurn(c, n, QuietTurn([Arrival(100, V.Finite(Walk()))]));
      && n'.b == Unconnected(V.OnCmdVel(V.Fresh(), 100, V.Finite(Walk()))) && n'.commands == [] && !n'.ended
      && n'.answers == [Answer(Job(0, ReleaseCommand), Done(true, NoError))]
  {
    hide V.OnCmdVel;
    var early := [Arrival(100, V.Finite(Walk()))];
    assert early[1..] == [];
    OnlyCommandKeepsActive(V.OnCmdVel(V.Fresh(), 100, V.Finite(Walk())));
  }

  lemma OnlyCommandKeepsActive(ch: V.Channel)
    requires ch == V.OnCmdVel(V.Fresh(), 100, V.Finite(Walk()))
    ensures !ch.active
  {
  }

  lemma DispatchingTurn(c: Settings, n: Node)
    requires c.Valid() && n.commands == []
    requires n.b == Unconnected(V.OnCmdVel(V.Fresh(), 100, V.Finite(Walk())))
    ensures var n' := TakeTurn(c, n, QuietTurn([]));
      && n'.b.channel.dispatched == [V.Dispatch(V.Command(Walk(), 100, 0), 100, 0, 1)]
      && n'.answers == n.answers
  {
  }

  /** A run in which a release succeeds and a velocity received before it is dispatched after
      it: without control release_control succeeds and resets nothing. */
  lemma ReleaseWithoutControlExample(c: Settings)
    requires c.Valid()
    ensures var inputs := ReleasingTurns();
      && InputsInTime(V.NEVER, inputs)
      && var n := RunNode(c, Start(Unconnected(V.Fresh())), inputs);
         && n.answers == [Answer(Job(0, ReleaseCommand), Done(true, NoError))]
         && n.b.channel.dispatched == [V.Dispatch(V.Command(Walk(), 100, 0), 100, 0, 1)]
  {
    hide TakeTurn;
    var inputs := ReleasingTurns();
    var n0 := Start(Unconnected(V.Fresh()));
    var n1 := StepNode(c, n0, inputs[0]);
    var n2 := StepNode(c, n1, inputs[1]);
    ReleasingTurn(c, n1);
    DispatchingTurn(c, n2);
    assert inputs == [inputs[0]] + [inputs[1], inputs[2]] && [inputs[1], inputs[2]] == [inputs[1]] + [inputs[2]];
    RunNodeStep(c, n0, inputs[0], [inputs[1], inputs[2]]);
    RunNodeStep(c, n1, inputs[1], [inputs[2]]);
    RunNodeStep(c, n2, inputs[2], []);
    assert [inputs[2]] + [] == [inputs[2]];
  }

  lemma RunNodeStep(c: Settings, n: Node, input: Input, rest: seq<Input>)
    ensures RunNode(c, n, [input] + rest) == RunNode(c, StepNode(c, n, input), rest)
    ensures RunNode(c, n, []) == n
  {
    hide StepNode;
    assert ([input] + rest)[0] == input && ([input] + rest)[1..] == rest;
  }

  /** Nothing received before a start, stop, emergency stop or parameter change succeeds, or a
      release of control that is held, is dispatched after it, however the run goes on. */
  lemma NothingCrossesCommand(c: Settings, n: Node, turn: Turn, after: seq<Input>, from: int)
    requires Succeeds(n, turn) && !n.ended
    requires TurnInTime(from, turn) && InputsInTime(turn.watch.end, after)
    ensures var n' := TakeTurn(c, n, turn);
      var before, ch := Meet(n, turn).channel, RunNode(c, n', after).b.channel;
      |before.dispatched| <= |ch.dispatched|
      && forall i :: |before.dispatched| <= i < |ch.dispatched| ==> ch.dispatched[i].command.number >= |before.received|
  {
    hide Execute, Send, P.UpdatePoll, V.Step, V.BeginWatch, TurnInTime;
    var before := Meet(n, turn).channel;
    var base, first := |before.received|, |before.dispatched|;
    var acted := Act(c, n, turn);
    var resets, _ := ExecuteEffects(Meet(n, turn), n.commands[0].command, turn.env);
    ResetsKeepHistory(before, resets);
    assert V.OnlySince(acted.b.channel, first, base);
    var v := V.World(acted.b.channel, V.Nothing, turn.watch.at, turn.watch.at);
    var begin := V.Event(turn.watch.at, V.Watch(acted.b.s.state == Controlled));
    WatchStep(c.velocity, v, turn.watch.at, acted.b.s.state == Controlled);
    SendLater(from, turn);
    var es := SendIsRun(c.velocity, v, begin, acted.b, turn.watch);
    V.OnlySinceStays(c.velocity, v, es, first, base);
    var more := WorkerIsVelocityRun(c, TakeTurn(c, n, turn), after, V.Run(c.velocity, v, es), turn.watch.end);
    V.OnlySinceStays(c.velocity, V.Run(c.velocity, v, es), more, first, base);
  }

  lemma SendLater(from: int, turn: Turn)
    requires TurnInTime(from, turn)
    ensures SendInTime(turn.watch.at, turn.watch)
  {
  }
}
