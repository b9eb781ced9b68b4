/** The polls of the worker: their runs of Poll, their spacing, and that they go on. */
module WorkerPolling {
  import opened Wrappers
  import opened ControlSession
  import opened SessionSafety
  import opened Client
  import opened Ownership
  import opened Worker
  import opened WorkerCommands
  import V = Velocity
  import P = Poll

  // ---------- the worker's polls are runs of Poll ----------

  function ReplyEvents(replies: seq<PollReply>): seq<P.Event> {
    seq(|replies|, i requires 0 <= i < |replies| =>
      P.Event(replies[i].at, P.Reply(replies[i].sequence, replies[i].body)))
  }

  /** The network answers sent requests, each once, before the poll is updated. */
  ghost predicate PollInTime(cfg: P.Config, u: P.World, env: PollEnv) {
    P.PossibleRun(cfg, u, ReplyEvents(env.replies)) && P.Run(cfg, u, ReplyEvents(env.replies)).clock <= env.at
  }

  function AfterPoll(cfg: P.Config, u: P.World, env: PollEnv, ready: bool, enabled: bool): P.World {
    var replied := P.Run(cfg, u, ReplyEvents(env.replies));
    if ready then P.Step(cfg, replied, P.Event(env.at, P.Update(enabled, env.sendThrows))) else replied
  }

  lemma {:induction false} RepliesAreRun(cfg: P.Config, u: P.World, replies: seq<PollReply>)
    ensures P.Run(cfg, u, ReplyEvents(replies)).p == Replies(u.p, replies)
    decreases replies
  {
    hide P.HandleReply;
    if replies != [] {
      var e := P.Event(replies[0].at, P.Reply(replies[0].sequence, replies[0].body));
      assert ReplyEvents(replies)[0] == e && ReplyEvents(replies)[1..] == ReplyEvents(replies[1..]);
      RepliesAreRun(cfg, P.Step(cfg, u, e), replies[1..]);
    }
  }

  lemma {:induction false} RearmsAreRun(cfg: P.Config, u: P.World, count: nat) returns (es: seq<P.Event>)
    ensures P.PossibleRun(cfg, u, es) && P.Run(cfg, u, es) == u.(p := Rearms(u.p, count))
    ensures forall e :: e in es ==> e.action.Rearm?
  {
    hide P.RearmQuery;
    es := [];
    if count > 0 {
      es := RearmsAreRun(cfg, u, count - 1);
      var rearm := P.Event(u.clock, P.Rearm);
      P.RunConcat(cfg, u, es, [rearm]);
      OneEvent(cfg, P.Run(cfg, u, es), rearm);
      es := es + [rearm];
    }
  }

  /** The replies and the update among the events are the turn's. */
  predicate OfTurn(es: seq<P.Event>, env: PollEnv) {
    forall i :: 0 <= i < |es| ==>
      && (es[i].action.Reply? ==> PollReply(es[i].at, es[i].action.sequence, es[i].action.body) in env.replies)
      && (es[i].action.Update? ==> es[i].at == env.at)
  }

  lemma OneEvent(cfg: P.Config, u: P.World, e: P.Event)
    ensures P.Run(cfg, u, [e]) == P.Step(cfg, u, e)
    ensures P.PossibleRun(cfg, u, [e]) <==> P.Possible(u, e)
  {
    hide P.Step;
    assert P.Run(cfg, P.Step(cfg, u, e), []) == P.Step(cfg, u, e);
  }

  lemma PollTurnIsRun(cfg: P.Config, u: P.World, rearms: nat, env: PollEnv, ready: bool, enabled: bool)
    returns (es: seq<P.Event>)
    requires PollInTime(cfg, u.(p := Rearms(u.p, rearms)), env)
    ensures P.PossibleRun(cfg, u, es) && OfTurn(es, env)
    ensures P.Run(cfg, u, es) == AfterPoll(cfg, u.(p := Rearms(u.p, rearms)), env, ready, enabled)
  {
    hide P.Step, P.Run, P.PossibleRun, P.RearmQuery;
    var armed := u.(p := Rearms(u.p, rearms));
    es := RearmsAreRun(cfg, u, rearms);
    P.RunConcat(cfg, u, es, ReplyEvents(env.replies));
    es := es + ReplyEvents(env.replies);
    if ready {
      var update := P.Event(env.at, P.Update(enabled, env.sendThrows));
      P.RunConcat(cfg, u, es, [update]);
      OneEvent(cfg, P.Run(cfg, u, es), update);
      es := es + [update];
    }
  }

  function MotionAfter(c: Settings, n: Node, turn: Turn, u: P.World): P.World
  {
    var spun := Spun(c, n, turn);
    AfterPoll(c.motion, u.(p := Act(c, n, turn).b.motion), turn.motion, spun.b.rpcReady, spun.b.s.state != Disconnected)
  }

  function BatteryAfter(c: Settings, n: Node, turn: Turn, u: P.World): P.World
  {
    var spun := Spun(c, n, turn);
    AfterPoll(c.battery, u, turn.battery, spun.b.rpcReady, c.batteryWanted && spun.b.observing)
  }

  /** Both polls see possible replies throughout the run; `m` and `k` are their worlds. */
  ghost predicate PollsInTime(c: Settings, n: Node, inputs: seq<Input>, m: P.World, k: P.World)
    decreases inputs
  {
    inputs == [] || (
      var n' := StepNode(c, n, inputs[0]);
      if inputs[0].Loop? && !n.ended then
        var turn := inputs[0].turn;
        && PollInTime(c.motion, m.(p := Act(c, n, turn).b.motion), turn.motion)
        && PollInTime(c.battery, k, turn.battery)
        && PollsInTime(c, n', inputs[1..], MotionAfter(c, n, turn, m), BatteryAfter(c, n, turn, k))
      else PollsInTime(c, n', inputs[1..], m.(p := n'.b.motion), k.(p := n'.battery)))
  }

  /** The motion poll of a turn, as a run: re-armed by the command, answered, updated. */
  lemma TurnIsMotionRun(c: Settings, n: Node, turn: Turn, m: P.World) returns (ms: seq<P.Event>)
    requires m.p == n.b.motion
    requires PollInTime(c.motion, m.(p := Act(c, n, turn).b.motion), turn.motion)
    ensures P.PossibleRun(c.motion, m, ms) && P.Run(c.motion, m, ms) == MotionAfter(c, n, turn, m)
    ensures OfTurn(ms, turn.motion)
  {
    hide Execute, SessionAfterSend, AfterSend, P.Run, P.PossibleRun, Arrivals, Spun, PollInTime, OfTurn,
         V.BeginWatch, V.BeginDispatch;
    var spun := Spun(c, n, turn);
    var rearms := 0;
    if n.commands != [] {
      var _, count := ExecuteEffects(Meet(n, turn), n.commands[0].command, turn.env);
      rearms := count;
    }
    assert Act(c, n, turn).b.motion == Rearms(n.b.motion, rearms);
    ms := PollTurnIsRun(c.motion, m, rearms, turn.motion, spun.b.rpcReady, spun.b.s.state != Disconnected);
  }

  lemma TurnIsPollRun(c: Settings, n: Node, turn: Turn, m: P.World, k: P.World)
    returns (ms: seq<P.Event>, ks: seq<P.Event>)
    requires m.p == n.b.motion && k.p == n.battery
    requires PollInTime(c.motion, m.(p := Act(c, n, turn).b.motion), turn.motion)
    requires PollInTime(c.battery, k, turn.battery)
    ensures OfTurn(ms, turn.motion) && OfTurn(ks, turn.battery)
    ensures P.PossibleRun(c.motion, m, ms) && P.Run(c.motion, m, ms) == MotionAfter(c, n, turn, m)
    ensures P.PossibleRun(c.battery, k, ks) && P.Run(c.battery, k, ks) == BatteryAfter(c, n, turn, k)
    ensures MotionAfter(c, n, turn, m).p == TakeTurn(c, n, turn).b.motion
    ensures BatteryAfter(c, n, turn, k).p == TakeTurn(c, n, turn).battery
  {
    hide Act, SessionAfterSend, AfterSend, P.UpdatePoll, P.Run, P.PossibleRun, Callbacks, PollInTime, Replies,
         V.BeginWatch, OfTurn;
    var acted, spun := Act(c, n, turn), Spun(c, n, turn);
    ms := TurnIsMotionRun(c, n, turn, m);
    ks := PollTurnIsRun(c.battery, k, 0, turn.battery, spun.b.rpcReady, c.batteryWanted && spun.b.observing);
    RepliesAreRun(c.motion, m.(p := acted.b.motion), turn.motion.replies);
    RepliesAreRun(c.battery, k, turn.battery.replies);
    ActKeepsBattery(c, n, turn);
  }

  lemma ActKeepsBattery(c: Settings, n: Node, turn: Turn)
    ensures Act(c, n, turn).battery == n.battery
  {
    hide Execute, Send, Arrivals, V.BeginDispatch;
  }

  lemma QuitIsPollRun(c: Settings, n: Node, env: Env, m: P.World, k: P.World)
    returns (ms: seq<P.Event>, ks: seq<P.Event>)
    requires m.p == n.b.motion && k.p == n.battery
    ensures P.PossibleRun(c.motion, m, ms) && P.Run(c.motion, m, ms) == m.(p := QuitLoop(n, env).b.motion)
    ensures P.PossibleRun(c.battery, k, ks) && P.Run(c.battery, k, ks) == k.(p := QuitLoop(n, env).battery)
    ensures forall e :: e in ms + ks ==> e.action.Rearm? || e.action.Cancel?
  {
    hide QuitLoop, P.CancelQuery;
    var count := QuitEffects(n, env);
    var cancel := P.Event(m.clock, P.Cancel);
    OneEvent(c.motion, m, cancel);
    ms := RearmsAreRun(c.motion, P.Step(c.motion, m, cancel), count);
    P.RunConcat(c.motion, m, [cancel], ms);
    ms := [cancel] + ms;
    ks := [P.Event(k.clock, P.Cancel)];
    OneEvent(c.battery, k, ks[0]);
  }

  function EnvOf(turn: Turn, motion: bool): PollEnv {
    if motion then turn.motion else turn.battery
  }

  /** The network gave this reply to the motion poll, or the battery poll, in some turn. */
  predicate Replied(inputs: seq<Input>, motion: bool, at: int, sequence: nat, body: P.Body) {
    exists j ::
      0 <= j < |inputs| && inputs[j].Loop? && PollReply(at, sequence, body) in EnvOf(inputs[j].turn, motion).replies
  }

  /** Some turn updated the poll at this time. */
  predicate Updated(inputs: seq<Input>, motion: bool, at: int) {
    exists j :: 0 <= j < |inputs| && inputs[j].Loop? && EnvOf(inputs[j].turn, motion).at == at
  }

  predicate FromTurn(e: P.Event, inputs: seq<Input>, motion: bool) {
    && (e.action.Reply? ==> Replied(inputs, motion, e.at, e.action.sequence, e.action.body))
    && (e.action.Update? ==> Updated(inputs, motion, e.at))
  }

  predicate FromTurns(es: seq<P.Event>, inputs: seq<Input>, motion: bool) {
    forall i :: 0 <= i < |es| ==> FromTurn(es[i], inputs, motion)
  }

  lemma TurnsJoin(first: seq<P.Event>, later: seq<P.Event>, inputs: seq<Input>, motion: bool)
    requires inputs != [] && FromTurns(later, inputs[1..], motion)
    requires if inputs[0].Loop? then OfTurn(first, EnvOf(inputs[0].turn, motion))
             else forall e :: e in first ==> e.action.Rearm? || e.action.Cancel?
    ensures FromTurns(first + later, inputs, motion)
  {
    forall i | 0 <= i < |first + later| ensures FromTurn((first + later)[i], inputs, motion) {
      var e := (first + later)[i];
      if i < |first| {
        assert e == first[i];
      } else {
        assert e == later[i - |first|] && FromTurn(e, inputs[1..], motion);
        if e.action.Reply? {
          var j :| 0 <= j < |inputs[1..]| && inputs[1..][j].Loop?
                   && PollReply(e.at, e.action.sequence, e.action.body) in EnvOf(inputs[1..][j].turn, motion).replies;
          assert inputs[j + 1] == inputs[1..][j];
        } else if e.action.Update? {
          var j :| 0 <= j < |inputs[1..]| && inputs[1..][j].Loop? && EnvOf(inputs[1..][j].turn, motion).at == e.at;
          assert inputs[j + 1] == inputs[1..][j];
        }
      }
    }
  }

  /** Whatever commands the worker goes through, its motion poll and its battery poll each go
      through a run of Poll, with the replies and updates of the worker's turns. */
  lemma {:induction false} WorkerIsPollRun(c: Settings, n: Node, inputs: seq<Input>, m: P.World, k: P.World)
    returns (ms: seq<P.Event>, ks: seq<P.Event>)
    requires m.p == n.b.motion && k.p == n.battery
    requires PollsInTime(c, n, inputs, m, k)
    ensures P.PossibleRun(c.motion, m, ms) && P.Run(c.motion, m, ms).p == RunNode(c, n, inputs).b.motion
    ensures P.PossibleRun(c.battery, k, ks) && P.Run(c.battery, k, ks).p == RunNode(c, n, inputs).battery
    ensures FromTurns(ms, inputs, true) && FromTurns(ks, inputs, false)
    decreases inputs
  {
    hide TakeTurn, QuitLoop, Act, P.Step, PollInTime, MotionAfter, BatteryAfter, FromTurns, OfTurn;
    ms, ks := [], [];
    if inputs == [] {
      NoTurns();
    } else {
      NothingOfTurn(inputs[0]);
      if inputs[0].Loop? && !n.ended {
        ms, ks := TurnIsPollRun(c, n, inputs[0].turn, m, k);
      } else if inputs[0].Quit? && !n.ended {
        ms, ks := QuitIsPollRun(c, n, inputs[0].env, m, k);
      }
      var m', k' := P.Run(c.motion, m, ms), P.Run(c.battery, k, ks);
      var ms', ks' := WorkerIsPollRun(c, StepNode(c, n, inputs[0]), inputs[1..], m', k');
      P.RunConcat(c.motion, m, ms, ms');
      P.RunConcat(c.battery, k, ks, ks');
      TurnsJoin(ms, ms', inputs, true);
      TurnsJoin(ks, ks', inputs, false);
      ms, ks := ms + ms', ks + ks';
    }
  }

  lemma NoTurns()
    ensures FromTurns([], [], true) && FromTurns([], [], false)
  {
  }

  lemma NothingOfTurn(input: Input)
    ensures input.Loop? ==> OfTurn([], input.turn.motion) && OfTurn([], input.turn.battery)
  {
  }

  /** A published state: what a reply of the network carried, to a request that an update sent
      less than a second before and that was never given up; published by an update, after the
      states published before it. */
  predicate Published(p: P.Poll, inputs: seq<Input>, motion: bool, i: nat)
    requires i < |p.accepted|
  {
    var a := p.accepted[i];
    && P.Sent(a.sequence, a.sentAt) in p.sends && Updated(inputs, motion, a.sentAt)
    && Replied(inputs, motion, a.repliedAt, a.sequence, P.Good(a.value))
    && a.sentAt <= a.repliedAt < a.sentAt + P.DEADLINE_MS
    && a.sequence !in p.givenUp
    && a.repliedAt <= a.consumedAt && Updated(inputs, motion, a.consumedAt)
    && (i > 0 ==> p.accepted[i - 1].sequence < a.sequence)
  }

  lemma PollRunPublishes(cfg: P.Config, es: seq<P.Event>, inputs: seq<Input>, motion: bool)
    requires cfg.Valid() && P.PossibleRun(cfg, P.Initial(), es) && FromTurns(es, inputs, motion)
    ensures var p := P.Run(cfg, P.Initial(), es).p;
      forall i :: 0 <= i < |p.accepted| ==> Published(p, inputs, motion, i)
  {
    var w := P.Run(cfg, P.Initial(), es);
    forall i | 0 <= i < |w.p.accepted| ensures Published(w.p, inputs, motion, i) {
      P.PublishedOnlyOnTime(cfg, es, i);
    }
  }

  /** Over any run of a new worker each poll holds at most one request, and each state it
      publishes was brought by a reply within a second of its request. */
  lemma WorkerPolls(c: Settings, b: Bridge, inputs: seq<Input>)
    requires c.Valid() && b.motion == P.Fresh()
    requires PollsInTime(c, Start(b), inputs, P.Initial(), P.Initial())
    ensures var n := RunNode(c, Start(b), inputs);
      && |n.b.motion.held| <= 1 && |n.battery.held| <= 1
      && (forall i :: 0 <= i < |n.b.motion.accepted| ==> Published(n.b.motion, inputs, true, i))
      && (forall i :: 0 <= i < |n.battery.accepted| ==> Published(n.battery, inputs, false, i))
  {
    hide RunNode, PollsInTime;
    var ms, ks := WorkerIsPollRun(c, Start(b), inputs, P.Initial(), P.Initial());
    P.AtMostOneHeld(c.motion, ms);
    P.AtMostOneHeld(c.battery, ks);
    PollRunPublishes(c.motion, ms, inputs, true);
    PollRunPublishes(c.battery, ks, inputs, false);
  }

  // ---------- spacing of the worker's polls ----------

  lemma {:induction false} RepliesDoNotInterrupt(cfg: P.Config, u: P.World, replies: seq<PollReply>)
    ensures P.Uninterrupted(cfg, u, ReplyEvents(replies))
    decreases replies
  {
    hide P.Step;
    if replies != [] {
      var e := P.Event(replies[0].at, P.Reply(replies[0].sequence, replies[0].body));
      assert ReplyEvents(replies)[0] == e && ReplyEvents(replies)[1..] == ReplyEvents(replies[1..]);
      RepliesDoNotInterrupt(cfg, P.Step(cfg, u, e), replies[1..]);
    }
  }

  lemma {:induction false} RepliesKeepPending(p: P.Poll, replies: seq<PollReply>)
    ensures Replies(p, replies).pending == p.pending && Replies(p, replies).sends == p.sends
    decreases replies
  {
    if replies != [] {
      RepliesKeepPending(P.HandleReply(p, replies[0].at, replies[0].sequence, replies[0].body), replies[1..]);
    }
  }

  /** A turn that does not disable a pending poll keeps its requests spaced. */
  lemma PollTurnSpaced(cfg: P.Config, u: P.World, env: PollEnv, ready: bool, enabled: bool, from: nat)
    requires cfg.Valid() && P.Inv(u) && PollInTime(cfg, u, env) && P.SpacedFrom(cfg, u.p, from)
    requires ready && u.p.pending.Some? ==> enabled
    ensures P.Inv(AfterPoll(cfg, u, env, ready, enabled))
    ensures P.SpacedFrom(cfg, AfterPoll(cfg, u, env, ready, enabled).p, from)
  {
    hide P.Step, P.Run, P.Inv, P.SpacedFrom;
    var replied := P.Run(cfg, u, ReplyEvents(env.replies));
    RepliesDoNotInterrupt(cfg, u, env.replies);
    P.RunInv(cfg, u, ReplyEvents(env.replies));
    P.RunSpaced(cfg, u, ReplyEvents(env.replies), from);
    RepliesAreRun(cfg, u, env.replies);
    RepliesKeepPending(u.p, env.replies);
    if ready {
      var update := P.Event(env.at, P.Update(enabled, env.sendThrows));
      P.StepInv(cfg, replied, update);
      P.StepSpaced(cfg, replied, update, from);
    }
  }

  /** A battery request is pending only while battery polling is enabled. */
  predicate BatteryInv(c: Settings, n: Node) {
    n.battery.pending.Some? ==> c.batteryWanted && n.b.observing
  }

  lemma ConnectKeepsObserving(b: Bridge, env: Env)
    ensures b.observing ==> DoConnect(b, env.connect).0.observing
    ensures b.observing ==> DoAcquire(b, env).0.observing
  {
    hide Probe, QueryAll, P.RearmQuery, StartControl;
  }

  lemma ExecuteKeepsObserving(b: Bridge, command: Command, env: Env)
    requires b.observing
    ensures Execute(b, command, env).0.observing
  {
    hide PerformCall, DoConnect, DoAcquire, RollBack, V.ResetTracking, P.RearmQuery;
    ConnectKeepsObserving(b, env);
    ConnectKeepsObserving(DoConnect(b, env.connect).0, env);
  }

  /** In a turn neither poll is disabled while a request is pending: before the worker quits,
      a ready RPC path stays connected and observation stays on. */
  lemma TurnDisablesNothing(c: Settings, n: Node, turn: Turn)
    requires BridgeInv(n.b) && BatteryInv(c, n)
    ensures var spun := Spun(c, n, turn);
      && (spun.b.rpcReady ==> spun.b.s.state != Disconnected)
      && (n.battery.pending.Some? ==> c.batteryWanted && spun.b.observing)
      && BatteryInv(c, TakeTurn(c, n, turn)) && TakeTurn(c, n, turn).ended == n.ended
  {
    hide Execute, SessionAfterSend, AfterSend, Arrivals, Callbacks, Replies, V.BeginWatch, V.BeginDispatch,
         P.Abandon, P.Consume;
    TurnJustified(c, n, turn);
    RepliesKeepPending(n.battery, turn.battery.replies);
    if n.commands != [] && n.b.observing {
      ExecuteKeepsObserving(Meet(n, turn), n.commands[0].command, turn.env);
    }
    UpdateNeedsEnabling(c.battery, Spun(c, n, turn).battery, turn.battery.at,
                        c.batteryWanted && Spun(c, n, turn).b.observing, turn.battery.sendThrows);
  }

  lemma UpdateNeedsEnabling(cfg: P.Config, p: P.Poll, now: int, enabled: bool, sendThrows: bool)
    ensures P.UpdatePoll(cfg, p, now, enabled, sendThrows).pending.Some? ==> enabled
  {
  }

  /** Until the worker quits its battery requests are always a full period apart. */
  lemma {:induction false} BatterySpaced(c: Settings, n: Node, inputs: seq<Input>, m: P.World, k: P.World)
    requires c.Valid() && BridgeInv(n.b) && !n.ended
    requires k.p == n.battery && P.Inv(k) && P.SpacedFrom(c.battery, k.p, 0) && BatteryInv(c, n)
    requires m.p == n.b.motion && PollsInTime(c, n, inputs, m, k)
    ensures P.AllSpaced(c.battery, RunNode(c, n, inputs).battery, 0)
    decreases inputs
  {
    hide TakeTurn, Leave, Spun, P.Inv, P.CancelQuery, PollInTime, MotionAfter;
    if inputs == [] || inputs[0].Quit? {
      if inputs != [] {
        QuitKeepsSends(c, n, inputs);
      }
      var p := RunNode(c, n, inputs).battery;
      forall i | 0 < i < |p.sends| ensures P.FollowsSpaced(c.battery, p, i) {
        assert P.FollowsSpaced(c.battery, n.battery, i);
      }
    } else {
      var n' := StepNode(c, n, inputs[0]);
      assert RunNode(c, n, inputs) == RunNode(c, n', inputs[1..]);
      if inputs[0].Loop? {
        var turn := inputs[0].turn;
        TurnJustified(c, n, turn);
        TurnDisablesNothing(c, n, turn);
        var ms, ks := TurnIsPollRun(c, n, turn, m, k);
        var spun := Spun(c, n, turn);
        PollTurnSpaced(c.battery, k, turn.battery, spun.b.rpcReady, c.batteryWanted && spun.b.observing, 0);
        BatterySpaced(c, n', inputs[1..], MotionAfter(c, n, turn, m), BatteryAfter(c, n, turn, k));
      } else {
        BatterySpaced(c, n', inputs[1..], m, k);
      }
    }
  }

  lemma QuitKeepsSends(c: Settings, n: Node, inputs: seq<Input>)
    requires !n.ended && inputs != [] && inputs[0].Quit?
    ensures RunNode(c, n, inputs).battery.sends == n.battery.sends
    ensures RunNode(c, n, inputs).b.motion.sends == n.b.motion.sends
  {
    hide Leave;
    var count := QuitEffects(n, inputs[0].env);
    RearmsKeepAccepted(P.CancelQuery(n.b.motion), count);
    EndedKeeps(c, StepNode(c, n, inputs[0]), inputs[1..]);
  }

  /** No turn of the run executes a command that re-arms the motion poll. */
  predicate NeverRearms(c: Settings, n: Node, inputs: seq<Input>)
    decreases inputs
  {
    inputs == [] || (
      && (inputs[0].Loop? && !n.ended ==> Act(c, n, inputs[0].turn).b.motion == n.b.motion)
      && NeverRearms(c, StepNode(c, n, inputs[0]), inputs[1..]))
  }

  /** While no command re-arms it, the motion poll's requests stay spaced. */
  lemma {:induction false} MotionSpaced(c: Settings, n: Node, inputs: seq<Input>, m: P.World, k: P.World, from: nat)
    requires c.Valid() && BridgeInv(n.b) && BatteryInv(c, n)
    requires m.p == n.b.motion && P.Inv(m) && P.SpacedFrom(c.motion, m.p, from)
    requires k.p == n.battery && PollsInTime(c, n, inputs, m, k) && NeverRearms(c, n, inputs)
    ensures P.AllSpaced(c.motion, RunNode(c, n, inputs).b.motion, from)
    decreases inputs
  {
    hide TakeTurn, Leave, Spun, Act, P.Inv, P.CancelQuery, PollInTime, BatteryAfter, P.AllSpaced;
    if n.ended {
      EndedKeeps(c, n, inputs);
    } else if inputs != [] {
      var n' := StepNode(c, n, inputs[0]);
      assert RunNode(c, n, inputs) == RunNode(c, n', inputs[1..]);
      if inputs[0].Loop? {
        var turn := inputs[0].turn;
        TurnJustified(c, n, turn);
        TurnDisablesNothing(c, n, turn);
        var ms, ks := TurnIsPollRun(c, n, turn, m, k);
        var spun := Spun(c, n, turn);
        PollTurnSpaced(c.motion, m, turn.motion, spun.b.rpcReady, spun.b.s.state != Disconnected, from);
        MotionSpaced(c, n', inputs[1..], MotionAfter(c, n, turn, m), BatteryAfter(c, n, turn, k), from);
      } else if inputs[0].Quit? {
        QuitKeepsSends(c, n, inputs);
        SameSendsSpaced(c.motion, n.b.motion, RunNode(c, n, inputs).b.motion, from);
      } else {
        MotionSpaced(c, n', inputs[1..], m, k, from);
      }
    }
  }

  lemma SameSendsSpaced(cfg: P.Config, p: P.Poll, p': P.Poll, from: nat)
    requires P.AllSpaced(cfg, p, from) && p'.sends == p.sends
    ensures P.AllSpaced(cfg, p', from)
  {
    forall i | from < i < |p'.sends| ensures P.FollowsSpaced(cfg, p', i) {
      assert P.FollowsSpaced(cfg, p, i);
    }
  }

  /** What holds of the worker and the worlds of its polls between two steps. */
  ghost predicate PollsInv(c: Settings, n: Node, m: P.World, k: P.World) {
    && BridgeInv(n.b)
    && m.p == n.b.motion && k.p == n.battery && P.Inv(m) && P.Inv(k)
    && (!n.ended ==> BatteryInv(c, n))
  }

  /** The worlds of the polls after the first part of a run. */
  lemma {:induction false} PollsAfter(
    c: Settings, n: Node, before: seq<Input>, after: seq<Input>, m: P.World, k: P.World)
    returns (m': P.World, k': P.World)
    requires c.Valid()
    requires PollsInv(c, n, m, k) && PollsInTime(c, n, before + after, m, k)
    ensures var n' := RunNode(c, n, before); PollsInv(c, n', m', k') && PollsInTime(c, n', after, m', k')
    decreases before
  {
    hide TakeTurn, Leave, Spun, Act, P.Inv, P.CancelQuery, PollInTime, MotionAfter, BatteryAfter;
    if before == [] {
      assert before + after == after;
      m', k' := m, k;
    } else {
      assert (before + after)[0] == before[0] && (before + after)[1..] == before[1..] + after;
      var n' := StepNode(c, n, before[0]);
      if before[0].Loop? && !n.ended {
        var turn := before[0].turn;
        TurnJustified(c, n, turn);
        TurnDisablesNothing(c, n, turn);
        var ms, ks := TurnIsPollRun(c, n, turn, m, k);
        P.RunInv(c.motion, m, ms);
        P.RunInv(c.battery, k, ks);
        m', k' := PollsAfter(c, n', before[1..], after, MotionAfter(c, n, turn, m), BatteryAfter(c, n, turn, k));
      } else {
        if before[0].Quit? && !n.ended {
          var ms, ks := QuitIsPollRun(c, n, before[0].env, m, k);
          P.RunInv(c.motion, m, ms);
          P.RunInv(c.battery, k, ks);
          LeaveFacts(n.b, before[0].env);
        }
        m', k' := PollsAfter(c, n', before[1..], after, m.(p := n'.b.motion), k.(p := n'.battery));
      }
    }
  }

  /** Over any run of a new worker the requests of the battery poll are always a full period
      apart, and those of the motion poll in any part of the run in which no command re-arms it. */
  lemma WorkerPollsAreSpaced(c: Settings, b: Bridge, before: seq<Input>, after: seq<Input>)
    requires c.Valid()
    requires BridgeInv(b) && b.motion == P.Fresh()
    requires PollsInTime(c, Start(b), before + after, P.Initial(), P.Initial())
    ensures P.AllSpaced(c.battery, RunNode(c, Start(b), before + after).battery, 0)
    ensures var n := RunNode(c, Start(b), before);
      NeverRearms(c, n, after) ==>
        P.AllSpaced(c.motion, RunNode(c, Start(b), before + after).b.motion, P.FirstSeen(n.b.motion))
  {
    hide RunNode, PollsInTime, NeverRearms;
    BatterySpaced(c, Start(b), before + after, P.Initial(), P.Initial());
    var n := RunNode(c, Start(b), before);
    var m, k := PollsAfter(c, Start(b), before, after, P.Initial(), P.Initial());
    RunNodeConcat(c, Start(b), before, after);
    if NeverRearms(c, n, after) {
      if n.ended {
        EndedKeeps(c, n, after);
      } else {
        MotionSpaced(c, n, after, m, k, P.FirstSeen(n.b.motion));
      }
    }
  }

  // ---------- the worker's polls go on ----------

  function PollOf(n: Node, motion: bool): P.Poll {
    if motion then n.b.motion else n.battery
  }

  function ConfigOf(c: Settings, motion: bool): P.Config {
    if motion then c.motion else c.battery
  }

  /** The turn updates the poll, and polling is enabled for it. */
  predicate Polls(c: Settings, n: Node, turn: Turn, motion: bool)
  {
    var b := Spun(c, n, turn).b;
    b.rpcReady && (motion || (c.batteryWanted && b.observing))
  }

  predicate NoPollThrows(inputs: seq<Input>, motion: bool) {
    forall i :: 0 <= i < |inputs| ==> !(inputs[i].Loop? && EnvOf(inputs[i].turn, motion).sendThrows)
  }

  lemma {:induction false} RearmsKeepDue(p: P.Poll, rearms: nat, count: nat, until: int)
    requires P.Due(p, count, until) && P.EPOCH <= until
    ensures P.Due(Rearms(p, rearms), count, until)
  {
    if rearms > 0 {
      RearmsKeepDue(p, rearms - 1, count, until);
    }
  }

  lemma {:induction false} RepliesKeepDue(p: P.Poll, replies: seq<PollReply>, count: nat, until: int)
    requires P.Due(p, count, until)
    ensures P.Due(Replies(p, replies), count, until)
    decreases replies
  {
    if replies != [] {
      RepliesKeepDue(P.HandleReply(p, replies[0].at, replies[0].sequence, replies[0].body), replies[1..], count, until);
    }
  }

  lemma UpdateKeepsDue(cfg: P.Config, p: P.Poll, now: int, enabled: bool, count: nat, until: int)
    requires P.Due(p, count, until)
    ensures P.Due(P.UpdatePoll(cfg, p, now, enabled, false), count, until)
  {
  }

  /** The poll after the first half of a turn. */
  lemma ActKeepsDue(c: Settings, n: Node, turn: Turn, motion: bool, count: nat, until: int)
    requires P.EPOCH <= until && P.Due(PollOf(n, motion), count, until)
    ensures P.Due(PollOf(Act(c, n, turn), motion), count, until)
  {
    hide Execute, SessionAfterSend, AfterSend, Arrivals, V.BeginDispatch, P.Due;
    if n.commands != [] {
      var _, rearms := ExecuteEffects(Meet(n, turn), n.commands[0].command, turn.env);
      if motion { RearmsKeepDue(n.b.motion, rearms, count, until); }
    }
  }

  /** A turn in which no send throws keeps a request due, and sends it once its time has come. */
  lemma TurnPolls(c: Settings, n: Node, turn: Turn, motion: bool, count: nat, until: int)
    requires BridgeInv(n.b) && P.EPOCH <= until
    requires P.Due(PollOf(n, motion), count, until) && !EnvOf(turn, motion).sendThrows
    ensures P.Due(PollOf(TakeTurn(c, n, turn), motion), count, until)
    ensures Polls(c, n, turn, motion) && EnvOf(turn, motion).at >= until ==>
              |PollOf(TakeTurn(c, n, turn), motion).sends| > count
  {
    hide Act, SessionAfterSend, AfterSend, Callbacks, Replies, V.BeginWatch, P.UpdatePoll, P.Due;
    ActKeepsDue(c, n, turn, motion, count, until);
    var acted, spun := Act(c, n, turn), Spun(c, n, turn);
    var env := EnvOf(turn, motion);
    RepliesKeepDue(PollOf(acted, motion), env.replies, count, until);
    var p := PollOf(spun, motion);
    var enabled := if motion then spun.b.s.state != Disconnected else c.batteryWanted && spun.b.observing;
    UpdateKeepsDue(ConfigOf(c, motion), p, env.at, enabled, count, until);
    TurnJustified(c, n, turn);
    if enabled && env.at >= until {
      P.DueUpdateSends(ConfigOf(c, motion), p, env.at, count, until);
    }
  }

  lemma {:induction false} WorkerKeepsDue(
    c: Settings, n: Node, inputs: seq<Input>, motion: bool, count: nat, until: int)
    requires BridgeInv(n.b) && P.EPOCH <= until
    requires P.Due(PollOf(n, motion), count, until) && NoPollThrows(inputs, motion) && !RunNode(c, n, inputs).ended
    ensures P.Due(PollOf(RunNode(c, n, inputs), motion), count, until) && BridgeInv(RunNode(c, n, inputs).b)
    decreases inputs
  {
    hide TakeTurn, QuitLoop, P.Due;
    if inputs != [] {
      if n.ended {
        EndedKeeps(c, n, inputs);
      } else if inputs[0].Quit? {
        QuitEnds(c, n, inputs);
      } else {
        if inputs[0].Loop? {
          TurnPolls(c, n, inputs[0].turn, motion, count, until);
          TurnJustified(c, n, inputs[0].turn);
        }
        WorkerKeepsDue(c, StepNode(c, n, inputs[0]), inputs[1..], motion, count, until);
      }
    }
  }

  /** An update that ends a poll makes the next request due a period later. */
  lemma TurnEndMakesDue(c: Settings, n: Node, turn: Turn, motion: bool)
    requires BridgeInv(n.b) && Polls(c, n, turn, motion)
    requires PollOf(Act(c, n, turn), motion).pending.Some? && PollOf(TakeTurn(c, n, turn), motion).pending.None?
    ensures P.Due(PollOf(TakeTurn(c, n, turn), motion), |PollOf(Act(c, n, turn), motion).sends|,
                  EnvOf(turn, motion).at + ConfigOf(c, motion).periodMs)
  {
    hide Act, SessionAfterSend, AfterSend, Callbacks, Replies, V.BeginWatch, P.UpdatePoll;
    var acted, spun := Act(c, n, turn), Spun(c, n, turn);
    var env := EnvOf(turn, motion);
    RepliesKeepPending(PollOf(acted, motion), env.replies);
    TurnJustified(c, n, turn);
    UpdateEndMakesDue(ConfigOf(c, motion), PollOf(spun, motion), env.at, env.sendThrows);
  }

  lemma UpdateEndMakesDue(cfg: P.Config, p: P.Poll, now: int, sendThrows: bool)
    requires p.pending.Some? && P.UpdatePoll(cfg, p, now, true, sendThrows).pending.None?
    ensures P.Due(P.UpdatePoll(cfg, p, now, true, sendThrows), |p.sends|, now + cfg.periodMs)
  {
  }

  /** The worker's polls go on.  After a turn that ended a poll - the motion poll or the battery
      poll - the first polling turn a period later has sent the next request, whatever comes in
      between, unless a send throws or the worker quits. */
  lemma WorkerPollsGoOn(c: Settings, n: Node, turn: Turn, inputs: seq<Input>, last: Turn, motion: bool)
    requires c.Valid()
    requires BridgeInv(n.b)
    requires Polls(c, n, turn, motion)
    requires PollOf(Act(c, n, turn), motion).pending.Some? && PollOf(TakeTurn(c, n, turn), motion).pending.None?
    requires NoPollThrows(inputs, motion) && !EnvOf(last, motion).sendThrows
    requires var m := RunNode(c, TakeTurn(c, n, turn), inputs);
      !m.ended && Polls(c, m, last, motion)
    requires P.EPOCH <= EnvOf(turn, motion).at
    requires EnvOf(last, motion).at >= EnvOf(turn, motion).at + ConfigOf(c, motion).periodMs
    ensures var m := RunNode(c, TakeTurn(c, n, turn), inputs);
      |PollOf(TakeTurn(c, m, last), motion).sends| > |PollOf(Act(c, n, turn), motion).sends|
  {
    hide TakeTurn, Act, P.Due, Polls;
    TurnJustified(c, n, turn);
    TurnEndMakesDue(c, n, turn, motion);
    var count, until := |PollOf(Act(c, n, turn), motion).sends|, EnvOf(turn, motion).at + ConfigOf(c, motion).periodMs;
    WorkerKeepsDue(c, TakeTurn(c, n, turn), inputs, motion, count, until);
    TurnPolls(c, RunNode(c, TakeTurn(c, n, turn), inputs), last, motion, count, until);
  }

  /** The first polling turn of a new worker sends the first request. */
  lemma WorkerStartsPolling(c: Settings, b: Bridge, inputs: seq<Input>, last: Turn, motion: bool)
    requires c.Valid() && BridgeInv(b)
    requires b.motion == P.Fresh() && NoPollThrows(inputs, motion) && !EnvOf(last, motion).sendThrows
    requires var m := RunNode(c, Start(b), inputs); !m.ended && Polls(c, m, last, motion)
    requires P.EPOCH <= EnvOf(last, motion).at
    ensures |PollOf(TakeTurn(c, RunNode(c, Start(b), inputs), last), motion).sends| > 0
  {
    hide TakeTurn, Polls;
    WorkerKeepsDue(c, Start(b), inputs, motion, 0, P.EPOCH);
    TurnPolls(c, RunNode(c, Start(b), inputs), last, motion, 0, P.EPOCH);
  }
}
