/**
 The client's session inside the bridge's commands: each of them takes it through a run of
 ControlSession.

 The events of a command follow its branches in Ownership.  A call begins when its window
 does, and the client's error is read when the call has ended.
 */
module SessionTrace {
  import opened Wrappers
  import opened ControlSession
  import opened SessionSafety
  import opened Client
  import opened Ownership
  import V = Velocity
  import P = Poll

  // ---------- one call ----------

  function BeginsAt(w: Window): int {
    if w.callbacks == [] then w.end else w.callbacks[0].at
  }

  function CallTrace(s: Session, call: Call, paramsOk: bool, w: Window): seq<Event> {
    [Event(BeginsAt(w), Begin(call, paramsOk))]
    + if BeginCall(s, call, paramsOk).1 then w.callbacks + [Event(w.end, Finish(w.reply))] else []
  }

  function ReadErrorAt(at: int): seq<Event> {
    [Event(at, ReadError)]
  }

  /** A call whose error is read if it fails. */
  function AskTrace(s: Session, call: Call, paramsOk: bool, w: Window): seq<Event>
  {
    CallTrace(s, call, paramsOk, w)
    + if PerformCall(s, call, paramsOk, w).1 then []
      else ReadErrorAt(if BeginCall(s, call, paramsOk).1 then w.end else BeginsAt(w))
  }

  function Ask(s: Session, call: Call, paramsOk: bool, w: Window): Session
  {
    var (s', ok) := PerformCall(s, call, paramsOk, w);
    if ok then s' else TakeError(s')
  }

  /** The events take an idle client to the session `s`, and do not disconnect it. */
  predicate Reaches(w: World, es: seq<Event>, s: Session) {
    Run(w, es).s == s && Run(w, es).inFlight.None? && NoDisconnect(es)
  }

  lemma Stay(w: World)
    requires w.inFlight.None?
    ensures Reaches(w, [], w.s)
  {
  }

  lemma Then(w: World, es: seq<Event>, fs: seq<Event>, s: Session)
    requires Run(w, es).inFlight.None? && NoDisconnect(es) && Reaches(Run(w, es), fs, s)
    ensures Reaches(w, es + fs, s)
  {
    RunConcat(w, es, fs);
  }

  lemma CallReaches(w: World, call: Call, paramsOk: bool, window: Window)
    requires w.inFlight.None?
    ensures var es := CallTrace(w.s, call, paramsOk, window);
      && Run(w, es).s == PerformCall(w.s, call, paramsOk, window).0 && Run(w, es).inFlight.None?
      && (call != Release(true) ==> NoDisconnect(es))
  {
    var at, end := BeginsAt(window), Event(window.end, Finish(window.reply));
    var begin := Event(at, Begin(call, paramsOk));
    if BeginCall(w.s, call, paramsOk).1 {
      CallIsRun(w, call, paramsOk, at, window);
      assert CallTrace(w.s, call, paramsOk, window) == [begin] + window.callbacks + [end];
    } else {
      assert CallTrace(w.s, call, paramsOk, window) == [begin];
      OneStep(w, begin);
    }
  }

  lemma OneStep(w: World, e: Event)
    ensures Run(w, [e]) == Step(w, e)
  {
    hide Step;
    assert Run(Step(w, e), []) == Step(w, e);
  }

  lemma ReadErrorReaches(w: World, at: int)
    requires w.inFlight.None?
    ensures Reaches(w, ReadErrorAt(at), TakeError(w.s))
  {
    OneStep(w, Event(at, ReadError));
  }

  lemma AskReaches(w: World, call: Call, paramsOk: bool, window: Window)
    requires w.inFlight.None? && call != Release(true)
    ensures Reaches(w, AskTrace(w.s, call, paramsOk, window), Ask(w.s, call, paramsOk, window))
  {
    hide Run, PerformCall, CallTrace, BeginCall;
    var es := CallTrace(w.s, call, paramsOk, window);
    CallReaches(w, call, paramsOk, window);
    Stay(Run(w, es));
    var at := if BeginCall(w.s, call, paramsOk).1 then window.end else BeginsAt(window);
    ReadErrorReaches(Run(w, es), at);
    var more := if PerformCall(w.s, call, paramsOk, window).1 then [] else ReadErrorAt(at);
    Then(w, es, more, Ask(w.s, call, paramsOk, window));
  }

  // ---------- commands ----------

  function ProbeTrace(s: Session, ws: seq<Window>): seq<Event>
    decreases ws
  {
    if ws == [] then []
    else
      var (s', ok) := PerformCall(s, Query, true, ws[0]);
      CallTrace(s, Query, true, ws[0]) + if ok then [] else ProbeTrace(s', ws[1..])
  }

  lemma {:induction false} ProbeReaches(w: World, ws: seq<Window>)
    requires w.inFlight.None?
    ensures Reaches(w, ProbeTrace(w.s, ws), Probe(w.s, ws).0)
    decreases ws
  {
    hide Run, PerformCall, CallTrace;
    Stay(w);
    if ws != [] {
      var (s', ok) := PerformCall(w.s, Query, true, ws[0]);
      var es := CallTrace(w.s, Query, true, ws[0]);
      CallReaches(w, Query, true, ws[0]);
      var w' := Run(w, es);
      Stay(w');
      ProbeReaches(w', ws[1..]);
      Then(w, es, if ok then [] else ProbeTrace(s', ws[1..]), Probe(w.s, ws).0);
    }
  }

  function QueryAllTrace(s: Session, ws: seq<Window>): seq<Event>
    decreases ws
  {
    if ws == [] then []
    else CallTrace(s, Query, true, ws[0]) + QueryAllTrace(PerformCall(s, Query, true, ws[0]).0, ws[1..])
  }

  lemma {:induction false} QueryAllReaches(w: World, ws: seq<Window>)
    requires w.inFlight.None?
    ensures Reaches(w, QueryAllTrace(w.s, ws), QueryAll(w.s, ws))
    decreases ws
  {
    hide Run, PerformCall, CallTrace;
    Stay(w);
    if ws != [] {
      var es := CallTrace(w.s, Query, true, ws[0]);
      CallReaches(w, Query, true, ws[0]);
      QueryAllReaches(Run(w, es), ws[1..]);
      Then(w, es, QueryAllTrace(Run(w, es).s, ws[1..]), QueryAll(w.s, ws));
    }
  }

  /** The connect() of connect_client, if the client is disconnected. */
  function JoinTrace(s: Session, env: ConnectEnv): seq<Event> {
    if s.state == Disconnected then [Event(env.at, Connect(env.serviceUp, env.leaseMs))] else []
  }

  function Joined(s: Session, env: ConnectEnv): Session {
    if s.state == Disconnected then ConnectSession(s, env.serviceUp, env.leaseMs) else s
  }

  lemma JoinReaches(w: World, env: ConnectEnv)
    requires w.inFlight.None?
    ensures Reaches(w, JoinTrace(w.s, env), Joined(w.s, env))
  {
    Stay(w);
    OneStep(w, Event(env.at, Connect(env.serviceUp, env.leaseMs)));
  }

  /** What connect_client does once connect() returned. */
  function ReadyTrace(s: Session, observing: bool, env: ConnectEnv): seq<Event>
  {
    if s.state == Disconnected then ReadErrorAt(env.at)
    else
      var (probed, ready) := Probe(s, env.probes);
      ProbeTrace(s, env.probes)
      + if !ready then ReadErrorAt(if env.probes == [] then env.at else env.probes[|env.probes| - 1].end)
        else if observing then [] else QueryAllTrace(probed, env.setup)
  }

  function ConnectTrace(b: Bridge, env: ConnectEnv): seq<Event>
  {
    if b.s.state != Disconnected && b.rpcReady then []
    else JoinTrace(b.s, env) + ReadyTrace(Joined(b.s, env), b.observing, env)
  }

  lemma ConnectReaches(w: World, b: Bridge, env: ConnectEnv)
    requires w.inFlight.None? && w.s == b.s
    ensures Reaches(w, ConnectTrace(b, env), DoConnect(b, env).0.s)
  {
    hide Run, Probe, ProbeTrace, QueryAll, QueryAllTrace, JoinTrace, Joined, ConnectSession;
    Stay(w);
    if !(b.s.state != Disconnected && b.rpcReady) {
      JoinReaches(w, env);
      var joined := Joined(b.s, env);
      var w1 := Run(w, JoinTrace(b.s, env));
      ReadyReaches(w1, b.observing, env);
      Then(w, JoinTrace(b.s, env), ReadyTrace(joined, b.observing, env), ReadySession(joined, b.observing, env));
      ConnectIsJoinThenReady(b, env);
    }
  }

  function ReadySession(s: Session, observing: bool, env: ConnectEnv): Session
  {
    if s.state == Disconnected then TakeError(s)
    else
      var (probed, ready) := Probe(s, env.probes);
      if !ready then TakeError(probed) else if observing then probed else QueryAll(probed, env.setup)
  }

  lemma ConnectIsJoinThenReady(b: Bridge, env: ConnectEnv)
    requires !(b.s.state != Disconnected && b.rpcReady)
    ensures DoConnect(b, env).0.s == ReadySession(Joined(b.s, env), b.observing, env)
  {
    hide Probe, QueryAll, ConnectSession;
  }

  lemma ReadyReaches(w: World, observing: bool, env: ConnectEnv)
    requires w.inFlight.None?
    ensures Reaches(w, ReadyTrace(w.s, observing, env), ReadySession(w.s, observing, env))
  {
    hide Run, Probe, ProbeTrace, QueryAll, QueryAllTrace;
    if w.s.state == Disconnected {
      ReadErrorReaches(w, env.at);
    } else {
      var es := ProbeTrace(w.s, env.probes);
      ProbeReaches(w, env.probes);
      var w1 := Run(w, es);
      var at := if env.probes == [] then env.at else env.probes[|env.probes| - 1].end;
      Stay(w1);
      ReadErrorReaches(w1, at);
      QueryAllReaches(w1, env.setup);
      var more := if !Probe(w.s, env.probes).1 then ReadErrorAt(at)
                  else if observing then [] else QueryAllTrace(w1.s, env.setup);
      Then(w, es, more, ReadySession(w.s, observing, env));
    }
  }

  /** startControl, its error read if it returns false. */
  function TakeTrace(s: Session, w: Window): seq<Event>
  {
    CallTrace(s, Acquire, true, w)
    + if StartControl(s, w).1 == Returned(false)
      then ReadErrorAt(if BeginCall(s, Acquire, true).1 then w.end else BeginsAt(w))
      else []
  }

  lemma TakeReaches(w: World, window: Window)
    requires w.inFlight.None?
    ensures var (s, taken) := StartControl(w.s, window);
      Reaches(w, TakeTrace(w.s, window), if taken == Returned(false) then TakeError(s) else s)
  {
    var es := CallTrace(w.s, Acquire, true, window);
    CallReaches(w, Acquire, true, window);
    hide Run, CallTrace, FinishCall, Callbacks;
    var (s, taken) := StartControl(w.s, window);
    assert PerformCall(w.s, Acquire, true, window).0 == s;
    var at := if BeginCall(w.s, Acquire, true).1 then window.end else BeginsAt(window);
    Stay(Run(w, es));
    ReadErrorReaches(Run(w, es), at);
    Then(w, es, if taken == Returned(false) then ReadErrorAt(at) else [],
         if taken == Returned(false) then TakeError(s) else s);
  }

  function AcquireTrace(b: Bridge, env: Env): seq<Event>
  {
    var (connected, outcome) := DoConnect(b, env.connect);
    ConnectTrace(b, env.connect)
    + if !(outcome.Done? && outcome.success) || connected.s.state == Controlled then []
      else TakeTrace(connected.s, env.take)
  }

  lemma AcquireReaches(w: World, b: Bridge, env: Env)
    requires w.inFlight.None? && w.s == b.s
    ensures Reaches(w, AcquireTrace(b, env), DoAcquire(b, env).0.s)
  {
    hide Run, DoConnect, ConnectTrace, StartControl, TakeTrace;
    var es := ConnectTrace(b, env.connect);
    ConnectReaches(w, b, env.connect);
    var w1 := Run(w, es);
    Stay(w1);
    TakeReaches(w1, env.take);
    var (connected, outcome) := DoConnect(b, env.connect);
    var more := if !(outcome.Done? && outcome.success) || connected.s.state == Controlled then []
                else TakeTrace(connected.s, env.take);
    Then(w, es, more, DoAcquire(b, env).0.s);
  }

  function HaltTrace(b: Bridge, call: MotionCall, w: Window): seq<Event>
  {
    if b.s.state != Controlled then [] else AskTrace(b.s, Motion(call), true, w)
  }

  lemma HaltReaches(w: World, b: Bridge, call: MotionCall, window: Window)
    requires w.inFlight.None? && w.s == b.s
    ensures Reaches(w, HaltTrace(b, call, window), Halt(b, call, window).0.s)
  {
    hide Run, AskTrace, PerformCall, V.ResetTracking;
    Stay(w);
    AskReaches(w, Motion(call), true, window);
  }

  function ReleaseTrace(b: Bridge, env: Env): seq<Event>
  {
    if b.s.state != Controlled then []
    else
      var stopped := if b.action == "" then b else Halt(b, StopAction, env.first).0;
      var halted := b.action == "" || Halt(b, StopAction, env.first).1.success;
      (if b.action == "" then [] else HaltTrace(b, StopAction, env.first))
      + if halted then AskTrace(stopped.s, Release(false), true, env.second) else []
  }

  lemma ReleaseReaches(w: World, b: Bridge, env: Env)
    requires w.inFlight.None? && w.s == b.s
    ensures Reaches(w, ReleaseTrace(b, env), DoRelease(b, env).0.s)
  {
    hide Run, AskTrace, PerformCall, HaltTrace, V.ResetTracking, P.RearmQuery;
    Stay(w);
    if b.s.state == Controlled {
      HaltReaches(w, b, StopAction, env.first);
      var es := if b.action == "" then [] else HaltTrace(b, StopAction, env.first);
      var stopped := if b.action == "" then b else Halt(b, StopAction, env.first).0;
      var halted := b.action == "" || Halt(b, StopAction, env.first).1.success;
      var w1 := Run(w, es);
      Stay(w1);
      AskReaches(w1, Release(false), true, env.second);
      Then(w, es, if halted then AskTrace(stopped.s, Release(false), true, env.second) else [], DoRelease(b, env).0.s);
    }
  }

  /** The start of an action under control, and the rollback of control acquired for it. */
  function StartHeldTrace(s: Session, acquiredNow: bool, paramsOk: bool, env: Env): seq<Event>
  {
    AskTrace(s, Motion(StartAction), paramsOk, env.first)
    + if !PerformCall(s, Motion(StartAction), paramsOk, env.first).1 && acquiredNow
      then AskTrace(Ask(s, Motion(StartAction), paramsOk, env.first), Release(false), true, env.second)
      else []
  }

  lemma StartHeldReaches(w: World, held: Bridge, acquiredNow: bool, action: string, paramsOk: bool, env: Env)
    requires w.inFlight.None? && w.s == held.s
    ensures Reaches(w, StartHeldTrace(w.s, acquiredNow, paramsOk, env),
                    StartHeld(held, acquiredNow, action, paramsOk, env).0.s)
  {
    hide Run, AskTrace, PerformCall, V.ResetTracking, P.RearmQuery;
    var es := AskTrace(w.s, Motion(StartAction), paramsOk, env.first);
    AskReaches(w, Motion(StartAction), paramsOk, env.first);
    var w1 := Run(w, es);
    Stay(w1);
    AskReaches(w1, Release(false), true, env.second);
    var more := if !PerformCall(w.s, Motion(StartAction), paramsOk, env.first).1 && acquiredNow
                then AskTrace(w1.s, Release(false), true, env.second) else [];
    Then(w, es, more, StartHeld(held, acquiredNow, action, paramsOk, env).0.s);
  }

  function StartTrace(b: Bridge, action: string, paramsOk: bool, env: Env): seq<Event>
  {
    if action == "" then []
    else
      var (connected, joined) := DoConnect(b, env.connect);
      ConnectTrace(b, env.connect)
      + if !(joined.Done? && joined.success) then [] else AcquireThenStart(connected, paramsOk, env)
  }

  function AcquireThenStart(b: Bridge, paramsOk: bool, env: Env): seq<Event>
  {
    var (held, acquired, acquiredNow) := DoAcquire(b, env);
    AcquireTrace(b, env)
    + if !(acquired.Done? && acquired.success) then [] else StartHeldTrace(held.s, acquiredNow, paramsOk, env)
  }

  lemma StartReaches(w: World, b: Bridge, action: string, paramsOk: bool, env: Env)
    requires w.inFlight.None? && w.s == b.s
    ensures Reaches(w, StartTrace(b, action, paramsOk, env), DoStart(b, action, paramsOk, env).0.s)
  {
    hide Run, DoConnect, DoAcquire, StartHeld, ConnectTrace, AcquireTrace, StartHeldTrace;
    Stay(w);
    if action != "" {
      ConnectReaches(w, b, env.connect);
      var es := ConnectTrace(b, env.connect);
      var (connected, joined) := DoConnect(b, env.connect);
      var w1 := Run(w, es);
      Stay(w1);
      if joined.Done? && joined.success {
        var (held, acquired, acquiredNow) := DoAcquire(connected, env);
        AcquireReaches(w1, connected, env);
        var w2 := Run(w1, AcquireTrace(connected, env));
        Stay(w2);
        StartHeldReaches(w2, held, acquiredNow, action, paramsOk, env);
        var more := if !(acquired.Done? && acquired.success) then []
                    else StartHeldTrace(held.s, acquiredNow, paramsOk, env);
        Then(w1, AcquireTrace(connected, env), more, DoStart(b, action, paramsOk, env).0.s);
      }
      Then(w, es, if joined.Done? && joined.success then AcquireThenStart(connected, paramsOk, env) else [],
           DoStart(b, action, paramsOk, env).0.s);
    }
  }

  /** connect_client and one call: the parameter change once control is held, and the query. */
  function CallConnectedTrace(b: Bridge, call: Call, env: Env): seq<Event>
  {
    var (connected, joined) := DoConnect(b, env.connect);
    ConnectTrace(b, env.connect)
    + if !(joined.Done? && joined.success) then [] else AskTrace(connected.s, call, true, env.first)
  }

  lemma CallConnectedReaches(w: World, b: Bridge, call: Call, env: Env)
    requires w.inFlight.None? && w.s == b.s && call != Release(true)
    ensures var (connected, joined) := DoConnect(b, env.connect);
      Reaches(w, CallConnectedTrace(b, call, env),
              if joined.Done? && joined.success then Ask(connected.s, call, true, env.first) else connected.s)
  {
    hide Run, DoConnect, ConnectTrace, AskTrace, PerformCall, Ask;
    var es := ConnectTrace(b, env.connect);
    ConnectReaches(w, b, env.connect);
    var (connected, joined) := DoConnect(b, env.connect);
    var w1 := Run(w, es);
    Stay(w1);
    AskReaches(w1, call, true, env.first);
    var succeeded := joined.Done? && joined.success;
    Then(w, es, if succeeded then AskTrace(connected.s, call, true, env.first) else [],
         if succeeded then Ask(connected.s, call, true, env.first) else connected.s);
  }

  function ExecuteTrace(b: Bridge, command: Command, env: Env): seq<Event>
  {
    match command
    case ConnectCommand => ConnectTrace(b, env.connect)
    case AcquireCommand => AcquireTrace(b, env)
    case StartCommand(action, paramsOk) => StartTrace(b, action, paramsOk, env)
    case StopCommand => HaltTrace(b, StopAction, env.first)
    case EmergencyCommand => HaltTrace(b, EmergencyStop, env.first)
    case ParamsCommand(paramsOk) =>
      if paramsOk && b.s.state == Controlled then CallConnectedTrace(b, Motion(SetActionParams), env) else []
    case ReleaseCommand => ReleaseTrace(b, env)
    case QueryCommand => CallConnectedTrace(b, Query, env)
  }

  lemma ExecuteReaches(w: World, b: Bridge, command: Command, env: Env)
    requires w.inFlight.None? && w.s == b.s
    ensures Reaches(w, ExecuteTrace(b, command, env), Execute(b, command, env).0.s)
  {
    hide Run, DoConnect, DoAcquire, DoStart, Halt, DoRelease, PerformCall, V.ResetTracking, P.RearmQuery,
         ConnectTrace, AcquireTrace, StartTrace, HaltTrace, CallConnectedTrace, ReleaseTrace;
    Stay(w);
    match command
    case ConnectCommand => ConnectReaches(w, b, env.connect);
    case AcquireCommand => AcquireReaches(w, b, env);
    case StartCommand(action, paramsOk) => StartReaches(w, b, action, paramsOk, env);
    case StopCommand => HaltReaches(w, b, StopAction, env.first);
    case EmergencyCommand => HaltReaches(w, b, EmergencyStop, env.first);
    case ParamsCommand(paramsOk) => CallConnectedReaches(w, b, Motion(SetActionParams), env);
    case ReleaseCommand => ReleaseReaches(w, b, env);
    case QueryCommand => CallConnectedReaches(w, b, Query, env);
  }
}
