/** MotionHighLevelClient with its mutable fields.  Every method is tied to the transition
    system of ControlSession, which states what a session does. */
module Client {
  import opened Wrappers
  import opened ControlSession
  import opened SessionSafety
  import opened Events
  import opened Acquisition

  /** What the executor does while a synchronous RPC waits, and how the RPC ends. */
  datatype Window = Window(callbacks: Spins, end: int, reply: Reply)

  predicate CallbacksOnly(es: seq<Event>) {
    forall i :: 0 <= i < |es| ==> IsCallback(es[i].action)
  }

  /** Callbacks that the executor runs in a row. */
  type Spins = es: seq<Event> | CallbacksOnly(es) witness []

  function Callbacks(s: Session, es: Spins): Session
    decreases es
  {
    if es == [] then s else Callbacks(Callback(s, es[0]), es[1..])
  }

  lemma {:induction false} CallbacksSnoc(s: Session, es: Spins, e: Event)
    requires IsCallback(e.action)
    ensures CallbacksOnly(es + [e])
    ensures Callbacks(s, es + [e]) == Callback(Callbacks(s, es), e)
    decreases es
  {
    if es == [] {
      assert es + [e] == [e];
      assert Callbacks(Callback(s, e), []) == Callback(s, e);
    } else {
      assert (es + [e])[1..] == es[1..] + [e];
      CallbacksSnoc(Callback(s, es[0]), es[1..], e);
    }
  }

  /** A whole synchronous call: the session afterwards, and whether the RPC was accepted. */
  function PerformCall(s: Session, call: Call, paramsOk: bool, w: Window): (Session, bool)
  {
    var (begun, sending) := BeginCall(s, call, paramsOk);
    if sending then (FinishCall(Callbacks(begun, w.callbacks), call, w.end, w.reply), w.reply.Accepted?)
    else (begun, false)
  }

  /** A call is a run of the transition system: begun, any callbacks, finished. */
  lemma CallIsRun(w: World, call: Call, paramsOk: bool, at: int, window: Window)
    requires w.inFlight.None?
    requires BeginCall(w.s, call, paramsOk).1
    ensures var es := [Event(at, Begin(call, paramsOk))] + window.callbacks + [Event(window.end, Finish(window.reply))];
      Run(w, es).s == PerformCall(w.s, call, paramsOk, window).0 && Run(w, es).inFlight.None?
  {
    var begin, finish := Event(at, Begin(call, paramsOk)), Event(window.end, Finish(window.reply));
    var begun := Step(w, begin);
    assert [begin] + window.callbacks + [finish] == [begin] + (window.callbacks + [finish]);
    assert ([begin] + (window.callbacks + [finish]))[1..] == window.callbacks + [finish];
    RunConcat(begun, window.callbacks, [finish]);
    CallbacksAreRun(begun, window.callbacks);
    var spun := Run(begun, window.callbacks);
    assert Run(spun, [finish]) == Step(spun, finish) by {
      assert Run(Step(spun, finish), []) == Step(spun, finish);
    }
  }

  lemma {:induction false} CallbacksAreRun(w: World, es: Spins)
    ensures Run(w, es).s == Callbacks(w.s, es) && Run(w, es).inFlight == w.inFlight
    decreases es
  {
    if es != [] {
      assert Step(w, es[0]).s == Callback(w.s, es[0]) && Step(w, es[0]).inFlight == w.inFlight;
      CallbacksAreRun(Step(w, es[0]), es[1..]);
    }
  }

  /** Callbacks leave a client without control as it is: they can lose control, never gain it. */
  lemma {:induction false} CallbacksInertWhenIdle(s: Session, es: Spins)
    requires TimerDiscipline(s)
    ensures TimerDiscipline(Callbacks(s, es))
    ensures s.state != Controlled ==> Callbacks(s, es) == s
    ensures s.state == Controlled ==> Callbacks(s, es).state in {Controlled, Connected}
    ensures Callbacks(s, es).rpcs == s.rpcs
    decreases es
  {
    if es != [] {
      CallbackDiscipline(s, es[0]);
      CallbacksInertWhenIdle(Callback(s, es[0]), es[1..]);
    }
  }

  /** A status event for this client keeps its control exactly when the event says
      "controlled" and names this client's own controller; naming nobody counts as the empty
      name. */
  lemma StatusKeepsControlIff(l: Listener, m: EventMessage, s: Session)
    requires Route(l, m).Status? && s.state == Controlled
    ensures var members := m.payload.value.members;
      HandleControlStatus(s, Route(l, m).controlled, Route(l, m).holder).state == Controlled <==>
        && "controlled" in members
        && (members["controlled"] == Bool(true) || (members["controlled"].Text? && members["controlled"].text != "0"))
        && TextMember(members, "controller") == s.controller
  {
    StatusIff(l, m);
  }

  /** The take of a startControl as its timing lets it come: when it ends, and with which reply,
      none if it was never sent. */
  function TakeWindow(w: Window, start: int, timeoutMs: int, script: AcquireScript): Window {
    var t := TimelineOf(start, timeoutMs, script);
    Window(w.callbacks, t.end, if t.takeAt.Some? then w.reply else TransportFailure)
  }

  /** A take is answered only if its timing lets it be sent, and then no later than the deadline: a
      timeout of at most 3 s never grants control, whatever the robot would say. */
  lemma TakeIsTimed(w: Window, start: int, timeoutMs: int, script: AcquireScript)
    ensures var take, t := TakeWindow(w, start, timeoutMs, script), TimelineOf(start, timeoutMs, script);
      && take.end == t.end && take.callbacks == w.callbacks
      && (t.takeAt.Some? ==>
            take.reply == w.reply && t.takeAt.value <= take.end <= start + TimeoutFromMs(timeoutMs))
      && (t.takeAt.None? || 0 < timeoutMs <= MASTER_SWITCH_WAIT_MS ==> take.reply == TransportFailure)
  {
    TimelineTells(start, timeoutMs, script);
  }

  datatype CallOutcome = Returned(ok: bool) | Raised

  class MotionHighLevelClient {
    const listener: Listener
    var state: State
    var controller: string
    var leaseMs: int
    var lastError: Error
    var renewTimer: bool
    var pendingRenewRequestId: Option<int>
    var pendingRenewDeadline: Option<int>
    var renewSequence: nat
    var lastControlActivityAt: int
    /** What the connect callback, the event callback and the robot were given. */
    var notices: seq<Notice>
    var forwarded: seq<Routed>
    var rpcs: seq<Rpc>

    ghost function View(): Session
      reads this
    {
      Session(state, controller, leaseMs, lastError, renewTimer, pendingRenewRequestId,
              pendingRenewDeadline, renewSequence, lastControlActivityAt, notices, rpcs)
    }

    constructor (listener: Listener, now: int)
      ensures View() == Fresh(now) && this.listener == listener && forwarded == []
    {
      this.listener := listener;
      state, controller, leaseMs, lastError := Disconnected, "", DEFAULT_LEASE_MS, NoError;
      renewTimer, pendingRenewRequestId, pendingRenewDeadline := false, None, None;
      renewSequence, lastControlActivityAt := 0, now;
      notices, forwarded, rpcs := [], [], [];
    }

    method NotifyConnectCallback(told: State, error: Error)
      modifies this`notices
      ensures View() == Notify(old(View()), told, error)
    {
      notices := notices + [Notice(told, error, state)];
    }

    method StopRenewTimer()
      modifies this`renewTimer, this`pendingRenewRequestId, this`pendingRenewDeadline
      ensures View() == StopTimer(old(View()))
    {
      if renewTimer {
        renewTimer := false;
      }
      if pendingRenewRequestId.Some? {
        pendingRenewRequestId := None;
      }
      pendingRenewDeadline := None;
    }

    method StartRenewTimer()
      modifies this`renewTimer, this`pendingRenewRequestId, this`pendingRenewDeadline
      ensures View() == StopTimer(old(View())).(timer := true)
    {
      StopRenewTimer();
      renewTimer := true;
    }

    method LoseControl(error: Error)
      modifies this
      ensures View() == ControlSession.LoseControl(old(View()), error)
      ensures forwarded == old(forwarded)
    {
      StopRenewTimer();
      controller := "";
      state := Connected;
      lastError := error;
      NotifyConnectCallback(Connected, error);
    }

    method TickRenew(now: int, send: SendResult)
      requires renewTimer
      modifies this
      ensures View() == ControlSession.TickRenew(old(View()), now, send)
      ensures forwarded == old(forwarded)
    {
      if state != Controlled || controller == "" {
        StopRenewTimer();
        return;
      }
      var leaseDeadline := lastControlActivityAt + (if leaseMs > 0 then leaseMs else DEFAULT_LEASE_MS);
      if pendingRenewRequestId.Some? {
        if pendingRenewDeadline.Some? && now >= pendingRenewDeadline.value {
          pendingRenewRequestId := None;
          pendingRenewDeadline := None;
          if now >= leaseDeadline {
            LoseControl(SessionExpired);
          }
        }
        return;
      }
      if now >= leaseDeadline {
        LoseControl(SessionExpired);
        return;
      }
      if now < lastControlActivityAt + RenewInterval(leaseMs) {
        return;
      }
      renewSequence := renewSequence + 1;
      match send {
        case Sent(id) =>
          pendingRenewRequestId := Some(id);
          pendingRenewDeadline := Some(now + RENEW_TIMEOUT_MS);
        case Threw(later) =>
          if later >= leaseDeadline {
            LoseControl(SessionExpired);
          }
      }
    }

    method HandleRenewResponse(now: int, sequence: nat, sentController: string, answer: Reply)
      modifies this
      ensures View() == HandleRenewReply(old(View()), now, sequence, sentController, answer)
      ensures forwarded == old(forwarded)
    {
      if pendingRenewRequestId.None? || sequence != renewSequence {
        return;
      }
      pendingRenewRequestId := None;
      pendingRenewDeadline := None;
      if state != Controlled || sentController != controller {
        return;
      }
      if !answer.Accepted? {
        LoseControl(SessionExpired);
        return;
      }
      match answer.lease {
        case Absent =>
        case Milliseconds(ms) => leaseMs := ms;
        case OutOfRange =>
          LoseControl(SessionExpired);
          return;
      }
      lastControlActivityAt := now;
      lastError := NoError;
    }

    method HandleStatus(controlled: bool, holder: string)
      modifies this
      ensures View() == HandleControlStatus(old(View()), controlled, holder)
      ensures forwarded == old(forwarded)
    {
      if state != Controlled {
        return;
      }
      if controlled && holder == controller {
        return;
      }
      LoseControl(SessionRevoked);
    }

    /** handle_event: a status event acts on the session, any other accepted event goes to
        the event callback. */
    method HandleEvent(m: EventMessage)
      modifies this
      ensures var r := Route(listener, m);
        && View() == (if r.Status? then HandleControlStatus(old(View()), r.controlled, r.holder) else old(View()))
        && forwarded == (if r.Ignored? || r.Status? then old(forwarded) else old(forwarded) + [r])
    {
      StatusIff(listener, m);
      if !m.magicOk {
        return;
      }
      var statusTopic := StatusTopic(listener);
      var hostEventTopic := HostEventTopic(listener);
      if listener.host && m.topic != statusTopic && m.topic != hostEventTopic {
        return;
      }
      if m.payload.None? || !m.payload.value.Object? {
        forwarded := forwarded + [Forwarded(m.topic, m.text)];
        return;
      }
      var members := m.payload.value.members;
      if m.topic == statusTopic {
        HandleStatus(ReadControlled(members), TextMember(members, "controller"));
        return;
      }
      if m.topic == hostEventTopic && "event" in members && members["event"].Text? && "detail" in members {
        forwarded := forwarded + [Unwrapped(members["event"].text, members["detail"])];
        return;
      }
      forwarded := forwarded + [Forwarded(m.topic, m.text)];
    }

    /** The executor runs callbacks; a tick comes only from an existing timer. */
    method Spin(callbacks: Spins)
      modifies this
      ensures View() == Callbacks(old(View()), callbacks)
      ensures forwarded == old(forwarded)
    {
      for i := 0 to |callbacks|
        invariant View() == Callbacks(old(View()), callbacks[..i])
        invariant forwarded == old(forwarded)
      {
        var e := callbacks[i];
        assert callbacks[..i + 1] == callbacks[..i] + [e];
        CallbacksSnoc(old(View()), callbacks[..i], e);
        match e.action {
          case Tick(send) =>
            if renewTimer {
              TickRenew(e.at, send);
            }
          case RenewReply(sequence, sentController, answer) =>
            HandleRenewResponse(e.at, sequence, sentController, answer);
          case ControlStatus(controlled, holder) => HandleStatus(controlled, holder);
        }
      }
      assert callbacks[..|callbacks|] == callbacks;
    }

    /** rpc_call: spins until the reply or the timeout, then records the error. */
    method RpcCall(call: Call, w: Window) returns (ok: bool)
      modifies this
      ensures ok == w.reply.Accepted?
      ensures var s := Callbacks(old(View()), w.callbacks);
        View() == s.(lastError := RpcError(w.reply), rpcs := s.rpcs + [Rpc(call, ok)])
    {
      Spin(w.callbacks);
      match w.reply {
        case Accepted(_, _) => lastError := NoError;
        case Rejected => lastError := ActionRejected;
        case TransportFailure => lastError := RpcCallFailed;
        case BadCode => lastError := RpcCallFailed;
        case Malformed => lastError := RpcCallFailed;
      }
      ok := w.reply.Accepted?;
      rpcs := rpcs + [Rpc(call, ok)];
    }

    method Connect(serviceUp: bool, lease: int) returns (ok: bool)
      modifies this
      ensures View() == ConnectSession(old(View()), serviceUp, lease)
      ensures ok <==> state != Disconnected
    {
      if state != Disconnected {
        return true;
      }
      if !serviceUp {
        lastError := RpcConnectFailed;
        return false;
      }
      leaseMs := if lease > 0 then lease else DEFAULT_LEASE_MS;
      controller := "";
      lastError := NoError;
      state := Connected;
      return true;
    }

    /** startControl(): the timing is TimelineOf's, the effect that of an Acquire call. */
    method StartControl(start: int, timeoutMs: int, script: AcquireScript, w: Window) returns (outcome: CallOutcome)
      requires TimerDiscipline(View())
      modifies this
      ensures old(state) == Disconnected ==>
                outcome == Returned(false) && View() == old(View()).(lastError := NotConnected)
      ensures old(state) == Controlled ==> outcome == Returned(true) && View() == old(View())
      ensures old(state) == Connected ==>
                var take := TakeWindow(w, start, timeoutMs, script);
                && View() == FinishCall(old(View()), Acquire, take.end, take.reply)
                && outcome == (if UnusableGrant(take.reply) then Raised else Returned(Granted(take.reply)))
                && (outcome == Returned(true) <==> state == Controlled)
                && (outcome == Returned(false) ==>
                      View() == old(View()).(
                        lastError := RpcAcquireRejected,
                        rpcs := old(rpcs) + [Rpc(Acquire, take.reply.Accepted?)],
                        notices := old(notices) + [Notice(Connected, RpcAcquireRejected, Connected)]))
    {
      if state == Disconnected {
        lastError := NotConnected;
        return Returned(false);
      }
      if state == Controlled {
        return Returned(true);
      }
      CallbacksInertWhenIdle(View(), w.callbacks);
      var t := AcquireTimeline(start, timeoutMs, script);
      var took := RpcCall(Acquire, w.(reply := if t.takeAt.Some? then w.reply else TransportFailure));
      if !took || w.reply.controller.None? {
        lastError := RpcAcquireRejected;
        NotifyConnectCallback(Connected, RpcAcquireRejected);
        return Returned(false);
      }
      controller := w.reply.controller.value;
      match w.reply.lease {
        case Absent =>
        case Milliseconds(ms) => leaseMs := ms;
        case OutOfRange => return Raised;
      }
      lastControlActivityAt := t.end;
      state := Controlled;
      lastError := NoError;
      StartRenewTimer();
      NotifyConnectCallback(Controlled, NoError);
      return Returned(true);
    }

    method ReleaseControl(w: Window) returns (ok: bool)
      modifies this
      ensures (View(), ok) == PerformCall(old(View()), Release(false), true, w)
    {
      if state != Controlled {
        lastError := NotControlled;
        return false;
      }
      var accepted := RpcCall(Release(false), w);
      if !accepted {
        return false;
      }
      StopRenewTimer();
      controller := "";
      state := Connected;
      lastError := NoError;
      NotifyConnectCallback(Connected, NoError);
      return true;
    }

    method Disconnect(w: Window)
      modifies this
      ensures View() == PerformCall(old(View()), Release(true), true, w).0
    {
      if state == Controlled {
        var _ := ReleaseControl(w);
      }
      StopRenewTimer();
      controller := "";
      state := Disconnected;
    }

    /** startAction, stopAction, setActionParams and emergencyStop. */
    method MotionRpc(motion: MotionCall, paramsOk: bool, w: Window) returns (ok: bool)
      modifies this
      ensures (View(), ok) == PerformCall(old(View()), Motion(motion), paramsOk, w)
    {
      if state != Controlled {
        lastError := NotControlled;
        return false;
      }
      if !paramsOk {
        lastError := ActionRejected;
        return false;
      }
      ok := RpcCall(Motion(motion), w);
      if ok {
        lastControlActivityAt := w.end;
      }
    }

    /** The audio and light calls, which leave the lease alone. */
    method AuxiliaryRpc(paramsOk: bool, w: Window) returns (ok: bool)
      modifies this
      ensures (View(), ok) == PerformCall(old(View()), Auxiliary, paramsOk, w)
    {
      if state != Controlled {
        lastError := NotControlled;
        return false;
      }
      if !paramsOk {
        lastError := ActionRejected;
        return false;
      }
      ok := RpcCall(Auxiliary, w);
    }

    /** The queries, which need a connection only. */
    method QueryRpc(paramsOk: bool, w: Window) returns (ok: bool)
      modifies this
      ensures (View(), ok) == PerformCall(old(View()), Query, paramsOk, w)
    {
      if state == Disconnected {
        lastError := NotConnected;
        return false;
      }
      if !paramsOk {
        lastError := ActionRejected;
        return false;
      }
      ok := RpcCall(Query, w);
    }

    method GetLastError() returns (error: Error)
      modifies this`lastError
      ensures error == old(lastError) && View() == old(View()).(lastError := NoError)
    {
      error := lastError;
      lastError := NoError;
    }
  }
}
