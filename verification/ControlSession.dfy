/**
 The control session of MotionHighLevelClient as a transition system.

 A synchronous RPC spins the executor, so timer ticks, renew replies and revocation
 events all run inside it.  The system therefore has three kinds of steps: a call is
 begun, any number of callbacks run, and the call is finished with an arbitrary reply.
 The class in Client.dfy performs the same steps on mutable fields.

 Times are steady-clock milliseconds.
 */
module ControlSession {
  import opened Wrappers

  const DEFAULT_LEASE_MS: int := 60000
  const RENEW_TIMEOUT_MS: int := 3000

  datatype State = Disconnected | Connected | Controlled

  datatype Error =
    | NoError | RpcConnectFailed | RpcAcquireRejected | RpcCallFailed | SessionExpired
    | SessionRevoked | NotConnected | NotControlled | ActionRejected

  /** One invocation of the connect callback, with the client state at that moment. */
  datatype Notice = Notice(state: State, error: Error, clientState: State)

  /** The numeric "leaseTimeout" member of a reply.  `asInt` throws when the number is
      outside 32 bits. */
  datatype LeaseField = Absent | Milliseconds(ms: int) | OutOfRange

  /** The outcome of an RPC.  `controller` is None unless the parameters are an object
      with a string "controller". */
  datatype Reply =
    | TransportFailure
    | BadCode
    | Malformed
    | Rejected
    | Accepted(controller: Option<string>, lease: LeaseField)

  datatype MotionCall = StartAction | StopAction | SetActionParams | EmergencyStop

  /** The synchronous calls, by what they need and what they do to the session. */
  datatype Call =
    | Acquire                       // startControl
    | Release(disconnecting: bool)  // releaseControl, or disconnect() around it
    | Motion(motion: MotionCall)    // refreshes the lease
    | Auxiliary                     // audio and light calls: need control, refresh nothing
    | Query                         // needs a connection only

  datatype Rpc = Rpc(call: Call, accepted: bool)

  /** The fields of the client, and two histories: the notices delivered to the connect
      callback and the synchronous RPCs that completed. */
  datatype Session = Session(
    state: State,
    controller: string,
    lease: int,
    lastError: Error,
    timer: bool,
    pendingId: Option<int>,
    pendingDeadline: Option<int>,
    sequence: nat,
    activity: int,
    notices: seq<Notice>,
    rpcs: seq<Rpc>)

  datatype SendResult = Sent(id: int) | Threw(later: int)

  datatype Action =
    | Connect(serviceUp: bool, leaseMs: int)
    | Begin(call: Call, paramsOk: bool)
    | Finish(reply: Reply)
    | Tick(send: SendResult)
    | RenewReply(sequence: nat, controller: string, answer: Reply)
    | ControlStatus(controlled: bool, holder: string)
    | ReadError

  datatype Event = Event(at: int, action: Action)

  function Fresh(at: int): Session {
    Session(Disconnected, "", DEFAULT_LEASE_MS, NoError, false, None, None, 0, at, [], [])
  }

  function EffectiveLease(lease: int): (r: int)
    ensures r > 0
  {
    if lease > 0 then lease else DEFAULT_LEASE_MS
  }

  function RenewInterval(lease: int): (r: int)
    ensures 200 <= r <= 10000
    ensures 600 <= EffectiveLease(lease) <= 30002 ==> 3 * r <= EffectiveLease(lease) < 3 * (r + 1)
    ensures EffectiveLease(lease) < 600 ==> r == 200
    ensures EffectiveLease(lease) > 30002 ==> r == 10000
  {
    var third := EffectiveLease(lease) / 3;
    if third < 200 then 200 else if third > 10000 then 10000 else third
  }

  function Notify(s: Session, state: State, error: Error): Session {
    s.(notices := s.notices + [Notice(state, error, s.state)])
  }

  function StopTimer(s: Session): Session {
    s.(timer := false, pendingId := None, pendingDeadline := None)
  }

  function LoseControl(s: Session, error: Error): Session {
    Notify(StopTimer(s).(controller := "", state := Connected, lastError := error), Connected, error)
  }

  /** tick_renew, which runs only while the timer exists. */
  function TickRenew(s: Session, now: int, send: SendResult): Session {
    var leaseDeadline := s.activity + EffectiveLease(s.lease);
    if !s.timer then s
    else if s.state != Controlled || s.controller == "" then StopTimer(s)
    else if s.pendingId.Some? then
      if s.pendingDeadline.Some? && now >= s.pendingDeadline.value then
        var cleared := s.(pendingId := None, pendingDeadline := None);
        if now >= leaseDeadline then LoseControl(cleared, SessionExpired) else cleared
      else s
    else if now >= leaseDeadline then LoseControl(s, SessionExpired)
    else if now < s.activity + RenewInterval(s.lease) then s
    else
      var next := s.(sequence := s.sequence + 1);
      match send
      case Sent(id) => next.(pendingId := Some(id), pendingDeadline := Some(now + RENEW_TIMEOUT_MS))
      case Threw(later) => if later >= leaseDeadline then LoseControl(next, SessionExpired) else next
  }

  function HandleRenewReply(s: Session, now: int, sequence: nat, controller: string, answer: Reply): Session {
    if s.pendingId.None? || sequence != s.sequence then s
    else
      var cleared := s.(pendingId := None, pendingDeadline := None);
      if s.state != Controlled || controller != s.controller then cleared
      else if !answer.Accepted? || answer.lease.OutOfRange? then LoseControl(cleared, SessionExpired)
      else
        cleared.(lease := if answer.lease.Milliseconds? then answer.lease.ms else s.lease,
                 activity := now, lastError := NoError)
  }

  function HandleControlStatus(s: Session, controlled: bool, holder: string): Session {
    if s.state != Controlled || (controlled && holder == s.controller) then s
    else LoseControl(s, SessionRevoked)
  }

  /** The outcome of rpc_call: its error code and its success. */
  function RpcError(reply: Reply): Error {
    match reply
    case Accepted(_, _) => NoError
    case Rejected => ActionRejected
    case _ => RpcCallFailed
  }

  function CloseSession(s: Session): Session {
    StopTimer(s).(controller := "", state := Disconnected)
  }

  /** What precedes the RPC of a call; the flag says whether an RPC is sent. */
  function BeginCall(s: Session, call: Call, paramsOk: bool): (Session, bool) {
    match call
    case Acquire =>
      if s.state == Disconnected then (s.(lastError := NotConnected), false)
      else (s, s.state == Connected)
    case Release(disconnecting) =>
      if s.state == Controlled then (s, true)
      else if disconnecting then (CloseSession(s), false)
      else (s.(lastError := NotControlled), false)
    case Motion(_) => BeginControlled(s, paramsOk)
    case Auxiliary => BeginControlled(s, paramsOk)
    case Query =>
      if s.state == Disconnected then (s.(lastError := NotConnected), false)
      else if !paramsOk then (s.(lastError := ActionRejected), false)
      else (s, true)
  }

  function BeginControlled(s: Session, paramsOk: bool): (Session, bool) {
    if s.state != Controlled then (s.(lastError := NotControlled), false)
    else if !paramsOk then (s.(lastError := ActionRejected), false)
    else (s, true)
  }

  predicate Granted(reply: Reply) {
    reply.Accepted? && reply.controller.Some? && !reply.lease.OutOfRange?
  }

  /** A grant whose lease does not fit in 32 bits: `asInt` throws out of startControl after
      the controller was stored. */
  predicate UnusableGrant(reply: Reply) {
    reply.Accepted? && reply.controller.Some? && reply.lease.OutOfRange?
  }

  /** disconnect() sends the same release as releaseControl(). */
  function OnTheWire(call: Call): Call {
    if call.Release? then Release(false) else call
  }

  function FinishCall(s: Session, call: Call, now: int, reply: Reply): Session {
    var logged := s.(lastError := RpcError(reply), rpcs := s.rpcs + [Rpc(OnTheWire(call), reply.Accepted?)]);
    match call
    case Acquire =>
      if Granted(reply) then
        var held := logged.(controller := reply.controller.value,
                            lease := if reply.lease.Milliseconds? then reply.lease.ms else s.lease,
                            activity := now, state := Controlled, lastError := NoError);
        Notify(StopTimer(held).(timer := true), Controlled, NoError)
      else if UnusableGrant(reply) then logged.(controller := reply.controller.value)
      else Notify(logged.(lastError := RpcAcquireRejected), Connected, RpcAcquireRejected)
    case Release(disconnecting) =>
      var released :=
        if reply.Accepted? then
          Notify(StopTimer(logged).(controller := "", state := Connected), Connected, NoError)
        else logged;
      if disconnecting then CloseSession(released) else released
    case Motion(_) => if reply.Accepted? then logged.(activity := now) else logged
    case Auxiliary => logged
    case Query => logged
  }

  /** connect(): waits for the service without spinning the executor. */
  function ConnectSession(s: Session, serviceUp: bool, leaseMs: int): Session {
    if s.state != Disconnected then s
    else if !serviceUp then s.(lastError := RpcConnectFailed)
    else s.(lease := EffectiveLease(leaseMs), controller := "", lastError := NoError, state := Connected)
  }

  /** A callback that the executor can run: a tick, a renew reply or a status event. */
  predicate IsCallback(a: Action) {
    a.Tick? || a.RenewReply? || a.ControlStatus?
  }

  function Callback(s: Session, e: Event): Session
    requires IsCallback(e.action)
  {
    match e.action
    case Tick(send) => TickRenew(s, e.at, send)
    case RenewReply(sequence, controller, answer) => HandleRenewReply(s, e.at, sequence, controller, answer)
    case ControlStatus(controlled, holder) => HandleControlStatus(s, controlled, holder)
  }

  datatype Renewal = Renewal(controller: string, lease: int)

  /** The session with its surroundings: the call being spun, every renewal handed to the
      network, the time of the last step, and the time of the last tick or timer start. */
  datatype World = World(
    s: Session,
    inFlight: Option<Call>,
    sent: map<nat, Renewal>,
    clock: int,
    lastTick: int)

  function Initial(at: int): World {
    World(Fresh(at), None, map[], at, at)
  }

  /** One step.  Calls are not nested, so Connect, Begin and ReadError need an idle caller. */
  function Step(w: World, e: Event): World {
    var moved := w.(clock := EventEnd(w, e));
    match e.action
    case Connect(serviceUp, leaseMs) =>
      if w.inFlight.Some? then w else moved.(s := ConnectSession(w.s, serviceUp, leaseMs))
    case ReadError =>
      if w.inFlight.Some? then w else moved.(s := w.s.(lastError := NoError))
    case Begin(call, paramsOk) =>
      if w.inFlight.Some? then w
      else
        var (s, sending) := BeginCall(w.s, call, paramsOk);
        moved.(s := s, inFlight := if sending then Some(call) else None)
    case Finish(reply) =>
      if w.inFlight.None? then w
      else
        var s := FinishCall(w.s, w.inFlight.value, e.at, reply);
        moved.(s := s, inFlight := None, lastTick := if !w.s.timer && s.timer then e.at else w.lastTick)
    case Tick(send) =>
      var s := TickRenew(w.s, e.at, send);
      moved.(s := s,
             sent := if s.sequence > w.s.sequence && send.Sent?
                     then w.sent[s.sequence := Renewal(s.controller, s.lease)] else w.sent,
             lastTick := if w.s.timer then e.at else w.lastTick)
    case RenewReply(_, _, _) => moved.(s := Callback(w.s, e))
    case ControlStatus(_, _) => moved.(s := Callback(w.s, e))
  }

  /** The second clock read of a tick whose send throws. */
  function EventEnd(w: World, e: Event): int {
    if e.action.Tick? && e.action.send.Threw? then e.action.send.later else e.at
  }

  function Run(w: World, es: seq<Event>): World
    decreases es
  {
    if es == [] then w else Run(Step(w, es[0]), es[1..])
  }

  /** Time does not go back, and a renew reply answers a renewal that was sent (at any
      earlier time, any number of times). */
  predicate Possible(w: World, e: Event) {
    && w.clock <= e.at <= EventEnd(w, e)
    && (e.action.RenewReply? ==>
          e.action.sequence in w.sent && w.sent[e.action.sequence].controller == e.action.controller)
  }

  predicate PossibleRun(w: World, es: seq<Event>)
    decreases es
  {
    es == [] || (Possible(w, es[0]) && PossibleRun(Step(w, es[0]), es[1..]))
  }

  lemma {:induction false} RunConcat(w: World, es: seq<Event>, fs: seq<Event>)
    ensures Run(w, es + fs) == Run(Run(w, es), fs)
    ensures PossibleRun(w, es + fs) <==> PossibleRun(w, es) && PossibleRun(Run(w, es), fs)
    decreases es
  {
    if es == [] {
      assert es + fs == fs;
    } else {
      assert (es + fs)[1..] == es[1..] + fs;
      RunConcat(Step(w, es[0]), es[1..], fs);
    }
  }

  lemma RunStep(w: World, e: Event, es: seq<Event>)
    ensures Run(w, [e] + es) == Run(Step(w, e), es)
    ensures PossibleRun(w, [e] + es) <==> Possible(w, e) && PossibleRun(Step(w, e), es)
  {
    hide Step, Possible;
    assert ([e] + es)[1..] == es;
  }
}
