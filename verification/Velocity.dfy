/**
 The bridge's cmd_vel channel: a latest-wins slot filled by the subscription thread, a
 rate-limited dispatch with a staleness check, and the zero-velocity watchdog.

 Sending a velocity is a synchronous RPC, so messages keep arriving while the worker is
 inside it: a send has a start step and an end step.
 */
module Velocity {
  import opened Wrappers

  datatype Twist = Twist(x: real, y: real, yaw: real)

  /** A cmd_vel message: some component may be NaN or infinite. */
  datatype Message = Finite(twist: Twist) | NotFinite

  /** A stored command; `number` counts the finite messages received before it. */
  datatype Command = Command(twist: Twist, receivedAt: int, number: nat)

  datatype Config = Config(timeoutMs: int, periodMs: int) {
    predicate Valid() {
      timeoutMs > 0 && periodMs >= 1
    }
  }

  /** A command handed to setActionParams: when, in which tracking period, and how many finite
      messages had been received by then. */
  datatype Dispatch = Dispatch(command: Command, at: int, epoch: nat, seen: nat)

  /** A watchdog attempt: how many dispatches and tracking resets came before it. */
  datatype Attempt = Attempt(at: int, dispatches: nat, epoch: nat)

  /** When the tracking periods began; there always is a present one. */
  type Floors = s: seq<nat> | s != [] witness [0]

  /** The tracking fields of the bridge, and the history of the channel.  `floors[k]` is the
      number of messages received before tracking period k began. */
  datatype Channel = Channel(
    pending: Option<Command>,
    lastReceivedAt: int,
    nextDispatchAt: int,
    active: bool,
    fired: bool,
    received: seq<Command>,
    dispatched: seq<Dispatch>,
    attempts: seq<Attempt>,
    floors: Floors)

  datatype Sending = Nothing | Applying(command: Command) | Zeroing

  datatype Action =
    | Receive(message: Message)
    | DispatchPending
    | Watch(controlled: bool)
    | Applied(ok: bool)
    | Reset

  datatype Event = Event(at: int, action: Action)

  datatype World = World(ch: Channel, sending: Sending, clock: int, lastWatch: int)

  const NEVER: int := 0

  function Fresh(): Channel {
    Channel(None, NEVER, NEVER, false, false, [], [], [], [0])
  }

  function Magnitude(v: real): real {
    if v < 0.0 then -v else v
  }

  predicate AnyNonzero(t: Twist) {
    Magnitude(t.x) > 0.000001 || Magnitude(t.y) > 0.000001 || Magnitude(t.yaw) > 0.000001
  }

  function OnCmdVel(ch: Channel, now: int, m: Message): Channel {
    match m
    case NotFinite => ch
    case Finite(twist) =>
      var command := Command(twist, now, |ch.received|);
      ch.(pending := Some(command), lastReceivedAt := now, received := ch.received + [command])
  }

  predicate Due(ch: Channel, now: int) {
    ch.pending.Some? && now >= ch.nextDispatchAt
  }

  predicate Stale(c: Config, command: Command, now: int) {
    now - command.receivedAt > c.timeoutMs
  }

  /** dispatch_pending_velocity() up to its RPC. */
  function BeginDispatch(c: Config, ch: Channel, now: int): (Channel, Sending)
  {
    if !Due(ch, now) then (ch, Nothing)
    else
      var command := ch.pending.value;
      var taken := ch.(pending := None, nextDispatchAt := now + c.periodMs);
      if Stale(c, command, now) then (taken, Nothing)
      else (taken.(fired := false,
                   dispatched := ch.dispatched + [Dispatch(command, now, |ch.floors| - 1, |ch.received|)]),
            Applying(command))
  }

  /** enforce_cmd_vel_watchdog() fires. */
  predicate WatchFires(c: Config, ch: Channel, now: int, controlled: bool) {
    ch.active && !ch.fired && controlled && ch.lastReceivedAt != NEVER && now - ch.lastReceivedAt > c.timeoutMs
  }

  function BeginWatch(c: Config, ch: Channel, now: int, controlled: bool): (Channel, Sending)
  {
    if WatchFires(c, ch, now, controlled) then
      (ch.(attempts := ch.attempts + [Attempt(now, |ch.dispatched|, |ch.floors| - 1)]), Zeroing)
    else (ch, Nothing)
  }

  /** The end of apply_velocity; the watchdog then marks itself fired, accepted or not. */
  function EndSend(ch: Channel, sending: Sending, ok: bool): Channel {
    match sending
    case Nothing => ch
    case Applying(command) => if ok then ch.(active := AnyNonzero(command.twist)) else ch
    case Zeroing => ch.(active := ch.active && !ok, fired := true)
  }

  function ResetTracking(ch: Channel): Channel {
    ch.(pending := None, lastReceivedAt := NEVER, nextDispatchAt := NEVER, active := false, fired := false,
        floors := ch.floors + [|ch.received|])
  }

  /** Only the subscription acts while the worker is inside an RPC. */
  predicate Possible(w: World, e: Event) {
    && NEVER < e.at && w.clock <= e.at
    && (e.action.Receive? || (e.action.Applied? <==> !w.sending.Nothing?))
  }

  function Step(c: Config, w: World, e: Event): World
  {
    var moved := w.(clock := e.at);
    match e.action
    case Receive(m) => moved.(ch := OnCmdVel(w.ch, e.at, m))
    case DispatchPending => var (ch, sending) := BeginDispatch(c, w.ch, e.at); moved.(ch := ch, sending := sending)
    case Watch(controlled) =>
      var (ch, sending) := BeginWatch(c, w.ch, e.at, controlled);
      moved.(ch := ch, sending := sending, lastWatch := e.at)
    case Applied(ok) => moved.(ch := EndSend(w.ch, w.sending, ok), sending := Nothing)
    case Reset => moved.(ch := ResetTracking(w.ch))
  }

  function Run(c: Config, w: World, es: seq<Event>): World
    decreases es
  {
    if es == [] then w else Run(c, Step(c, w, es[0]), es[1..])
  }

  predicate PossibleRun(c: Config, w: World, es: seq<Event>)
    decreases es
  {
    es == [] || (Possible(w, es[0]) && PossibleRun(c, Step(c, w, es[0]), es[1..]))
  }

  function Initial(): World {
    World(Fresh(), Nothing, NEVER, NEVER)
  }

  // ---------- invariant of the channel ----------

  predicate GoodReceived(ch: Channel, i: nat, clock: int)
    requires i < |ch.received|
  {
    ch.received[i].number == i && NEVER < ch.received[i].receivedAt <= clock
  }

  /** The newest message of the present tracking period decides the receive time. */
  predicate ReceiveInv(ch: Channel, clock: int) {
    && (forall i :: 0 <= i < |ch.received| ==> GoodReceived(ch, i, clock))
    && (forall k :: 0 <= k < |ch.floors| ==> ch.floors[k] <= |ch.received|)
    && var floor := ch.floors[|ch.floors| - 1];
       && (if |ch.received| > floor then ch.lastReceivedAt == ch.received[|ch.received| - 1].receivedAt
           else ch.lastReceivedAt == NEVER)
       && (ch.pending.Some? ==> |ch.received| > floor && ch.pending.value == ch.received[|ch.received| - 1])
       && (ch.active ==> |ch.received| > floor)
  }

  /** A recorded dispatch was the newest message, fresh, and of its own tracking period. */
  predicate GoodDispatch(c: Config, ch: Channel, d: Dispatch) {
    && d.epoch < |ch.floors|
    && d.seen <= |ch.received|
    && ch.floors[d.epoch] <= d.command.number == d.seen - 1
    && d.command == ch.received[d.command.number]
    && d.at - d.command.receivedAt <= c.timeoutMs
  }

  predicate InOrder(c: Config, d: Dispatch, d': Dispatch) {
    && d.command.number < d'.command.number
    && d.epoch <= d'.epoch
    && (d.epoch == d'.epoch ==> d.at + c.periodMs <= d'.at)
  }

  predicate FollowsInOrder(c: Config, ds: seq<Dispatch>, i: int)
    requires 0 < i < |ds|
  {
    InOrder(c, ds[i - 1], ds[i])
  }

  predicate LastDispatchBehind(c: Config, ch: Channel) {
    ch.dispatched != [] ==>
      var last := ch.dispatched[|ch.dispatched| - 1];
      && last.epoch < |ch.floors|
      && (ch.pending.Some? ==> last.command.number < ch.pending.value.number)
      && last.command.number < |ch.received|
      && (last.epoch == |ch.floors| - 1 ==> last.at + c.periodMs <= ch.nextDispatchAt)
  }

  predicate DispatchInv(c: Config, ch: Channel) {
    && (forall i :: 0 <= i < |ch.dispatched| ==> GoodDispatch(c, ch, ch.dispatched[i]))
    && (forall i :: 0 < i < |ch.dispatched| ==> FollowsInOrder(c, ch.dispatched, i))
    && LastDispatchBehind(c, ch)
  }

  /** A fresh dispatch or a tracking reset lies between. */
  predicate Separated(a: Attempt, a': Attempt) {
    && a.dispatches <= a'.dispatches && a.epoch <= a'.epoch
    && (a.dispatches < a'.dispatches || a.epoch < a'.epoch)
  }

  predicate FollowsSeparately(attempts: seq<Attempt>, i: int)
    requires 0 < i < |attempts|
  {
    Separated(attempts[i - 1], attempts[i])
  }

  /** The watchdog has made an attempt since the latest dispatch and the latest reset. */
  predicate AttemptedSince(ch: Channel) {
    ch.attempts != [] &&
    var last := ch.attempts[|ch.attempts| - 1];
    last.dispatches == |ch.dispatched| && last.epoch == |ch.floors| - 1
  }

  /** The watchdog is marked fired exactly by such an attempt, once it has ended. */
  predicate AttemptInv(ch: Channel, sending: Sending) {
    && (forall i :: 0 < i < |ch.attempts| ==> FollowsSeparately(ch.attempts, i))
    && (ch.attempts != [] ==>
          var last := ch.attempts[|ch.attempts| - 1];
          && last.dispatches <= |ch.dispatched| && last.epoch < |ch.floors|)
    && (ch.fired || sending.Zeroing? ==> AttemptedSince(ch))
    && (!sending.Zeroing? && AttemptedSince(ch) ==> ch.fired)
  }

  predicate SendingInv(ch: Channel, sending: Sending) {
    sending.Applying? ==>
      && ch.dispatched != []
      && sending.command == ch.dispatched[|ch.dispatched| - 1].command
      && sending.command.number < |ch.received|
      && ch.received[sending.command.number] == sending.command
      && |ch.received| > ch.floors[|ch.floors| - 1]
  }

  predicate Inv(c: Config, w: World) {
    && ReceiveInv(w.ch, w.clock)
    && DispatchInv(c, w.ch)
    && AttemptInv(w.ch, w.sending)
    && SendingInv(w.ch, w.sending)
  }

  /** Recorded dispatches stay good while the history only grows. */
  lemma GoodDispatchesStay(c: Config, ch: Channel, ch': Channel)
    requires forall i :: 0 <= i < |ch.dispatched| ==> GoodDispatch(c, ch, ch.dispatched[i])
    requires ch.received <= ch'.received && ch.floors <= ch'.floors && ch.dispatched <= ch'.dispatched
    requires forall i :: 0 < i < |ch.dispatched| ==> FollowsInOrder(c, ch.dispatched, i)
    ensures forall i :: 0 <= i < |ch.dispatched| ==> GoodDispatch(c, ch', ch'.dispatched[i])
    ensures forall i :: 0 < i < |ch.dispatched| ==> FollowsInOrder(c, ch'.dispatched, i)
  {
    forall i | 0 <= i < |ch.dispatched| ensures GoodDispatch(c, ch', ch'.dispatched[i]) {
      assert GoodDispatch(c, ch, ch.dispatched[i]);
    }
    forall i | 0 < i < |ch.dispatched| ensures FollowsInOrder(c, ch'.dispatched, i) {
      assert FollowsInOrder(c, ch.dispatched, i);
    }
  }

  lemma ReceiveKeeps(c: Config, w: World, e: Event)
    requires c.Valid() && Inv(c, w) && Possible(w, e) && e.action.Receive?
    ensures Inv(c, Step(c, w, e))
  {
    hide GoodDispatch, FollowsInOrder, FollowsSeparately;
    var ch, ch' := w.ch, Step(c, w, e).ch;
    GoodDispatchesStay(c, ch, ch');
    forall i | 0 <= i < |ch'.received| ensures GoodReceived(ch', i, e.at) {
      assert i < |ch.received| ==> GoodReceived(ch, i, w.clock);
    }
  }

  lemma DispatchAppended(c: Config, ds: seq<Dispatch>, d: Dispatch)
    requires forall i :: 0 < i < |ds| ==> FollowsInOrder(c, ds, i)
    requires ds != [] ==> InOrder(c, ds[|ds| - 1], d)
    ensures forall i :: 0 < i < |ds + [d]| ==> FollowsInOrder(c, ds + [d], i)
  {
    forall i | 0 < i < |ds + [d]| ensures FollowsInOrder(c, ds + [d], i) {
      assert i < |ds| ==> FollowsInOrder(c, ds, i);
    }
  }

  lemma AttemptAppended(attempts: seq<Attempt>, a: Attempt)
    requires forall i :: 0 < i < |attempts| ==> FollowsSeparately(attempts, i)
    requires attempts != [] ==> Separated(attempts[|attempts| - 1], a)
    ensures forall i :: 0 < i < |attempts + [a]| ==> FollowsSeparately(attempts + [a], i)
  {
    forall i | 0 < i < |attempts + [a]| ensures FollowsSeparately(attempts + [a], i) {
      assert i < |attempts| ==> FollowsSeparately(attempts, i);
    }
  }

  lemma ReceivedStay(ch: Channel, ch': Channel, clock: int, clock': int)
    requires forall i :: 0 <= i < |ch.received| ==> GoodReceived(ch, i, clock)
    requires ch'.received == ch.received && clock <= clock'
    ensures forall i :: 0 <= i < |ch'.received| ==> GoodReceived(ch', i, clock')
  {
    forall i | 0 <= i < |ch'.received| ensures GoodReceived(ch', i, clock') {
      assert GoodReceived(ch, i, clock);
    }
  }

  /** Taking the newest message of the slot, fresh, and recording it. */
  lemma FreshDispatchKeeps(c: Config, ch: Channel, now: int, clock: int)
    requires c.Valid() && ReceiveInv(ch, clock) && DispatchInv(c, ch) && clock <= now
    requires Due(ch, now) && !Stale(c, ch.pending.value, now)
    ensures DispatchInv(c, BeginDispatch(c, ch, now).0)
  {
    var ch' := BeginDispatch(c, ch, now).0;
    var d := Dispatch(ch.pending.value, now, |ch.floors| - 1, |ch.received|);
    assert ch'.dispatched == ch.dispatched + [d];
    assert GoodReceived(ch, |ch.received| - 1, clock);
    GoodDispatchesStay(c, ch, ch');
    DispatchAppended(c, ch.dispatched, d);
    assert GoodDispatch(c, ch', d);
  }

  lemma BeginDispatchKeeps(c: Config, w: World, e: Event)
    requires c.Valid() && Inv(c, w) && Possible(w, e) && e.action.DispatchPending?
    ensures Inv(c, Step(c, w, e))
  {
    hide GoodDispatch, FollowsInOrder, FollowsSeparately;
    var ch, ch' := w.ch, Step(c, w, e).ch;
    ReceivedStay(ch, ch', w.clock, e.at);
    if Due(ch, e.at) && !Stale(c, ch.pending.value, e.at) {
      FreshDispatchKeeps(c, ch, e.at, w.clock);
      assert GoodReceived(ch, |ch.received| - 1, w.clock);
    } else {
      GoodDispatchesStay(c, ch, ch');
    }
  }

  lemma WatchKeeps(c: Config, w: World, e: Event)
    requires c.Valid() && Inv(c, w) && Possible(w, e) && e.action.Watch?
    ensures Inv(c, Step(c, w, e))
  {
    var ch, ch' := w.ch, Step(c, w, e).ch;
    ReceivedStay(ch, ch', w.clock, e.at);
    GoodDispatchesStay(c, ch, ch');
    if WatchFires(c, ch, e.at, e.action.controlled) {
      AttemptAppended(ch.attempts, Attempt(e.at, |ch.dispatched|, |ch.floors| - 1));
    }
  }

  lemma AppliedKeeps(c: Config, w: World, e: Event)
    requires c.Valid() && Inv(c, w) && Possible(w, e) && e.action.Applied?
    ensures Inv(c, Step(c, w, e))
  {
    hide GoodDispatch, FollowsInOrder, FollowsSeparately, GoodReceived;
    ReceivedStay(w.ch, Step(c, w, e).ch, w.clock, e.at);
    GoodDispatchesStay(c, w.ch, Step(c, w, e).ch);
  }

  lemma ResetKeeps(c: Config, w: World, e: Event)
    requires c.Valid() && Inv(c, w) && Possible(w, e) && e.action.Reset?
    ensures Inv(c, Step(c, w, e))
  {
    ReceivedStay(w.ch, Step(c, w, e).ch, w.clock, e.at);
    GoodDispatchesStay(c, w.ch, Step(c, w, e).ch);
  }

  lemma StepInv(c: Config, w: World, e: Event)
    requires c.Valid() && Inv(c, w) && Possible(w, e)
    ensures Inv(c, Step(c, w, e))
  {
    match e.action
    case Receive(_) => ReceiveKeeps(c, w, e);
    case DispatchPending => BeginDispatchKeeps(c, w, e);
    case Watch(_) => WatchKeeps(c, w, e);
    case Applied(_) => AppliedKeeps(c, w, e);
    case Reset => ResetKeeps(c, w, e);
  }

  lemma {:induction false} RunInv(c: Config, w: World, es: seq<Event>)
    requires c.Valid() && Inv(c, w) && PossibleRun(c, w, es)
    ensures Inv(c, Run(c, w, es))
    decreases es
  {
    if es != [] {
      StepInv(c, w, es[0]);
      RunInv(c, Step(c, w, es[0]), es[1..]);
    }
  }

  // ---------- the velocity pipeline ----------

  lemma {:induction false} InOrderAcross(c: Config, ds: seq<Dispatch>, i: nat, j: nat)
    requires c.Valid() && i < j < |ds|
    requires forall k :: 0 < k < |ds| ==> FollowsInOrder(c, ds, k)
    ensures ds[i].command.number < ds[j].command.number && ds[i].epoch <= ds[j].epoch
    ensures ds[i].epoch == ds[j].epoch ==> ds[i].at + (j - i) * c.periodMs <= ds[j].at
    decreases j
  {
    assert FollowsInOrder(c, ds, j);
    if i < j - 1 {
      InOrderAcross(c, ds, i, j - 1);
      assert (j - i) * c.periodMs == (j - 1 - i) * c.periodMs + c.periodMs;
    } else {
      assert (j - i) * c.periodMs == c.periodMs;
    }
  }

  /** Over any run, the commands dispatched are a duplicate-free, in-order subsequence of the
      finite messages received; each was the newest message when it was taken, at most the
      timeout old, and received after the last tracking reset before it. */
  lemma PipelineSafety(c: Config, es: seq<Event>)
    requires c.Valid() && PossibleRun(c, Initial(), es)
    ensures var ch := Run(c, Initial(), es).ch;
      && (forall i :: 0 <= i < |ch.dispatched| ==> GoodDispatch(c, ch, ch.dispatched[i]))
      && (forall i, j :: 0 <= i < j < |ch.dispatched| ==>
            ch.dispatched[i].command.number < ch.dispatched[j].command.number)
  {
    RunInv(c, Initial(), es);
    var ch := Run(c, Initial(), es).ch;
    forall i, j | 0 <= i < j < |ch.dispatched|
      ensures ch.dispatched[i].command.number < ch.dispatched[j].command.number
    {
      InOrderAcross(c, ch.dispatched, i, j);
    }
  }

  /** Rate bound: between tracking resets, the dispatches i to j - 1 that fall into a window of
      `window` ms number at most window / period + 1. */
  lemma RateBound(c: Config, es: seq<Event>, i: nat, j: nat, window: nat)
    requires c.Valid() && PossibleRun(c, Initial(), es)
    requires i < j <= |Run(c, Initial(), es).ch.dispatched|
    requires var ds := Run(c, Initial(), es).ch.dispatched;
      ds[i].epoch == ds[j - 1].epoch && ds[j - 1].at - ds[i].at <= window
    ensures j - i <= window / c.periodMs + 1
  {
    RunInv(c, Initial(), es);
    var ds := Run(c, Initial(), es).ch.dispatched;
    if i < j - 1 {
      InOrderAcross(c, ds, i, j - 1);
      QuotientBound(j - 1 - i, c.periodMs, window);
    }
  }

  lemma QuotientBound(n: nat, period: int, window: nat)
    requires period >= 1 && n * period <= window
    ensures n <= window / period
  {
    var q := window / period;
    assert window == q * period + window % period;
    assert (q + 1) * period == q * period + period;
    FewerMultiples(n, q + 1, period);
  }

  lemma FewerMultiples(m: int, n: int, factor: int)
    requires factor >= 1 && m * factor < n * factor
    ensures m < n
  {
    assert (m - n) * factor == m * factor - n * factor;
  }

  lemma {:induction false} RunConcat(c: Config, w: World, es: seq<Event>, fs: seq<Event>)
    ensures Run(c, w, es + fs) == Run(c, Run(c, w, es), fs)
    ensures PossibleRun(c, w, es + fs) <==> PossibleRun(c, w, es) && PossibleRun(c, Run(c, w, es), fs)
    decreases es
  {
    if es == [] {
      assert es + fs == fs;
    } else {
      assert (es + fs)[1..] == es[1..] + fs;
      RunConcat(c, Step(c, w, es[0]), es[1..], fs);
    }
  }

  /** Nothing numbered below `base` is in the slot, or among the dispatches from `from` on. */
  predicate OnlySince(ch: Channel, from: nat, base: nat) {
    && base <= |ch.received| && from <= |ch.dispatched|
    && (ch.pending.Some? ==> ch.pending.value.number >= base)
    && (forall i :: from <= i < |ch.dispatched| ==> ch.dispatched[i].command.number >= base)
  }

  lemma {:induction false} OnlySinceStays(c: Config, w: World, es: seq<Event>, from: nat, base: nat)
    requires OnlySince(w.ch, from, base)
    ensures OnlySince(Run(c, w, es).ch, from, base)
    decreases es
  {
    if es != [] {
      assert OnlySince(Step(c, w, es[0]).ch, from, base);
      OnlySinceStays(c, Step(c, w, es[0]), es[1..], from, base);
    }
  }

  /** After a tracking reset, in any state and whatever follows, nothing received before it is
      ever dispatched. */
  lemma NothingCrossesReset(c: Config, w: World, reset: Event, es: seq<Event>)
    requires reset.action.Reset?
    ensures var ch := Run(c, Step(c, w, reset), es).ch;
      && |w.ch.dispatched| <= |ch.dispatched|
      && forall i :: |w.ch.dispatched| <= i < |ch.dispatched| ==> ch.dispatched[i].command.number >= |w.ch.received|
  {
    OnlySinceStays(c, Step(c, w, reset), es, |w.ch.dispatched|, |w.ch.received|);
  }

  // ---------- what is received and dispatched ----------

  /** The finite messages of a run, as commands numbered from `count`. */
  function FiniteOf(es: seq<Event>, count: nat): seq<Command> {
    if es == [] then []
    else if es[0].action.Receive? && es[0].action.message.Finite? then
      [Command(es[0].action.message.twist, es[0].at, count)] + FiniteOf(es[1..], count + 1)
    else FiniteOf(es[1..], count)
  }

  /** Every finite message of a run is received, and nothing else is. */
  lemma {:induction false} ReceivedAreFinite(c: Config, w: World, es: seq<Event>)
    ensures Run(c, w, es).ch.received == w.ch.received + FiniteOf(es, |w.ch.received|)
    decreases es
  {
    if es != [] {
      ReceivedAreFinite(c, Step(c, w, es[0]), es[1..]);
    }
  }

  /** A finite message takes the slot, whatever was in it; any other changes nothing. */
  lemma NewestTakesSlot(ch: Channel, now: int, t: Twist)
    ensures var ch' := OnCmdVel(ch, now, Finite(t));
      ch'.pending == Some(Command(t, now, |ch.received|)) && ch'.lastReceivedAt == now
    ensures OnCmdVel(ch, now, NotFinite) == ch
  {
  }

  /** A velocity counts as zero when every component is within a millionth of it. */
  lemma ZeroIff(t: Twist)
    ensures !AnyNonzero(t) <==>
              && -0.000001 <= t.x <= 0.000001 && -0.000001 <= t.y <= 0.000001 && -0.000001 <= t.yaw <= 0.000001
  {
  }

  /** A dispatch step sends exactly a pending velocity whose time has come and that is no older
      than the timeout; a stale one is dropped. */
  lemma DispatchesIff(c: Config, w: World, e: Event)
    requires w.sending.Nothing? && e.action.DispatchPending?
    ensures var ch, w' := w.ch, Step(c, w, e);
      if ch.pending.Some? && e.at >= ch.nextDispatchAt && e.at - ch.pending.value.receivedAt <= c.timeoutMs
      then
        && w'.sending == Applying(ch.pending.value) && w'.ch.pending.None?
        && |w'.ch.dispatched| == |ch.dispatched| + 1 && w'.ch.dispatched[|ch.dispatched|].command == ch.pending.value
      else
        && w'.sending.Nothing? && w'.ch.dispatched == ch.dispatched
        && (w'.ch.pending.None? <==> ch.pending.None? || e.at >= ch.nextDispatchAt)
  {
  }

  /** The next dispatch is never further away than a period. */
  lemma {:induction false} NextDispatchIsNear(c: Config, w: World, es: seq<Event>)
    requires c.Valid() && PossibleRun(c, w, es) && NEVER <= w.clock
    requires w.ch.nextDispatchAt <= w.clock + c.periodMs
    ensures var v := Run(c, w, es); v.ch.nextDispatchAt <= v.clock + c.periodMs
    decreases es
  {
    if es != [] {
      NextDispatchIsNear(c, Step(c, w, es[0]), es[1..]);
    }
  }

  /** Velocities keep going out: in any reachable state a dispatch step a period later sends the
      pending velocity, if it is fresh then. */
  lemma PendingIsDispatched(c: Config, es: seq<Event>, e: Event)
    requires c.Valid() && PossibleRun(c, Initial(), es)
    requires var w := Run(c, Initial(), es);
      && w.sending.Nothing? && w.ch.pending.Some?
      && e.action.DispatchPending? && e.at >= w.clock + c.periodMs
      && e.at - w.ch.pending.value.receivedAt <= c.timeoutMs
    ensures var w := Run(c, Initial(), es); Step(c, w, e).sending == Applying(w.ch.pending.value)
  {
    NextDispatchIsNear(c, Initial(), es);
    DispatchesIff(c, Run(c, Initial(), es), e);
  }

  /** After a reset the first message goes out at once. */
  lemma ResetFreesDispatch(c: Config, w: World, at: int, t: Twist)
    requires c.Valid() && w.sending.Nothing? && NEVER < at
    ensures var reset := Step(c, w, Event(at, Reset));
      var w' := Step(c, Step(c, reset, Event(at, Receive(Finite(t)))), Event(at, DispatchPending));
      w'.sending == Applying(Command(t, at, |w.ch.received|))
  {
  }

  // ---------- the watchdog ----------

  lemma InvTells(c: Config, w: World)
    requires Inv(c, w)
    ensures w.sending.Nothing? ==> (w.ch.fired <==> AttemptedSince(w.ch))
    ensures w.ch.active ==> w.ch.lastReceivedAt != NEVER
  {
    if w.ch.active {
      assert GoodReceived(w.ch, |w.ch.received| - 1, w.clock);
    }
  }

  /** An active velocity always has a receive time to measure silence from. */
  lemma ActiveHasReceiveTime(c: Config, es: seq<Event>)
    requires c.Valid() && PossibleRun(c, Initial(), es)
    ensures var ch := Run(c, Initial(), es).ch; ch.active ==> ch.lastReceivedAt != NEVER
  {
    RunInv(c, Initial(), es);
    InvTells(c, Run(c, Initial(), es));
  }

  /** The velocity in force after a step: the last one accepted since the last reset. */
  function InForceAfter(w: World, e: Event, before: Option<Twist>): Option<Twist> {
    match e.action
    case Applied(true) =>
      (match w.sending
       case Applying(command) => Some(command.twist)
       case Zeroing => Some(Twist(0.0, 0.0, 0.0))
       case Nothing => before)
    case Reset => None
    case _ => before
  }

  function InForce(c: Config, w: World, es: seq<Event>, before: Option<Twist>): Option<Twist>
    decreases es
  {
    if es == [] then before else InForce(c, Step(c, w, es[0]), es[1..], InForceAfter(w, es[0], before))
  }

  /** Over any run, the channel is active exactly when the velocity in force is not zero. */
  lemma {:induction false} ActiveIff(c: Config, w: World, es: seq<Event>, before: Option<Twist>)
    requires (w.ch.active <==> before.Some? && AnyNonzero(before.value))
    ensures var v, velocity := Run(c, w, es).ch, InForce(c, w, es, before);
      v.active <==> velocity.Some? && AnyNonzero(velocity.value)
    decreases es
  {
    if es != [] {
      ActiveIff(c, Step(c, w, es[0]), es[1..], InForceAfter(w, es[0], before));
    }
  }

  /** Between RPCs the watchdog is marked fired exactly when it has made an attempt since the
      latest dispatch and the latest reset: both of them arm it again. */
  lemma FiredIff(c: Config, es: seq<Event>)
    requires c.Valid() && PossibleRun(c, Initial(), es) && Run(c, Initial(), es).sending.Nothing?
    ensures var ch := Run(c, Initial(), es).ch; ch.fired <==> AttemptedSince(ch)
  {
    RunInv(c, Initial(), es);
  }

  /** A watchdog step makes an attempt exactly when the client holds control, the last accepted
      velocity was not zero, none was made since the latest dispatch or reset, and the newest
      message is older than the timeout. */
  lemma WatchIff(c: Config, es: seq<Event>, e: Event)
    requires c.Valid() && PossibleRun(c, Initial(), es)
    requires Possible(Run(c, Initial(), es), e) && e.action.Watch?
    ensures var w := Run(c, Initial(), es);
      var w' := Step(c, w, e);
      && (|w'.ch.attempts| == |w.ch.attempts| + 1 <==>
            && w.ch.active && !AttemptedSince(w.ch) && e.action.controlled
            && e.at - w.ch.lastReceivedAt > c.timeoutMs)
      && (w'.sending.Zeroing? <==> |w'.ch.attempts| == |w.ch.attempts| + 1)
  {
    ActiveHasReceiveTime(c, es);
    FiredIff(c, es);
  }

  /** A run in which silence makes no attempt: a velocity is accepted, control is lost, and the
      watchdog finds the input long since silent. */
  lemma SilenceWithoutControlExample(c: Config)
    requires c.Valid()
    ensures var late := 1 + c.timeoutMs + 1;
      var es := [
        Event(1, Receive(Finite(Twist(1.0, 0.0, 0.0)))),
        Event(1, DispatchPending),
        Event(1, Applied(true)),
        Event(late, Watch(false))];
      && PossibleRun(c, Initial(), es)
      && var ch := Run(c, Initial(), es).ch;
         ch.active && late - ch.lastReceivedAt > c.timeoutMs && ch.attempts == []
  {
    var e0, e1 := Event(1, Receive(Finite(Twist(1.0, 0.0, 0.0)))), Event(1, DispatchPending);
    var e2, e3 := Event(1, Applied(true)), Event(1 + c.timeoutMs + 1, Watch(false));
    var w1 := Step(c, Initial(), e0);
    var w2 := Step(c, w1, e1);
    var w3 := Step(c, w2, e2);
    RunStep(c, Initial(), e0, [e1, e2, e3]);
    RunStep(c, w1, e1, [e2, e3]);
    RunStep(c, w2, e2, [e3]);
    RunStep(c, w3, e3, []);
  }

  lemma RunStep(c: Config, w: World, e: Event, es: seq<Event>)
    ensures Run(c, w, [e] + es) == Run(c, Step(c, w, e), es)
    ensures PossibleRun(c, w, [e] + es) <==> Possible(w, e) && PossibleRun(c, Step(c, w, e), es)
  {
    hide Step, Possible;
    assert ([e] + es)[1..] == es;
  }

  /** Any two watchdog attempts have a fresh dispatch or a tracking reset between them. */
  lemma AttemptsAreSeparated(c: Config, es: seq<Event>, i: nat, j: nat)
    requires c.Valid() && PossibleRun(c, Initial(), es)
    requires i < j < |Run(c, Initial(), es).ch.attempts|
    ensures Separated(Run(c, Initial(), es).ch.attempts[i], Run(c, Initial(), es).ch.attempts[j])
  {
    RunInv(c, Initial(), es);
    SeparatedAcross(Run(c, Initial(), es).ch.attempts, i, j);
  }

  lemma {:induction false} SeparatedAcross(attempts: seq<Attempt>, i: nat, j: nat)
    requires i < j < |attempts|
    requires forall k :: 0 < k < |attempts| ==> FollowsSeparately(attempts, k)
    ensures Separated(attempts[i], attempts[j])
    decreases j
  {
    assert FollowsSeparately(attempts, j);
    if i < j - 1 {
      SeparatedAcross(attempts, i, j - 1);
    }
  }

  /** The client stays controlled, and the worker runs the watchdog at least every `gap` ms. */
  predicate WatchedRun(c: Config, w: World, es: seq<Event>, gap: int)
    decreases es
  {
    es == [] || (
      && Possible(w, es[0])
      && es[0].at <= w.lastWatch + gap
      && (es[0].action.Watch? ==> es[0].action.controlled)
      && WatchedRun(c, Step(c, w, es[0]), es[1..], gap))
  }

  /** The latest watchdog step found the present input recent enough. */
  predicate Watched(c: Config, w: World) {
    && Inv(c, w)
    && w.lastWatch <= w.clock
    && (w.sending.Applying? || (w.ch.active && !w.ch.fired && w.sending.Nothing?) ==>
          w.lastWatch <= w.ch.lastReceivedAt + c.timeoutMs)
  }

  lemma StepWatched(c: Config, w: World, e: Event)
    requires c.Valid() && Watched(c, w) && Possible(w, e)
    requires e.action.Watch? ==> e.action.controlled
    ensures Watched(c, Step(c, w, e))
  {
    StepInv(c, w, e);
    hide DispatchInv, AttemptInv;
    if w.ch.active {
      assert GoodReceived(w.ch, |w.ch.received| - 1, w.clock);
    }
  }

  /** Whatever went before, one watchdog step of a controlled client restores that. */
  lemma WatchEstablishes(c: Config, w: World, e: Event)
    requires c.Valid() && Inv(c, w) && Possible(w, e) && e.action == Watch(true)
    ensures Watched(c, Step(c, w, e))
  {
    WatchKeeps(c, w, e);
    if w.ch.active {
      assert GoodReceived(w.ch, |w.ch.received| - 1, w.clock);
    }
  }

  /** The watchdog steps of a run. */
  function Watches(es: seq<Event>): seq<Event> {
    if es == [] then [] else (if es[0].action.Watch? then [es[0]] else []) + Watches(es[1..])
  }

  lemma {:induction false} WatchesConcat(es: seq<Event>, fs: seq<Event>)
    ensures Watches(es + fs) == Watches(es) + Watches(fs)
  {
    if es == [] {
      assert es + fs == fs;
    } else {
      assert (es + fs)[1..] == es[1..] + fs;
      WatchesConcat(es[1..], fs);
    }
  }

  /** Between watchdog steps the latest one keeps speaking for the present input. */
  lemma {:induction false} UnwatchedRun(c: Config, w: World, es: seq<Event>)
    requires c.Valid() && Watched(c, w) && PossibleRun(c, w, es) && Watches(es) == []
    ensures Watched(c, Run(c, w, es)) && Run(c, w, es).lastWatch == w.lastWatch
    decreases es
  {
    if es != [] {
      StepWatched(c, w, es[0]);
      UnwatchedRun(c, Step(c, w, es[0]), es[1..]);
    }
  }

  /** Silence is answered.  While the client stays controlled and watchdog steps come at most
      `gap` ms apart, no step of any run finds a non-zero velocity in force, no attempt since the
      latest dispatch or reset, and the newest message more than timeout + gap old. */
  lemma {:induction false} SilenceIsAnswered(c: Config, w: World, es: seq<Event>, e: Event, gap: int)
    requires c.Valid() && Watched(c, w) && WatchedRun(c, w, es + [e], gap)
    ensures var v := Run(c, w, es);
      v.ch.active && !AttemptedSince(v.ch) && v.sending.Nothing? ==>
        e.at <= v.ch.lastReceivedAt + c.timeoutMs + gap
    decreases es
  {
    if es == [] {
      assert es + [e] == [e];
    } else {
      assert (es + [e])[0] == es[0] && (es + [e])[1..] == es[1..] + [e];
      StepWatched(c, w, es[0]);
      SilenceIsAnswered(c, Step(c, w, es[0]), es[1..], e, gap);
    }
  }
}
