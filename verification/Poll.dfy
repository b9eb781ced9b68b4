/**
 The bridge's asynchronous poll with a one-second deadline, as update_motion_status() and
 update_battery_status() run it on their own fields.

 The reply callback may run long before the worker looks at the reply, because a
 synchronous command spins the same executor.
 */
module Poll {
  import opened Wrappers

  const DEADLINE_MS: int := 1000
  const EPOCH: int := 0

  /** A reply: a usable state, an explicit rejection, or anything else. */
  datatype Body = Good(value: int) | Rejected | Bad

  /** `rejectionThrows`: the battery poll treats a rejection like a broken reply. */
  datatype Config = Config(periodMs: int, rejectionThrows: bool) {
    predicate Valid() {
      periodMs >= 1
    }
  }

  /** A request handed to the network. */
  datatype Sent = Sent(sequence: nat, at: int)

  /** A reply whose state was published. */
  datatype Accepted = Accepted(sequence: nat, sentAt: int, repliedAt: int, consumedAt: int, value: int)

  /** The five fields of a poll, the state of the pending request's future, and the history:
      requests sent, states published, requests given up, and the requests the local client
      still holds. */
  datatype Poll = Poll(
    pending: Option<nat>,
    sequence: nat,
    responseAt: Option<int>,
    deadline: int,
    nextAt: int,
    arrived: Option<Body>,
    sends: seq<Sent>,
    accepted: seq<Accepted>,
    givenUp: set<nat>,
    held: set<nat>)

  datatype Action =
    | Update(enabled: bool, sendThrows: bool)
    | Reply(sequence: nat, body: Body)
    | Cancel
    | Rearm

  datatype Event = Event(at: int, action: Action)

  /** When a request was answered, and how. */
  datatype Answered = Answered(at: int, body: Body)

  datatype World = World(p: Poll, answered: map<nat, Answered>, clock: int)

  function Fresh(): Poll {
    Poll(None, 0, None, EPOCH, EPOCH, None, [], [], {}, {})
  }

  function Initial(): World {
    World(Fresh(), map[], EPOCH)
  }

  function CancelQuery(p: Poll): Poll {
    var dropped := p.(sequence := p.sequence + 1, responseAt := None);
    if p.pending.None? then dropped
    else
      dropped.(pending := None, arrived := None, givenUp := p.givenUp + {p.pending.value},
               held := p.held - {p.pending.value})
  }

  /** The catch block: cancel, and wait a period. */
  function Abandon(c: Config, p: Poll, now: int): Poll {
    CancelQuery(p).(nextAt := now + c.periodMs)
  }

  function SendQuery(c: Config, p: Poll, now: int, sendThrows: bool): Poll {
    var started := p.(sequence := p.sequence + 1, responseAt := None);
    if sendThrows then Abandon(c, started, now)
    else
      started.(pending := Some(started.sequence), arrived := None, deadline := now + DEADLINE_MS,
               sends := p.sends + [Sent(started.sequence, now)], held := p.held + {started.sequence})
  }

  /** The worker looks at a reply that arrived in time. */
  function Consume(c: Config, p: Poll, now: int): Poll
    requires p.pending.Some? && p.arrived.Some? && p.responseAt.Some?
  {
    var taken := p.(pending := None, arrived := None, nextAt := now + c.periodMs);
    match p.arrived.value
    case Bad => Abandon(c, taken, now)
    case Rejected => if c.rejectionThrows then Abandon(c, taken, now) else taken
    case Good(value) =>
      taken.(accepted := p.accepted +
               [Accepted(p.pending.value, p.deadline - DEADLINE_MS, p.responseAt.value, now, value)])
  }

  function UpdatePoll(c: Config, p: Poll, now: int, enabled: bool, sendThrows: bool): Poll {
    if !enabled then CancelQuery(p)
    else if p.pending.None? then
      if now < p.nextAt then p else SendQuery(c, p, now, sendThrows)
    else if p.responseAt.GetOr(now) >= p.deadline then Abandon(c, p, now)
    else if p.arrived.None? || p.responseAt.None? then p
    else Consume(c, p, now)
  }

  /** The response callback, and the completion of the future of its request. */
  function HandleReply(p: Poll, now: int, sequence: nat, body: Body): Poll {
    p.(responseAt := if sequence == p.sequence then Some(now) else p.responseAt,
       arrived := if p.pending == Some(sequence) then Some(body) else p.arrived,
       held := p.held - {sequence})
  }

  function RearmQuery(p: Poll): Poll {
    CancelQuery(p).(nextAt := EPOCH)
  }

  predicate WasSent(p: Poll, sequence: nat) {
    exists i :: 0 <= i < |p.sends| && p.sends[i].sequence == sequence
  }

  /** The network answers a sent request at most once, at any time, given up or not. */
  ghost predicate Possible(w: World, e: Event) {
    && w.clock <= e.at
    && (e.action.Reply? ==> WasSent(w.p, e.action.sequence) && e.action.sequence !in w.answered)
  }

  function Step(c: Config, w: World, e: Event): World {
    match e.action
    case Update(enabled, sendThrows) => w.(p := UpdatePoll(c, w.p, e.at, enabled, sendThrows), clock := e.at)
    case Reply(sequence, body) =>
      World(HandleReply(w.p, e.at, sequence, body), w.answered[sequence := Answered(e.at, body)], e.at)
    case Cancel => w.(p := CancelQuery(w.p), clock := e.at)
    case Rearm => w.(p := RearmQuery(w.p), clock := e.at)
  }

  function Run(c: Config, w: World, es: seq<Event>): World
    decreases es
  {
    if es == [] then w else Run(c, Step(c, w, es[0]), es[1..])
  }

  ghost predicate PossibleRun(c: Config, w: World, es: seq<Event>)
    decreases es
  {
    es == [] || (Possible(w, es[0]) && PossibleRun(c, Step(c, w, es[0]), es[1..]))
  }

  // ---------- invariant ----------

  predicate GoodSend(p: Poll, i: nat)
    requires i < |p.sends|
  {
    && p.sends[i].sequence <= p.sequence
    && (i > 0 ==> p.sends[i - 1].sequence < p.sends[i].sequence && p.sends[i - 1].at <= p.sends[i].at)
  }

  /** A published state is the body of the one reply to a request that was sent, never given
      up, and answered less than a second after it was sent. */
  predicate GoodAcceptance(w: World, i: nat)
    requires i < |w.p.accepted|
  {
    var a := w.p.accepted[i];
    && a.sequence <= w.p.sequence
    && (i > 0 ==> w.p.accepted[i - 1].sequence < a.sequence)
    && a.sequence !in w.p.givenUp
    && Sent(a.sequence, a.sentAt) in w.p.sends
    && a.sequence in w.answered && w.answered[a.sequence] == Answered(a.repliedAt, Good(a.value))
    && a.sentAt <= a.repliedAt < a.sentAt + DEADLINE_MS
    && a.repliedAt <= a.consumedAt
  }

  predicate PendingInv(w: World) {
    var p := w.p;
    && (p.pending.None? ==> p.arrived.None? && p.held == {})
    && (p.pending.Some? ==>
          && p.pending.value == p.sequence
          && p.sends != []
          && p.sends[|p.sends| - 1].sequence == p.sequence
          && p.sends[|p.sends| - 1].at + DEADLINE_MS == p.deadline
          && p.sequence !in p.givenUp
          && (p.arrived.Some? <==> p.responseAt.Some?)
          && (p.arrived.Some? <==> p.sequence in w.answered)
          && (p.arrived.Some? ==> w.answered[p.sequence] == Answered(p.responseAt.value, p.arrived.value))
          && p.held == (if p.arrived.Some? then {} else {p.sequence})
          && (p.responseAt.Some? ==> p.deadline - DEADLINE_MS <= p.responseAt.value <= w.clock))
  }

  predicate HistoryInv(w: World) {
    var p := w.p;
    && (forall q :: q in p.givenUp ==> q <= p.sequence)
    && (forall q :: q in w.answered ==> q <= p.sequence)
    && (forall i :: 0 <= i < |p.sends| ==> GoodSend(p, i))
    && (p.sends != [] ==> p.sends[|p.sends| - 1].at <= w.clock)
  }

  predicate AcceptanceInv(w: World) {
    && (forall i :: 0 <= i < |w.p.accepted| ==> GoodAcceptance(w, i))
    && (forall i :: 0 <= i < |w.p.accepted| ==> w.p.pending.Some? ==> w.p.accepted[i].sequence < w.p.sequence)
  }

  predicate Inv(w: World) {
    PendingInv(w) && HistoryInv(w) && AcceptanceInv(w)
  }

  lemma SendsStay(p: Poll, p': Poll)
    requires forall i :: 0 <= i < |p.sends| ==> GoodSend(p, i)
    requires p.sends <= p'.sends && p.sequence <= p'.sequence
    ensures forall i :: 0 <= i < |p.sends| ==> GoodSend(p', i)
  {
    forall i | 0 <= i < |p.sends| ensures GoodSend(p', i) {
      assert GoodSend(p, i);
    }
  }

  /** Old acceptances stay good: nothing they rest on is given up, forgotten or answered anew. */
  lemma AcceptancesStay(w: World, w': World)
    requires forall i :: 0 <= i < |w.p.accepted| ==> GoodAcceptance(w, i)
    requires w.p.sequence <= w'.p.sequence && w.p.accepted <= w'.p.accepted && w.p.sends <= w'.p.sends
    requires forall i :: 0 <= i < |w.p.accepted| ==>
               w.p.accepted[i].sequence in w'.p.givenUp ==> w.p.accepted[i].sequence in w.p.givenUp
    requires forall q :: q in w.answered ==> q in w'.answered && w'.answered[q] == w.answered[q]
    ensures forall i :: 0 <= i < |w.p.accepted| ==> GoodAcceptance(w', i)
  {
    forall i | 0 <= i < |w.p.accepted| ensures GoodAcceptance(w', i) {
      assert GoodAcceptance(w, i);
    }
  }

  lemma SentIsBounded(w: World, q: nat)
    requires HistoryInv(w) && WasSent(w.p, q)
    ensures q <= w.p.sequence
  {
    var i :| 0 <= i < |w.p.sends| && w.p.sends[i].sequence == q;
    assert GoodSend(w.p, i);
  }

  predicate Sends(p: Poll, now: int, a: Action) {
    a.Update? && a.enabled && p.pending.None? && now >= p.nextAt && !a.sendThrows
  }

  lemma SendKeeps(c: Config, w: World, e: Event)
    requires c.Valid() && Inv(w) && Possible(w, e) && Sends(w.p, e.at, e.action)
    ensures Inv(Step(c, w, e))
  {
    var p, w' := w.p, Step(c, w, e);
    SendsStay(p, w'.p);
    AcceptancesStay(w, w');
    forall i | 0 <= i < |w'.p.accepted| ensures w'.p.accepted[i].sequence < w'.p.sequence {
      assert GoodAcceptance(w, i);
    }
    if p.sends != [] {
      assert GoodSend(p, |p.sends| - 1);
    }
    assert GoodSend(w'.p, |p.sends|);
  }

  predicate Accepts(p: Poll, now: int, a: Action) {
    && a.Update? && a.enabled && p.pending.Some?
    && p.responseAt.Some? && p.responseAt.value < p.deadline
    && p.arrived.Some? && p.arrived.value.Good?
  }

  lemma AcceptKeeps(c: Config, w: World, e: Event)
    requires c.Valid() && Inv(w) && Possible(w, e) && Accepts(w.p, e.at, e.action)
    ensures Inv(Step(c, w, e))
  {
    var w' := Step(c, w, e);
    SendsStay(w.p, w'.p);
    AcceptancesStay(w, w');
    assert w.p.sends[|w.p.sends| - 1] == Sent(w.p.sequence, w.p.deadline - DEADLINE_MS);
    assert GoodAcceptance(w', |w.p.accepted|);
  }

  /** Whatever ends a poll without publishing leaves nothing pending and nothing published. */
  lemma EndedKeeps(w: World, e: Event, p': Poll)
    requires Inv(w) && Possible(w, e)
    requires p'.pending.None? && p'.arrived.None? && p'.held == {}
    requires p'.sends == w.p.sends && p'.accepted == w.p.accepted
    requires w.p.sequence <= p'.sequence
    requires p'.givenUp == w.p.givenUp || (w.p.pending.Some? && p'.givenUp == w.p.givenUp + {w.p.sequence})
    ensures Inv(w.(p := p', clock := e.at))
  {
    SendsStay(w.p, p');
    AcceptancesStay(w, w.(p := p', clock := e.at));
  }

  /** A poll still waiting, or given up: by deadline, by a throwing send, by a broken reply, or
      because polling is disabled. */
  lemma UpdateKeeps(c: Config, w: World, e: Event)
    requires c.Valid() && Inv(w) && Possible(w, e) && e.action.Update?
    requires !Sends(w.p, e.at, e.action) && !Accepts(w.p, e.at, e.action)
    ensures Inv(Step(c, w, e))
  {
    AcceptancesStay(w, Step(c, w, e));
    if Step(c, w, e).p != w.p {
      EndedKeeps(w, e, Step(c, w, e).p);
    }
  }

  lemma ReplyKeeps(c: Config, w: World, e: Event)
    requires c.Valid() && Inv(w) && Possible(w, e) && e.action.Reply?
    ensures Inv(Step(c, w, e))
  {
    SentIsBounded(w, e.action.sequence);
    SendsStay(w.p, Step(c, w, e).p);
    AcceptancesStay(w, Step(c, w, e));
  }

  lemma StepInv(c: Config, w: World, e: Event)
    requires c.Valid() && Inv(w) && Possible(w, e)
    ensures Inv(Step(c, w, e))
  {
    if Sends(w.p, e.at, e.action) {
      SendKeeps(c, w, e);
    } else if Accepts(w.p, e.at, e.action) {
      AcceptKeeps(c, w, e);
    } else if e.action.Update? {
      UpdateKeeps(c, w, e);
    } else if e.action.Reply? {
      ReplyKeeps(c, w, e);
    } else {
      EndedKeeps(w, e, Step(c, w, e).p);
    }
  }

  lemma {:induction false} RunInv(c: Config, w: World, es: seq<Event>)
    requires c.Valid() && Inv(w) && PossibleRun(c, w, es)
    ensures Inv(Run(c, w, es))
    decreases es
  {
    if es != [] {
      StepInv(c, w, es[0]);
      RunInv(c, Step(c, w, es[0]), es[1..]);
    }
  }

  // ---------- theorems ----------

  /** At most one request is held locally: the pending one, until its reply arrives.  A request
      given up, or answered, is held no longer. */
  lemma AtMostOneHeld(c: Config, es: seq<Event>)
    requires c.Valid() && PossibleRun(c, Initial(), es)
    ensures var p := Run(c, Initial(), es).p;
      && |p.held| <= 1
      && p.held == (if p.pending.Some? && p.arrived.None? then {p.pending.value} else {})
  {
    RunInv(c, Initial(), es);
  }

  /** The update that sends a request at this time. */
  predicate SendsAt(es: seq<Event>, at: int) {
    Event(at, Update(true, false)) in es
  }

  predicate UpdatesAt(es: seq<Event>, at: int) {
    Event(at, Update(true, false)) in es || Event(at, Update(true, true)) in es
  }

  predicate RepliesAt(es: seq<Event>, at: int, sequence: nat, body: Body) {
    Event(at, Reply(sequence, body)) in es
  }

  /** The histories record steps of `past`. */
  predicate Recorded(w: World, past: seq<Event>) {
    && (forall i :: 0 <= i < |w.p.sends| ==> SendsAt(past, w.p.sends[i].at))
    && (forall q :: q in w.answered ==> RepliesAt(past, w.answered[q].at, q, w.answered[q].body))
    && (forall i :: 0 <= i < |w.p.accepted| ==> UpdatesAt(past, w.p.accepted[i].consumedAt))
  }

  lemma StepRecorded(c: Config, w: World, e: Event, past: seq<Event>)
    requires Recorded(w, past)
    ensures Recorded(Step(c, w, e), past + [e])
  {
    var w' := Step(c, w, e);
    forall i | 0 <= i < |w'.p.sends| ensures SendsAt(past + [e], w'.p.sends[i].at) {
      assert i < |w.p.sends| ==> SendsAt(past, w.p.sends[i].at);
    }
    forall q | q in w'.answered ensures RepliesAt(past + [e], w'.answered[q].at, q, w'.answered[q].body) {
      assert w'.answered != w.answered || RepliesAt(past, w.answered[q].at, q, w.answered[q].body);
      if e.action.Reply? && e.action.sequence != q {
        assert RepliesAt(past, w.answered[q].at, q, w.answered[q].body);
      }
    }
    forall i | 0 <= i < |w'.p.accepted| ensures UpdatesAt(past + [e], w'.p.accepted[i].consumedAt) {
      assert i < |w.p.accepted| ==> UpdatesAt(past, w.p.accepted[i].consumedAt);
    }
  }

  lemma {:induction false} RunRecorded(c: Config, w: World, es: seq<Event>, past: seq<Event>)
    requires Recorded(w, past)
    ensures Recorded(Run(c, w, es), past + es)
    decreases es
  {
    hide Step, Recorded;
    if es == [] {
      assert past + es == past;
    } else {
      StepRecorded(c, w, es[0], past);
      RunRecorded(c, Step(c, w, es[0]), es[1..], past + [es[0]]);
      assert past + [es[0]] + es[1..] == past + es;
    }
  }

  /** The i-th published state is good, and its request, reply and publication are steps of the
      run. */
  predicate Brought(w: World, es: seq<Event>, i: nat)
    requires i < |w.p.accepted|
  {
    var a := w.p.accepted[i];
    && GoodAcceptance(w, i)
    && SendsAt(es, a.sentAt) && RepliesAt(es, a.repliedAt, a.sequence, Good(a.value)) && UpdatesAt(es, a.consumedAt)
  }

  /** Over any run, each published state is what a reply of the run carried: the one reply to a
      request sent by an update of the run, less than a second after it, never given up, and
      published by a later update, once and in the order sent. */
  lemma PublishedOnlyOnTime(c: Config, es: seq<Event>, i: nat)
    requires c.Valid() && PossibleRun(c, Initial(), es)
    requires i < |Run(c, Initial(), es).p.accepted|
    ensures Brought(Run(c, Initial(), es), es, i)
  {
    RunInv(c, Initial(), es);
    RunRecorded(c, Initial(), es, []);
    assert [] + es == es;
    var w := Run(c, Initial(), es);
    assert GoodAcceptance(w, i);
    var k :| 0 <= k < |w.p.sends| && w.p.sends[k] == Sent(w.p.accepted[i].sequence, w.p.accepted[i].sentAt);
  }

  /** A reply never publishes by itself, and once its request is given up it never does: what
      is given up stays given up, and nothing given up is among the published. */
  lemma GivenUpIsNeverPublished(c: Config, es: seq<Event>, fs: seq<Event>, q: nat)
    requires c.Valid() && PossibleRun(c, Initial(), es + fs)
    requires q in Run(c, Initial(), es).p.givenUp
    ensures var p := Run(c, Initial(), es + fs).p;
      q in p.givenUp && forall i :: 0 <= i < |p.accepted| ==> p.accepted[i].sequence != q
  {
    RunInv(c, Initial(), es + fs);
    RunConcat(c, Initial(), es, fs);
    GivenUpStays(c, Run(c, Initial(), es), fs, q);
    var p := Run(c, Initial(), es + fs).p;
    forall i | 0 <= i < |p.accepted| ensures p.accepted[i].sequence != q {
      assert GoodAcceptance(Run(c, Initial(), es + fs), i);
    }
  }

  lemma {:induction false} RunConcat(c: Config, w: World, es: seq<Event>, fs: seq<Event>)
    ensures Run(c, w, es + fs) == Run(c, Run(c, w, es), fs)
    ensures PossibleRun(c, w, es + fs) <==> PossibleRun(c, w, es) && PossibleRun(c, Run(c, w, es), fs)
    decreases es
  {
    if es == [] {
      assert es + fs == fs;
    } else {
      assert (es + fs)[1..] == es[1..] + fs;
      RunConcat(c, Step(c, w, es[0]), es[1..], fs);
    }
  }

  lemma {:induction false} GivenUpStays(c: Config, w: World, es: seq<Event>, q: nat)
    requires q in w.p.givenUp
    ensures q in Run(c, w, es).p.givenUp
    decreases es
  {
    if es != [] {
      assert q in Step(c, w, es[0]).p.givenUp;
      GivenUpStays(c, Step(c, w, es[0]), es[1..], q);
    }
  }

  /** Neither cancelled nor disabled, and not the reply to request q. */
  predicate LeavesAlone(e: Event, q: nat) {
    match e.action
    case Update(enabled, _) => enabled
    case Reply(sequence, _) => sequence != q
    case _ => false
  }

  predicate AllLeaveAlone(es: seq<Event>, q: nat) {
    forall i :: 0 <= i < |es| ==> LeavesAlone(es[i], q)
  }

  /** Until it is answered, a request left alone is pending exactly as long as no worker update
      came at or after its deadline; then it is given up. */
  lemma {:induction false} UnansweredWaits(c: Config, w: World, es: seq<Event>, q: nat)
    requires c.Valid() && Inv(w) && PossibleRun(c, w, es) && AllLeaveAlone(es, q)
    requires w.p.pending == Some(q) && w.p.arrived.None?
    ensures var v := Run(c, w, es);
      if v.p.pending == Some(q)
      then v.p.deadline == w.p.deadline && v.p.arrived.None? && v.p.accepted == w.p.accepted
      else q in v.p.givenUp && v.clock >= w.p.deadline
    decreases es
  {
    if es != [] {
      var v := Step(c, w, es[0]);
      StepInv(c, w, es[0]);
      assert LeavesAlone(es[0], q);
      assert AllLeaveAlone(es[1..], q);
      if v.p.pending == Some(q) {
        UnansweredWaits(c, v, es[1..], q);
      } else {
        assert q in v.p.givenUp && v.clock >= w.p.deadline;
        GivenUpStays(c, v, es[1..], q);
        ClockAdvances(c, v, es[1..]);
        RunInv(c, v, es[1..]);
        GivenUpIsNotPending(c, Run(c, v, es[1..]), q);
      }
    }
  }

  lemma GivenUpIsNotPending(c: Config, w: World, q: nat)
    requires Inv(w) && q in w.p.givenUp
    ensures w.p.pending != Some(q)
  {
  }

  lemma {:induction false} ClockAdvances(c: Config, w: World, es: seq<Event>)
    requires PossibleRun(c, w, es)
    ensures w.clock <= Run(c, w, es).clock
    decreases es
  {
    if es != [] {
      ClockAdvances(c, Step(c, w, es[0]), es[1..]);
    }
  }

  /** Replies and nothing else, as they come in while a synchronous command keeps the worker. */
  predicate OnlyReplies(es: seq<Event>) {
    forall i :: 0 <= i < |es| ==> es[i].action.Reply?
  }

  lemma {:induction false} RepliesKeepAnswer(c: Config, w: World, es: seq<Event>)
    requires c.Valid() && Inv(w) && PossibleRun(c, w, es) && OnlyReplies(es)
    requires w.p.pending.Some? && w.p.arrived.Some?
    ensures Run(c, w, es).p == w.p.(held := Run(c, w, es).p.held)
    decreases es
  {
    if es != [] {
      StepInv(c, w, es[0]);
      SentIsBounded(w, es[0].action.sequence);
      assert es[0].action.sequence != w.p.sequence;
      assert OnlyReplies(es[1..]);
      RepliesKeepAnswer(c, Step(c, w, es[0]), es[1..]);
    }
  }

  /** The deadline rule.  Send a request; let anything happen except a cancellation until its
      reply callback runs at time r; let the worker be kept as long as it likes; then let it
      update.  The state in the reply is published if r is before send + 1000 ms, and
      otherwise never. */
  lemma OnTimeIff(c: Config, w: World, waiting: seq<Event>, reply: Event, kept: seq<Event>, update: Event)
    requires c.Valid() && Inv(w) && PossibleRun(c, w, waiting + [reply] + kept + [update])
    requires w.p.pending.Some? && w.p.arrived.None?
    requires AllLeaveAlone(waiting, w.p.sequence) && OnlyReplies(kept)
    requires reply.action.Reply? && reply.action.sequence == w.p.sequence && reply.action.body.Good?
    requires update.action.Update? && update.action.enabled
    ensures Published(c, w.p, reply, update.at, Run(c, w, waiting + [reply] + kept + [update]).p)
  {
    var q := w.p.sequence;
    var v, rest := Run(c, w, waiting), kept + [update];
    assert waiting + [reply] + kept + [update] == waiting + ([reply] + rest);
    assert ([reply] + rest)[1..] == rest;
    RunConcat(c, w, waiting, [reply] + rest);
    UnansweredWaits(c, w, waiting, q);
    RunInv(c, w, waiting);
    if v.p.pending == Some(q) {
      AnsweredThenUpdated(c, v, reply, kept, update);
    } else {
      GivenUpStays(c, v, [reply] + rest, q);
    }
  }

  lemma AnsweredThenUpdated(c: Config, v: World, reply: Event, kept: seq<Event>, update: Event)
    requires c.Valid() && Inv(v) && PossibleRun(c, v, [reply] + (kept + [update]))
    requires v.p.pending.Some? && v.p.arrived.None? && OnlyReplies(kept)
    requires reply.action.Reply? && reply.action.sequence == v.p.sequence && reply.action.body.Good?
    requires update.action.Update? && update.action.enabled
    ensures Published(c, v.p, reply, update.at, Run(c, v, [reply] + (kept + [update])).p)
  {
    var answered := Step(c, v, reply);
    assert ([reply] + (kept + [update]))[1..] == kept + [update];
    StepInv(c, v, reply);
    RunConcat(c, answered, kept, [update]);
    RepliesKeepAnswer(c, answered, kept);
    var u := Run(c, answered, kept);
    RunOne(c, u, update);
    UpdateOfAnswered(c, v.p, reply, u.p, update.at, update.action.sendThrows);
  }

  /** The reply's state is published if the reply came in time; else its request is given up. */
  predicate Published(c: Config, p: Poll, reply: Event, now: int, after: Poll)
    requires reply.action.Reply? && reply.action.body.Good?
  {
    if reply.at < p.deadline
    then
      var sentAt := p.deadline - DEADLINE_MS;
      after.accepted == p.accepted + [Accepted(p.sequence, sentAt, reply.at, now, reply.action.body.value)]
    else p.sequence in after.givenUp
  }

  lemma UpdateOfAnswered(c: Config, p: Poll, reply: Event, u: Poll, now: int, sendThrows: bool)
    requires p.pending == Some(p.sequence)
    requires reply.action.Reply? && reply.action.sequence == p.sequence && reply.action.body.Good?
    requires u == HandleReply(p, reply.at, reply.action.sequence, reply.action.body).(held := u.held)
    ensures Published(c, p, reply, now, UpdatePoll(c, u, now, true, sendThrows))
  {
  }

  lemma RunOne(c: Config, w: World, e: Event)
    ensures Run(c, w, [e]) == Step(c, w, e)
  {
    assert Run(c, Step(c, w, e), []) == Step(c, w, e);
  }

  // ---------- spacing ----------

  /** The step re-arms the poll, or cancels it in flight. */
  predicate Interrupts(p: Poll, a: Action) {
    || a.Rearm?
    || (p.pending.Some? && (a.Cancel? || (a.Update? && !a.enabled)))
  }

  predicate Uninterrupted(c: Config, w: World, es: seq<Event>)
    decreases es
  {
    es == [] || (!Interrupts(w.p, es[0].action) && Uninterrupted(c, Step(c, w, es[0]), es[1..]))
  }

  /** Requests from number `from` on are a period apart, and the next one waits for its turn. */
  predicate SpacedFrom(c: Config, p: Poll, from: nat) {
    && AllSpaced(c, p, from)
    && (p.pending.None? && from < |p.sends| ==> p.sends[|p.sends| - 1].at + c.periodMs <= p.nextAt)
  }

  /** All requests from number `from` on are a period apart. */
  predicate AllSpaced(c: Config, p: Poll, from: nat) {
    forall i :: from < i < |p.sends| ==> FollowsSpaced(c, p, i)
  }

  predicate FollowsSpaced(c: Config, p: Poll, i: nat)
    requires 0 < i < |p.sends|
  {
    p.sends[i - 1].at + c.periodMs <= p.sends[i].at
  }

  lemma StepSpaced(c: Config, w: World, e: Event, from: nat)
    requires c.Valid() && Inv(w) && Possible(w, e) && !Interrupts(w.p, e.action) && SpacedFrom(c, w.p, from)
    ensures SpacedFrom(c, Step(c, w, e).p, from)
  {
    var p, p' := w.p, Step(c, w, e).p;
    forall i | from < i < |p'.sends| ensures FollowsSpaced(c, p', i) {
      assert i < |p.sends| ==> FollowsSpaced(c, p, i);
    }
  }

  lemma {:induction false} RunSpaced(c: Config, w: World, es: seq<Event>, from: nat)
    requires c.Valid() && Inv(w) && PossibleRun(c, w, es) && Uninterrupted(c, w, es) && SpacedFrom(c, w.p, from)
    ensures SpacedFrom(c, Run(c, w, es).p, from)
    decreases es
  {
    if es != [] {
      StepSpaced(c, w, es[0], from);
      StepInv(c, w, es[0]);
      RunSpaced(c, Step(c, w, es[0]), es[1..], from);
    }
  }

  /** The first request of which `fs` sees the sending or the end. */
  function FirstSeen(p: Poll): nat {
    if p.pending.Some? && p.sends != [] then |p.sends| - 1 else |p.sends|
  }

  /** Polls are a full period apart: in any part of any run in which the poll is neither
      re-armed nor cancelled in flight, consecutive requests - the one pending at its start
      included - go out at least a period after each other. */
  lemma PollsAreSpaced(c: Config, es: seq<Event>, fs: seq<Event>)
    requires c.Valid() && PossibleRun(c, Initial(), es + fs)
    requires Uninterrupted(c, Run(c, Initial(), es), fs)
    ensures AllSpaced(c, Run(c, Initial(), es + fs).p, FirstSeen(Run(c, Initial(), es).p))
  {
    var w := Run(c, Initial(), es);
    RunConcat(c, Initial(), es, fs);
    RunInv(c, Initial(), es);
    RunSpaced(c, w, fs, FirstSeen(w.p));
  }

  /** No request is sent before `until`, except the first `count`. */
  predicate Waits(p: Poll, count: nat, until: int) {
    && count <= |p.sends|
    && (|p.sends| == count ==> p.pending.None? && p.nextAt >= until)
    && (forall i :: count <= i < |p.sends| ==> p.sends[i].at >= until)
  }

  lemma {:induction false} RunWaits(c: Config, w: World, es: seq<Event>, count: nat, until: int)
    requires c.Valid() && Inv(w) && PossibleRun(c, w, es) && Uninterrupted(c, w, es) && Waits(w.p, count, until)
    requires |w.p.sends| > count ==> w.clock >= until
    ensures Waits(Run(c, w, es).p, count, until)
    decreases es
  {
    if es != [] {
      StepInv(c, w, es[0]);
      assert Waits(Step(c, w, es[0]).p, count, until);
      RunWaits(c, Step(c, w, es[0]), es[1..], count, until);
    }
  }

  /** The period starts when a poll ends: after an update ends the pending poll - it publishes,
      gives up, or finds the reply broken - no request goes out for a full period, unless the
      poll is re-armed. */
  lemma PeriodStartsAtEnd(c: Config, es: seq<Event>, e: Event, fs: seq<Event>, i: nat)
    requires c.Valid() && PossibleRun(c, Initial(), es + ([e] + fs))
    requires var w := Run(c, Initial(), es);
      && w.p.pending.Some? && Step(c, w, e).p.pending.None? && !Interrupts(w.p, e.action)
      && Uninterrupted(c, Step(c, w, e), fs)
      && |w.p.sends| <= i < |Run(c, Initial(), es + ([e] + fs)).p.sends|
    ensures Run(c, Initial(), es + ([e] + fs)).p.sends[i].at >= e.at + c.periodMs
  {
    var w := Run(c, Initial(), es);
    assert ([e] + fs)[1..] == fs;
    RunConcat(c, Initial(), es, [e] + fs);
    RunInv(c, Initial(), es);
    StepInv(c, w, e);
    RunWaits(c, Step(c, w, e), fs, |w.p.sends|, e.at + c.periodMs);
  }

  /** Re-arming is the exception: the next update of a re-armed poll sends at once. */
  lemma RearmedPollSendsAtOnce(c: Config, w: World, rearm: int, now: int)
    requires Inv(w) && EPOCH <= now
    ensures var v := Step(c, Step(c, w, Event(rearm, Rearm)), Event(now, Update(true, false)));
      v.p.sends == w.p.sends + [Sent(w.p.sequence + 2, now)] && v.p.pending == Some(w.p.sequence + 2)
  {
  }

  // ---------- polling goes on ----------

  /** The poll has sent its request number `count`, or will at the first update from `until` on. */
  predicate Due(p: Poll, count: nat, until: int) {
    |p.sends| > count || (|p.sends| == count && p.pending.None? && p.nextAt <= until)
  }

  predicate NoSendThrows(es: seq<Event>) {
    forall i :: 0 <= i < |es| ==> !(es[i].action.Update? && es[i].action.sendThrows)
  }

  lemma {:induction false} RunDue(c: Config, w: World, es: seq<Event>, count: nat, until: int)
    requires c.Valid() && NoSendThrows(es) && Due(w.p, count, until) && EPOCH <= until
    ensures Due(Run(c, w, es).p, count, until)
    decreases es
  {
    if es != [] {
      assert Due(Step(c, w, es[0]).p, count, until);
      RunDue(c, Step(c, w, es[0]), es[1..], count, until);
    }
  }

  /** An enabled update that is not thrown out makes a due request. */
  lemma DueUpdateSends(c: Config, p: Poll, now: int, count: nat, until: int)
    requires Due(p, count, until) && now >= until
    ensures |UpdatePoll(c, p, now, true, false).sends| > count
    ensures |p.sends| == count ==> UpdatePoll(c, p, now, true, false).sends == p.sends + [Sent(p.sequence + 1, now)]
  {
  }

  /** Polling goes on: when an update has ended a poll - published, given up, found broken - the
      first enabled update a period later sends the next request, whatever comes in between; and
      a fresh poll sends at its first enabled update. */
  lemma PollsGoOn(c: Config, es: seq<Event>, e: Event, fs: seq<Event>, now: int)
    requires c.Valid() && PossibleRun(c, Initial(), es + ([e] + fs)) && NoSendThrows(fs)
    requires var w := Run(c, Initial(), es);
      e.action.Update? && e.action.enabled && w.p.pending.Some? && Step(c, w, e).p.pending.None?
    requires now >= e.at + c.periodMs
    ensures var w := Run(c, Initial(), es);
      |Step(c, Run(c, Initial(), es + ([e] + fs)), Event(now, Update(true, false))).p.sends| > |w.p.sends|
  {
    var w := Run(c, Initial(), es);
    assert ([e] + fs)[1..] == fs;
    RunConcat(c, Initial(), es, [e] + fs);
    EndingMakesDue(c, w, e);
    ClockAdvances(c, Initial(), es);
    RunDue(c, Step(c, w, e), fs, |w.p.sends|, e.at + c.periodMs);
    DueUpdateSends(c, Run(c, Step(c, w, e), fs).p, now, |w.p.sends|, e.at + c.periodMs);
  }

  lemma EndingMakesDue(c: Config, w: World, e: Event)
    requires e.action.Update? && e.action.enabled && w.p.pending.Some? && Step(c, w, e).p.pending.None?
    ensures Due(Step(c, w, e).p, |w.p.sends|, e.at + c.periodMs)
    ensures Step(c, w, e).p.nextAt == e.at + c.periodMs
  {
  }

  lemma FreshPollSends(c: Config, fs: seq<Event>, now: int)
    requires c.Valid() && NoSendThrows(fs) && EPOCH <= now
    ensures |Step(c, Run(c, Initial(), fs), Event(now, Update(true, false))).p.sends| > 0
  {
    RunDue(c, Initial(), fs, 0, EPOCH);
    DueUpdateSends(c, Run(c, Initial(), fs).p, now, 0, EPOCH);
  }

  /** A send that throws only puts the request off by a period. */
  lemma ThrownSendRetries(c: Config, w: World, at: int)
    requires w.p.pending.None? && at >= w.p.nextAt
    ensures Due(Step(c, w, Event(at, Update(true, true))).p, |w.p.sends|, at + c.periodMs)
  {
  }

  /** No request hangs: any enabled update at or after its deadline ends it, and so does the first
      one after its reply. */
  lemma PendingEnds(c: Config, es: seq<Event>, e: Event)
    requires c.Valid() && PossibleRun(c, Initial(), es) && Possible(Run(c, Initial(), es), e)
    requires e.action.Update? && Run(c, Initial(), es).p.pending.Some?
    ensures var p := Run(c, Initial(), es).p;
      Step(c, Run(c, Initial(), es), e).p.pending.None? <==>
        !e.action.enabled || p.arrived.Some? || e.at >= p.deadline
  {
    RunInv(c, Initial(), es);
  }
}
