/** Timing of the control lease: how long control can outlive its lease, and how many
    renewals an outage leaves room for. */
module Lease {
  import opened Wrappers
  import opened ControlSession
  import opened SessionSafety

  /** The last moment a held lease is valid, counted from the latest refresh. */
  function Expiry(s: Session): int {
    s.activity + EffectiveLease(s.lease)
  }

  /** The executor runs an existing timer at least once every `delta` ms. */
  predicate Punctual(w: World, e: Event, delta: int) {
    Possible(w, e) && (w.s.timer ==> EventEnd(w, e) <= w.lastTick + delta)
  }

  predicate PunctualRun(w: World, es: seq<Event>, delta: int)
    decreases es
  {
    es == [] || (Punctual(w, es[0], delta) && PunctualRun(Step(w, es[0]), es[1..], delta))
  }

  lemma {:induction false} PunctualIsPossible(w: World, es: seq<Event>, delta: int)
    requires PunctualRun(w, es, delta)
    ensures PossibleRun(w, es)
    decreases es
  {
    if es != [] {
      PunctualIsPossible(Step(w, es[0]), es[1..], delta);
    }
  }

  /** A pending renewal was sent before the lease ran out, and so was the last tick seen,
      unless a renewal was then in flight. */
  predicate LeaseInv(w: World) {
    && Inv(w)
    && (w.s.pendingDeadline.Some? ==> w.s.pendingDeadline.value < Expiry(w.s) + RENEW_TIMEOUT_MS)
    && (w.s.state == Controlled && w.s.controller != "" ==> w.lastTick < Expiry(w.s) + RENEW_TIMEOUT_MS)
  }

  /** One tick of the timer: a client that still holds control afterwards is inside its
      lease plus the renew timeout.  (Without a controller the tick only stops the timer.) */
  lemma TickBoundsLease(w: World, e: Event)
    requires LeaseInv(w) && Possible(w, e) && e.action.Tick? && w.s.timer
    ensures var s' := Step(w, e).s;
      s'.state == Controlled && s'.controller != "" ==> e.at < Expiry(s') + RENEW_TIMEOUT_MS
    ensures LeaseInv(Step(w, e))
  {
    TickInv(w, e);
  }

  lemma StepLeaseInv(w: World, e: Event)
    requires LeaseInv(w) && Possible(w, e)
    ensures LeaseInv(Step(w, e))
  {
    StepInv(w, e);
    StepActivity(w, e);
    match e.action
    case Tick(_) => if w.s.timer { TickBoundsLease(w, e); }
    case _ =>
  }

  lemma {:induction false} RunLeaseInv(w: World, es: seq<Event>)
    requires LeaseInv(w) && PossibleRun(w, es)
    ensures LeaseInv(Run(w, es))
    decreases es
  {
    if es != [] {
      StepLeaseInv(w, es[0]);
      RunLeaseInv(Step(w, es[0]), es[1..]);
    }
  }

  /** Lease overrun bound.  With ticks at most `delta` apart, no run - whatever renewals,
      control calls and callbacks it interleaves - is still controlled, at the time of any
      step, `lease + 3000 + delta` after the latest accepted control call or renewal. */
  lemma LeaseOverrunBound(at: int, es: seq<Event>, e: Event, delta: int)
    requires PunctualRun(Initial(at), es + [e], delta)
    ensures var s := Run(Initial(at), es).s;
      s.state == Controlled && s.controller != "" ==>
        e.at < LatestRefresh(Initial(at), es, at) + EffectiveLease(s.lease) + RENEW_TIMEOUT_MS + delta
  {
    PunctualIsPossible(Initial(at), es + [e], delta);
    RunConcat(Initial(at), es, [e]);
    RunLeaseInv(Initial(at), es);
    ActivityHistory(Initial(at), es);
    PunctualConcat(Initial(at), es, [e], delta);
  }

  lemma {:induction false} PunctualConcat(w: World, es: seq<Event>, fs: seq<Event>, delta: int)
    ensures PunctualRun(w, es + fs, delta) <==> PunctualRun(w, es, delta) && PunctualRun(Run(w, es), fs, delta)
    decreases es
  {
    if es == [] {
      assert es + fs == fs;
    } else {
      assert (es + fs)[1..] == es[1..] + fs;
      PunctualConcat(Step(w, es[0]), es[1..], fs, delta);
    }
  }

  // ---------- the bound needs a controller name ----------

  predicate OnlyTicks(es: seq<Event>) {
    forall i :: 0 <= i < |es| ==> es[i].action.Tick?
  }

  /** An empty controller name makes the first tick stop the timer for good: ticks then never
      end the control, however late they come. */
  lemma {:induction false} UnnamedControlNeverExpires(w: World, es: seq<Event>)
    requires w.s.state == Controlled && w.s.controller == "" && OnlyTicks(es)
    ensures var s := Run(w, es).s; s.state == Controlled && s.controller == ""
    decreases es
  {
    if es != [] {
      UnnamedControlNeverExpires(Step(w, es[0]), es[1..]);
    }
  }

  /** Such control is within reach: a take granted under an empty name outlives its 60 s lease
      by any time, the timer gone. */
  lemma UnnamedControlExample(late: int)
    requires late >= 3200
    ensures var es := [
        Event(0, Connect(true, 0)),
        Event(0, Begin(Acquire, true)),
        Event(3000, Finish(Accepted(Some(""), Absent))),
        Event(3200, Tick(Sent(1))),
        Event(late, Tick(Sent(2)))];
      && PossibleRun(Initial(0), es)
      && var s := Run(Initial(0), es).s;
         s.state == Controlled && !s.timer && s.activity == 3000 && EffectiveLease(s.lease) == 60000
  {
    var e0, e1 := Event(0, Connect(true, 0)), Event(0, Begin(Acquire, true));
    var e2 := Event(3000, Finish(Accepted(Some(""), Absent)));
    var e3, e4 := Event(3200, Tick(Sent(1))), Event(late, Tick(Sent(2)));
    var w1 := Step(Initial(0), e0);
    var w2 := Step(w1, e1);
    var w3 := Step(w2, e2);
    var w4 := Step(w3, e3);
    RunStep(Initial(0), e0, [e1, e2, e3, e4]);
    RunStep(w1, e1, [e2, e3, e4]);
    RunStep(w2, e2, [e3, e4]);
    RunStep(w3, e3, [e4]);
    RunStep(w4, e4, []);
  }

  /** A tick that finds the lease over, with no renewal in flight or its timeout over too,
      ends the control exactly when the controller has a name. */
  lemma OverdueTickExpiresIff(w: World, e: Event)
    requires LeaseInv(w) && Possible(w, e) && e.action.Tick? && w.s.state == Controlled
    requires e.at >= Expiry(w.s) + RENEW_TIMEOUT_MS
    ensures Step(w, e).s.state != Controlled <==> w.s.controller != ""
  {
  }

  // ---------- retries during an outage ----------

  /** Nothing refreshes or ends the session from outside: no control call, renewal or release is
      accepted, no status event revokes it, and nobody disconnects.  Everything else may
      happen: calls that fail, queries and audio and light calls that succeed, late replies to
      renewals given up, and status events that confirm the control. */
  predicate Outage(w: World, e: Event) {
    match e.action
    case Tick(_) => true
    case Connect(_, _) => true
    case Begin(call, _) => call != Release(true)
    case Finish(reply) => !Refreshes(w, e) && !(w.inFlight == Some(Release(false)) && reply.Accepted?)
    case RenewReply(_, _, _) => !AnswersInFlight(w, e)
    case ControlStatus(controlled, holder) => controlled && holder == w.s.controller
    case ReadError => true
  }

  predicate OutageRun(w: World, es: seq<Event>)
    decreases es
  {
    es == [] || (Outage(w, es[0]) && OutageRun(Step(w, es[0]), es[1..]))
  }

  /** The spacing of two attempts: the 3 s timeout, found over at the next tick, and the tick
      after that. */
  function RetrySpan(delta: int): int {
    RENEW_TIMEOUT_MS + 2 * delta
  }

  /** The time allowed for n attempts: n retry spans. */
  function Allowance(n: nat, delta: int): int {
    if n == 0 then 0 else Allowance(n - 1, delta) + RetrySpan(delta)
  }

  lemma {:induction false} AllowanceIsProduct(n: nat, delta: int)
    ensures Allowance(n, delta) == n * RetrySpan(delta)
  {
    if n > 0 {
      AllowanceIsProduct(n - 1, delta);
    }
  }

  lemma {:induction false} AllowanceGrows(m: nat, n: nat, delta: int)
    requires m <= n && delta >= 0
    ensures Allowance(m, delta) <= Allowance(n, delta)
    decreases n
  {
    if m < n {
      AllowanceGrows(m, n - 1, delta);
    }
  }

  /** `spent` is the time allowed for the attempts made so far: the next attempt is due
      before start + interval + spent, give or take one tick. */
  predicate OnSchedule(w: World, start: int, spent: int, delta: int) {
    && Inv(w)
    && spent >= 0
    && w.s.state == Controlled && w.s.controller != "" && w.s.activity == start
    && w.inFlight != Some(Release(true))
    && (w.s.pendingId.None? ==> w.lastTick < start + RenewInterval(w.s.lease) + spent)
    && (w.s.pendingId.Some? ==>
          && w.lastTick < w.s.pendingDeadline.value
          && w.s.pendingDeadline.value
             < start + RenewInterval(w.s.lease) + delta + spent - RetrySpan(delta) + RENEW_TIMEOUT_MS)
  }

  /** Whatever is not a tick moves nothing on the schedule of an outage. */
  lemma OtherStepKeepsSchedule(w: World, e: Event, start: int, spent: int, delta: int)
    requires OnSchedule(w, start, spent, delta) && Possible(w, e) && Outage(w, e) && !e.action.Tick?
    ensures OnSchedule(Step(w, e), start, spent, delta)
    ensures Step(w, e).s.lease == w.s.lease && Step(w, e).s.sequence == w.s.sequence
  {
    StepInv(w, e);
    StepActivity(w, e);
    assert Step(w, e).lastTick == w.lastTick;
    assert Step(w, e).s.pendingId == w.s.pendingId && Step(w, e).s.pendingDeadline == w.s.pendingDeadline;
  }

  /** A tick of an outage makes at most one attempt.  It keeps the schedule, or ends the
      session at a time the attempts made account for. */
  lemma OutageTick(w: World, e: Event, start: int, spent: int, delta: int)
    requires OnSchedule(w, start, spent, delta) && Punctual(w, e, delta) && e.action.Tick? && delta >= 0
    ensures var w' := Step(w, e);
      && w.s.sequence <= w'.s.sequence <= w.s.sequence + 1
      && var spent' := if w'.s.sequence == w.s.sequence then spent else spent + RetrySpan(delta);
         || (OnSchedule(w', start, spent', delta) && w'.s.lease == w.s.lease)
         || (w'.s.state != Controlled && w'.s.lastError == SessionExpired
             && EffectiveLease(w.s.lease) < RenewInterval(w.s.lease) + delta + spent')
  {
    TickInv(w, e);
  }

  /** The same, counting attempts. */
  lemma OutageStep(w: World, e: Event, start: int, first: nat, delta: int)
    requires w.s.sequence >= first && delta >= 0
    requires OnSchedule(w, start, Allowance(w.s.sequence - first, delta), delta)
    requires Punctual(w, e, delta) && Outage(w, e)
    ensures var w' := Step(w, e);
      && w'.s.sequence >= first
      && if w'.s.state == Controlled
         then OnSchedule(w', start, Allowance(w'.s.sequence - first, delta), delta) && w'.s.lease == w.s.lease
         else EffectiveLease(w.s.lease) < RenewInterval(w.s.lease) + delta + Allowance(w'.s.sequence - first, delta)
  {
    var n := w.s.sequence - first;
    if e.action.Tick? {
      OutageTick(w, e, start, Allowance(n, delta), delta);
    } else {
      OtherStepKeepsSchedule(w, e, start, Allowance(n, delta), delta);
    }
  }

  lemma {:induction false} ScheduledRetries(w: World, es: seq<Event>, start: int, first: nat, delta: int)
    requires w.s.sequence >= first && delta >= 0
    requires OnSchedule(w, start, Allowance(w.s.sequence - first, delta), delta)
    requires PunctualRun(w, es, delta) && OutageRun(w, es)
    requires Run(w, es).s.state != Controlled
    ensures Run(w, es).s.sequence >= first
    ensures EffectiveLease(w.s.lease)
            < RenewInterval(w.s.lease) + delta + Allowance(Run(w, es).s.sequence - first, delta)
    decreases es
  {
    hide Step, Punctual, RenewInterval, EffectiveLease, Allowance;
    if es != [] {
      var w' := Step(w, es[0]);
      OutageStep(w, es[0], start, first, delta);
      if w'.s.state == Controlled {
        ScheduledRetries(w', es[1..], start, first, delta);
      } else {
        AttemptsAreKept(w', es[1..]);
        AllowanceGrows(w'.s.sequence - first, Run(w, es).s.sequence - first, delta);
      }
    }
  }

  lemma DivisionBound(room: int, n: int, span: int)
    requires span > 0 && room < n * span
    ensures n >= 1 + room / span
  {
    var quotient := room / span;
    assert room == quotient * span + room % span;
    assert (n - quotient) * span == n * span - quotient * span;
  }

  lemma StepKeepsAttempts(w: World, e: Event)
    ensures Step(w, e).s.sequence >= w.s.sequence
  {
  }

  lemma {:induction false} AttemptsAreKept(w: World, es: seq<Event>)
    ensures Run(w, es).s.sequence >= w.s.sequence
    decreases es
  {
    if es != [] {
      StepKeepsAttempts(w, es[0]);
      AttemptsAreKept(Step(w, es[0]), es[1..]);
    }
  }

  /** No attempt of the run fails to be handed to the network. */
  predicate NoSendThrows(es: seq<Event>) {
    forall i :: 0 <= i < |es| ==> !(es[i].action.Tick? && es[i].action.send.Threw?)
  }

  /** The renewals numbered from `first` + 1 to `last` were all sent. */
  predicate SentAll(w: World, first: nat, last: int) {
    forall q: nat :: first < q <= last ==> q in w.sent
  }

  /** Where no send throws, every attempt is a renewal sent. */
  lemma {:induction false} AttemptsAreSent(w: World, es: seq<Event>, first: nat)
    requires NoSendThrows(es) && SentAll(w, first, w.s.sequence)
    ensures SentAll(Run(w, es), first, Run(w, es).s.sequence)
    decreases es
  {
    if es != [] {
      assert SentAll(Step(w, es[0]), first, Step(w, es[0]).s.sequence);
      AttemptsAreSent(Step(w, es[0]), es[1..], first);
    }
  }

  lemma AcceptedCallStartsSchedule(w: World, e: Event, delta: int)
    requires Inv(w) && Possible(w, e) && delta >= 0
    requires w.s.state == Controlled && w.s.controller != "" && w.s.pendingId.None?
    requires e.action.Finish? && Refreshes(w, e)
    ensures OnSchedule(Step(w, e), e.at, 0, delta) && Step(w, e).s.sequence == w.s.sequence
    ensures Step(w, e).s.lease == w.s.lease
  {
    StepInv(w, e);
  }

  lemma SplitRun(w0: World, before: seq<Event>, e: Event, after: seq<Event>, delta: int)
    requires PunctualRun(w0, before + [e] + after, delta)
    ensures PunctualRun(w0, before, delta) && PossibleRun(w0, before)
    ensures var w := Run(w0, before);
      && Punctual(w, e, delta)
      && PunctualRun(Step(w, e), after, delta)
      && Run(w0, before + [e] + after) == Run(Step(w, e), after)
  {
    var w := Run(w0, before);
    assert before + [e] + after == before + ([e] + after);
    PunctualConcat(w0, before, [e] + after, delta);
    RunConcat(w0, before, [e] + after);
    PunctualIsPossible(w0, before, delta);
    assert ([e] + after)[1..] == after;
  }

  /** Retry guarantee.  After any run, let a controlled client with no renewal in flight get a
      control call accepted, and let an outage with ticks at most `delta` apart follow.  If
      the outage ends the session, at least 1 + (lease - interval - delta) / (3000 + 2 delta)
      renewals were attempted first - and sent, where no send throws. */
  lemma RetryGuarantee(at: int, before: seq<Event>, e: Event, outage: seq<Event>, delta: int)
    requires PunctualRun(Initial(at), before + [e] + outage, delta) && delta >= 0
    requires var s := Run(Initial(at), before).s;
      s.state == Controlled && s.controller != "" && s.pendingId.None?
    requires e.action.Finish? && Refreshes(Run(Initial(at), before), e)
    requires OutageRun(Step(Run(Initial(at), before), e), outage)
    requires Run(Initial(at), before + [e] + outage).s.state != Controlled
    ensures var s := Run(Initial(at), before).s;
      Run(Initial(at), before + [e] + outage).s.sequence - s.sequence
      >= 1 + (EffectiveLease(s.lease) - RenewInterval(s.lease) - delta) / RetrySpan(delta)
    ensures NoSendThrows(outage) ==>
              var s, w' := Run(Initial(at), before).s, Run(Initial(at), before + [e] + outage);
              SentAll(w', s.sequence,
                      s.sequence + 1 + (EffectiveLease(s.lease) - RenewInterval(s.lease) - delta) / RetrySpan(delta))
  {
    var w := Run(Initial(at), before);
    SplitRun(Initial(at), before, e, outage, delta);
    RunInv(Initial(at), before);
    AcceptedCallStartsSchedule(w, e, delta);
    ScheduledRetries(Step(w, e), outage, e.at, w.s.sequence, delta);
    var n := Run(Step(w, e), outage).s.sequence - w.s.sequence;
    AllowanceIsProduct(n, delta);
    DivisionBound(EffectiveLease(w.s.lease) - RenewInterval(w.s.lease) - delta, n, RetrySpan(delta));
    if NoSendThrows(outage) {
      AttemptsAreSent(Step(w, e), outage, w.s.sequence);
    }
  }

  /** With the default lease and ticks every 200 ms, an outage is met by at least 15 renewals. */
  lemma DefaultLeaseRetries(at: int, before: seq<Event>, e: Event, outage: seq<Event>)
    requires PunctualRun(Initial(at), before + [e] + outage, 200)
    requires var s := Run(Initial(at), before).s;
      s.state == Controlled && s.controller != "" && s.pendingId.None? && s.lease == DEFAULT_LEASE_MS
    requires e.action.Finish? && Refreshes(Run(Initial(at), before), e)
    requires OutageRun(Step(Run(Initial(at), before), e), outage)
    requires Run(Initial(at), before + [e] + outage).s.state != Controlled
    ensures Run(Initial(at), before + [e] + outage).s.sequence >= Run(Initial(at), before).s.sequence + 15
    ensures NoSendThrows(outage) ==>
              var first := Run(Initial(at), before).s.sequence;
              SentAll(Run(Initial(at), before + [e] + outage), first, first + 15)
  {
    RetryGuarantee(at, before, e, outage, 200);
  }
}
