/** What every reachable state of the control session satisfies, at every yield point. */
module SessionSafety {
  import opened Wrappers
  import opened ControlSession

  predicate TimerDiscipline(s: Session) {
    && (s.pendingId.Some? <==> s.pendingDeadline.Some?)
    && (s.timer ==> s.state == Controlled)
    && (s.pendingId.Some? ==> s.timer && s.controller != "")
    && (s.state == Controlled && s.controller != "" ==> s.timer)
  }

  /** The in-flight renewal carries the latest sequence number and was sent by this session,
      with the lease that is still in force. */
  predicate RenewalDiscipline(w: World) {
    && (forall q :: q in w.sent ==> q <= w.s.sequence)
    && (w.s.pendingId.Some? ==>
          w.s.sequence in w.sent && w.sent[w.s.sequence] == Renewal(w.s.controller, w.s.lease))
  }

  predicate Inv(w: World) {
    && TimerDiscipline(w.s)
    && RenewalDiscipline(w)
    && w.s.activity <= w.clock
    && w.lastTick <= w.clock
    && (w.inFlight.Some? ==> w.s.state != Disconnected)
    && (w.inFlight == Some(Acquire) ==> w.s.state == Connected)
  }

  lemma CallbackDiscipline(s: Session, e: Event)
    requires TimerDiscipline(s) && IsCallback(e.action)
    ensures TimerDiscipline(Callback(s, e))
  {
  }

  lemma CallDiscipline(s: Session, call: Call, now: int, paramsOk: bool, reply: Reply)
    requires TimerDiscipline(s)
    ensures TimerDiscipline(BeginCall(s, call, paramsOk).0)
    ensures call == Acquire ==> s.state == Connected ==> TimerDiscipline(FinishCall(s, call, now, reply))
    ensures call != Acquire ==> TimerDiscipline(FinishCall(s, call, now, reply))
  {
  }

  lemma TickInv(w: World, e: Event)
    requires Inv(w) && Possible(w, e) && e.action.Tick?
    ensures Inv(Step(w, e))
  {
    CallbackDiscipline(w.s, e);
  }

  lemma OtherCallbackInv(w: World, e: Event)
    requires Inv(w) && Possible(w, e) && (e.action.RenewReply? || e.action.ControlStatus?)
    ensures Inv(Step(w, e))
  {
    CallbackDiscipline(w.s, e);
  }

  lemma FinishInv(w: World, e: Event)
    requires Inv(w) && Possible(w, e) && e.action.Finish?
    ensures Inv(Step(w, e))
  {
    if w.inFlight.Some? {
      CallDiscipline(w.s, w.inFlight.value, e.at, true, e.action.reply);
    }
  }

  lemma StepInv(w: World, e: Event)
    requires Inv(w) && Possible(w, e)
    ensures Inv(Step(w, e))
  {
    match e.action
    case Begin(call, paramsOk) => CallDiscipline(w.s, call, e.at, paramsOk, BadCode);
    case Finish(_) => FinishInv(w, e);
    case Tick(_) => TickInv(w, e);
    case RenewReply(_, _, _) => OtherCallbackInv(w, e);
    case ControlStatus(_, _) => OtherCallbackInv(w, e);
    case _ =>
  }

  lemma {:induction false} RunInv(w: World, es: seq<Event>)
    requires Inv(w) && PossibleRun(w, es)
    ensures Inv(Run(w, es))
    decreases es
  {
    if es != [] {
      StepInv(w, es[0]);
      RunInv(Step(w, es[0]), es[1..]);
    }
  }

  /** Session invariant: in every state reachable from construction, with a call being
      spun or not, a client without control has no timer and no renewal in flight; a
      pending request has a deadline and conversely; and a pending request belongs to the
      present controller and lease. */
  lemma ReachableSession(at: int, es: seq<Event>)
    requires PossibleRun(Initial(at), es)
    ensures var w := Run(Initial(at), es);
      && (w.s.state != Controlled ==> !w.s.timer && w.s.pendingId.None? && w.s.pendingDeadline.None?)
      && (w.s.pendingId.Some? <==> w.s.pendingDeadline.Some?)
      && (w.s.pendingId.Some? ==>
            && w.s.state == Controlled
            && w.s.sequence in w.sent
            && w.sent[w.s.sequence] == Renewal(w.s.controller, w.s.lease))
  {
    RunInv(Initial(at), es);
  }

  // ---------- an idle client keeps no controller, unless a grant was unusable ----------

  predicate IdleIsClean(w: World) {
    w.s.state != Controlled ==> w.s.controller == ""
  }

  predicate AlwaysClean(w: World, es: seq<Event>)
    decreases es
  {
    IdleIsClean(w) && (es == [] || AlwaysClean(Step(w, es[0]), es[1..]))
  }

  /** A take reply that names a controller and carries a lease outside 32 bits. */
  predicate TakesUnusableGrant(w: World, e: Event) {
    && w.inFlight == Some(Acquire)
    && e.action.Finish?
    && UnusableGrant(e.action.reply)
    && e.action.reply.controller.value != ""
  }

  predicate NoUnusableGrant(w: World, es: seq<Event>)
    decreases es
  {
    es == [] || (!TakesUnusableGrant(w, es[0]) && NoUnusableGrant(Step(w, es[0]), es[1..]))
  }

  lemma StepClean(w: World, e: Event)
    requires Inv(w) && IdleIsClean(w) && Possible(w, e)
    ensures IdleIsClean(Step(w, e)) <==> !TakesUnusableGrant(w, e)
  {
  }

  lemma {:induction false} RunClean(w: World, es: seq<Event>)
    requires Inv(w) && IdleIsClean(w) && PossibleRun(w, es)
    ensures AlwaysClean(w, es) <==> NoUnusableGrant(w, es)
    decreases es
  {
    if es != [] {
      StepInv(w, es[0]);
      StepClean(w, es[0]);
      if !TakesUnusableGrant(w, es[0]) {
        RunClean(Step(w, es[0]), es[1..]);
      }
    }
  }

  /** "Without control the controller is empty" holds at every yield point of a run exactly
      when no take reply of that run was an unusable grant. */
  lemma IdleControllerEmptyIff(at: int, es: seq<Event>)
    requires PossibleRun(Initial(at), es)
    ensures AlwaysClean(Initial(at), es) <==> NoUnusableGrant(Initial(at), es)
  {
    RunClean(Initial(at), es);
  }

  /** A run in which it fails: the robot grants control with a lease of 2^31 or more. */
  lemma StaleControllerExample()
    ensures var es := [
        Event(0, Connect(true, 0)),
        Event(0, Begin(Acquire, true)),
        Event(3000, Finish(Accepted(Some("c"), OutOfRange)))];
      && PossibleRun(Initial(0), es)
      && Run(Initial(0), es).s.state == Connected
      && Run(Initial(0), es).s.controller == "c"
  {
    var e0, e1, e2 := Event(0, Connect(true, 0)), Event(0, Begin(Acquire, true)),
                      Event(3000, Finish(Accepted(Some("c"), OutOfRange)));
    var w0 := Initial(0);
    var w1 := Step(w0, e0);
    var w2 := Step(w1, e1);
    var w3 := Step(w2, e2);
    assert Run(w3, []) == w3;
    assert [e2][1..] == [] && [e1, e2][1..] == [e2] && [e0, e1, e2][1..] == [e1, e2];
    assert Run(w2, [e2]) == w3 && Run(w1, [e1, e2]) == w3;
    assert PossibleRun(w2, [e2]) && PossibleRun(w1, [e1, e2]);
  }

  // ---------- generation safety of renew replies ----------

  /** The reply answers the single renewal in flight. */
  predicate AnswersInFlight(w: World, e: Event) {
    e.action.RenewReply? && w.s.pendingId.Some? && e.action.sequence == w.s.sequence
  }

  /** In any reachable state, whichever sent renewal the network answers now: the reply
      changes the session exactly when it answers the renewal in flight, the controller
      guard rejects nothing the sequence guard let through, and the answer uses up the
      request, so that answering it again changes nothing. */
  lemma GenerationSafety(at: int, es: seq<Event>, e: Event)
    requires PossibleRun(Initial(at), es + [e])
    requires e.action.RenewReply?
    ensures var w := Run(Initial(at), es);
      && (Step(w, e).s != w.s <==> AnswersInFlight(w, e))
      && (AnswersInFlight(w, e) ==> w.s.state == Controlled && e.action.controller == w.s.controller)
      && Step(Step(w, e), e).s == Step(w, e).s
  {
    RunConcat(Initial(at), es, [e]);
    RunInv(Initial(at), es);
  }

  lemma StepRetires(w: World, e: Event, q: nat)
    requires Inv(w) && Possible(w, e)
    requires q in w.sent && !(w.s.pendingId.Some? && w.s.sequence == q)
    ensures var v := Step(w, e); q in v.sent && !(v.s.pendingId.Some? && v.s.sequence == q)
  {
  }

  /** A renewal that timed out, or that an earlier session sent, has a sequence number no
      later state can accept: once not in flight, a sent sequence number never is again. */
  lemma {:induction false} RetiredStaysRetired(w: World, es: seq<Event>, q: nat)
    requires Inv(w) && PossibleRun(w, es)
    requires q in w.sent && !(w.s.pendingId.Some? && w.s.sequence == q)
    ensures var v := Run(w, es); q in v.sent && !(v.s.pendingId.Some? && v.s.sequence == q)
    decreases es
  {
    if es != [] {
      StepInv(w, es[0]);
      StepRetires(w, es[0], q);
      RetiredStaysRetired(Step(w, es[0]), es[1..], q);
    }
  }

  // ---------- why control is lost ----------

  /** Every way out of kControlled, with its error: a tick or a renew reply expires the
      session, only a status event revokes it, and only an accepted release or disconnect()
      gives it up.  Each tells the callback once, except disconnect() after a failed release. */
  lemma LossReasons(w: World, e: Event)
    requires Inv(w) && Possible(w, e)
    requires w.s.state == Controlled && Step(w, e).s.state != Controlled
    ensures var s, s' := w.s, Step(w, e).s;
      && s'.controller == "" && !s'.timer && s'.pendingId.None?
      && match e.action
         case Tick(_) => s'.state == Connected && s'.lastError == SessionExpired
                         && s'.notices == s.notices + [Notice(Connected, SessionExpired, Connected)]
         case RenewReply(_, _, _) => s'.state == Connected && s'.lastError == SessionExpired
                         && s'.notices == s.notices + [Notice(Connected, SessionExpired, Connected)]
         case ControlStatus(_, _) => s'.state == Connected && s'.lastError == SessionRevoked
                         && s'.notices == s.notices + [Notice(Connected, SessionRevoked, Connected)]
         case Finish(reply) =>
           && w.inFlight.Some? && w.inFlight.value.Release?
           && (s'.state == Disconnected <==> w.inFlight.value.disconnecting)
           && (s'.state == Connected ==> reply.Accepted?)
           && s'.notices == s.notices + (if reply.Accepted? then [Notice(Connected, NoError, Connected)] else [])
         case _ => false
  {
  }

  /** The lease has run out. */
  predicate LeaseOver(s: Session, at: int) {
    at >= s.activity + EffectiveLease(s.lease)
  }

  /** A tick renews: a named controller, nothing in flight, and between the renew interval and the
      end of the lease. */
  predicate Renews(s: Session, at: int) {
    && s.state == Controlled && s.controller != "" && s.pendingId.None?
    && at >= s.activity + RenewInterval(s.lease) && !LeaseOver(s, at)
  }

  /** What ends control. */
  predicate Ends(w: World, e: Event) {
    match e.action
    case Tick(send) =>
      && w.s.controller != ""
      && if w.s.pendingId.Some? then e.at >= w.s.pendingDeadline.GetOr(e.at) && LeaseOver(w.s, e.at)
         else LeaseOver(w.s, e.at) || (Renews(w.s, e.at) && send.Threw? && LeaseOver(w.s, send.later))
    case RenewReply(_, _, answer) => AnswersInFlight(w, e) && (!answer.Accepted? || answer.lease.OutOfRange?)
    case ControlStatus(controlled, holder) => !controlled || holder != w.s.controller
    case Finish(reply) => w.inFlight == Some(Release(true)) || (w.inFlight == Some(Release(false)) && reply.Accepted?)
    case _ => false
  }

  /** Control ends exactly so: in a reachable state nothing else takes it, and each of these
      does.  In particular a refused, failed or unusable renewal ends it at once. */
  lemma ControlEndsIff(w: World, e: Event)
    requires Inv(w) && Possible(w, e) && w.s.state == Controlled
    ensures Step(w, e).s.state != Controlled <==> Ends(w, e)
  {
  }

  /** A tick attempts a renewal exactly when one is due; a send that succeeds puts it in flight
      for 3 s, under the next number, for the present controller. */
  lemma TickRenewsIff(w: World, e: Event)
    requires Inv(w) && Possible(w, e) && e.action.Tick?
    ensures var s, s' := w.s, Step(w, e).s;
      && (s'.sequence == s.sequence + 1 <==> Renews(s, e.at))
      && (s'.sequence == s.sequence <==> !Renews(s, e.at))
      && (Renews(s, e.at) && e.action.send.Sent? ==>
            && s'.pendingId == Some(e.action.send.id) && s'.pendingDeadline == Some(e.at + RENEW_TIMEOUT_MS)
            && Step(w, e).sent == w.sent[s'.sequence := Renewal(s.controller, s.lease)])
      && (!(Renews(s, e.at) && e.action.send.Sent?) ==> Step(w, e).sent == w.sent)
  {
  }

  /** A renewal in flight is given up by the first tick at or after its deadline, and by none
      before. */
  lemma TickGivesUpIff(w: World, e: Event)
    requires Inv(w) && Possible(w, e) && e.action.Tick? && w.s.pendingId.Some?
    ensures Step(w, e).s.pendingId.None? <==> e.at >= w.s.pendingDeadline.value
  {
  }

  // ---------- the lease in force ----------

  /** The lease after a step: what connect() asks for, then what a grant or a renewal says. */
  function LeaseAfter(w: World, e: Event): int {
    match e.action
    case Connect(serviceUp, leaseMs) =>
      if w.inFlight.None? && w.s.state == Disconnected && serviceUp
      then if leaseMs > 0 then leaseMs else DEFAULT_LEASE_MS
      else w.s.lease
    case Finish(Accepted(Some(_), Milliseconds(ms))) => if w.inFlight == Some(Acquire) then ms else w.s.lease
    case RenewReply(_, _, Accepted(_, Milliseconds(ms))) => if AnswersInFlight(w, e) then ms else w.s.lease
    case _ => w.s.lease
  }

  function LeaseInForce(w: World, es: seq<Event>, before: int): int
    decreases es
  {
    if es == [] then before else LeaseInForce(Step(w, es[0]), es[1..], LeaseAfter(w, es[0]))
  }

  /** Over any run the lease is the one that the latest connect, grant or renewal named. */
  lemma {:induction false} LeaseHistory(w: World, es: seq<Event>)
    requires Inv(w) && PossibleRun(w, es)
    ensures Run(w, es).s.lease == LeaseInForce(w, es, w.s.lease)
    decreases es
  {
    if es != [] {
      StepInv(w, es[0]);
      StepLease(w, es[0]);
      LeaseHistory(Step(w, es[0]), es[1..]);
    }
  }

  lemma StepLease(w: World, e: Event)
    requires Inv(w) && Possible(w, e)
    ensures Step(w, e).s.lease == LeaseAfter(w, e)
  {
  }

  /** connect() connects exactly when the service is up, and says so otherwise. */
  lemma ConnectsIff(w: World, e: Event)
    requires Inv(w) && Possible(w, e) && w.inFlight.None? && e.action.Connect?
    ensures Step(w, e).s.state != Disconnected <==> w.s.state != Disconnected || e.action.serviceUp
    ensures w.s.state == Disconnected ==>
              Step(w, e).s.lastError == if e.action.serviceUp then NoError else RpcConnectFailed
  {
  }

  /** Control is entered only by a granted take, at the moment its reply arrives. */
  lemma OnlyGrantsAcquire(w: World, e: Event)
    requires Inv(w) && Possible(w, e)
    requires w.s.state != Controlled
    ensures Step(w, e).s.state == Controlled <==>
              w.inFlight == Some(Acquire) && e.action.Finish? && Granted(e.action.reply)
    ensures Step(w, e).s.state == Controlled ==>
              var s' := Step(w, e).s;
              s'.timer && s'.pendingId.None? && s'.activity == e.at
              && Some(s'.controller) == e.action.reply.controller
              && s'.notices == w.s.notices + [Notice(Controlled, NoError, Controlled)]
  {
  }

  /** startControl refused by the robot changes nothing but the error, and says so once. */
  lemma RefusedTakeSaysSo(w: World, e: Event)
    requires Inv(w) && Possible(w, e) && w.inFlight == Some(Acquire) && e.action.Finish?
    requires !Granted(e.action.reply) && !UnusableGrant(e.action.reply)
    ensures Step(w, e).s == w.s.(
              lastError := RpcAcquireRejected,
              rpcs := w.s.rpcs + [Rpc(Acquire, e.action.reply.Accepted?)],
              notices := w.s.notices + [Notice(Connected, RpcAcquireRejected, Connected)])
  {
  }

  /** A client becomes disconnected exactly by disconnect(): at once without control, and with it
      when the release it sends has ended, whatever the answer. */
  lemma DisconnectsIff(w: World, e: Event)
    requires Inv(w) && Possible(w, e) && w.s.state != Disconnected
    ensures Step(w, e).s.state == Disconnected <==>
              || (w.inFlight.None? && StartsDisconnect(e) && w.s.state != Controlled)
              || (w.inFlight == Some(Release(true)) && e.action.Finish?)
  {
  }

  // ---------- the last error ----------

  /** Whether a call is sent at all, and the error it is refused with otherwise. */
  predicate Sends(s: Session, call: Call, paramsOk: bool) {
    match call
    case Release(_) => s.state == Controlled
    case Query => s.state != Disconnected && paramsOk
    case Acquire => s.state == Connected
    case _ => s.state == Controlled && paramsOk
  }

  function Refusal(s: Session, call: Call): Error {
    match call
    case Query => if s.state == Disconnected then NotConnected else ActionRejected
    case Acquire => NotConnected
    case _ => if s.state != Controlled then NotControlled else ActionRejected
  }

  function ReplyCode(reply: Reply): Error {
    match reply
    case Accepted(_, _) => NoError
    case Rejected => ActionRejected
    case TransportFailure => RpcCallFailed
    case BadCode => RpcCallFailed
    case Malformed => RpcCallFailed
  }

  /** The error after a step that concerns the error. */
  function ErrorAfter(w: World, e: Event): Error {
    match e.action
    case ReadError => if w.inFlight.None? then NoError else w.s.lastError
    case Connect(serviceUp, _) =>
      if w.inFlight.Some? || w.s.state != Disconnected then w.s.lastError
      else if serviceUp then NoError else RpcConnectFailed
    case Begin(call, paramsOk) =>
      if w.inFlight.Some? || Sends(w.s, call, paramsOk) || call == Release(true)
         || (call == Acquire && w.s.state == Controlled)
      then w.s.lastError else Refusal(w.s, call)
    case Finish(reply) =>
      if w.inFlight.None? then w.s.lastError
      else if w.inFlight == Some(Acquire) then
        if Granted(reply) || UnusableGrant(reply) then NoError else RpcAcquireRejected
      else ReplyCode(reply)
    case Tick(_) => if w.s.state == Controlled && Ends(w, e) then SessionExpired else w.s.lastError
    case RenewReply(_, _, _) =>
      if !AnswersInFlight(w, e) then w.s.lastError else if Ends(w, e) then SessionExpired else NoError
    case ControlStatus(_, _) => if w.s.state == Controlled && Ends(w, e) then SessionRevoked else w.s.lastError
  }

  lemma CallbackError(w: World, e: Event)
    requires Inv(w) && Possible(w, e) && IsCallback(e.action)
    ensures Step(w, e).s.lastError == ErrorAfter(w, e)
  {
  }

  lemma FinishError(w: World, e: Event)
    requires Inv(w) && Possible(w, e) && e.action.Finish?
    ensures Step(w, e).s.lastError == ErrorAfter(w, e)
  {
  }

  lemma BeginError(w: World, e: Event)
    requires Inv(w) && Possible(w, e) && e.action.Begin?
    ensures Step(w, e).s.lastError == ErrorAfter(w, e)
  {
  }

  /** The last error is always that of the latest step that has one: a local refusal, a reply, an
      expiry or a revocation; successes and reading it clear it. */
  lemma StepError(w: World, e: Event)
    requires Inv(w) && Possible(w, e)
    ensures Step(w, e).s.lastError == ErrorAfter(w, e)
  {
    if IsCallback(e.action) {
      hide Step, ErrorAfter;
      CallbackError(w, e);
    } else if e.action.Finish? {
      hide Step, ErrorAfter;
      FinishError(w, e);
    } else if e.action.Begin? {
      hide Step, ErrorAfter;
      BeginError(w, e);
    }
  }

  // ---------- notifications ----------

  predicate NoticesTruthful(s: Session) {
    forall i :: 0 <= i < |s.notices| ==>
      s.notices[i].state == s.notices[i].clientState && s.notices[i].state != Disconnected
  }

  predicate LastNoticeTellsControl(s: Session) {
    s.state == Controlled <==> s.notices != [] && s.notices[|s.notices| - 1].state == Controlled
  }

  predicate StartsDisconnect(e: Event) {
    e.action == Begin(Release(true), true) || e.action == Begin(Release(true), false)
  }

  predicate NoDisconnect(es: seq<Event>) {
    forall i :: 0 <= i < |es| ==> !StartsDisconnect(es[i])
  }

  /** A callback delivers nothing and leaves control alone, or loses control and says so. */
  lemma CallbackNotices(s: Session, e: Event)
    requires TimerDiscipline(s) && IsCallback(e.action)
    ensures var s' := Callback(s, e);
      || (s'.notices == s.notices && s'.state == s.state)
      || (s'.state == Connected && s.state == Controlled
          && s'.notices == s.notices + [Notice(Connected, s'.lastError, Connected)])
  {
  }

  lemma FinishNotices(s: Session, call: Call, now: int, reply: Reply)
    requires TimerDiscipline(s) && (call == Acquire ==> s.state == Connected)
    ensures var s' := FinishCall(s, call, now, reply);
      || (s'.notices == s.notices && (s'.state == s.state || call == Release(true)))
      || (s'.notices == s.notices + [Notice(s'.state, s'.lastError, s'.state)] && s'.state != Disconnected)
      || (call == Release(true) && s'.notices == s.notices + [Notice(Connected, NoError, Connected)])
  {
  }

  lemma StepNotices(w: World, e: Event)
    requires Inv(w) && Possible(w, e) && NoticesTruthful(w.s)
    ensures NoticesTruthful(Step(w, e).s)
    ensures w.inFlight != Some(Release(true)) && !StartsDisconnect(e) && LastNoticeTellsControl(w.s) ==>
              Step(w, e).inFlight != Some(Release(true)) && LastNoticeTellsControl(Step(w, e).s)
  {
    if IsCallback(e.action) {
      CallbackNotices(w.s, e);
    } else if e.action.Finish? && w.inFlight.Some? {
      FinishNotices(w.s, w.inFlight.value, e.at, e.action.reply);
    } else {
      assert Step(w, e).s.notices == w.s.notices;
    }
  }

  lemma {:induction false} RunNotices(w: World, es: seq<Event>)
    requires Inv(w) && PossibleRun(w, es) && NoticesTruthful(w.s)
    ensures NoticesTruthful(Run(w, es).s)
    ensures w.inFlight != Some(Release(true)) && NoDisconnect(es) && LastNoticeTellsControl(w.s) ==>
              LastNoticeTellsControl(Run(w, es).s)
    decreases es
  {
    if es != [] {
      StepInv(w, es[0]);
      StepNotices(w, es[0]);
      RunNotices(Step(w, es[0]), es[1..]);
    }
  }

  /** Notification coherence over every run from construction. */
  lemma NotificationCoherence(at: int, es: seq<Event>)
    requires PossibleRun(Initial(at), es)
    ensures NoticesTruthful(Run(Initial(at), es).s)
    ensures NoDisconnect(es) ==> LastNoticeTellsControl(Run(Initial(at), es).s)
  {
    RunNotices(Initial(at), es);
  }

  /** disconnect() itself: after the release it spins, the last notice still tells control
      truthfully exactly when the release was accepted or control had already been lost. */
  lemma DisconnectNoticeIff(w: World, e: Event)
    requires Inv(w) && Possible(w, e) && LastNoticeTellsControl(w.s)
    requires w.inFlight == Some(Release(true)) && e.action.Finish?
    ensures Step(w, e).s.state == Disconnected
    ensures LastNoticeTellsControl(Step(w, e).s) <==> e.action.reply.Accepted? || w.s.state != Controlled
  {
  }

  /** A run in which it does not: control is granted, and disconnect() gets no answer to its
      release.  The last notice says kControlled of a client that is disconnected. */
  lemma SilentDisconnectExample()
    ensures var es := [
        Event(0, Connect(true, 0)),
        Event(0, Begin(Acquire, true)),
        Event(3000, Finish(Accepted(Some("c"), Absent))),
        Event(4000, Begin(Release(true), true)),
        Event(9000, Finish(TransportFailure))];
      && PossibleRun(Initial(0), es)
      && var s := Run(Initial(0), es).s;
         s.state == Disconnected && s.notices == [Notice(Controlled, NoError, Controlled)]
  {
    var e0, e1 := Event(0, Connect(true, 0)), Event(0, Begin(Acquire, true));
    var e2 := Event(3000, Finish(Accepted(Some("c"), Absent)));
    var e3, e4 := Event(4000, Begin(Release(true), true)), Event(9000, Finish(TransportFailure));
    var w1 := Step(Initial(0), e0);
    var w2 := Step(w1, e1);
    var w3 := Step(w2, e2);
    var w4 := Step(w3, e3);
    RunStep(Initial(0), e0, [e1, e2, e3, e4]);
    RunStep(w1, e1, [e2, e3, e4]);
    RunStep(w2, e2, [e3, e4]);
    RunStep(w3, e3, [e4]);
    RunStep(w4, e4, []);
  }

  // ---------- activity history ----------

  /** The step is the acceptance of a take, a motion call or a renewal. */
  predicate Refreshes(w: World, e: Event) {
    || (e.action.Finish? && w.inFlight == Some(Acquire) && Granted(e.action.reply))
    || (e.action.Finish? && w.inFlight.Some? && w.inFlight.value.Motion? && e.action.reply.Accepted?)
    || (AnswersInFlight(w, e) && e.action.answer.Accepted? && !e.action.answer.lease.OutOfRange?)
  }

  /** The time of the last refreshing step of a run. */
  function LatestRefresh(w: World, es: seq<Event>, before: int): int
    decreases es
  {
    if es == [] then before
    else LatestRefresh(Step(w, es[0]), es[1..], if Refreshes(w, es[0]) then es[0].at else before)
  }

  lemma StepActivity(w: World, e: Event)
    requires Inv(w) && Possible(w, e)
    ensures Step(w, e).s.activity == if Refreshes(w, e) then e.at else w.s.activity
  {
  }

  /** last_control_activity_at_ is the time of the latest accepted take, start, stop,
      parameter change, emergency stop or renewal; failed calls and audio, light and query
      calls leave it alone. */
  lemma {:induction false} ActivityHistory(w: World, es: seq<Event>)
    requires Inv(w) && PossibleRun(w, es)
    ensures Run(w, es).s.activity == LatestRefresh(w, es, w.s.activity)
    decreases es
  {
    if es != [] {
      StepInv(w, es[0]);
      StepActivity(w, es[0]);
      ActivityHistory(Step(w, es[0]), es[1..]);
    }
  }

  /** Every step of the run comes sooner than one renew interval after the latest refresh. */
  predicate KeptBusy(w: World, es: seq<Event>, latest: int)
    decreases es
  {
    es == [] || (
      && es[0].at < latest + RenewInterval(w.s.lease)
      && KeptBusy(Step(w, es[0]), es[1..], if Refreshes(w, es[0]) then es[0].at else latest))
  }

  lemma StepBusy(w: World, e: Event)
    requires Inv(w) && Possible(w, e)
    requires w.s.pendingId.None? && e.at < w.s.activity + RenewInterval(w.s.lease)
    ensures Step(w, e).s.pendingId.None? && Step(w, e).s.sequence == w.s.sequence
    ensures Step(w, e).sent == w.sent
  {
  }

  /** While accepted control calls come closer together than the renew interval, no renewal
      is ever sent and none is in flight. */
  lemma {:induction false} BusySessionsDoNotRenew(w: World, es: seq<Event>)
    requires Inv(w) && PossibleRun(w, es)
    requires w.s.pendingId.None? && KeptBusy(w, es, w.s.activity)
    ensures Run(w, es).s.pendingId.None? && Run(w, es).s.sequence == w.s.sequence
    ensures Run(w, es).sent == w.sent
    decreases es
  {
    if es != [] {
      StepInv(w, es[0]);
      StepActivity(w, es[0]);
      StepBusy(w, es[0]);
      BusySessionsDoNotRenew(Step(w, es[0]), es[1..]);
    }
  }
}
