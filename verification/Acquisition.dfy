/** The deadline arithmetic of startControl and of the bridge's readiness wait. */
module Acquisition {
  import opened Wrappers

  const MASTER_SWITCH_RPC_TIMEOUT_MS: int := 5000
  const MASTER_SWITCH_RETRY_MS: int := 1000
  const MASTER_SWITCH_WAIT_MS: int := 3000
  const READINESS_TIMEOUT_MS: int := 5000
  const READINESS_RPC_TIMEOUT_MS: int := 500
  const READINESS_RETRY_MS: int := 200

  /** How the surroundings treat one attempt: how long its RPC would take, whether it is
      accepted, and by how much the sleep after it overruns. */
  datatype Attempt = Attempt(duration: nat, accepted: bool, oversleep: nat)

  function Min(a: int, b: int): int {
    if a < b then a else b
  }

  function Max(a: int, b: int): int {
    if a < b then b else a
  }

  function TimeoutFromMs(timeoutMs: int): int {
    if timeoutMs > 0 then timeoutMs else 5000
  }

  /** The time at which an attempt begun at `now` returns: a synchronous RPC lasts no longer
      than its timeout, which is what remains until the deadline, capped. */
  function ReturnTime(now: int, deadline: int, cap: int, a: Attempt): int {
    now + Min(a.duration, Min(Max(1, deadline - now), cap))
  }

  /** When the attempt after a refused one begins. */
  function NextAttempt(now: int, deadline: int, cap: int, pause: int, a: Attempt): int {
    var returned := ReturnTime(now, deadline, cap, a);
    returned + Min(pause, deadline - returned) + a.oversleep
  }

  /** An attempt returns when it is done, and never later than its cap or the deadline; the next
      one begins after the pause, cut short at the deadline, and what the sleep overruns. */
  lemma AttemptTiming(now: int, deadline: int, cap: int, pause: int, a: Attempt)
    requires now < deadline && cap > 0 && pause > 0
    ensures var returned, next := ReturnTime(now, deadline, cap, a), NextAttempt(now, deadline, cap, pause, a);
      && now <= returned <= deadline && returned <= now + cap && returned <= now + a.duration
      && (now + a.duration <= deadline && a.duration <= cap ==> returned == now + a.duration)
      && (now + a.duration > deadline && deadline <= now + cap ==> returned == deadline)
      && (a.duration > cap && now + cap < deadline ==> returned == now + cap)
      && (returned + pause <= deadline ==> next == returned + pause + a.oversleep)
      && (returned + pause > deadline ==> next == deadline + a.oversleep)
  {
  }

  /** The record of a retry loop: when each attempt began, when one was accepted, and when
      the loop ended. */
  datatype Retries = Retries(begun: seq<int>, acceptedAt: Option<int>, end: int)

  /** Attempt i began before the deadline: the first at once, every other one where the sleep
      after its refused predecessor ended. */
  predicate BegunInTurn(begun: seq<int>, i: nat, start: int, deadline: int, cap: int, pause: int, robot: nat -> Attempt)
    requires i < |begun|
  {
    && start <= begun[i] < deadline
    && if i == 0 then begun[i] == start
       else !robot(i - 1).accepted && begun[i] == NextAttempt(begun[i - 1], deadline, cap, pause, robot(i - 1))
  }

  predicate Follows(begun: seq<int>, start: int, deadline: int, cap: int, pause: int, robot: nat -> Attempt) {
    forall i :: 0 <= i < |begun| ==> BegunInTurn(begun, i, start, deadline, cap, pause, robot)
  }

  lemma FollowsExtends(begun: seq<int>, now: int,
                       start: int, deadline: int, cap: int, pause: int, robot: nat -> Attempt)
    requires Follows(begun, start, deadline, cap, pause, robot)
    requires BegunInTurn(begun + [now], |begun|, start, deadline, cap, pause, robot)
    ensures Follows(begun + [now], start, deadline, cap, pause, robot)
  {
    var next := begun + [now];
    forall i | 0 <= i < |next| ensures BegunInTurn(next, i, start, deadline, cap, pause, robot) {
      assert i < |begun| ==> BegunInTurn(begun, i, start, deadline, cap, pause, robot);
    }
  }

  predicate NeverOversleeps(robot: nat -> Attempt, count: nat) {
    forall i :: 0 <= i < count ==> robot(i).oversleep == 0
  }

  /** The rest of a retry loop that has begun the attempts `begun` and stands at `now`. */
  function RetriesFrom(begun: seq<int>, now: int, deadline: int, cap: int, pause: int, robot: nat -> Attempt): Retries
    requires pause > 0 && cap > 0
    decreases deadline - now
  {
    if now >= deadline then Retries(begun, None, now)
    else
      var attempt := robot(|begun|);
      var returned := ReturnTime(now, deadline, cap, attempt);
      if attempt.accepted then Retries(begun + [now], Some(returned), returned)
      else if returned >= deadline then Retries(begun + [now], None, returned)
      else RetriesFrom(begun + [now], NextAttempt(now, deadline, cap, pause, attempt), deadline, cap, pause, robot)
  }

  /** Retry until accepted or out of time. */
  function Retried(start: int, deadline: int, cap: int, pause: int, robot: nat -> Attempt): Retries
    requires pause > 0 && cap > 0
  {
    RetriesFrom([], start, deadline, cap, pause, robot)
  }

  method RetryUntil(start: int, deadline: int, cap: int, pause: int, robot: nat -> Attempt) returns (r: Retries)
    requires pause > 0 && cap > 0
    ensures r == Retried(start, deadline, cap, pause, robot)
  {
    var now := start;
    var begun: seq<int> := [];
    while now < deadline
      invariant RetriesFrom(begun, now, deadline, cap, pause, robot) == Retried(start, deadline, cap, pause, robot)
      decreases deadline - now
    {
      var attempt := robot(|begun|);
      var remaining := Max(1, deadline - now);
      var timeout := Min(remaining, cap);
      var returned := now + Min(attempt.duration, timeout);
      begun := begun + [now];
      if attempt.accepted {
        return Retries(begun, Some(returned), returned);
      }
      if returned >= deadline {
        return Retries(begun, None, returned);
      }
      now := returned + Min(pause, deadline - returned) + attempt.oversleep;
    }
    return Retries(begun, None, now);
  }

  /** Where the loop stands after the refused attempts `begun`, `paused` being their number
      times the pause. */
  predicate Stands(begun: seq<int>, now: int, paused: int,
                   start: int, deadline: int, cap: int, pause: int, robot: nat -> Attempt)
  {
    && Follows(begun, start, deadline, cap, pause, robot)
    && (if begun == [] then now == start
        else
          && !robot(|begun| - 1).accepted
          && now == NextAttempt(begun[|begun| - 1], deadline, cap, pause, robot(|begun| - 1))
          && start < deadline)
    && paused == |begun| * pause
    && now >= start
    && (now < deadline ==> now >= start + paused)
    && (begun != [] ==> paused - pause < deadline - start)
    && (start < deadline && NeverOversleeps(robot, |begun|) ==> now <= deadline)
  }

  /** What the record of a retry loop says. */
  predicate Tells(r: Retries, start: int, deadline: int, cap: int, pause: int, robot: nat -> Attempt) {
    && Follows(r.begun, start, deadline, cap, pause, robot)
    && (start >= deadline ==> r == Retries([], None, start))
    && (start < deadline ==>
          && 1 <= |r.begun| && (|r.begun| - 1) * pause < deadline - start
          && var last := |r.begun| - 1;
             && (r.acceptedAt.Some? <==> robot(last).accepted)
             && (r.acceptedAt.Some? ==>
                   r.acceptedAt.value == r.end == ReturnTime(r.begun[last], deadline, cap, robot(last)) <= deadline)
             && (r.acceptedAt.None? ==>
                   r.end >= deadline && NextAttempt(r.begun[last], deadline, cap, pause, robot(last)) >= deadline)
             && (NeverOversleeps(robot, |r.begun|) ==> r.end <= deadline))
  }

  lemma {:induction false} RetriesTell(begun: seq<int>, now: int, paused: int,
                                       start: int, deadline: int, cap: int, pause: int, robot: nat -> Attempt)
    requires pause > 0 && cap > 0 && Stands(begun, now, paused, start, deadline, cap, pause, robot)
    ensures Tells(RetriesFrom(begun, now, deadline, cap, pause, robot), start, deadline, cap, pause, robot)
    decreases deadline - now
  {
    if begun != [] {
      assert (|begun| - 1) * pause == paused - pause;
    }
    if now < deadline {
      FollowsExtends(begun, now, start, deadline, cap, pause, robot);
      var attempt := robot(|begun|);
      assert (|begun| + 1) * pause == paused + pause;
      assert |begun + [now]| - 1 == |begun|;
      if !attempt.accepted && ReturnTime(now, deadline, cap, attempt) < deadline {
        RetriesTell(begun + [now], NextAttempt(now, deadline, cap, pause, attempt), paused + pause,
                    start, deadline, cap, pause, robot);
      }
    }
  }

  /** A retry loop begins its attempts in turn: the first at once, every other one when the sleep
      after its refused predecessor ends, all before the deadline.  It stops at the first
      attempt accepted, and gives up only when the next one could not begin before the deadline.
      The attempts number at most the time allowed over the pause, rounded up. */
  lemma RetriedTells(start: int, deadline: int, cap: int, pause: int, robot: nat -> Attempt)
    requires pause > 0 && cap > 0
    ensures Tells(Retried(start, deadline, cap, pause, robot), start, deadline, cap, pause, robot)
  {
    RetriesTell([], start, 0, start, deadline, cap, pause, robot);
  }

  // ---------- startControl ----------

  /** How the surroundings treat one startControl: the master-switch attempts, the overrun of
      the settling sleep, and how long the take would last. */
  datatype AcquireScript = AcquireScript(robot: nat -> Attempt, settleOversleep: nat, takeDuration: nat)

  /** The record of one startControl from kConnected. */
  datatype Timeline = Timeline(masters: Retries, takeAt: Option<int>, end: int)

  function MastersOf(start: int, timeoutMs: int, script: AcquireScript): Retries {
    Retried(start, start + TimeoutFromMs(timeoutMs), MASTER_SWITCH_RPC_TIMEOUT_MS, MASTER_SWITCH_RETRY_MS, script.robot)
  }

  function TimelineOf(start: int, timeoutMs: int, script: AcquireScript): Timeline {
    var deadline := start + TimeoutFromMs(timeoutMs);
    var masters := MastersOf(start, timeoutMs, script);
    if masters.acceptedAt.None? then Timeline(masters, None, masters.end)
    else if masters.end + MASTER_SWITCH_WAIT_MS >= deadline then Timeline(masters, None, masters.end)
    else
      var takeAt := masters.end + MASTER_SWITCH_WAIT_MS + script.settleOversleep;
      if takeAt >= deadline then Timeline(masters, None, takeAt)
      else Timeline(masters, Some(takeAt), takeAt + Min(script.takeDuration, Max(1, deadline - takeAt)))
  }

  method AcquireTimeline(start: int, timeoutMs: int, script: AcquireScript) returns (t: Timeline)
    ensures t == TimelineOf(start, timeoutMs, script)
  {
    var deadline := start + TimeoutFromMs(timeoutMs);
    var masters := RetryUntil(start, deadline, MASTER_SWITCH_RPC_TIMEOUT_MS, MASTER_SWITCH_RETRY_MS, script.robot);
    if masters.acceptedAt.None? {
      return Timeline(masters, None, masters.end);
    }
    var switchedAt := masters.end;
    if switchedAt + MASTER_SWITCH_WAIT_MS >= deadline {
      return Timeline(masters, None, switchedAt);
    }
    var takeAt := switchedAt + MASTER_SWITCH_WAIT_MS + script.settleOversleep;
    if takeAt >= deadline {
      return Timeline(masters, None, takeAt);
    }
    return Timeline(masters, Some(takeAt), takeAt + Min(script.takeDuration, Max(1, deadline - takeAt)));
  }

  /** The timing of startControl.  It retries the master switch as RetriedTells says, at most
      ceil(T / 1000) times.  It sends takeMotionControl at most once, 3 s after the accepted
      switch returned and before the deadline, and it sends it exactly when a switch was
      accepted and both fit; and it returns by the deadline unless a sleep overruns. */
  lemma TimelineTells(start: int, timeoutMs: int, script: AcquireScript)
    ensures var t, deadline := TimelineOf(start, timeoutMs, script), start + TimeoutFromMs(timeoutMs);
      var last := |t.masters.begun| - 1;
      && Tells(t.masters, start, deadline, MASTER_SWITCH_RPC_TIMEOUT_MS, MASTER_SWITCH_RETRY_MS, script.robot)
      && 0 <= last < (TimeoutFromMs(timeoutMs) + 999) / 1000
      && var switchedAt :=
           ReturnTime(t.masters.begun[last], deadline, MASTER_SWITCH_RPC_TIMEOUT_MS, script.robot(last));
         var takeAt := switchedAt + MASTER_SWITCH_WAIT_MS + script.settleOversleep;
         && (t.takeAt.Some? <==> script.robot(last).accepted && takeAt < deadline)
         && (t.takeAt.Some? ==>
               && t.takeAt.value == takeAt >= start + MASTER_SWITCH_WAIT_MS
               && t.end == takeAt + Min(script.takeDuration, deadline - takeAt))
         && t.end >= start
         && (t.takeAt.Some? || (script.settleOversleep == 0 && NeverOversleeps(script.robot, last + 1))
             ==> t.end <= deadline)
  {
    var deadline := start + TimeoutFromMs(timeoutMs);
    RetriedTells(start, deadline, MASTER_SWITCH_RPC_TIMEOUT_MS, MASTER_SWITCH_RETRY_MS, script.robot);
    var masters := MastersOf(start, timeoutMs, script);
    AttemptsFit(|masters.begun|, deadline - start);
    assert BegunInTurn(masters.begun, |masters.begun| - 1, start, deadline,
                       MASTER_SWITCH_RPC_TIMEOUT_MS, MASTER_SWITCH_RETRY_MS, script.robot);
  }

  lemma AttemptsFit(count: nat, allowed: int)
    requires (count - 1) * 1000 < allowed
    ensures count <= (allowed + 999) / 1000
  {
  }

  /** The robot switches its master at the first attempt, in no time, and nothing oversleeps. */
  predicate Prompt(script: AcquireScript) {
    script.robot(0).accepted && script.robot(0).duration == 0 && script.settleOversleep == 0
  }

  /** A positive timeout of at most 3 s never takes, whatever the robot does; with every other
      timeout a prompt robot is always asked. */
  lemma NeverTakesIff(start: int, timeoutMs: int)
    ensures (forall script :: TimelineOf(start, timeoutMs, script).takeAt.None?) <==>
              0 < timeoutMs <= MASTER_SWITCH_WAIT_MS
    ensures forall script :: Prompt(script) ==>
              (TimelineOf(start, timeoutMs, script).takeAt.None? <==> 0 < timeoutMs <= MASTER_SWITCH_WAIT_MS)
  {
    forall script | 0 < timeoutMs <= MASTER_SWITCH_WAIT_MS
      ensures TimelineOf(start, timeoutMs, script).takeAt.None?
    {
      TimelineTells(start, timeoutMs, script);
    }
    var prompt := AcquireScript(_ => Attempt(0, true, 0), 0, 0);
    assert Prompt(prompt);
    if !(0 < timeoutMs <= MASTER_SWITCH_WAIT_MS) {
      assert TimelineOf(start, timeoutMs, prompt).takeAt.Some?;
    }
  }

  // ---------- the readiness wait ----------

  function ReadinessOf(start: int, robot: nat -> Attempt): Retries {
    Retried(start, start + READINESS_TIMEOUT_MS, READINESS_RPC_TIMEOUT_MS, READINESS_RETRY_MS, robot)
  }

  method WaitForRpcReady(start: int, robot: nat -> Attempt) returns (r: Retries)
    ensures r == ReadinessOf(start, robot)
  {
    r := RetryUntil(start, start + READINESS_TIMEOUT_MS, READINESS_RPC_TIMEOUT_MS, READINESS_RETRY_MS, robot);
  }

  /** wait_for_rpc_ready() makes between 1 and 25 queries in five seconds, and gives up only when
      no other one could begin in time. */
  lemma ReadinessTells(start: int, robot: nat -> Attempt)
    ensures var r := ReadinessOf(start, robot);
      && 1 <= |r.begun| <= 25
      && Tells(r, start, start + READINESS_TIMEOUT_MS, READINESS_RPC_TIMEOUT_MS, READINESS_RETRY_MS, robot)
  {
    RetriedTells(start, start + READINESS_TIMEOUT_MS, READINESS_RPC_TIMEOUT_MS, READINESS_RETRY_MS, robot);
  }
}
