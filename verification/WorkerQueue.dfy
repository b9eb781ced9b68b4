/** The worker's queue of commands over whole runs: order, and which commands are answered. */
module WorkerQueue {
  import opened Wrappers
  import opened ControlSession
  import opened SessionSafety
  import opened Client
  import opened Ownership
  import opened Worker
  import V = Velocity
  import P = Poll

  /** Commands are answered once each, in the order of submission; the rest wait in order. */
  predicate Fifo(n: Node) {
    && |n.answers| + |n.commands| == |n.submitted|
    && (forall i :: 0 <= i < |n.answers| ==> n.answers[i].job == Job(i, n.submitted[i]))
    && (forall i :: 0 <= i < |n.commands| ==>
          n.commands[i] == Job(|n.answers| + i, n.submitted[|n.answers| + i]))
  }

  lemma StepFifo(c: Settings, n: Node, input: Input)
    requires Fifo(n)
    ensures Fifo(StepNode(c, n, input))
    ensures n.submitted <= StepNode(c, n, input).submitted && n.answers <= StepNode(c, n, input).answers
  {
    hide Execute, Send, P.UpdatePoll, Leave, Callbacks, Replies;
  }

  /** Over any run each submitted command is answered at most once, in the order of submission,
      and once the loop has ended nothing more is answered, sent or changed: what still waits
      then waits forever. */
  lemma {:induction false} CommandsAreFifo(c: Settings, n: Node, inputs: seq<Input>)
    requires Fifo(n)
    ensures var n' := RunNode(c, n, inputs);
      && Fifo(n') && n.submitted <= n'.submitted && n.answers <= n'.answers
      && (n.ended ==> n'.answers == n.answers && n'.b == n.b && n'.battery == n.battery && n'.ended)
    decreases inputs
  {
    hide StepNode;
    if inputs != [] {
      StepFifo(c, n, inputs[0]);
      if n.ended {
        EndedStep(c, n, inputs[0]);
      }
      CommandsAreFifo(c, StepNode(c, n, inputs[0]), inputs[1..]);
    }
  }

  lemma EndedStep(c: Settings, n: Node, input: Input)
    requires n.ended
    ensures var n' := StepNode(c, n, input); n' == n.(commands := n'.commands, submitted := n'.submitted)
  {
  }

  /** How many commands the inputs get answered, told from the inputs alone: each turn answers one
      while some wait, until the loop ends. */
  function Served(waiting: nat, ended: bool, inputs: seq<Input>): nat
    decreases inputs
  {
    if inputs == [] then 0
    else match inputs[0]
      case Submit(_) => Served(waiting + 1, ended, inputs[1..])
      case Loop(_) =>
        if ended || waiting == 0 then Served(waiting, ended, inputs[1..])
        else 1 + Served(waiting - 1, ended, inputs[1..])
      case Quit(_, _) => Served(waiting, true, inputs[1..])
  }

  lemma StepServes(c: Settings, n: Node, input: Input)
    ensures var n' := StepNode(c, n, input);
      match input
      case Submit(_) => |n'.commands| == |n.commands| + 1 && n'.answers == n.answers && n'.ended == n.ended
      case Loop(_) =>
        && n'.ended == n.ended
        && if n.ended || n.commands == [] then n'.commands == n.commands && n'.answers == n.answers
           else |n'.commands| == |n.commands| - 1 && |n'.answers| == |n.answers| + 1
      case Quit(_, _) => n'.commands == n.commands && n'.answers == n.answers && n'.ended
  {
    hide Execute, Send, P.UpdatePoll, Leave, Callbacks, Replies;
  }

  lemma {:induction false} AnswersAreServed(c: Settings, n: Node, inputs: seq<Input>)
    ensures |RunNode(c, n, inputs).answers| == |n.answers| + Served(|n.commands|, n.ended, inputs)
    decreases inputs
  {
    hide StepNode;
    if inputs != [] {
      StepServes(c, n, inputs[0]);
      AnswersAreServed(c, StepNode(c, n, inputs[0]), inputs[1..]);
    }
  }

  /** The turns the loop makes before it quits. */
  function TurnsBeforeQuit(inputs: seq<Input>): nat
    decreases inputs
  {
    if inputs == [] || inputs[0].Quit? then 0
    else (if inputs[0].Loop? then 1 else 0) + TurnsBeforeQuit(inputs[1..])
  }

  lemma {:induction false} NothingServedAfterQuit(waiting: nat, inputs: seq<Input>)
    ensures Served(waiting, true, inputs) == 0
    decreases inputs
  {
    if inputs != [] {
      NothingServedAfterQuit(if inputs[0].Submit? then waiting + 1 else waiting, inputs[1..]);
    }
  }

  lemma {:induction false} ServedIff(waiting: nat, inputs: seq<Input>, count: nat)
    requires count <= waiting
    ensures Served(waiting, false, inputs) >= count <==> TurnsBeforeQuit(inputs) >= count
    decreases inputs
  {
    if inputs != [] {
      match inputs[0] {
        case Submit(_) => ServedIff(waiting + 1, inputs[1..], count);
        case Loop(_) => if count > 0 { ServedIff(waiting - 1, inputs[1..], count - 1); }
        case Quit(_, _) => NothingServedAfterQuit(waiting, inputs[1..]);
      }
    }
  }

  /** A command submitted with k others ahead of it is answered if and only if the loop makes
      k + 1 turns afterwards before it quits; the answer is its own. */
  lemma CommandAnsweredIff(c: Settings, n: Node, command: Command, after: seq<Input>)
    requires Fifo(n) && !n.ended
    ensures var number, answers := |n.submitted|, RunNode(c, Enqueue(n, command), after).answers;
      && (number < |answers| <==> TurnsBeforeQuit(after) >= |n.commands| + 1)
      && (number < |answers| ==> answers[number].job == Job(number, command))
  {
    var m := Enqueue(n, command);
    AnswersAreServed(c, m, after);
    ServedIff(|m.commands|, after, |n.commands| + 1);
    StepFifo(c, n, Submit(command));
    CommandsAreFifo(c, m, after);
    assert m.submitted[|n.submitted|] == command;
  }

  /** The outcome a turn answers its command with: what the command gave, or a failed call for an
      exception out of it. */
  function TurnOutcome(n: Node, turn: Turn): Outcome
    requires n.commands != []
  {
    var outcome := Execute(Meet(n, turn), n.commands[0].command, turn.env).1;
    if outcome == Escaped then Done(false, RpcCallFailed) else outcome
  }

  lemma TurnAnswers(c: Settings, n: Node, turn: Turn)
    requires n.commands != []
    ensures TakeTurn(c, n, turn).answers == n.answers + [Answer(n.commands[0], TurnOutcome(n, turn))]
  {
    hide Execute, Send, P.UpdatePoll, Callbacks, Replies;
  }

  /** Turn j of the inputs is the one that gives answer `number`, with the outcome of its command. */
  predicate GivesAnswer(c: Settings, n: Node, inputs: seq<Input>, j: nat, number: nat)
  {
    && j < |inputs| && inputs[j].Loop?
    && var m := RunNode(c, n, inputs[..j]);
       && !m.ended && m.commands != [] && |m.answers| == number < |RunNode(c, n, inputs).answers|
       && RunNode(c, n, inputs).answers[number] == Answer(m.commands[0], TurnOutcome(m, inputs[j].turn))
  }

  /** Every answer of a run is the outcome of its own command in the turn that executed it. */
  lemma {:induction false} AnswersAreOutcomes(c: Settings, n: Node, inputs: seq<Input>, number: nat) returns (j: nat)
    requires Fifo(n)
    requires |n.answers| <= number < |RunNode(c, n, inputs).answers|
    ensures GivesAnswer(c, n, inputs, j, number)
    decreases inputs
  {
    hide TakeTurn, QuitLoop, TurnOutcome;
    assert inputs != [];
    StepFifo(c, n, inputs[0]);
    var n' := StepNode(c, n, inputs[0]);
    CommandsAreFifo(c, n', inputs[1..]);
    StepServes(c, n, inputs[0]);
    if |n'.answers| > number {
      assert inputs[0].Loop? && !n.ended && n.commands != [];
      TurnAnswers(c, n, inputs[0].turn);
      assert inputs[..0] == [];
      j := 0;
    } else {
      j := AnswersAreOutcomes(c, n', inputs[1..], number);
      assert inputs[..j + 1][0] == inputs[0] && inputs[..j + 1][1..] == inputs[1..][..j];
      j := j + 1;
    }
  }

  /** A run that leaves a command unanswered for good: it is submitted when the loop is about to
      quit. */
  lemma UnansweredExample(c: Settings, b: Bridge, env: Env, later: seq<Input>)
    ensures var inputs := [Submit(StopCommand), Quit(1, env)] + later;
      RunNode(c, Start(b), inputs).answers == []
  {
    var inputs := [Submit(StopCommand), Quit(1, env)] + later;
    AnswersAreServed(c, Start(b), inputs);
    assert inputs[1..] == [Quit(1, env)] + later && inputs[1..][1..] == later;
    NothingServedAfterQuit(1, later);
  }

  /** A turn with a command waiting answers one command and dispatches no velocity. */
  lemma CommandsGoFirst(c: Settings, n: Node, turn: Turn)
    requires n.commands != []
    ensures var n' := TakeTurn(c, n, turn);
      n'.b.channel.dispatched == n.b.channel.dispatched && |n'.answers| == |n.answers| + 1
  {
    hide Execute, Send, P.UpdatePoll, Arrivals;
    var met, acted := Meet(n, turn), Act(c, n, turn);
    ArrivalsKeepHistory(n.b.channel, turn.early);
    var resets, _ := ExecuteEffects(met, n.commands[0].command, turn.env);
    ResetsKeepHistory(met.channel, resets);
    var begun := V.BeginWatch(c.velocity, acted.b.channel, turn.watch.at, acted.b.s.state == Controlled);
    SendKeepsDispatched(acted.b, begun, turn.watch);
  }
}
