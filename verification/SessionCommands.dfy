/**
 A session's command queue: callers wait with a deadline and may give up, one
 controller takes commands in order, and the end of the session resolves the rest.
 Each locked section is one step; any steps may come between two of them.
 */
module SessionCommands {

  import opened Wrappers

  const QUEUE_LIMIT := 32

  /** A future: Finished(true) when its command ran, Finished(false) when the session ended first. */
  datatype Future = Pending | Running | Finished(ran: bool) | Cancelled

  /** A caller: its deadline may pass with the future undone, and its cancelling may succeed or not. */
  datatype Caller = Waiting | Expired | Answered(ran: bool) | TimedOut(mayHaveRun: bool)

  datatype Phase = Open | Ending | Over

  /** Commands are known by the order they were accepted in; executed lists those begun. */
  datatype State = State(futures: seq<Future>, callers: seq<Caller>, queue: seq<nat>, current: Option<nat>,
                         executed: seq<nat>, phase: Phase)

  const START := State([], [], [], None, [], Open)

  datatype Action =
    | Accept
    | Take
    | Complete
    | Finish
    | Resolve
    | Close
    | Deliver(caller: nat)
    | Expire(caller: nat)
    | GiveUp(caller: nat)

  predicate Enabled(s: State, a: Action) {
    match a
    case Accept => s.phase.Open? && |s.queue| < QUEUE_LIMIT
    case Take => s.phase.Open? && s.current.None? && s.queue != [] && s.queue[0] < |s.futures|
    case Complete => s.current.Some? && s.current.value < |s.futures|
    case Finish => s.phase.Open? && s.current.None?
    case Resolve => s.phase.Ending? && s.queue != [] && s.queue[0] < |s.futures|
    case Close => s.phase.Ending? && s.queue == []
    case Deliver(i) => i < |s.callers| && i < |s.futures| && s.callers[i].Waiting? && s.futures[i].Finished?
    case Expire(i) => i < |s.callers| && i < |s.futures| && s.callers[i].Waiting? && !s.futures[i].Finished?
    case GiveUp(i) => i < |s.callers| && i < |s.futures| && s.callers[i].Expired?
  }

  function Step(s: State, a: Action): State
    requires Enabled(s, a)
  {
    match a
    case Accept =>
      s.(futures := s.futures + [Pending], callers := s.callers + [Waiting], queue := s.queue + [|s.futures|])
    case Take =>
      // A cancelled command is dropped without being run.
      var i := s.queue[0];
      if s.futures[i].Pending? then
        s.(queue := s.queue[1..], futures := s.futures[i := Running], current := Some(i), executed := s.executed + [i])
      else
        s.(queue := s.queue[1..])
    case Complete => s.(futures := s.futures[s.current.value := Finished(true)], current := None)
    case Finish => s.(phase := Ending)
    case Resolve =>
      var i := s.queue[0];
      s.(queue := s.queue[1..],
         futures := if s.futures[i].Pending? then s.futures[i := Finished(false)] else s.futures)
    case Close => s.(phase := Over)
    case Deliver(i) => s.(callers := s.callers[i := Answered(s.futures[i].ran)])
    case Expire(i) => s.(callers := s.callers[i := Expired])
    case GiveUp(i) =>
      if s.futures[i].Pending? then
        s.(futures := s.futures[i := Cancelled], callers := s.callers[i := TimedOut(false)])
      else
        s.(callers := s.callers[i := TimedOut(true)])
  }

  predicate Increasing(xs: seq<nat>) {
    forall i, j | 0 <= i < j < |xs| :: xs[i] < xs[j]
  }

  /** One command: where it stands in the queue, with its caller and in the record of what ran. */
  ghost predicate CommandOk(s: State, i: nat)
    requires i < |s.futures| && i < |s.callers|
  {
    var f, c := s.futures[i], s.callers[i];
    && (f.Pending? ==> i in s.queue)
    && (i in s.queue ==> f.Pending? || f.Cancelled?)
    && (f.Running? <==> s.current == Some(i))
    && (i in s.executed <==> f.Running? || f == Finished(true))
    && (f.Cancelled? <==> c == TimedOut(false))
    && (c.Answered? ==> f == Finished(c.ran))
  }

  ghost predicate Inv(s: State) {
    && |s.callers| == |s.futures| && |s.queue| <= QUEUE_LIMIT
    && Increasing(s.queue) && Increasing(s.executed)
    && (forall k | 0 <= k < |s.queue| :: s.queue[k] < |s.futures|)
    && (forall k | 0 <= k < |s.executed| :: s.executed[k] < |s.futures|)
    && (forall j, k | 0 <= j < |s.executed| && 0 <= k < |s.queue| :: s.executed[j] < s.queue[k])
    && (s.current.Some? ==> s.current.value < |s.futures| && s.phase.Open?)
    && (s.phase.Over? ==> s.queue == [])
    && (forall i | 0 <= i < |s.futures| :: CommandOk(s, i))
  }

  lemma QueueHead(queue: seq<nat>, i: nat)
    requires queue != [] && Increasing(queue)
    ensures i in queue <==> i == queue[0] || i in queue[1..]
    ensures i in queue[1..] ==> i > queue[0]
  {
    assert queue == [queue[0]] + queue[1..];
  }

  lemma AcceptKeeps(s: State)
    requires Inv(s) && Enabled(s, Accept)
    ensures Inv(Step(s, Accept))
  {
    var t := Step(s, Accept);
    forall i | 0 <= i < |t.futures|
      ensures CommandOk(t, i)
    {
      if i < |s.futures| {
        assert CommandOk(s, i);
      } else {
        assert i !in s.executed;
      }
    }
  }

  lemma TakeKeeps(s: State, a: Action)
    requires Inv(s) && Enabled(s, a) && (a.Take? || a.Resolve?)
    ensures Inv(Step(s, a))
  {
    var t, head := Step(s, a), s.queue[0];
    QueueHead(s.queue, head);
    assert CommandOk(s, head);
    forall i | 0 <= i < |t.futures|
      ensures CommandOk(t, i)
    {
      QueueHead(s.queue, i);
      assert CommandOk(s, i);
    }
    assert forall k | 0 <= k < |t.queue| :: t.queue[k] == s.queue[k + 1];
  }

  lemma CallerKeeps(s: State, a: Action)
    requires Inv(s) && Enabled(s, a) && (a.Deliver? || a.Expire? || a.GiveUp?)
    ensures Inv(Step(s, a))
  {
    var t := Step(s, a);
    assert CommandOk(s, a.caller);
    forall i | 0 <= i < |t.futures|
      ensures CommandOk(t, i)
    {
      assert CommandOk(s, i);
    }
  }

  lemma StepKeeps(s: State, a: Action)
    requires Inv(s) && Enabled(s, a)
    ensures Inv(Step(s, a))
  {
    match a
    case Accept => AcceptKeeps(s);
    case Take => TakeKeeps(s, a);
    case Resolve => TakeKeeps(s, a);
    case Deliver(_) => CallerKeeps(s, a);
    case Expire(_) => CallerKeeps(s, a);
    case GiveUp(_) => CallerKeeps(s, a);
    case _ =>
      var t := Step(s, a);
      forall i | 0 <= i < |t.futures|
        ensures CommandOk(t, i)
      {
        assert CommandOk(s, i);
      }
  }

  /** Any interleaving; an action that is not possible when its turn comes does nothing. */
  function Run(actions: seq<Action>): State {
    if actions == [] then START
    else
      var s, a := Run(actions[..|actions| - 1]), actions[|actions| - 1];
      if Enabled(s, a) then Step(s, a) else s
  }

  lemma {:induction false} RunKeeps(actions: seq<Action>)
    ensures Inv(Run(actions))
  {
    if actions != [] {
      hide Inv, Step, Enabled;
      RunKeeps(actions[..|actions| - 1]);
      if Enabled(Run(actions[..|actions| - 1]), actions[|actions| - 1]) {
        StepKeeps(Run(actions[..|actions| - 1]), actions[|actions| - 1]);
      }
    }
  }

  /** A caller's answer is final. */
  lemma {:induction false} AnswersStay(actions: seq<Action>, more: seq<Action>, i: nat)
    requires i < |Run(actions).callers| && (Run(actions).callers[i].TimedOut? || Run(actions).callers[i].Answered?)
    ensures i < |Run(actions + more).callers| && Run(actions + more).callers[i] == Run(actions).callers[i]
    decreases |more|
  {
    if more == [] {
      assert actions + more == actions;
    } else {
      AnswersStay(actions, more[..|more| - 1], i);
      assert (actions + more)[..|actions + more| - 1] == actions + more[..|more| - 1];
    }
  }

  /**
   A caller told that its command cannot have run is right for good: the command did
   not run, and whatever happens later it never does.
   */
  lemma NeverRuns(actions: seq<Action>, more: seq<Action>, i: nat)
    requires i < |Run(actions).callers| && Run(actions).callers[i] == TimedOut(false)
    ensures i !in Run(actions + more).executed
  {
    AnswersStay(actions, more, i);
    RunKeeps(actions + more);
    hide Run;
    assert CommandOk(Run(actions + more), i);
  }

  /** Commands run at most once each, in the order they were accepted; an answer tells whether they did. */
  lemma RunsInOrder(actions: seq<Action>, i: nat)
    requires i < |Run(actions).futures|
    ensures var s := Run(actions);
      && Increasing(s.executed) && i < |s.callers|
      && (s.callers[i].Answered? ==> (s.callers[i].ran <==> i in s.executed))
  {
    RunKeeps(actions);
    hide Run;
    assert CommandOk(Run(actions), i);
  }

  /** Once the session is over, every command that was ever accepted is resolved. */
  lemma AllResolved(actions: seq<Action>, i: nat)
    requires Run(actions).phase.Over? && i < |Run(actions).futures|
    ensures Run(actions).futures[i].Finished? || Run(actions).futures[i].Cancelled?
  {
    RunKeeps(actions);
    hide Run;
    assert CommandOk(Run(actions), i);
  }
}
