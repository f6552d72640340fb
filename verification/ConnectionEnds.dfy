/** What an exchange ends with, and why, over every run; and what the connection writes and tells. */
module ConnectionEnds {
  import opened Wrappers
  import opened Connection
  import opened ConnectionInvariant

  /** What the exchange is decided to end with, if it is decided; one that did not begin is not. */
  function EndAt(s: State, n: nat): Option<Outcome> {
    if n >= |s.exchanges| then None
    else match s.exchanges[n].phase
      case Leaving(end) => Some(end)
      case Done(end) => Some(end)
      case _ => None
  }

  const TIMED_OUT := Returned(Err(Timeout))
  const UNWRITTEN := Returned(Err(Protocol))
  const CLOSED := Returned(Err(Closed))

  /** The one step that may make this end of this exchange. */
  predicate Makes(step: Step, n: nat, end: Outcome) {
    || (end == TIMED_OUT && step == Expire(n))
    || (end == UNWRITTEN && step.Register? && step.n == n && !step.fits)
    || (end == Cancelled && step == Cancel(n))
  }

  predicate HasOneCause(end: Outcome) {
    end == TIMED_OUT || end == UNWRITTEN || end == Cancelled
  }

  lemma EndsByItsCause(s: State, step: Step, n: nat, end: Outcome)
    requires Answers(s.exchanges, s.closed) && Enabled(s, step) && HasOneCause(end)
    ensures EndAt(Next(s, step), n) == Some(end) <==> EndAt(s, n) == Some(end) || Makes(step, n, end)
  {
    if step.Collect? && step.n == n {
      assert Truthful(s.exchanges[n], s.closed);
    }
  }

  ghost predicate SomeMakes(steps: seq<Step>, n: nat, end: Outcome) {
    exists i :: 0 <= i < |steps| && Makes(steps[i], n, end)
  }

  lemma SomeMakesMore(steps: seq<Step>, n: nat, end: Outcome)
    requires steps != []
    ensures SomeMakes(steps, n, end) <==> Makes(steps[0], n, end) || SomeMakes(steps[1..], n, end)
  {
    if SomeMakes(steps, n, end) {
      var i :| 0 <= i < |steps| && Makes(steps[i], n, end);
      assert i > 0 ==> Makes(steps[1..][i - 1], n, end);
    }
    if SomeMakes(steps[1..], n, end) {
      var i :| 0 <= i < |steps[1..]| && Makes(steps[1..][i], n, end);
      assert Makes(steps[i + 1], n, end);
    }
  }

  lemma {:induction false} EndsOverRuns(s: State, steps: seq<Step>, n: nat, end: Outcome)
    requires Inv(s) && CanRun(s, steps) && HasOneCause(end)
    ensures EndAt(Run(s, steps), n) == Some(end) <==> EndAt(s, n) == Some(end) || SomeMakes(steps, n, end)
    decreases |steps|
  {
    if steps != [] {
      EndsByItsCause(s, steps[0], n, end);
      Keeps(s, steps[0]);
      EndsOverRuns(Next(s, steps[0]), steps[1..], n, end);
      SomeMakesMore(steps, n, end);
    }
  }

  /** Every request on its way was written to the queue, and one that could not be written is not in it. */
  ghost predicate Written(s: State) {
    && (forall n | 0 <= n < |s.exchanges| && s.exchanges[n].phase.Awaiting? :: n in s.outgoing.queued)
    && (forall i | 0 <= i < |s.outgoing.queued| ::
          s.outgoing.queued[i] < |s.exchanges| && s.exchanges[s.outgoing.queued[i]].id.Some?)
  }

  lemma WrittenNext(s: State, step: Step)
    requires Named(s.exchanges) && Written(s) && Enabled(s, step)
    ensures Written(Next(s, step))
  {
    if step.Queue? {
      assert Next(s, step).outgoing.queued[|s.outgoing.queued|] == step.n;
    }
  }

  /** An exchange whose request could not be written has no identifier. */
  ghost predicate Unnamed(s: State) {
    forall n | 0 <= n < |s.exchanges| && EndAt(s, n) == Some(UNWRITTEN) :: s.exchanges[n].id.None?
  }

  lemma UnnamedNext(s: State, step: Step)
    requires Named(s.exchanges) && Answers(s.exchanges, s.closed) && Unnamed(s) && Enabled(s, step)
    ensures Unnamed(Next(s, step))
  {
    var t := Next(s, step);
    forall n | 0 <= n < |t.exchanges| && EndAt(t, n) == Some(UNWRITTEN) ensures t.exchanges[n].id.None? {
      EndsByItsCause(s, step, n, UNWRITTEN);
    }
  }

  /** Closed is what an exchange ends with only on a connection that is closed. */
  ghost predicate ClosedOnly(s: State) {
    forall n | 0 <= n < |s.exchanges| && EndAt(s, n) == Some(CLOSED) :: s.closed
  }

  lemma ClosedOnlyNext(s: State, step: Step)
    requires Answers(s.exchanges, s.closed) && (s.task.Ended? ==> s.closed) && ClosedOnly(s) && Enabled(s, step)
    ensures ClosedOnly(Next(s, step)) && (Next(s, step).closed <==> s.closed || step.Swap?)
  {
    var t := Next(s, step);
    forall n | 0 <= n < |t.exchanges| && EndAt(t, n) == Some(CLOSED) ensures t.closed {
      if n < |s.exchanges| && EndAt(s, n) != Some(CLOSED) {
        assert Truthful(s.exchanges[n], s.closed);
      }
    }
  }

  lemma {:induction false} RunKeepsEnds(steps: seq<Step>)
    requires CanRun(INITIAL, steps)
    ensures var s := Run(INITIAL, steps); Inv(s) && Written(s) && Unnamed(s) && ClosedOnly(s)
    ensures Run(INITIAL, steps).closed <==> SomeSwap(steps)
    decreases |steps|
  {
    if steps != [] {
      var before, last := steps[..|steps| - 1], steps[|steps| - 1];
      RunSplits(INITIAL, steps);
      RunKeepsEnds(before);
      EndsNext(Run(INITIAL, before), last);
      SomeSwapMore(steps);
    }
  }

  lemma EndsNext(s: State, step: Step)
    requires Inv(s) && Written(s) && Unnamed(s) && ClosedOnly(s) && Enabled(s, step)
    ensures var t := Next(s, step); Inv(t) && Written(t) && Unnamed(t) && ClosedOnly(t)
    ensures Next(s, step).closed <==> s.closed || step.Swap?
  {
    Keeps(s, step);
    WrittenNext(s, step);
    UnnamedNext(s, step);
    ClosedOnlyNext(s, step);
  }

  ghost predicate SomeSwap(steps: seq<Step>) {
    exists i :: 0 <= i < |steps| && steps[i].Swap?
  }

  lemma SomeSwapMore(steps: seq<Step>)
    requires steps != []
    ensures SomeSwap(steps) <==> SomeSwap(steps[..|steps| - 1]) || steps[|steps| - 1].Swap?
  {
    var before := steps[..|steps| - 1];
    if SomeSwap(before) {
      var i :| 0 <= i < |before| && before[i].Swap?;
      assert steps[i].Swap?;
    }
    if SomeSwap(steps) {
      var i :| 0 <= i < |steps| && steps[i].Swap?;
      assert i < |before| ==> before[i].Swap?;
    }
  }

  /** What is told of the end, or is about to be, is the reason of the swap. */
  ghost predicate ReasonIs(s: State, steps: seq<Step>) {
    && (s.task.Swapped? || s.task.Draining? ==> Swap(s.task.reason) in steps)
    && (forall i | 0 <= i < |s.events| && s.events[i].Disconnected? :: Swap(s.events[i].reason) in steps)
  }

  lemma ReasonNext(s: State, steps: seq<Step>, step: Step)
    requires ReasonIs(s, steps) && Enabled(s, step)
    ensures ReasonIs(Next(s, step), steps + [step])
  {
  }

  lemma {:induction false} RunKeepsReason(steps: seq<Step>)
    requires CanRun(INITIAL, steps)
    ensures ReasonIs(Run(INITIAL, steps), steps)
    decreases |steps|
  {
    if steps != [] {
      var before, last := steps[..|steps| - 1], steps[|steps| - 1];
      RunSplits(INITIAL, steps);
      RunKeepsReason(before);
      ReasonNext(Run(INITIAL, before), before, last);
      assert before + [last] == steps;
    }
  }

  lemma {:induction false} RunSplits(s: State, steps: seq<Step>)
    requires CanRun(s, steps) && steps != []
    ensures var before, last := steps[..|steps| - 1], steps[|steps| - 1];
      CanRun(s, before) && Enabled(Run(s, before), last) && Run(s, steps) == Next(Run(s, before), last)
    decreases |steps|
  {
    if |steps| > 1 {
      RunSplits(Next(s, steps[0]), steps[1..]);
      assert steps[..|steps| - 1][1..] == steps[1..][..|steps| - 2];
    }
  }

  /**
   In every run an exchange ends with a time-out exactly when its timer went off, with a protocol
   error exactly when its request did not fit, and then it was never queued, and cancelled exactly
   when its caller dropped it; it ends as closed only after the swap that closed the connection.
   */
  lemma WhyAnExchangeEnds(steps: seq<Step>, n: nat)
    requires CanRun(INITIAL, steps)
    ensures var s := Run(INITIAL, steps);
      && (EndAt(s, n) == Some(TIMED_OUT) <==> exists i :: 0 <= i < |steps| && steps[i] == Expire(n))
      && (EndAt(s, n) == Some(UNWRITTEN) <==>
            exists i :: 0 <= i < |steps| && steps[i].Register? && steps[i].n == n && !steps[i].fits)
      && (EndAt(s, n) == Some(UNWRITTEN) ==> n !in s.outgoing.queued)
      && (EndAt(s, n) == Some(Cancelled) <==> exists i :: 0 <= i < |steps| && steps[i] == Cancel(n))
      && (EndAt(s, n) == Some(CLOSED) ==> SomeSwap(steps))
  {
    RunKeepsEnds(steps);
    Caused(steps, n, TIMED_OUT);
    Caused(steps, n, UNWRITTEN);
    Caused(steps, n, Cancelled);
  }

  lemma Caused(steps: seq<Step>, n: nat, end: Outcome)
    requires CanRun(INITIAL, steps) && HasOneCause(end)
    ensures EndAt(Run(INITIAL, steps), n) == Some(end) <==> exists i :: 0 <= i < |steps| && Makes(steps[i], n, end)
  {
    EndsOverRuns(INITIAL, steps, n, end);
  }

  /** What ends an exchange with an answer or a refusal is the look into its own channel. */
  lemma WhatACollectReturns(s: State, n: nat)
    requires Enabled(s, Collect(n)) && s.exchanges[n].id.Some?
    ensures EndAt(Next(s, Collect(n)), n) == Some(Returned(s.exchanges[n].cell.result))
    ensures EndAt(Next(Next(s, Collect(n)), Unregister(n)), n) == Some(Returned(s.exchanges[n].cell.result))
  {
  }

  /** In every run a request that waits for its answer was queued for the socket, once. */
  lemma WhatWaitsWasQueued(steps: seq<Step>, n: nat)
    requires CanRun(INITIAL, steps) && In(Run(INITIAL, steps), n, Awaiting)
    ensures n in Run(INITIAL, steps).outgoing.queued
    ensures var queued := Run(INITIAL, steps).outgoing.queued;
      forall i, j :: 0 <= i < j < |queued| ==> queued[i] != queued[j]
  {
    RunKeepsEnds(steps);
  }

  /** In every run the end that is told has the reason for which the connection was closed. */
  lemma TheReasonIsTold(steps: seq<Step>, i: nat)
    requires CanRun(INITIAL, steps) && i < |Run(INITIAL, steps).events| && Run(INITIAL, steps).events[i].Disconnected?
    ensures Swap(Run(INITIAL, steps).events[i].reason) in steps
  {
    RunKeepsReason(steps);
  }

  /**
     A heartbeat, kind 51, wakes nobody and tells nothing; another message with no waiter is told when it
     reads as an event.
  */
  lemma WhatAnArrivalTells(s: State, envelope: Envelope)
    requires s.task.Idle?
    ensures envelope.kind == 51 ==> Next(s, Arrive(envelope)) == s
    ensures envelope.kind != 51 && (envelope.id.None? || envelope.id.value !in s.pending) ==>
              Next(s, Arrive(envelope)) == s.(events := s.events + if envelope.heard then [Heard(envelope)] else [])
  {
    assert s.events + [] == s.events;
  }

  /** On a closed connection an exchange ends as it begins, and one that registered in between ends at its second look. */
  lemma WhatTheLooksDo(s: State, n: nat)
    ensures var t := Next(s, Begin);
      && |t.exchanges| == |s.exchanges| + 1 && t.exchanges[..|s.exchanges|] == s.exchanges
      && t == s.(exchanges := t.exchanges)
      && var begun := t.exchanges[|s.exchanges|];
      && begun.id.None? && begun.cell.Empty?
      && begun.phase == (if s.closed then Done(CLOSED) else Acquiring)
    ensures In(s, n, Registered) ==>
      var t := Next(s, Look(n));
      && t == s.(exchanges := t.exchanges) && |t.exchanges| == |s.exchanges|
      && t.exchanges[n] == s.exchanges[n].(phase := if s.closed then Leaving(CLOSED) else Sending)
      && forall m | 0 <= m < |s.exchanges| && m != n :: t.exchanges[m] == s.exchanges[m]
  {
  }
}
