/** What the invariants of a connection mean for the requests on it, over every run. */
module ConnectionTheorems {
  import opened Wrappers
  import opened Connection
  import opened ConnectionInvariant

  // ---- no waiter is stranded ----

  /**
   However requests, answers, timers, cancellations and the end of the connection interleave: what
   is in the map belongs to an unfinished exchange, and once the connection was drained no request
   that waits for room or for its answer is left for the map: it was resolved, or is about to be.
   */
  lemma NobodyIsStranded(steps: seq<Step>)
    requires CanRun(INITIAL, steps)
    ensures var s := Run(INITIAL, steps);
      && (forall id | id in s.pending ::
            s.pending[id] < |s.exchanges| && s.exchanges[s.pending[id]].id == Some(id) && Unfinished(s.exchanges[s.pending[id]]))
      && ((forall n | 0 <= n < |s.exchanges| :: s.exchanges[n].phase.Done?) ==> s.pending == map[])
      && (Drained(s.task) ==> forall n: nat | In(s, n, Sending) || In(s, n, Awaiting) ::
            s.exchanges[n].cell.Holds? || InHand(s.task, n))
      && (s.task.Ended? ==> forall n: nat | In(s, n, Sending) || In(s, n, Awaiting) :: s.exchanges[n].cell.Holds?)
  {
    EveryRunKeeps(INITIAL, steps);
    var s := Run(INITIAL, steps);
    if forall n | 0 <= n < |s.exchanges| :: s.exchanges[n].phase.Done? {
      assert forall id :: id !in s.pending;
    }
  }

  function Rank(phase: Phase): nat {
    match phase
    case Acquiring => 5
    case Registered => 4
    case Sending => 3
    case Awaiting => 2
    case Leaving(_) => 1
    case Done(_) => 0
  }

  predicate IsOf(step: Step, n: nat) {
    match step
    case Register(m, _, _) => m == n
    case Look(m) => m == n
    case Queue(m) => m == n
    case FindNoTask(m) => m == n
    case Expire(m) => m == n
    case Collect(m) => m == n
    case Cancel(m) => m == n
    case Unregister(m) => m == n
    case _ => false
  }

  /** The step an exchange takes by itself: no timer, no cancellation, and no one else is needed. */
  function OwnStep(s: State, n: nat, id: Id): Step
    requires n < |s.exchanges|
  {
    match s.exchanges[n].phase
    case Acquiring => Register(n, id, true)
    case Registered => Look(n)
    case Sending => if s.task.Ended? then FindNoTask(n) else Queue(n)
    case Awaiting => Collect(n)
    case _ => Unregister(n)
  }

  /** Once the connection has ended every unfinished exchange can go on by itself, without its timer. */
  lemma EndedLeavesNoOneWaiting(s: State, n: nat, id: Id)
    requires Inv(s) && s.task.Ended? && n < |s.exchanges| && Unfinished(s.exchanges[n]) && Fresh(s, id)
    ensures Enabled(s, OwnStep(s, n, id))
  {
  }

  lemma OwnStepsGoOn(s: State, step: Step, n: nat)
    requires Inv(s) && Enabled(s, step) && n < |s.exchanges|
    ensures n < |Next(s, step).exchanges|
    ensures var now, later := s.exchanges[n], Next(s, step).exchanges[n];
      if IsOf(step, n) then Rank(later.phase) < Rank(now.phase) else later.phase == now.phase
  {
  }

  function StepsOf(steps: seq<Step>, n: nat): nat {
    if steps == [] then 0 else (if IsOf(steps[0], n) then 1 else 0) + StepsOf(steps[1..], n)
  }

  /** Whatever the others do, an exchange is over after at most five steps of its own. */
  lemma {:induction false} FiveStepsAtMost(s: State, steps: seq<Step>, n: nat)
    requires Inv(s) && CanRun(s, steps) && n < |s.exchanges|
    ensures n < |Run(s, steps).exchanges|
    ensures Rank(Run(s, steps).exchanges[n].phase) + StepsOf(steps, n) <= Rank(s.exchanges[n].phase) <= 5
    decreases |steps|
  {
    if steps != [] {
      OwnStepsGoOn(s, steps[0], n);
      Keeps(s, steps[0]);
      FiveStepsAtMost(Next(s, steps[0]), steps[1..], n);
    }
  }

  // ---- the end of the connection ----

  /** The waiters that were drained, each told the connection is closed unless it gave up before. */
  function Swept(exchanges: Exchanges, waiters: set<nat>): Exchanges {
    seq(|exchanges|, i requires 0 <= i < |exchanges| =>
      if i in waiters && exchanges[i].Listens() then exchanges[i].(cell := Holds(Err(Closed))) else exchanges[i])
  }

  /** `finish` taken without a break: nothing at all on a connection that is closed already. */
  function Finished(s: State, reason: Reason): State {
    if s.closed then s
    else s.(exchanges := Swept(s.exchanges, s.pending.Values), pending := map[], closed := true, task := Ended,
            events := s.events + [Disconnected(reason)])
  }

  lemma SweptAfterOne(s: State, n: nat)
    requires s.task.Draining? && n in s.task.waiters
    ensures Swept(Resolved(s, n, Err(Closed)).exchanges, s.task.waiters - {n}) == Swept(s.exchanges, s.task.waiters)
  {
  }

  ghost predicate OnlyEnding(steps: seq<Step>) {
    forall i | 0 <= i < |steps| :: steps[i].Refuse? || steps[i].Publish?
  }

  /** In whatever order the drained waiters are refused, the same is left. */
  lemma {:induction false} EveryOrderSweeps(s: State, steps: seq<Step>)
    requires s.task.Draining? && CanRun(s, steps) && OnlyEnding(steps) && Run(s, steps).task.Ended?
    ensures Run(s, steps) == s.(exchanges := Swept(s.exchanges, s.task.waiters), task := Ended,
                                events := s.events + [Disconnected(s.task.reason)])
    decreases |steps|
  {
    assert steps != [];
    var next := Next(s, steps[0]);
    if steps[0].Refuse? {
      SweptAfterOne(s, steps[0].n);
      EveryOrderSweeps(next, steps[1..]);
    } else {
      NothingFollows(next, steps[1..]);
      assert Swept(s.exchanges, {}) == s.exchanges;
    }
  }

  lemma NothingFollows(s: State, steps: seq<Step>)
    requires s.task.Ended? && CanRun(s, steps) && OnlyEnding(steps)
    ensures steps == []
  {
  }

  /** The drain always comes to its end, with one step for each waiter and one to tell it. */
  lemma {:induction false} TheDrainEnds(s: State) returns (steps: seq<Step>)
    requires s.task.Draining?
    ensures CanRun(s, steps) && OnlyEnding(steps) && Run(s, steps).task.Ended?
    ensures |steps| == |s.task.waiters| + 1
    decreases |s.task.waiters|
  {
    if s.task.waiters == {} {
      steps := [Publish];
    } else {
      var n :| n in s.task.waiters;
      var next := Next(s, Refuse(n));
      var rest := TheDrainEnds(next);
      steps := [Refuse(n)] + rest;
      assert steps[1..] == rest;
    }
  }

  /** Taken without a break, the steps of the end come to what `finish` is meant to do. */
  lemma FinishingAtOnce(s: State, reason: Reason) returns (steps: seq<Step>)
    requires s.task.Idle? && !s.closed
    ensures CanRun(s, steps) && Run(s, steps) == Finished(s, reason)
  {
    var swapped := Next(s, Swap(reason));
    var drained := Next(swapped, Drain);
    var rest := TheDrainEnds(drained);
    EveryOrderSweeps(drained, rest);
    steps := [Swap(reason), Drain] + rest;
    assert steps[1..] == [Drain] + rest && steps[1..][1..] == rest;
    assert Run(s, steps) == Run(swapped, steps[1..]) == Run(drained, rest);
  }

  /** The last event of a connection is its one disconnection; after it nothing more is told or written. */
  lemma {:induction false} NothingAfterTheEnd(s: State, steps: seq<Step>)
    requires Inv(s) && s.task.Ended? && CanRun(s, steps)
    ensures s.events != [] && s.events[|s.events| - 1].Disconnected?
    ensures forall i | 0 <= i < |s.events| - 1 :: s.events[i].Heard?
    ensures var after := Run(s, steps);
      after.closed && after.task.Ended? && after.events == s.events && after.outgoing == s.outgoing
    decreases |steps|
  {
    if steps != [] {
      Keeps(s, steps[0]);
      NothingAfterTheEnd(Next(s, steps[0]), steps[1..]);
    }
  }

  predicate NotSent(s: State, n: nat) {
    n !in s.outgoing.queued
    && (n < |s.exchanges| ==> !s.exchanges[n].phase.Sending? && !s.exchanges[n].phase.Awaiting?)
  }

  /** A request that had not looked again when the connection closed is never sent. */
  lemma {:induction false} ClosedBeforeTheLookIsNeverSent(s: State, steps: seq<Step>, n: nat)
    requires s.closed && NotSent(s, n) && CanRun(s, steps)
    ensures n !in Run(s, steps).outgoing.queued
    decreases |steps|
  {
    if steps != [] {
      ClosedBeforeTheLookIsNeverSent(Next(s, steps[0]), steps[1..], n);
    }
  }

  // ---- answers ----

  /** A waiter is resolved at most once: what it holds never changes, and nobody else has its sender. */
  lemma {:induction false} ResolvedOnce(s: State, steps: seq<Step>, n: nat)
    requires Inv(s) && CanRun(s, steps) && n < |s.exchanges| && s.exchanges[n].cell.Holds?
    ensures n < |Run(s, steps).exchanges| && Run(s, steps).exchanges[n].cell == s.exchanges[n].cell
    ensures Run(s, steps).exchanges[n].id == s.exchanges[n].id
    ensures !InMap(s.exchanges, s.pending, n) && !InHand(s.task, n)
    decreases |steps|
  {
    if steps != [] {
      Keeps(s, steps[0]);
      CellStays(s, steps[0], n);
      ResolvedOnce(Next(s, steps[0]), steps[1..], n);
    }
  }

  lemma CellStays(s: State, step: Step, n: nat)
    requires Inv(s) && Enabled(s, step) && n < |s.exchanges| && s.exchanges[n].cell.Holds?
    ensures n < |Next(s, step).exchanges| && Next(s, step).exchanges[n].cell == s.exchanges[n].cell
    ensures Next(s, step).exchanges[n].id == s.exchanges[n].id
  {
    if step.Register? {
      assert WellNamed(s.exchanges[step.n]);
    }
  }

  /** An answer to a request that waits reaches that request, and nobody else. */
  lemma AnswerReachesItsRequest(s: State, n: nat, envelope: Envelope)
    requires Inv(s) && s.task.Idle? && envelope.kind != HEARTBEAT_EVENT
    requires n < |s.exchanges| && s.exchanges[n].Listens() && s.exchanges[n].cell.Empty?
    requires envelope.id == s.exchanges[n].id
    ensures CanRun(s, [Arrive(envelope), Hand])
    ensures Run(s, [Arrive(envelope), Hand])
         == s.(pending := s.pending - {envelope.id.value},
               exchanges := s.exchanges[n := s.exchanges[n].(cell := Holds(Ok(envelope)))])
  {
    assert InMap(s.exchanges, s.pending, n);
    var taken := Next(s, Arrive(envelope));
    var steps := [Arrive(envelope), Hand];
    assert steps[1..] == [Hand] && steps[1..][1..] == [];
    assert CanRun(Next(taken, Hand), []);
    assert CanRun(taken, [Hand]);
    assert Run(taken, [Hand]) == Next(taken, Hand);
  }

  /** One no request waits for changes no request: it is told as an event, if it reads as one. */
  lemma AnswerToNobody(s: State, envelope: Envelope)
    requires s.task.Idle? && envelope.kind != HEARTBEAT_EVENT
    requires envelope.id.Some? ==> envelope.id.value !in s.pending
    ensures Next(s, Arrive(envelope))
         == s.(events := s.events + if envelope.heard then [Heard(envelope)] else [])
  {
    assert s.events + [] == s.events;
  }

  predicate Came(result: Result<Envelope, Error>, seen: seq<Step>) {
    result.Ok? ==> Arrive(result.value) in seen
  }

  predicate CameFor(e: Exchange, seen: seq<Step>) {
    && (e.cell.Holds? ==> Came(e.cell.result, seen))
    && (e.phase.Leaving? && e.phase.end.Returned? ==> Came(e.phase.end.result, seen))
    && (e.phase.Done? && e.phase.end.Returned? ==> Came(e.phase.end.result, seen))
  }

  ghost predicate Known(s: State, seen: seq<Step>) {
    && (forall n | 0 <= n < |s.exchanges| :: CameFor(s.exchanges[n], seen))
    && (s.task.Routing? ==> Arrive(s.task.envelope) in seen)
  }

  lemma KnownNext(s: State, step: Step, seen: seq<Step>)
    requires Known(s, seen) && Enabled(s, step)
    ensures Known(Next(s, step), seen + [step])
  {
    forall e | CameFor(e, seen) ensures CameFor(e, seen + [step]) {
    }
  }

  lemma {:induction false} KnownRun(s: State, steps: seq<Step>, seen: seq<Step>)
    requires Known(s, seen) && CanRun(s, steps)
    ensures Known(Run(s, steps), seen + steps)
    decreases |steps|
  {
    if steps == [] {
      assert seen + steps == seen;
    } else {
      KnownNext(s, steps[0], seen);
      KnownRun(Next(s, steps[0]), steps[1..], seen + [steps[0]]);
      assert seen + steps == (seen + [steps[0]]) + steps[1..];
    }
  }

  /** What an exchange returns as its answer came from the server in this run, under its own identifier. */
  lemma AnswersAreItsOwn(steps: seq<Step>, n: nat, answer: Envelope)
    requires CanRun(INITIAL, steps)
    requires In(Run(INITIAL, steps), n, Done(Returned(Ok(answer))))
    ensures Run(INITIAL, steps).exchanges[n].id.Some? && answer.id == Run(INITIAL, steps).exchanges[n].id
    ensures Arrive(answer) in steps
  {
    EveryRunKeeps(INITIAL, steps);
    KnownRun(INITIAL, steps, []);
    assert [] + steps == steps;
    var s := Run(INITIAL, steps);
    assert Truthful(s.exchanges[n], s.closed) && CameFor(s.exchanges[n], steps);
  }

  /** A timer that goes off after the answer came does not lose it. */
  lemma TheTimerLosesNoAnswer(s: State, n: nat)
    requires In(s, n, Awaiting) && s.exchanges[n].cell.Holds?
    ensures !Enabled(s, Expire(n)) && Enabled(s, Collect(n))
    ensures Next(s, Collect(n)).exchanges[n].phase == Leaving(Returned(s.exchanges[n].cell.result))
  {
  }

  // ---- why the flag is looked at twice ----

  /**
   A request that registers after the drain and goes on without a second look: it stays in the map
   of an ended connection with nothing in its channel, and no one is left to resolve it.
   */
  lemma OneLookWouldStrand(s: State, n: nat)
    requires Inv(s) && s.task.Draining? && s.task.waiters == {} && In(s, n, Registered)
    requires s.exchanges[n].cell.Empty?
    requires |s.outgoing.queued| < s.outgoing.taken + OUTGOING_QUEUE
    ensures var unlooked := Moved(s, n, Sending);
      && CanRun(unlooked, [Queue(n), Publish])
      && var end := Run(unlooked, [Queue(n), Publish]);
      && end.task.Ended? && In(end, n, Awaiting) && end.exchanges[n].cell.Empty?
      && InMap(end.exchanges, end.pending, n)
  {
    RunTwo(Moved(s, n, Sending), Queue(n), Publish);
    assert InMap(s.exchanges, s.pending, n);
  }

  /** Such a request exists: its first look came before the end, its registering after the drain. */
  lemma RegistersAfterTheDrain(id: Id, reason: Reason)
    ensures CanRun(INITIAL, [Begin, Swap(reason), Drain, Register(0, id, true)])
    ensures var s := Run(INITIAL, [Begin, Swap(reason), Drain, Register(0, id, true)]);
      && s.task == Draining({}, reason) && In(s, 0, Registered)
      && s.exchanges[0].cell.Empty? && s.outgoing == INITIAL.outgoing
  {
    RunFour(INITIAL, Begin, Swap(reason), Drain, Register(0, id, true));
  }

  lemma RunTwo(s: State, a: Step, b: Step)
    requires Enabled(s, a) && Enabled(Next(s, a), b)
    ensures CanRun(s, [a, b]) && Run(s, [a, b]) == Next(Next(s, a), b)
  {
    assert [a, b][1..] == [b] && [b][1..] == [];
    var last := Next(Next(s, a), b);
    assert CanRun(last, []) && CanRun(Next(s, a), [b]);
    assert Run(Next(s, a), [b]) == last;
  }

  lemma RunFour(s: State, a: Step, b: Step, c: Step, d: Step)
    requires Enabled(s, a) && Enabled(Next(s, a), b) && Enabled(Next(Next(s, a), b), c)
    requires Enabled(Next(Next(Next(s, a), b), c), d)
    ensures CanRun(s, [a, b, c, d]) && Run(s, [a, b, c, d]) == Next(Next(Next(Next(s, a), b), c), d)
  {
    var two := Next(Next(s, a), b);
    RunTwo(two, c, d);
    assert [a, b, c, d][1..] == [b, c, d] && [b, c, d][1..] == [c, d];
    assert CanRun(Next(s, a), [b, c, d]);
    assert Run(Next(s, a), [b, c, d]) == Run(two, [c, d]);
  }
}
