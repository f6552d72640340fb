/**
 That plans go on: what an Ok answer makes of a plan that waits, and what became of every place of
 every plan in any run.
 */
module AccountProgress {
  import opened Wrappers
  import opened Reversals
  import opened AccountState
  import opened AccountLaws
  import opened AccountInvariant
  import opened AccountTame
  import opened AccountTheorems
  import opened AccountMeaning
  import opened AccountReleases

  // ---- one answer, one order of the plan ----

  /** The queue holds the places of this plan from this one to its end, in order. */
  ghost predicate WaitsFrom(log: Log, queue: seq<Queued>, plan: nat, place: nat) {
    && plan < |log| && log[plan].Planned? && place + |queue| == |log[plan].orders|
    && (forall i | 0 <= i < |queue| ::
          queue[i].plan == plan && queue[i].place == place + i && queue[i].order == log[plan].orders[place + i])
  }

  /** The closure of a reversal that is acknowledged: then the opposite order is to go first. */
  predicate EndsAReversal(s: State, e: Execution) {
    && e.kind == Some(Filled) && e.position.Some? && e.position.value.status == IsClosed
    && e.position.value.id in s.reversing.pending && s.reversing.pending[e.position.value.id].acknowledged
  }

  lemma {:induction false} MovesKeepOrders(s: State, moves: seq<Busy>)
    ensures Moves(s, moves).outbox == s.outbox && (Placing in Moves(s, moves).desk.busy <==> Placing in s.desk.busy)
  {
    if moves != [] {
      MovesKeepOrders(s, moves[..|moves| - 1]);
    }
  }

  /** The queue is not touched, and without a new entry the button of new orders is as it was. */
  ghost predicate KeepsOrders(s: State, t: State) {
    t.outbox.queue == s.outbox.queue && (t.log == s.log ==> (Placing in t.desk.busy <==> Placing in s.desk.busy))
  }

  lemma MarketKeepsOrders(s: State, o: Option<ReverseOrder>, env: Env)
    ensures KeepsOrders(s, Market(s, o, env))
  {
    MarketSends(s, o, env);
  }

  lemma ExecutionKeepsOrders(s: State, e: Execution, env: Env)
    ensures KeepsOrders(s, OnExecution(s, e, env))
  {
    var heard := Heard(s, e);
    MovesKeepOrders(heard, env.moves);
    MovesLogNothing(heard, env.moves);
    var managed := if e.kind == Some(Filled) then Moves(heard, env.moves) else heard;
    var (left, order) := ClosedBy(managed.reversing.pending, e);
    MarketKeepsOrders(Tracking(managed, left), order, env);
  }

  lemma TellingKeepsOrders(s: State, call: nat, busy: Busy, e: Execution, env: Env)
    requires Books(s.desk) && call in s.desk.flights && s.desk.flights[call].busy == busy
    ensures KeepsOrders(Taking(s, call, busy, e), Telling(s, call, busy, e, env))
  {
    var taking := Taking(s, call, busy, e);
    ExecutionKeepsOrders(taking, e, env);
    MarketKeepsOrders(OnExecution(taking, e, env), AckedBy(s.reversing.pending, busy, e).1, env);
    TellingSends(s, call, busy, e, env);
    BooksArrived(s.desk, call, busy);
    TameOnExecution(taking, e, env);
  }

  /** The head of the queue goes when the button is free, and the rest waits on. */
  lemma HeadGoes(s: State, env: Env, plan: nat, place: nat)
    requires Placing !in s.desk.busy && s.outbox.queue != [] && WaitsFrom(s.log, s.outbox.queue, plan, place)
    ensures var t := SendNext(s, env);
      && |t.log| == |s.log| + 1 && s.log <= t.log && Placed(t.desk) == Some(t.desk.callSeq)
      && var sent := t.log[|s.log|];
      && sent.Sent? && sent.call == t.desk.callSeq && sent.from == OfPlan(plan, place)
      && sent.order == s.log[plan].orders[place] && WaitsFrom(t.log, t.outbox.queue, plan, place + 1)
  {
  }

  lemma WaitsOn(log: Log, now: Log, queue: seq<Queued>, plan: nat, place: nat)
    requires WaitsFrom(log, queue, plan, place) && log <= now
    ensures WaitsFrom(now, queue, plan, place)
  {
  }

  lemma ReleasingEnds(s: State, e: Execution)
    requires Over(s.reversing.pending, HeardEvents(e)).1 != []
    ensures EndsAReversal(s, e)
  {
    HeardOver(s.reversing.pending, e);
  }

  /** Up to where the plan may go on: nothing was sent and the button is free, or an opposite order went. */
  lemma ToldOfThePlan(s: State, call: nat, e: Execution, env: Env)
    requires Books(s.desk) && Placed(s.desk) == Some(call)
    ensures call in s.desk.flights && s.desk.flights[call].busy == Placing
    ensures var told := Telling(s, call, Placing, e, env);
      && told.outbox.queue == s.outbox.queue && |told.log| > |s.log| && s.log <= told.log
      && told.log[|s.log|] == Answered(call, Placing, true)
      && if |told.log| == |s.log| + 1 then Placing !in told.desk.busy
         else |told.log| == |s.log| + 2 && IsSingle(told.log[|s.log| + 1]) && Placing in told.desk.busy && EndsAReversal(s, e)
  {
    var taking, told := Taking(s, call, Placing, e), Telling(s, call, Placing, e, env);
    assert taking.log == s.log + [Answered(call, Placing, true)] && taking.outbox == s.outbox;
    TellingKeepsOrders(s, call, Placing, e, env);
    TellingSends(s, call, Placing, e, env);
    if told.log != taking.log {
      var orders := Over(s.reversing.pending, HeardEvents(e)).1;
      assert [] + orders == orders;
      ReleasingEnds(s, e);
    }
  }

  /**
   When the new order in flight is answered Ok and a plan waits, exactly the next order of the plan
   goes and the ones after it still wait; unless its event makes an opposite order go first, and then
   the whole plan still waits.
   */
  lemma AnAnswerSendsTheNext(s: State, call: nat, e: Execution, env: Env, plan: nat, place: nat)
    requires Books(s.desk) && Placed(s.desk) == Some(call) && s.outbox.queue != []
    requires WaitsFrom(s.log, s.outbox.queue, plan, place)
    ensures Enabled(s, CallAnswers(call, Done(e), env))
    ensures var t := Next(s, CallAnswers(call, Done(e), env));
      && |t.log| == |s.log| + 2 && s.log <= t.log && t.log[|s.log|] == Answered(call, Placing, true)
      && if IsSingle(t.log[|s.log| + 1]) then EndsAReversal(s, e) && WaitsFrom(t.log, t.outbox.queue, plan, place)
         else SentFromPlan(t, t.log[|s.log| + 1], plan, place) && WaitsFrom(t.log, t.outbox.queue, plan, place + 1)
  {
    var told := Telling(s, call, Placing, e, env);
    ToldOfThePlan(s, call, e, env);
    WaitsOn(s.log, told.log, s.outbox.queue, plan, place);
    if Placing !in told.desk.busy {
      HeadGoes(told, env, plan, place);
    }
  }

  /** The entry sends this place of the plan, and its call is the one in flight. */
  ghost predicate SentFromPlan(s: State, e: LogEntry, plan: nat, place: nat) {
    && plan < |s.log| && s.log[plan].Planned? && place < |s.log[plan].orders|
    && e.Sent? && e.from == OfPlan(plan, place) && e.order == s.log[plan].orders[place] && Placed(s.desk) == Some(e.call)
  }

  // ---- a plan that starts ----

  /** The same orders, each with an id: its own if it came with one. */
  predicate NamedFrom(named: seq<NewOrder>, orders: seq<NewOrder>) {
    |named| == |orders| && forall i | 0 <= i < |orders| ::
      && named[i] == orders[i].(clientId := named[i].clientId) && named[i].clientId.Some?
      && (orders[i].clientId.Some? ==> named[i] == orders[i])
  }

  lemma {:induction false} IdentifiedAreNamed(orders: seq<NewOrder>, now: int, ordersSent: nat)
    ensures NamedFrom(IdentifiedAll(orders, now, ordersSent).0, orders)
  {
    if orders != [] {
      IdentifiedAreNamed(orders[..|orders| - 1], now, ordersSent);
    }
  }

  /** A plan that is taken is noted whole, its first order goes at once and all the others wait. */
  lemma APlanStarts(s: State, orders: seq<NewOrder>, probe: NewOrder, env: Env)
    requires |orders| > 1 && s.outbox.queue == [] && PlaceBatch(s, orders, probe, env) != s
    ensures var t, plan := PlaceBatch(s, orders, probe, env), |s.log|;
      && |t.log| == plan + 2 && s.log <= t.log && t.log[plan].Planned? && NamedFrom(t.log[plan].orders, orders)
      && SentFromPlan(t, t.log[plan + 1], plan, 0) && WaitsFrom(t.log, t.outbox.queue, plan, 1)
  {
    var (named, count) := IdentifiedAll(orders, env.now, s.outbox.ordersSent);
    IdentifiedAreNamed(orders, env.now, s.outbox.ordersSent);
    var queueing := Queueing(s, orders, env);
    assert queueing.log == s.log + [Planned(named)];
    HeadGoes(queueing, env, |s.log|, 0);
  }

  // ---- what became of every place ----

  /** What drops a plan: a call given up, or a new order that failed. */
  predicate Stops(e: LogEntry) {
    e.GaveUp? || (e.Answered? && e.busy.Placing? && !e.ok)
  }

  ghost predicate Stopped(log: Log, plan: nat) {
    exists j :: plan < j < |log| && Stops(log[j])
  }

  ghost predicate InQueue(queue: seq<Queued>, plan: nat, place: nat) {
    exists i :: 0 <= i < |queue| && queue[i].plan == plan && queue[i].place == place
  }

  /** The place was sent, or it waits, or the plan was dropped. */
  ghost predicate SeenTo(log: Log, queue: seq<Queued>, plan: nat, place: nat) {
    Stopped(log, plan) || PlaceSent(log, plan, place) || InQueue(queue, plan, place)
  }

  predicate IsPlace(log: Log, plan: nat, place: nat) {
    plan < |log| && log[plan].Planned? && place < |log[plan].orders|
  }

  ghost predicate AllSeenTo(log: Log, queue: seq<Queued>) {
    forall plan: nat, place: nat | IsPlace(log, plan, place) :: SeenTo(log, queue, plan, place)
  }

  lemma SeenToLater(log: Log, now: Log, queue: seq<Queued>, plan: nat, place: nat)
    requires SeenTo(log, queue, plan, place) && log <= now
    ensures SeenTo(now, queue, plan, place)
  {
    if Stopped(log, plan) {
      var j :| plan < j < |log| && Stops(log[j]);
      assert Stops(now[j]);
    } else if PlaceSent(log, plan, place) {
      var i :| 0 <= i < |log| && SentAs(log[i], plan, place);
      assert SentAs(now[i], plan, place);
    }
  }

  /** No plan is added and the queue stays. */
  lemma SeenToKept(log: Log, now: Log, queue: seq<Queued>)
    requires AllSeenTo(log, queue) && log <= now && (forall j | |log| <= j < |now| :: !now[j].Planned?)
    ensures AllSeenTo(now, queue)
  {
    forall plan: nat, place: nat | IsPlace(now, plan, place) ensures SeenTo(now, queue, plan, place) {
      assert IsPlace(log, plan, place);
      SeenToLater(log, now, queue, plan, place);
    }
  }

  lemma SeenToDropped(log: Log, now: Log, j: nat, queue: seq<Queued>)
    requires log <= now && |log| <= j < |now| && Stops(now[j]) && (forall i | |log| <= i < |now| :: !now[i].Planned?)
    ensures AllSeenTo(now, queue)
  {
    forall plan: nat, place: nat | IsPlace(now, plan, place) ensures SeenTo(now, queue, plan, place) {
      assert Stopped(now, plan);
    }
  }

  /** The head of the queue goes. */
  lemma SeenToPopped(log: Log, e: LogEntry, queue: seq<Queued>)
    requires AllSeenTo(log, queue) && queue != [] && SentAs(e, queue[0].plan, queue[0].place)
    ensures AllSeenTo(log + [e], queue[1..])
  {
    var now := log + [e];
    forall plan: nat, place: nat | IsPlace(now, plan, place) ensures SeenTo(now, queue[1..], plan, place) {
      assert IsPlace(log, plan, place);
      SeenToLater(log, now, queue, plan, place);
      if InQueue(queue, plan, place) {
        var i :| 0 <= i < |queue| && queue[i].plan == plan && queue[i].place == place;
        if i == 0 {
          assert SentAs(now[|log|], plan, place);
        } else {
          assert queue[1..][i - 1] == queue[i];
        }
      }
    }
  }

  lemma SeenToPlanned(log: Log, named: seq<NewOrder>)
    requires AllSeenTo(log, [])
    ensures AllSeenTo(log + [Planned(named)], QueueOf(named, |log|))
  {
    var now, queue := log + [Planned(named)], QueueOf(named, |log|);
    forall plan: nat, place: nat | IsPlace(now, plan, place) ensures SeenTo(now, queue, plan, place) {
      if plan == |log| {
        assert queue[place].plan == plan && queue[place].place == place;
      } else {
        assert IsPlace(log, plan, place);
        assert !InQueue([], plan, place);
        SeenToLater(log, now, [], plan, place);
        assert SeenTo(log, [], plan, place);
      }
    }
  }

  ghost predicate Progress(s: State) { AllSeenTo(s.log, s.outbox.queue) }

  /** Nothing of a plan is noted or dropped. */
  ghost predicate Bystands(s: State, t: State) {
    && s.log <= t.log && t.outbox.queue == s.outbox.queue
    && forall j | |s.log| <= j < |t.log| :: !t.log[j].Planned?
  }

  lemma ProgressSendNext(s: State, env: Env)
    requires Progress(s)
    ensures Progress(SendNext(s, env))
  {
    if Placing !in s.desk.busy && s.outbox.queue != [] {
      var t := SendNext(s, env);
      SeenToPopped(s.log, t.log[|s.log|], s.outbox.queue);
      assert t.log == s.log + [t.log[|s.log|]];
    }
  }

  lemma ProgressBatch(s: State, orders: seq<NewOrder>, probe: NewOrder, env: Env)
    requires Progress(s)
    ensures Progress(PlaceBatch(s, orders, probe, env))
  {
    if |orders| == 1 {
      ProgressPlace(s, orders[0], env);
    } else if orders != [] && !RefusesBatch(s, orders, probe, env) {
      SeenToPlanned(s.log, IdentifiedAll(orders, env.now, s.outbox.ordersSent).0);
      ProgressSendNext(Queueing(s, orders, env), env);
    }
  }

  lemma ProgressPlace(s: State, order: NewOrder, env: Env)
    requires Progress(s)
    ensures Progress(PlaceWith(s, order, env))
  {
    SeenToKept(s.log, PlaceWith(s, order, env).log, s.outbox.queue);
  }

  lemma ProgressDone(s: State, call: nat, e: Execution, env: Env)
    requires Books(s.desk) && call in s.desk.flights && Progress(s)
    ensures Progress(AnswerDone(s, call, Done(e), env))
  {
    var busy := s.desk.flights[call].busy;
    var taking, told := Taking(s, call, busy, e), Telling(s, call, busy, e, env);
    assert taking.log == s.log + [Answered(call, busy, true)];
    TellingSends(s, call, busy, e, env);
    TellingKeepsOrders(s, call, busy, e, env);
    SeenToKept(s.log, told.log, s.outbox.queue);
    if busy.Placing? {
      ProgressSendNext(told, env);
    }
  }

  lemma ProgressLost(s: State, call: nat, unknown: bool, env: Env)
    requires call in s.desk.flights && Progress(s)
    ensures Progress(AnswerDone(s, call, Broke(unknown), env))
  {
    var t := AnswerDone(s, call, Broke(unknown), env);
    if s.desk.flights[call].busy.Placing? {
      SeenToDropped(s.log, t.log, |s.log|, t.outbox.queue);
    } else {
      SeenToKept(s.log, t.log, s.outbox.queue);
    }
  }

  lemma ProgressTimer(s: State, call: nat)
    requires call in s.desk.timers && Progress(s)
    ensures Progress(TimerDone(s, call))
  {
    var t := TimerDone(s, call);
    if t.log != s.log {
      SeenToDropped(s.log, t.log, |s.log|, t.outbox.queue);
    }
  }

  lemma ProgressRead(s: State, e: nat, found: ReadAnswer, env: Env)
    requires Books(s.desk) && Progress(s)
    ensures Progress(ReadDone(s, e, found, env))
  {
    if e == s.reading.epoch && found.Found? {
      var (left, orders) := CloseAll(s.reversing.pending, env.listing);
      var read := ReadApplies(Taken(s, e), e, found.positions, left);
      MovesLogNothing(read, env.moves);
      MovesKeepOrders(read, env.moves);
      MarketAllSends(Moves(read, env.moves), orders, env);
      MarketAllKeepsOrders(Moves(read, env.moves), orders, env);
    }
    SeenToKept(s.log, ReadDone(s, e, found, env).log, s.outbox.queue);
  }

  lemma {:induction false} MarketAllKeepsOrders(s: State, orders: seq<ReverseOrder>, env: Env)
    ensures MarketAll(s, orders, env).outbox.queue == s.outbox.queue
  {
    if orders != [] {
      MarketAllKeepsOrders(s, orders[..|orders| - 1], env);
    }
  }

  lemma ProgressNews(s: State, news: News, env: Env)
    requires Books(s.desk) && Progress(s)
    ensures Progress(OnEvent(s, news, env))
  {
    if news.News? {
      ExecutionSends(s, news.execution, env);
      ExecutionKeepsOrders(s, news.execution, env);
    }
    SeenToKept(s.log, OnEvent(s, news, env).log, s.outbox.queue);
  }

  lemma OthersBystand(s: State, step: Step)
    requires Enabled(s, step) && !UserPlaces(step)
    requires !step.TimerFires? && !step.CallAnswers? && !step.NewsComes? && !step.ReadAnswers?
    ensures Bystands(s, Next(s, step))
  {
  }

  lemma ProgressNext(s: State, step: Step)
    requires Books(s.desk) && Enabled(s, step) && Progress(s)
    ensures Progress(Next(s, step))
  {
    if step.DoPlace? {
      ProgressPlace(s, step.order, step.env);
    } else if step.DoBatch? {
      ProgressBatch(s, step.orders, step.probe, step.env);
    } else if step.TimerFires? {
      ProgressTimer(s, step.call);
    } else if step.CallAnswers? {
      match step.answer
      case Done(e) => ProgressDone(s, step.call, e, step.env);
      case Broke(unknown) => ProgressLost(s, step.call, unknown, step.env);
    } else if step.NewsComes? {
      ProgressNews(s, step.news, step.env);
    } else if step.ReadAnswers? {
      ProgressRead(s, step.epoch, step.found, step.env);
    } else {
      OthersBystand(s, step);
      SeenToKept(s.log, Next(s, step).log, s.outbox.queue);
    }
  }

  lemma {:induction false} EveryRunProgresses(steps: seq<Step>)
    requires CanRun(steps)
    ensures Progress(Run(steps))
    decreases |steps|
  {
    if steps != [] {
      EveryRunProgresses(steps[..|steps| - 1]);
      EveryRunKeeps(steps[..|steps| - 1]);
      ProgressNext(Run(steps[..|steps| - 1]), steps[|steps| - 1]);
    }
  }

  /**
   In every run each place of each plan was sent, or waits where its turn comes, or the plan was
   dropped because a call was given up or a new order failed after it was made.
   */
  lemma EveryPlaceIsSeenTo(steps: seq<Step>, plan: nat, place: nat)
    requires CanRun(steps) && IsPlace(Run(steps).log, plan, place)
    ensures var s := Run(steps);
      || Stopped(s.log, plan) || PlaceSent(s.log, plan, place)
      || exists from: nat :: from <= place && WaitsFrom(s.log, s.outbox.queue, plan, from)
  {
    EveryRunProgresses(steps);
    EveryRunKeeps(steps);
    var s := Run(steps);
    if InQueue(s.outbox.queue, plan, place) {
      assert WaitsFrom(s.log, s.outbox.queue, plan, s.outbox.queue[0].place);
    }
  }

  /** So once no new order is in flight, every plan was sent to its last order or was dropped. */
  lemma APlanIsSentOrDropped(steps: seq<Step>, plan: nat, place: nat)
    requires CanRun(steps) && IsPlace(Run(steps).log, plan, place) && Placing !in Run(steps).desk.busy
    ensures Stopped(Run(steps).log, plan) || PlaceSent(Run(steps).log, plan, place)
  {
    EveryRunKeeps(steps);
    EveryPlaceIsSeenTo(steps, plan, place);
  }
}
