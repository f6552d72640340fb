/**
 What the invariants of the account mean for who uses it: which step may free a button, how an order
 leaves doubt, what is left when nothing is outstanding, and what a single step does for its caller.
 */
module AccountMeaning {
  import opened Wrappers
  import opened Reversals
  import opened AccountState
  import opened AccountLaws
  import opened AccountInvariant
  import opened AccountSafety
  import opened AccountTame
  import opened AccountRuns
  import opened AccountTheorems

  /** Only entries were added, of which none but the first is the answer of a call. */
  ghost predicate Extends(log: Log, now: Log) {
    log <= now && forall j | |log| < j < |now| :: !now[j].Answered?
  }

  /** What the user or the session asks for ends no call, settles no doubt and erases no entry. */
  ghost predicate Adds(s: State, t: State) {
    && Extends(s.log, t.log) && TameDesk(s.desk, t.desk)
    && (Placing in s.desk.calls ==> t.reading.placing == s.reading.placing)
    && t.reading.inDoubt == s.reading.inDoubt && t.reading.uncertain == s.reading.uncertain
  }

  lemma AddsTrade(s: State, busy: Busy)
    requires Books(s.desk)
    ensures Adds(s, Trade(s, busy, None))
  {
    TameTrade(s, busy, None);
  }

  lemma AddsReverse(s: State, id: int, stamp: int, env: Env)
    requires Books(s.desk)
    ensures Adds(s, ReversePosition(s, id, stamp, env))
  {
  }

  lemma AddsOther(s: State, on: bool)
    ensures Adds(s, SetReplay(s, on)) && Adds(s, OnReady(s))
  {
  }

  lemma AskedOnlyAdds(s: State, step: Step)
    requires Books(s.desk) && Enabled(s, step) && Asked(step)
    ensures Adds(s, Next(s, step))
  {
    match step {
      case DoPlace(order, env) => TamePlaceWith(s, order, env);
      case DoBatch(orders, probe, env) => TamePlaceBatch(s, orders, probe, env);
      case DoClose(id) => AddsTrade(s, Closing(id));
      case DoCancel(id) => AddsTrade(s, Cancelling(id));
      case DoAmend(id, byUser) => AddsTrade(s, Amending(id));
      case DoReverse(id, stamp, env) => AddsReverse(s, id, stamp, env);
      case DoReplay(on) => AddsOther(s, on);
      case _ => AddsOther(s, true);
    }
  }

  // ---- buttons ----

  ghost predicate CallsStayBut(s: State, t: State, call: nat) {
    forall b | b in s.desk.calls :: (b in t.desk.calls && t.desk.calls[b] == s.desk.calls[b]) || s.desk.calls[b] == call
  }

  lemma StaysTame(s: State, t: State, u: State, call: nat)
    requires CallsStayBut(s, t, call) && Tame(t, u)
    ensures CallsStayBut(s, u, call)
  {
  }

  /**
   A button is freed only under the number that holds it: the answer or the timer of an older call
   with the same button leaves the newer call where it is.
   */
  lemma OnlyItsOwnCallFrees(s: State, step: Step)
    requires Books(s.desk) && Enabled(s, step)
    ensures forall b | b in s.desk.calls ::
      (b in Next(s, step).desk.calls && Next(s, step).desk.calls[b] == s.desk.calls[b])
      || ((step.TimerFires? || step.CallAnswers?) && step.call == s.desk.calls[b])
  {
    if Asked(step) {
      AskedOnlyAdds(s, step);
      return;
    }
    match step {
      case CallAnswers(call, answer, env) => AnswerFreesItsOwn(s, call, answer, env);
      case NewsComes(news, env) => NewsFreesNothing(s, news, env);
      case ReadAnswers(epoch, found, env) => ReadFreesNothing(s, epoch, found, env);
      case _ => AloneFreesItsOwn(s, step);
    }
  }

  lemma AloneFreesItsOwn(s: State, step: Step)
    requires Enabled(s, step) && Alone(step)
    ensures forall b | b in s.desk.calls ::
      (b in Next(s, step).desk.calls && Next(s, step).desk.calls[b] == s.desk.calls[b])
      || (step.TimerFires? && step.call == s.desk.calls[b])
  {
  }

  lemma AnswerFreesItsOwn(s: State, call: nat, answer: Answer, env: Env)
    requires Books(s.desk) && call in s.desk.flights
    ensures CallsStayBut(s, AnswerDone(s, call, answer, env), call)
  {
    var busy := s.desk.flights[call].busy;
    var t := AnswerDone(s, call, answer, env);
    match answer
    case Done(e) => DoneFreesItsOwn(s, call, e, env);
    case Broke(unknown) => LostTalks(s, call, busy, unknown);
  }

  lemma DoneFreesItsOwn(s: State, call: nat, e: Execution, env: Env)
    requires Books(s.desk) && call in s.desk.flights
    ensures CallsStayBut(s, AnswerDone(s, call, Done(e), env), call)
  {
    var taking := Taking(s, call, s.desk.flights[call].busy, e);
    DoneIsTame(s, call, e, env);
    assert CallsStayBut(s, taking, call);
    StaysTame(s, taking, CalmDone(s, call, e, env), call);
  }

  /** What an answer leaves, but for the reversals: its watch is not made yet. */
  function CalmDone(s: State, call: nat, e: Execution, env: Env): State
    requires call in s.desk.flights
  {
    AnswerDone(s, call, Done(e), env).(reversing := Taking(s, call, s.desk.flights[call].busy, e).reversing)
  }

  /** Once an answer is taken, all that comes of it only sends. */
  lemma DoneIsTame(s: State, call: nat, e: Execution, env: Env)
    requires Books(s.desk) && call in s.desk.flights
    ensures Tame(Taking(s, call, s.desk.flights[call].busy, e), CalmDone(s, call, e, env))
  {
    var busy := s.desk.flights[call].busy;
    TameTelling(s, call, busy, e, env);
    var taking, told := Taking(s, call, busy, e), Telling(s, call, busy, e, env);
    if busy.Placing? {
      TameSendNext(told, env);
      TameChain(taking, told, SendNext(told, env));
      TameCalm(taking, SendNext(told, env));
    } else {
      TameCalm(taking, told);
    }
  }

  lemma TameCalm(s: State, t: State)
    requires Tame(s, t)
    ensures Tame(s, t.(reversing := s.reversing))
  {
  }

  lemma NewsFreesNothing(s: State, news: News, env: Env)
    requires Books(s.desk)
    ensures TameDesk(s.desk, OnEvent(s, news, env).desk)
  {
    if news.News? {
      TameOnExecution(s, news.execution, env);
    }
  }

  lemma ReadFreesNothing(s: State, e: nat, answer: ReadAnswer, env: Env)
    requires Books(s.desk)
    ensures TameDesk(s.desk, ReadDone(s, e, answer, env).desk)
  {
    if e == s.reading.epoch && answer.Found? {
      var (left, orders) := CloseAll(s.reversing.pending, env.listing);
      var read := ReadApplies(Taken(s, e), e, answer.positions, left);
      TameMoves(read, env.moves);
      TameMarketAll(Moves(read, env.moves), orders, env);
      TameChain(read, Moves(read, env.moves), ReadDone(s, e, answer, env));
    }
  }

  /**
   Nothing stays busy, queued, kept for a doubt or waiting to reverse once every answer and watch
   has come: what is busy still has both its answer and its timer to come.
   */
  lemma NothingIsStuck(s: State)
    requires Kept(s)
    ensures forall b | b in s.desk.busy ::
      b in s.desk.calls && s.desk.calls[b] in s.desk.flights && s.desk.calls[b] in s.desk.timers
    ensures s.desk.flights == map[] ==> s.desk.busy == {} && s.outbox.queue == [] && s.reading.placing == None
    ensures s.desk.flights == map[] && s.reversing.watches == map[] ==> s.reversing.pending == map[]
  {
    if s.desk.flights == map[] {
      assert forall b :: b !in s.desk.calls;
      if s.reversing.watches == map[] {
        forall id ensures id !in s.reversing.pending {
          assert id in s.reversing.pending ==> Alive(s.reversing, s.desk.flights, id);
        }
      }
    }
  }

  /** While a replay is on no new order is in flight as the current call, and none waits. */
  lemma ReplayIsQuiet(s: State)
    requires Kept(s) && s.replay
    ensures Placing !in s.desk.busy && s.outbox.queue == []
  {
  }

  // ---- doubts ----

  /** The newest read, asked when this step asks for it, takes the doubts away. */
  predicate AppliesRead(s: State, step: Step) {
    step.ReadAnswers? && step.epoch == s.reading.epoch && step.found.Found?
  }

  /** The execution this step hears, if any. */
  function HeardIn(step: Step): Option<Execution> {
    match step
    case NewsComes(News(e), _) => Some(e)
    case CallAnswers(_, Done(e), _) => Some(e)
    case _ => None
  }

  predicate Names(e: Option<Execution>, id: ClientId) {
    e.Some? && e.value.order.Some? && e.value.order.value.clientId == Some(id)
  }

  /** An order leaves doubt only by the newest account read, or by an event that names it. */
  lemma DoubtLeavesOnlyWhenAnswered(s: State, step: Step, d: InDoubt)
    requires Books(s.desk) && Enabled(s, step) && d in s.reading.inDoubt
    ensures d in Next(s, step).reading.inDoubt || AppliesRead(s, step) || Names(HeardIn(step), d.clientId)
    ensures s.reading.uncertain ==> Next(s, step).reading.uncertain || AppliesRead(s, step)
  {
    if Asked(step) {
      AskedOnlyAdds(s, step);
      return;
    }
    match step {
      case CallAnswers(call, answer, env) => DoubtStaysOverAnswer(s, call, answer, env, d);
      case NewsComes(news, env) => DoubtStaysOverNews(s, news, env, d);
      case ReadAnswers(e, found, env) => DoubtStaysOverRead(s, e, found, env, d);
      case _ => DoubtStaysAlone(s, step, d);
    }
  }

  lemma DoubtStaysAlone(s: State, step: Step, d: InDoubt)
    requires Enabled(s, step) && Alone(step) && d in s.reading.inDoubt
    ensures d in Next(s, step).reading.inDoubt && (s.reading.uncertain ==> Next(s, step).reading.uncertain)
  {
  }

  lemma DoubtStaysOverRead(s: State, e: nat, found: ReadAnswer, env: Env, d: InDoubt)
    requires d in s.reading.inDoubt
    ensures var t := ReadDone(s, e, found, env);
      || (e == s.reading.epoch && found.Found?)
      || (d in t.reading.inDoubt && (s.reading.uncertain ==> t.reading.uncertain))
  {
  }

  lemma DoubtStaysOverNews(s: State, news: News, env: Env, d: InDoubt)
    requires Books(s.desk)
    ensures var t := OnEvent(s, news, env);
      && (d in s.reading.inDoubt ==> d in t.reading.inDoubt || (news.News? && Names(Some(news.execution), d.clientId)))
      && (s.reading.uncertain ==> t.reading.uncertain)
  {
    if news.News? {
      TameOnExecution(s, news.execution, env);
      if d in s.reading.inDoubt {
        NamedLeaves(s.reading, news.execution, d);
      }
    }
  }

  lemma NamedLeaves(r: Reading, e: Execution, d: InDoubt)
    requires d in r.inDoubt
    ensures d in Doubting(r, e).inDoubt || Names(Some(e), d.clientId)
  {
    if e.order.Some? && e.order.value.clientId.Some? {
      NotNamedKeeps(r.inDoubt, e.order.value.clientId.value);
    }
  }

  lemma DoubtStaysOverAnswer(s: State, call: nat, answer: Answer, env: Env, d: InDoubt)
    requires Books(s.desk) && call in s.desk.flights && d in s.reading.inDoubt
    ensures var t := AnswerDone(s, call, answer, env);
      && (d in t.reading.inDoubt || (answer.Done? && Names(Some(answer.event), d.clientId)))
      && (s.reading.uncertain ==> t.reading.uncertain)
  {
    if answer.Done? {
      DoneSettles(s, call, answer.event, env);
      DoneIsTame(s, call, answer.event, env);
      NamedLeaves(s.reading, answer.event, d);
    }
  }

  /** The doubts an answer leaves are those its event does not name. */
  lemma DoneSettles(s: State, call: nat, e: Execution, env: Env)
    requires Books(s.desk) && call in s.desk.flights
    ensures AnswerDone(s, call, Done(e), env).reading.inDoubt == Doubting(s.reading, e).inDoubt
  {
    var busy := s.desk.flights[call].busy;
    TameTelling(s, call, busy, e, env);
    if busy.Placing? {
      TameSendNext(Telling(s, call, busy, e, env), env);
    }
  }

  // ---- the log only grows, so an order in doubt is never sent again ----

  lemma LogGrows(s: State, step: Step)
    requires Books(s.desk) && Enabled(s, step)
    ensures Extends(s.log, Next(s, step).log)
  {
    if Asked(step) {
      AskedOnlyAdds(s, step);
      return;
    }
    match step {
      case CallAnswers(call, answer, env) => LogGrowsAnswer(s, call, answer, env);
      case NewsComes(news, env) => LogGrowsNews(s, news, env);
      case ReadAnswers(e, found, env) => LogGrowsRead(s, e, found, env);
      case _ => LogGrowsAlone(s, step);
    }
  }

  /** A timer, or a watch over a reversal. */
  predicate Alone(step: Step) {
    step.TimerFires? || step.WatchRechecks? || step.WatchEnds?
  }

  lemma LogGrowsAlone(s: State, step: Step)
    requires Enabled(s, step) && Alone(step)
    ensures Extends(s.log, Next(s, step).log)
  {
  }

  lemma LogGrowsNews(s: State, news: News, env: Env)
    requires Books(s.desk)
    ensures Extends(s.log, OnEvent(s, news, env).log)
  {
    if news.News? {
      TameOnExecution(s, news.execution, env);
    }
  }

  lemma LogGrowsRead(s: State, e: nat, found: ReadAnswer, env: Env)
    requires Books(s.desk)
    ensures Extends(s.log, ReadDone(s, e, found, env).log)
  {
    if e == s.reading.epoch && found.Found? {
      var (left, orders) := CloseAll(s.reversing.pending, env.listing);
      var read := ReadApplies(Taken(s, e), e, found.positions, left);
      TameMoves(read, env.moves);
      TameMarketAll(Moves(read, env.moves), orders, env);
    }
  }

  lemma LogGrowsAnswer(s: State, call: nat, answer: Answer, env: Env)
    requires Books(s.desk) && call in s.desk.flights
    ensures Extends(s.log, AnswerDone(s, call, answer, env).log)
  {
    match answer
    case Done(e) => LogGrowsDone(s, call, e, env);
    case Broke(unknown) => LogGrowsLost(s, call, s.desk.flights[call].busy, unknown);
  }

  lemma LogGrowsLost(s: State, call: nat, busy: Busy, unknown: bool)
    ensures Extends(s.log, OnReady(Lost(s, call, busy, unknown)).log)
  {
  }

  lemma LogGrowsDone(s: State, call: nat, e: Execution, env: Env)
    requires Books(s.desk) && call in s.desk.flights
    ensures Extends(s.log, AnswerDone(s, call, Done(e), env).log)
  {
    DoneIsTame(s, call, e, env);
    ExtendsTame(s.log, Answered(call, s.desk.flights[call].busy, true), CalmDone(s, call, e, env).log);
  }

  lemma ExtendsTame(log: Log, e: LogEntry, now: Log)
    requires log + [e] <= now && (forall i | |log| < i < |now| :: now[i].Sent? || now[i].Planned?)
    ensures Extends(log, now)
  {
  }

  lemma {:induction false} RunGrows(steps: seq<Step>, n: nat)
    requires CanRun(steps) && n <= |steps|
    ensures CanRun(steps[..n]) && Run(steps[..n]).log <= Run(steps).log
    decreases |steps|
  {
    if n < |steps| {
      var before := steps[..|steps| - 1];
      assert before[..n] == steps[..n];
      RunGrows(before, n);
      EveryRunKeeps(before);
      LogGrows(Run(before), steps[|steps| - 1]);
    } else {
      assert steps[..n] == steps;
    }
  }

  /** Once an order of ours is in doubt, nothing that happens later sends it again. */
  lemma DoubtedIsNeverSentAgain(steps: seq<Step>, n: nat, d: InDoubt, j: nat)
    requires CanRun(steps) && n <= |steps| && CanRun(steps[..n])
    requires d in Run(steps[..n]).reading.inDoubt && d.clientId.Ours?
    requires |Run(steps[..n]).log| <= j < |Run(steps).log| && Run(steps).log[j].Sent?
    ensures Run(steps).log[j].order.clientId != Some(d.clientId)
  {
    var earlier, log := Run(steps[..n]), Run(steps).log;
    EveryRunKeeps(steps);
    EveryRunKeeps(steps[..n]);
    RunGrows(steps, n);
    WasSentUnderId(earlier.log, d);
    var i :| 0 <= i < |earlier.log| && earlier.log[i].Sent? && earlier.log[i].order.clientId == Some(d.clientId);
    assert log[i] == earlier.log[i];
    NeverTwice(log, i, j);
  }

  // ---- several reversals at once ----

  lemma BusyRefuses(s: State, o: ReverseOrder, env: Env)
    requires Placing in s.desk.busy
    ensures Market(s, Some(o), env) == s
  {
  }

  /**
   Of the reversals one account read completes, at most one opposite order is sent: the ones after
   it find the button busy and are dropped with a notice.
   */
  lemma {:induction false} OneReversalPerRead(s: State, orders: seq<ReverseOrder>, env: Env)
    ensures var t := MarketAll(s, orders, env);
      t == s || (|t.log| == |s.log| + 1 && t.log[|s.log|].Sent? && Placing in t.desk.busy)
  {
    if orders != [] {
      var before := MarketAll(s, orders[..|orders| - 1], env);
      OneReversalPerRead(s, orders[..|orders| - 1], env);
      if before != s {
        BusyRefuses(before, orders[|orders| - 1], env);
      }
    }
  }

  // ---- what one step does for its caller ----

  /** A current call given up leaves the account unsure, nothing queued, its button free and a read asked. */
  lemma GivingUpAsksTheAccount(s: State, call: nat, busy: Busy)
    requires Books(s.desk) && busy in s.desk.calls && s.desk.calls[busy] == call
    ensures call in s.desk.timers
    ensures var t := TimerDone(s, call);
      && busy !in t.desk.busy && t.outbox.queue == [] && t.reading.uncertain
      && t.reading.epoch == s.reading.epoch + 1 && t.reading.epoch in t.reading.loads
      && t.desk.callSeq == s.desk.callSeq
  {
  }

  /** Within the window an equal fingerprint changes no field, in any later state that still has it as its last. */
  lemma DoubleClickIsDropped(s: State, order: NewOrder, env: Env, later: State, again: NewOrder, env2: Env)
    requires PlaceWith(s, order, env) != s && later.outbox.last == PlaceWith(s, order, env).outbox.last
    requires again.Imprint() == order.Imprint() && env2.now - env.now < DUPLICATE_WINDOW
    ensures PlaceWith(later, again, env2) == later
  {
  }

  /** Starting to reverse a position asks for its close, and for nothing else, and waits with the opposite order. */
  lemma ReversingAsksForTheClose(s: State, id: int, stamp: int, env: Env)
    requires Books(s.desk) && id !in s.reversing.pending && id in ReversePosition(s, id, stamp, env).reversing.pending
    ensures id in s.positions && !s.replay
    ensures var t, p := ReversePosition(s, id, stamp, env), s.positions[id];
      && t.reversing.pending[id].order == ReverseOrder(p.symbol, !p.buy, p.volume)
      && !t.reversing.pending[id].acknowledged && !t.reversing.pending[id].closed
      && t.log == s.log && t.desk.callSeq == s.desk.callSeq + 1
      && Closing(id) in t.desk.calls && t.desk.calls[Closing(id)] == t.desk.callSeq
      && id in t.reversing.closeCalls && t.reversing.closeCalls[id] == t.desk.callSeq
  {
  }

  /** What an execution sends is at most the opposite order of the reversal whose position it closed. */
  lemma ClosureSendsTheOpposite(s: State, e: Execution, env: Env)
    requires Books(s.desk)
    ensures var t := OnExecution(s, e, env);
      t.log == s.log
      || (e.position.Some? && e.kind == Some(Filled) && e.position.value.id in s.reversing.pending
          && s.reversing.pending[e.position.value.id].acknowledged
          && e.position.value.id !in t.reversing.pending
          && |t.log| == |s.log| + 1
          && SendsReverse(t.log[|s.log|], s.reversing.pending[e.position.value.id].order))
  {
    var heard := Heard(s, e);
    TameMoves(heard, env.moves);
    MovesLogNothing(heard, env.moves);
  }

  predicate SendsReverse(e: LogEntry, o: ReverseOrder) {
    e.Sent? && e.order.symbol == o.symbol && e.order.volume == o.volume
    && (e.order.side == BUY <==> o.buy) && e.order.kind == MARKET && e.from == Single
  }

  lemma {:induction false} MovesLogNothing(s: State, moves: seq<Busy>)
    ensures Moves(s, moves).log == s.log
  {
    if moves != [] {
      MovesLogNothing(s, moves[..|moves| - 1]);
    }
  }

  /** A refused, cancelled or expired order takes the reversal it names with it. */
  lemma RefusalStopsTheReversal(s: State, e: Execution, env: Env, id: int)
    requires Books(s.desk) && Drops(e.kind) && id in s.reversing.pending
    requires PositionNamed(e) == Some(id) || (OrderNamed(e).Some? && s.reversing.pending[id].closeOrderId == OrderNamed(e))
    ensures id !in OnExecution(s, e, env).reversing.pending && OnExecution(s, e, env).log == s.log
  {
  }
}
