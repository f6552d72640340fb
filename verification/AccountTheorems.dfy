/**
 Every run of the account, whatever the order in which answers, timers, reads, events and watches
 come back: what it keeps, and what a caller of the account may rely on.
 */
module AccountTheorems {
  import opened Wrappers
  import opened AccountState
  import opened AccountLaws
  import opened AccountInvariant
  import opened AccountSafety
  import opened AccountTame
  import opened AccountRuns

  lemma KeptTrade(s: State, busy: Busy)
    requires Kept(s) && !busy.Placing?
    ensures Kept(Trade(s, busy, None))
  {
    SteadyTrade(s, busy);
    TameTrade(s, busy, None);
    RecallsTrade(s, busy);
    KeptTame(s, Trade(s, busy, None));
  }

  lemma KeptPlace(s: State, order: NewOrder, env: Env)
    requires Kept(s) && Foreign(order)
    ensures Kept(PlaceWith(s, order, env))
  {
    SteadyPlaceWith(s, order, env);
    TamePlaceWith(s, order, env);
    RecallsPlaceWith(s, order, env);
    KeptTame(s, PlaceWith(s, order, env));
  }

  lemma RecallsBatch(s: State, orders: seq<NewOrder>, probe: NewOrder, env: Env)
    requires Kept(s) && (forall i | 0 <= i < |orders| :: Foreign(orders[i]))
    ensures Recalls(PlaceBatch(s, orders, probe, env))
  {
    if |orders| == 1 {
      RecallsPlaceWith(s, orders[0], env);
    } else if orders != [] && !RefusesBatch(s, orders, probe, env) {
      var t := Queueing(s, orders, env);
      SoundQueued(s, orders, env);
      QueueTalks(s, orders, env);
      RemembersNoted(s.reading.placing, s.desk, s.log, t.log[|s.log|]);
      RecallsSendNext(t, env);
    }
  }

  lemma KeptBatch(s: State, orders: seq<NewOrder>, probe: NewOrder, env: Env)
    requires Kept(s) && (forall i | 0 <= i < |orders| :: Foreign(orders[i]))
    ensures Kept(PlaceBatch(s, orders, probe, env))
  {
    SteadyPlaceBatch(s, orders, probe, env);
    TamePlaceBatch(s, orders, probe, env);
    RecallsBatch(s, orders, probe, env);
    KeptTame(s, PlaceBatch(s, orders, probe, env));
  }

  lemma KeptReverse(s: State, id: int, stamp: int, env: Env)
    requires Kept(s)
    ensures Kept(ReversePosition(s, id, stamp, env))
  {
    var t := ReversePosition(s, id, stamp, env);
    AliveBegun(s, id, stamp, env);
    if t != s {
      var began := s.(reversing := t.reversing);
      assert t == Trade(began, Closing(id), None);
      assert TalkOf(began) == TalkOf(s);
      SteadyTrade(began, Closing(id));
      RecallsTrade(began, Closing(id));
      assert Reads(t) && DoubtsWereSent(t);
    }
  }

  lemma KeptReplay(s: State, on: bool)
    requires Kept(s)
    ensures Kept(SetReplay(s, on))
  {
    var t := SetReplay(s, on);
    SteadyReplay(s, on);
    if t != s {
      ReadsNoted(s, Replay(on));
      RemembersNoted(s.reading.placing, s.desk, s.log, Replay(on));
      DoubtsSentLater(s, t);
      assert AllAlive(t);
    }
  }

  lemma KeptTimer(s: State, call: nat)
    requires Kept(s) && call in s.desk.timers
    ensures Kept(TimerDone(s, call))
  {
    var busy := s.desk.timers[call];
    var over := s.(desk := s.desk.(timers := s.desk.timers - {call}));
    var t := TimerDone(s, call);
    SteadyTimer(s, call);
    RecallsGivenUp(s, call);
    if busy in s.desk.calls && s.desk.calls[busy] == call {
      var g := GivenUp(over, call, busy);
      ReadsAsking(g);
      DoubtedWasSent(s, t);
    } else {
      assert Reads(t) && DoubtsWereSent(t);
    }
    assert AllAlive(t);
  }

  lemma KeptLost(s: State, call: nat, busy: Busy, unknown: bool)
    requires Kept(s) && call in s.desk.flights && s.desk.flights[call].busy == busy
    ensures Kept(OnReady(Lost(s, call, busy, unknown)))
  {
    var t := Lost(s, call, busy, unknown);
    SteadyLost(s, call, busy, unknown);
    AliveLost(s, call, busy, unknown);
    RecallsLost(s, call, busy, unknown);
    DoubtedWasSent(s, t);
    KeptAsking(t);
  }

  /** After the answer is taken and before anything is sent because of it. */
  function Taking(s: State, call: nat, busy: Busy, e: Execution): State {
    var landed := Landed(s, call, busy);
    Tracking(landed, AckedBy(landed.reversing.pending, busy, e).0)
  }

  function Telling(s: State, call: nat, busy: Busy, e: Execution, env: Env): State {
    Market(OnExecution(Taking(s, call, busy, e), e, env), AckedBy(s.reversing.pending, busy, e).1, env)
  }

  function Excepted(busy: Busy): Option<int> { if busy.Closing? then Some(busy.id) else None }

  /** All but the reversal whose answer is being taken. */
  ghost predicate KeptBut(s: State, except: Option<int>) {
    Steady(s) && Reads(s) && AliveBut(s.reversing, s.desk.flights, except) && Recalls(s) && DoubtsWereSent(s)
  }

  lemma KeptTaking(s: State, call: nat, busy: Busy, e: Execution)
    requires Kept(s) && call in s.desk.flights && s.desk.flights[call].busy == busy
    ensures KeptBut(Taking(s, call, busy, e), Excepted(busy))
  {
    var t := Taking(s, call, busy, e);
    var entry := Answered(call, busy, true);
    SoundArrived(s, call, busy, true);
    assert TalkOf(t) == TalkOf(Note(s.(desk := Arrived(s.desk, call, busy)), entry));
    AliveAcked(s, call, busy, e);
    RecallsArrived(s, call, busy, true);
    ReadsNoted(s, entry);
    DoubtsSentLater(s, t);
    assert Reads(t);
  }

  /** What is told because of an answer only sends, and settles the doubts its event names. */
  lemma TameTelling(s: State, call: nat, busy: Busy, e: Execution, env: Env)
    requires Books(s.desk) && call in s.desk.flights && s.desk.flights[call].busy == busy
    ensures var told := Telling(s, call, busy, e, env);
      && Tame(Taking(s, call, busy, e), told) && Books(told.desk)
      && told.reading.inDoubt == Doubting(s.reading, e).inDoubt
  {
    var taking := Taking(s, call, busy, e);
    var told := OnExecution(taking, e, env);
    BooksArrived(s.desk, call, busy);
    TameOnExecution(taking, e, env);
    TameMarket(told, AckedBy(s.reversing.pending, busy, e).1, env);
    TameChain(taking, told, Telling(s, call, busy, e, env));
  }

  lemma KeptTelling(s: State, call: nat, busy: Busy, e: Execution, env: Env)
    requires Kept(s) && call in s.desk.flights && s.desk.flights[call].busy == busy
    ensures KeptBut(Telling(s, call, busy, e, env), Excepted(busy))
    ensures Tame(Taking(s, call, busy, e), Telling(s, call, busy, e, env))
  {
    var taking := Taking(s, call, busy, e);
    var order := AckedBy(s.reversing.pending, busy, e).1;
    var told := OnExecution(taking, e, env);
    var t := Market(told, order, env);
    KeptTaking(s, call, busy, e);
    SteadyOnExecution(taking, e, env);
    RecallsOnExecution(taking, e, env);
    SteadyMarket(told, order, env);
    RecallsMarket(told, order, env);
    TameTelling(s, call, busy, e, env);
    ReadsTame(taking, t);
    AliveTame(taking, t, Excepted(busy));
    DoubtsSentLater(taking, t);
  }

  lemma KeptAnswerOk(s: State, call: nat, busy: Busy, e: Execution, env: Env)
    requires Kept(s) && call in s.desk.flights && s.desk.flights[call].busy == busy
    ensures Kept(AnswerOk(s, call, busy, e, env))
  {
    var told := Telling(s, call, busy, e, env);
    KeptTelling(s, call, busy, e, env);
    SteadyAnswerOk(s, call, busy, e, env);
    var t := AnswerOk(s, call, busy, e, env);
    if busy.Closing? {
      AliveWatched(told.reversing, told.desk.flights, busy.id);
      assert t == told.(reversing := Watched(told.reversing, busy.id));
    } else if busy.Placing? {
      assert t == SendNext(told, env);
      TameSendNext(told, env);
      RecallsSendNext(told, env);
      ReadsTame(told, t);
      AliveTame(told, t, None);
      DoubtsSentLater(told, t);
    } else {
      assert t == told;
    }
  }

  lemma KeptEvent(s: State, news: News, env: Env)
    requires Kept(s)
    ensures Kept(OnEvent(s, news, env))
  {
    var t := OnEvent(s, news, env);
    SteadyOnEvent(s, news, env);
    match news
    case News(e) =>
      TameOnExecution(s, e, env);
      RecallsOnExecution(s, e, env);
      KeptTame(s, t);
    case Refused(positionId, orderId) =>
      assert Tame(s, t) && Recalls(t);
      KeptTame(s, t);
  }

  lemma KeptRead(s: State, e: nat, answer: ReadAnswer, env: Env)
    requires Kept(s)
    ensures Kept(ReadDone(s, e, answer, env))
  {
    var t := ReadDone(s, e, answer, env);
    SteadyReadDone(s, e, answer, env);
    if e == s.reading.epoch && answer.Found? {
      KeptReadApplied(s, e, answer.positions, env);
    } else {
      assert Reads(t) && AllAlive(t) && Recalls(t) && DoubtsWereSent(t);
    }
  }

  lemma KeptReadApplied(s: State, e: nat, positions: map<int, Position>, env: Env)
    requires Kept(s) && e == s.reading.epoch
    ensures var t := ReadDone(s, e, Found(positions), env);
      Reads(t) && AllAlive(t) && Recalls(t) && DoubtsWereSent(t)
  {
    var (left, orders) := CloseAll(s.reversing.pending, env.listing);
    var read := ReadApplies(Taken(s, e), e, positions, left);
    var moved := Moves(read, env.moves);
    var t := MarketAll(moved, orders, env);
    ReadsNoted(s, ReadApplied(e));
    RemembersNoted(s.reading.placing, s.desk, s.log, ReadApplied(e));
    SoundNoted(TalkOf(s), ReadApplied(e));
    assert TalkOf(read) == Noted(TalkOf(s), ReadApplied(e));
    assert Reads(read) && Recalls(read) && DoubtsWereSent(read);
    FewerCloseAll(s.reversing.pending, env.listing);
    AliveTame(s, Tracking(s, left), None);
    SteadyMoves(read, env.moves);
    RecallsMoves(read, env.moves);
    TameMoves(read, env.moves);
    RecallsMarketAll(moved, orders, env);
    TameMarketAll(moved, orders, env);
    TameChain(read, moved, t);
    ReadsTame(read, t);
    AliveTame(read, t, None);
    DoubtsSentLater(read, t);
  }

  lemma KeptRecheck(s: State, w: nat)
    requires Kept(s) && w in s.reversing.watches
    ensures Kept(Rechecked(s, w))
  {
    AliveRechecked(s, w);
    var noted := s.(reversing := s.reversing.(watches :=
      s.reversing.watches[w := s.reversing.watches[w].(rechecked := true)]));
    assert TalkOf(noted) == TalkOf(s);
    if Matches(s.reversing, s.reversing.watches[w]) {
      assert OnReady(noted).reversing == Rechecked(s, w).reversing;
      assert AllAlive(noted);
      KeptAsking(noted);
    }
  }

  lemma KeptWatchOver(s: State, w: nat)
    requires Kept(s) && w in s.reversing.watches
    ensures Kept(WatchOver(s, w))
  {
    AliveWatchOver(s, w);
    assert TalkOf(WatchOver(s, w)) == TalkOf(s);
  }

  predicate Asked(step: Step) {
    step.DoPlace? || step.DoBatch? || step.DoClose? || step.DoCancel? || step.DoAmend? || step.DoReverse?
    || step.DoReplay? || step.Refresh?
  }

  lemma KeptAsked(s: State, step: Step)
    requires Kept(s) && Enabled(s, step) && Asked(step)
    ensures Kept(Next(s, step))
  {
    match step
    case DoPlace(order, env) => KeptPlace(s, order, env);
    case DoBatch(orders, probe, env) => KeptBatch(s, orders, probe, env);
    case DoReverse(id, stamp, env) => KeptReverse(s, id, stamp, env);
    case DoReplay(on) => KeptReplay(s, on);
    case Refresh => KeptAsking(s);
    case _ => KeptButton(s, step);
  }

  lemma KeptButton(s: State, step: Step)
    requires Kept(s) && Enabled(s, step) && (step.DoClose? || step.DoCancel? || step.DoAmend?)
    ensures Kept(Next(s, step))
  {
    match step
    case DoClose(id) => KeptTrade(s, Closing(id));
    case DoCancel(id) => KeptTrade(s, Cancelling(id));
    case DoAmend(id, byUser) => KeptTrade(s, Amending(id));
  }

  lemma KeptCame(s: State, step: Step)
    requires Kept(s) && Enabled(s, step) && !Asked(step)
    ensures Kept(Next(s, step))
  {
    match step
    case TimerFires(call) => KeptTimer(s, call);
    case CallAnswers(call, answer, env) => KeptCall(s, call, answer, env);
    case NewsComes(news, env) => KeptEvent(s, news, env);
    case ReadAnswers(epoch, found, env) => KeptRead(s, epoch, found, env);
    case WatchRechecks(w) => KeptRecheck(s, w);
    case WatchEnds(w) => KeptWatchOver(s, w);
  }

  lemma KeptCall(s: State, call: nat, answer: Answer, env: Env)
    requires Kept(s) && call in s.desk.flights
    ensures Kept(AnswerDone(s, call, answer, env))
  {
    var busy := s.desk.flights[call].busy;
    match answer
    case Done(e) => KeptAnswerOk(s, call, busy, e, env);
    case Broke(unknown) => KeptLost(s, call, busy, unknown);
  }

  lemma KeptNext(s: State, step: Step)
    requires Kept(s) && Enabled(s, step)
    ensures Kept(Next(s, step))
  {
    if Asked(step) {
      KeptAsked(s, step);
    } else {
      KeptCame(s, step);
    }
  }

  /** Every reachable state keeps every invariant, so the log of every run is lawful. */
  lemma {:induction false} EveryRunKeeps(steps: seq<Step>)
    requires CanRun(steps)
    ensures Kept(Run(steps)) && Lawful(Run(steps).log)
    decreases |steps|
  {
    if steps != [] {
      EveryRunKeeps(steps[..|steps| - 1]);
      KeptNext(Run(steps[..|steps| - 1]), steps[|steps| - 1]);
    }
  }

  // ---- what that means, over every run ----

  /**
   In every run, whatever timers, late answers and reversals come between: an order of a plan goes
   at its place, once, after every one before it was sent and its own call answered Ok.
   */
  lemma EveryPlanGoesInOrder(steps: seq<Step>, j: nat)
    requires CanRun(steps) && j < |Run(steps).log| && Run(steps).log[j].Sent? && Run(steps).log[j].from.OfPlan?
    ensures var log := Run(steps).log;
      var p, k := log[j].from.plan, log[j].from.place;
      && p < j && log[p].Planned? && k < |log[p].orders| && log[j].order == log[p].orders[k]
      && (forall i :: 0 <= i < |log| && i != j ==> !SentAs(log[i], p, k))
      && (forall h :: 0 <= h < k ==> PlaceDone(log[..j], p, h))
  {
    EveryRunKeeps(steps);
    PlansGoInOrder(Run(steps).log, j);
  }

  /** In every run a read that settles doubts was asked once, and after each doubt that arose before it came. */
  lemma NoDoubtIsSettledByAnOldRead(steps: seq<Step>, i: nat, j: nat)
    requires CanRun(steps) && i < j < |Run(steps).log| && Run(steps).log[i].Doubted? && Run(steps).log[j].ReadApplied?
    ensures var log := Run(steps).log;
      && (exists k :: 0 <= k < |log| && log[k] == ReadAsked(log[j].epoch))
      && (forall k :: 0 <= k < |log| && log[k] == ReadAsked(log[j].epoch) ==> i < k < j)
  {
    EveryRunKeeps(steps);
    NoStaleRead(Run(steps).log, i, j);
  }

  /** In every run no order goes twice, nor before the one sent last was answered or given up, nor in a replay. */
  lemma NoOrderGoesTwice(steps: seq<Step>, i: nat, j: nat)
    requires CanRun(steps) && i < j < |Run(steps).log| && Run(steps).log[i].Sent? && Run(steps).log[j].Sent?
    ensures var log := Run(steps).log;
      && !SameOwnId(log[i].order, log[j].order) && !ReplayOn(log[..j])
      && exists m :: 0 <= m < |log| && i < m < j && Settles(log[m], log[i].call)
  {
    EveryRunKeeps(steps);
    NeverTwice(Run(steps).log, i, j);
    NothingSentInReplay(Run(steps).log, j);
  }

  /** The bookkeeping of the calls, in every reachable state. */
  lemma TheBooksAgree(steps: seq<Step>)
    requires CanRun(steps)
    ensures var s := Run(steps);
      && s.desk.busy == s.desk.calls.Keys
      && (forall b | b in s.desk.calls :: s.desk.calls[b] <= s.desk.callSeq)
      && (forall b, c | b in s.desk.calls && c in s.desk.calls && b != c :: s.desk.calls[b] != s.desk.calls[c])
      && (s.outbox.queue != [] ==> Placing in s.desk.busy)
      && (s.reading.placing.Some? ==> Placing in s.desk.busy)
      && (s.replay ==> Placing !in s.desk.busy && s.outbox.queue == [])
  {
    EveryRunKeeps(steps);
    var s := Run(steps);
    forall b, c | b in s.desk.calls && c in s.desk.calls && b != c ensures s.desk.calls[b] != s.desk.calls[c] {
      assert s.desk.flights[s.desk.calls[b]].busy == b && s.desk.flights[s.desk.calls[c]].busy == c;
    }
  }

  /**
   A pending reversal never lingers: in every reachable state its own close call is still unanswered,
   or it was acknowledged and a watcher that carries its stamp is still to come. Its own close call is
   closeCalls[id], the number taken by the step that started this reversal (AccountMeaning.ReversingAsksForTheClose).
   */
  lemma AReversalNeverLingers(steps: seq<Step>, id: int)
    requires CanRun(steps) && id in Run(steps).reversing.pending
    ensures var s := Run(steps);
      if s.reversing.pending[id].acknowledged then
        exists w :: w in s.reversing.watches && s.reversing.watches[w].id == id
          && s.reversing.watches[w].started == s.reversing.pending[id].started
      else
        id in s.reversing.closeCalls && s.reversing.closeCalls[id] in s.desk.flights
        && s.desk.flights[s.reversing.closeCalls[id]].busy == Closing(id)
  {
    EveryRunKeeps(steps);
    assert Alive(Run(steps).reversing, Run(steps).desk.flights, id);
  }
}
