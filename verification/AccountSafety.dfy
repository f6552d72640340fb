/**
 Every step keeps the bookkeeping and the link to the log, so the log of every run is lawful:
 plans go in order, nothing is sent twice, and nothing is sent while a replay is on.
 */
module AccountSafety {
  import opened Wrappers
  import opened Reversals
  import opened AccountState
  import opened AccountLaws
  import opened AccountInvariant

  /** A plan that waits always waits for a call in flight. */
  ghost predicate Flowing(s: State) { s.outbox.queue != [] ==> Placing in s.desk.busy }

  lemma SteadyTrade(s: State, busy: Busy)
    requires Steady(s) && !busy.Placing?
    ensures Steady(Trade(s, busy, None)) && (Flowing(s) ==> Flowing(Trade(s, busy, None)))
  {
    var t := Trade(s, busy, None);
    if busy !in s.desk.busy {
      BooksOpened(s.desk, busy, None);
      SoundLaterCall(TalkOf(s), t.desk.callSeq);
      assert TalkOf(t) == TalkOf(s).(callSeq := t.desk.callSeq);
    }
  }

  lemma {:induction false} SteadyMoves(s: State, moves: seq<Busy>)
    requires Steady(s)
    ensures Steady(Moves(s, moves)) && (Flowing(s) ==> Flowing(Moves(s, moves)))
  {
    if moves != [] {
      SteadyMoves(s, moves[..|moves| - 1]);
      if !moves[|moves| - 1].Placing? {
        SteadyTrade(Moves(s, moves[..|moves| - 1]), moves[|moves| - 1]);
      }
    }
  }

  lemma SendTalks(s: State, order: NewOrder, proof: Cleared, from: Origin, now: int)
    requires Books(s.desk) && Placing !in s.desk.busy
    ensures var t := Send(s, order, proof, from, now);
      && Books(t.desk) && TalkOf(t) == Gone(TalkOf(s), order, proof, from)
      && t.outbox == s.outbox && Placing in t.desk.busy
  {
    BooksOpened(s.desk, Placing, Some(Outgoing(order, proof, from, now)));
  }

  lemma SteadySendNext(s: State, env: Env)
    requires Books(s.desk) && Sound(TalkOf(s))
    requires Begun(s.outbox.queue) || Placing !in s.desk.busy
    ensures Steady(SendNext(s, env)) && Flowing(SendNext(s, env))
  {
    if Placing !in s.desk.busy && s.outbox.queue != [] {
      var q := s.outbox.queue[0];
      var rest := s.(outbox := s.outbox.(queue := s.outbox.queue[1..]));
      SoundHeadGone(TalkOf(s));
      SendTalks(rest, q.order, q.proof, OfPlan(q.plan, q.place), env.now);
      assert TalkOf(rest) == TalkOf(s).(queue := s.outbox.queue[1..]);
    }
  }

  lemma SteadyPlaceWith(s: State, order: NewOrder, env: Env)
    requires Steady(s) && Foreign(order)
    ensures Steady(PlaceWith(s, order, env)) && (Flowing(s) ==> Flowing(PlaceWith(s, order, env)))
  {
    if !Refuses(s, order, env) {
      var (named, count) := Identified(order, env.now, s.outbox.ordersSent);
      var counted := s.(outbox := Counted(s.outbox, order.Imprint(), env).(ordersSent := count));
      SoundSingleGone(TalkOf(s), order, env.now);
      SendTalks(counted, named, Cleared(order.Imprint()), Single, env.now);
      assert TalkOf(counted) == TalkOf(s).(ordersSent := count);
    }
  }

  lemma SteadyMarket(s: State, o: Option<ReverseOrder>, env: Env)
    requires Steady(s)
    ensures Steady(Market(s, o, env)) && (Flowing(s) ==> Flowing(Market(s, o, env)))
  {
    if o.Some? {
      SteadyPlaceWith(s, MarketOrder(o.value), env);
    }
  }

  lemma {:induction false} SteadyMarketAll(s: State, orders: seq<ReverseOrder>, env: Env)
    requires Steady(s)
    ensures Steady(MarketAll(s, orders, env)) && (Flowing(s) ==> Flowing(MarketAll(s, orders, env)))
  {
    if orders != [] {
      SteadyMarketAll(s, orders[..|orders| - 1], env);
      SteadyMarket(MarketAll(s, orders[..|orders| - 1], env), Some(orders[|orders| - 1]), env);
    }
  }

  // ---- a plan is queued ----

  lemma {:induction false} IdsInARow(orders: seq<NewOrder>, now: int, ordersSent: nat)
    requires forall i | 0 <= i < |orders| :: Foreign(orders[i])
    ensures var (named, count) := IdentifiedAll(orders, now, ordersSent);
      && |named| == |orders| && ordersSent <= count
      && (forall i | 0 <= i < |named| :: IdUnder(named[i], count))
      && (forall i | 0 <= i < |named| && named[i].clientId.value.Ours? :: ordersSent < named[i].clientId.value.count)
      && (forall i, j | 0 <= i < j < |named| :: !SameOwnId(named[i], named[j]))
  {
    if orders != [] {
      IdsInARow(orders[..|orders| - 1], now, ordersSent);
    }
  }

  lemma QueueTalks(s: State, orders: seq<NewOrder>, env: Env)
    requires orders != []
    ensures var (named, count) := IdentifiedAll(orders, env.now, s.outbox.ordersSent);
      && TalkOf(Queueing(s, orders, env))
         == Noted(TalkOf(s), Planned(named)).(queue := QueueOf(named, |s.log|), ordersSent := count)
      && Queueing(s, orders, env).desk == s.desk
  {
  }

  lemma SoundPlanned(k: Talk, named: seq<NewOrder>, count: nat)
    requires Sound(k) && k.queue == [] && k.current.None? && !k.replay && named != []
    requires k.ordersSent <= count
    requires forall i | 0 <= i < |named| :: IdUnder(named[i], count)
    requires forall i | 0 <= i < |named| && named[i].clientId.Some? && named[i].clientId.value.Ours? ::
      k.ordersSent < named[i].clientId.value.count
    requires forall i, j | 0 <= i < j < |named| :: !SameOwnId(named[i], named[j])
    ensures Sound(Noted(k, Planned(named)).(queue := QueueOf(named, |k.log|), ordersSent := count))
  {
    var e := Planned(named);
    SoundNoted(k, e);
    QueueRests(k.log, named);
    QueueIds(Noted(k, e).log, named, |k.log|, k.ordersSent, count, k.callSeq);
    assert PlanLink(k.log + [e], QueueOf(named, |k.log|), None);
  }

  lemma SoundQueued(s: State, orders: seq<NewOrder>, env: Env)
    requires Steady(s) && orders != [] && s.outbox.queue == [] && Placing !in s.desk.busy && !s.replay
    requires forall i | 0 <= i < |orders| :: Foreign(orders[i])
    ensures Sound(TalkOf(Queueing(s, orders, env))) && Books(Queueing(s, orders, env).desk)
  {
    var (named, count) := IdentifiedAll(orders, env.now, s.outbox.ordersSent);
    IdsInARow(orders, env.now, s.outbox.ordersSent);
    QueueTalks(s, orders, env);
    SoundPlanned(TalkOf(s), named, count);
  }

  lemma QueueIds(log: Log, named: seq<NewOrder>, plan: nat, before: nat, count: nat, callSeq: nat)
    requires Numbers(log, before, callSeq) && before <= count
    requires forall i | 0 <= i < |named| :: IdUnder(named[i], count)
    requires forall i | 0 <= i < |named| && named[i].clientId.Some? && named[i].clientId.value.Ours? ::
      before < named[i].clientId.value.count
    requires forall i, j | 0 <= i < j < |named| :: !SameOwnId(named[i], named[j])
    ensures Ids(log, QueueOf(named, plan), count)
  {
  }

  lemma QueueRests(log: Log, named: seq<NewOrder>)
    requires PlansPast(log) && named != []
    ensures Rest(log + [Planned(named)], QueueOf(named, |log|))
  {
    var now := log + [Planned(named)];
    forall m | 0 <= m ensures !PlaceSent(now, |log|, m) {
      PlaceSentGrows(log, Planned(named), |log|, m);
    }
  }

  lemma SteadyPlaceBatch(s: State, orders: seq<NewOrder>, probe: NewOrder, env: Env)
    requires Steady(s) && Flowing(s) && (forall i | 0 <= i < |orders| :: Foreign(orders[i]))
    ensures Steady(PlaceBatch(s, orders, probe, env)) && Flowing(PlaceBatch(s, orders, probe, env))
  {
    if |orders| == 1 {
      SteadyPlaceWith(s, orders[0], env);
    } else if orders != [] && !RefusesBatch(s, orders, probe, env) {
      SoundQueued(s, orders, env);
      SteadySendNext(Queueing(s, orders, env), env);
    }
  }

  // ---- account reads and events ----

  lemma AskTalks(s: State)
    ensures var t := OnReady(s);
      && TalkOf(t) == Noted(TalkOf(s), ReadAsked(s.reading.epoch + 1)).(epoch := s.reading.epoch + 1)
      && t.desk == s.desk && t.outbox == s.outbox
  {
  }

  lemma SteadyAsking(s: State)
    requires Steady(s)
    ensures Steady(OnReady(s)) && (Flowing(s) ==> Flowing(OnReady(s)))
  {
    AskTalks(s);
    AskingIsAllowed(s.log, s.reading.epoch + 1);
    SoundNotedAt(TalkOf(s), ReadAsked(s.reading.epoch + 1), s.reading.epoch + 1);
  }

  lemma SteadyReadDone(s: State, e: nat, answer: ReadAnswer, env: Env)
    requires Steady(s) && Flowing(s) && AskedAfterDoubts(s.log, s.reading.epoch)
    ensures Steady(ReadDone(s, e, answer, env)) && Flowing(ReadDone(s, e, answer, env))
  {
    if e == s.reading.epoch && answer.Found? {
      var (left, orders) := CloseAll(s.reversing.pending, env.listing);
      var read := ReadApplies(Taken(s, e), e, answer.positions, left);
      SoundNoted(TalkOf(s), ReadApplied(e));
      assert TalkOf(read) == Noted(TalkOf(s), ReadApplied(e));
      SteadyMoves(read, env.moves);
      SteadyMarketAll(Moves(read, env.moves), orders, env);
    }
  }

  lemma SteadyOnExecution(s: State, e: Execution, env: Env)
    requires Steady(s)
    ensures Steady(OnExecution(s, e, env)) && (Flowing(s) ==> Flowing(OnExecution(s, e, env)))
  {
    var heard := Heard(s, e);
    assert TalkOf(heard) == TalkOf(s);
    SteadyMoves(heard, env.moves);
    var managed := if e.kind == Some(Filled) then Moves(heard, env.moves) else heard;
    var (left, order) := ClosedBy(managed.reversing.pending, e);
    assert TalkOf(Tracking(managed, left)) == TalkOf(managed);
    SteadyMarket(Tracking(managed, left), order, env);
  }

  lemma SteadyOnEvent(s: State, news: News, env: Env)
    requires Steady(s) && Flowing(s)
    ensures Steady(OnEvent(s, news, env)) && Flowing(OnEvent(s, news, env))
  {
    match news
    case News(e) => SteadyOnExecution(s, e, env);
    case Refused(positionId, orderId) => assert TalkOf(OnEvent(s, news, env)) == TalkOf(s);
  }

  // ---- what becomes of a call ----

  lemma SoundArrived(s: State, call: nat, busy: Busy, ok: bool)
    requires Steady(s) && call in s.desk.flights && s.desk.flights[call].busy == busy
    requires busy.Placing? && !ok ==> s.outbox.queue == []
    ensures Books(Arrived(s.desk, call, busy))
    ensures Sound(TalkOf(Note(s.(desk := Arrived(s.desk, call, busy)), Answered(call, busy, ok))))
  {
    var t := Note(s.(desk := Arrived(s.desk, call, busy)), Answered(call, busy, ok));
    BooksArrived(s.desk, call, busy);
    if busy.Placing? && Placed(s.desk) == Some(call) {
      SoundEnded(TalkOf(s), Answered(call, busy, ok), call);
      assert TalkOf(t) == Noted(TalkOf(s), Answered(call, busy, ok)).(current := None);
    } else {
      SoundNoted(TalkOf(s), Answered(call, busy, ok));
      assert TalkOf(t) == Noted(TalkOf(s), Answered(call, busy, ok));
    }
  }

  lemma SteadyTimer(s: State, call: nat)
    requires Steady(s) && Flowing(s) && call in s.desk.timers
    ensures Steady(TimerDone(s, call)) && Flowing(TimerDone(s, call))
  {
    var busy := s.desk.timers[call];
    BooksGivenUp(s.desk, call, busy);
    var over := s.(desk := s.desk.(timers := s.desk.timers - {call}));
    if busy in s.desk.calls && s.desk.calls[busy] == call {
      SoundGivenUp(TalkOf(s), call, busy);
      GivenUpTalks(s, call, busy);
      SteadyAsking(GivenUp(over, call, busy));
    }
  }

  /** What giving up the current call leaves: the plan gone, its end in the log, and a doubt. */
  function GoneUp(k: Talk, call: nat, busy: Busy): Talk {
    Noted(Noted(k.(queue := []), GaveUp(call, busy)).(current := if busy.Placing? then None else k.current), Doubted)
  }

  lemma GivenUpTalks(s: State, call: nat, busy: Busy)
    requires busy in s.desk.calls && s.desk.calls[busy] == call
    ensures var t := GivenUp(s.(desk := s.desk.(timers := s.desk.timers - {call})), call, busy);
      TalkOf(t) == GoneUp(TalkOf(s), call, busy) && t.outbox.queue == []
  {
  }

  lemma SoundGivenUp(k: Talk, call: nat, busy: Busy)
    requires Sound(k) && (busy.Placing? ==> k.current == Some(call))
    ensures Sound(GoneUp(k, call, busy))
  {
    SoundDropped(k);
    if busy.Placing? {
      SoundEnded(k.(queue := []), GaveUp(call, busy), call);
    } else {
      SoundNoted(k.(queue := []), GaveUp(call, busy));
    }
    SoundNoted(Noted(k.(queue := []), GaveUp(call, busy)).(current := if busy.Placing? then None else k.current), Doubted);
  }

  lemma LostTalks(s: State, call: nat, busy: Busy, unknown: bool)
    ensures var t := Lost(s, call, busy, unknown);
      var ended := if busy.Placing? then NoQueue(s) else s;
      var k := TalkOf(Note(ended.(desk := Arrived(s.desk, call, busy)), Answered(call, busy, false)));
      && TalkOf(t) == (if busy.Placing? && unknown then Noted(k, Doubted) else k)
      && t.desk == Arrived(s.desk, call, busy) && t.outbox == ended.outbox
  {
  }

  lemma SteadyLost(s: State, call: nat, busy: Busy, unknown: bool)
    requires Steady(s) && Flowing(s) && call in s.desk.flights && s.desk.flights[call].busy == busy
    ensures Steady(Lost(s, call, busy, unknown)) && Flowing(Lost(s, call, busy, unknown))
  {
    LostTalks(s, call, busy, unknown);
    var ended := if busy.Placing? then NoQueue(s) else s;
    SteadyNoQueue(s);
    SteadyEnded(ended, call, busy, unknown, Lost(s, call, busy, unknown));
  }

  /** A state that has the calls and the log a failed answer leaves. */
  lemma SteadyEnded(s: State, call: nat, busy: Busy, unknown: bool, t: State)
    requires Steady(s) && Flowing(s) && call in s.desk.flights && s.desk.flights[call].busy == busy
    requires busy.Placing? ==> s.outbox.queue == []
    requires var k := TalkOf(Note(s.(desk := Arrived(s.desk, call, busy)), Answered(call, busy, false)));
      && TalkOf(t) == (if busy.Placing? && unknown then Noted(k, Doubted) else k)
      && t.desk == Arrived(s.desk, call, busy) && t.outbox == s.outbox
    ensures Steady(t) && Flowing(t)
  {
    SoundArrived(s, call, busy, false);
    SoundNoted(TalkOf(Note(s.(desk := Arrived(s.desk, call, busy)), Answered(call, busy, false))), Doubted);
  }

  lemma SteadyNoQueue(s: State)
    requires Steady(s)
    ensures Steady(NoQueue(s))
  {
    SoundDropped(TalkOf(s));
    assert TalkOf(NoQueue(s)) == TalkOf(s).(queue := []);
  }

  lemma LandedTalks(s: State, call: nat, busy: Busy, e: Execution)
    ensures var landed := Landed(s, call, busy);
      var t := Tracking(landed, AckedBy(landed.reversing.pending, busy, e).0);
      && TalkOf(t) == TalkOf(Note(s.(desk := Arrived(s.desk, call, busy)), Answered(call, busy, true)))
      && t.desk == Arrived(s.desk, call, busy) && t.outbox == s.outbox
  {
  }

  lemma SteadyAnswerOk(s: State, call: nat, busy: Busy, e: Execution, env: Env)
    requires Steady(s) && Flowing(s) && call in s.desk.flights && s.desk.flights[call].busy == busy
    ensures Steady(AnswerOk(s, call, busy, e, env)) && Flowing(AnswerOk(s, call, busy, e, env))
  {
    var landed := Landed(s, call, busy);
    var (left, order) := AckedBy(landed.reversing.pending, busy, e);
    var tracking := Tracking(landed, left);
    SoundArrived(s, call, busy, true);
    LandedTalks(s, call, busy, e);
    SteadyOnExecution(tracking, e, env);
    var told := OnExecution(tracking, e, env);
    SteadyMarket(told, order, env);
    var reversed := Market(told, order, env);
    SteadyEnd(reversed, busy, env);
  }

  /** The end of a step that took an answer: the watch, or the next order of the plan. */
  lemma SteadyEnd(s: State, busy: Busy, env: Env)
    requires Steady(s)
    requires !busy.Placing? ==> Flowing(s)
    ensures var t := if busy.Closing? then s.(reversing := Watched(s.reversing, busy.id))
                     else if busy.Placing? then SendNext(s, env) else s;
      Steady(t) && Flowing(t)
  {
    if busy.Closing? {
      assert TalkOf(s.(reversing := Watched(s.reversing, busy.id))) == TalkOf(s);
    } else if busy.Placing? {
      SteadySendNext(s, env);
    }
  }

  lemma SteadyReplay(s: State, on: bool)
    requires Steady(s) && Flowing(s)
    ensures Steady(SetReplay(s, on)) && Flowing(SetReplay(s, on))
  {
    var t := SetReplay(s, on);
    if t != s {
      var e := Replay(on);
      var k := TalkOf(s);
      LawfulGrows(k.log, e);
      OneOutNoted(k.log, k.current, e);
      PlanLinkNoted(k.log, k.queue, k.current, e);
      assert t.log[..|s.log|] == s.log;
    }
  }
}
