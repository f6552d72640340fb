/**
 The invariants of every step put together, and what they mean for every run of the account.
 */
module AccountRuns {
  import opened Wrappers
  import opened Reversals
  import opened AccountState
  import opened AccountLaws
  import opened AccountInvariant
  import opened AccountSafety
  import opened AccountTame

  // ---- the order in flight and its doubt ----

  /** After the order of `call` was sent, another new order's call came back. */
  ghost predicate Displaced(log: Log, call: nat) {
    exists i, j :: 0 <= i < j < |log| && log[i].Sent? && log[i].call == call
      && log[j].Answered? && log[j].busy.Placing? && log[j].call != call
  }

  ghost predicate SentBy(log: Log, call: nat) {
    exists i :: 0 <= i < |log| && log[i].Sent? && log[i].call == call
  }

  predicate Intrudes(e: LogEntry, call: nat) {
    e.Answered? && e.busy.Placing? && e.call != call
  }

  lemma DisplacedGrows(log: Log, e: LogEntry, call: nat)
    ensures Displaced(log + [e], call) <==> Displaced(log, call) || (SentBy(log, call) && Intrudes(e, call))
  {
    var now := log + [e];
    if Displaced(log, call) {
      var i, j :| 0 <= i < j < |log| && log[i].Sent? && log[i].call == call
        && log[j].Answered? && log[j].busy.Placing? && log[j].call != call;
      assert now[i] == log[i] && now[j] == log[j];
    }
    if SentBy(log, call) && Intrudes(e, call) {
      var i :| 0 <= i < |log| && log[i].Sent? && log[i].call == call;
      assert now[i] == log[i] && now[|log|] == e;
    }
  }

  ghost predicate SentOrder(log: Log, call: nat, order: NewOrder) {
    exists i :: 0 <= i < |log| && log[i].Sent? && log[i].call == call && log[i].order == order
  }

  lemma SentOrderGrows(log: Log, e: LogEntry, call: nat, order: NewOrder)
    requires SentOrder(log, call, order)
    ensures SentOrder(log + [e], call, order) && SentBy(log, call)
  {
    var i :| 0 <= i < |log| && log[i].Sent? && log[i].call == call && log[i].order == order;
    assert (log + [e])[i] == log[i];
  }

  function DoubtOf(f: Flight): Option<InDoubt> {
    if f.out.None? then None else Doubt(f.out.value.order, f.out.value.at)
  }

  /** What is kept of the order in flight is its own record, unless an older order's answer wiped it. */
  ghost predicate Remembers(placing: Option<InDoubt>, d: Desk, log: Log) {
    match Placed(d)
    case None => placing.None?
    case Some(call) =>
      && call in d.flights && DoubtOf(d.flights[call]).Some?
      && SentOrder(log, call, d.flights[call].out.value.order)
      && placing == if Displaced(log, call) then None else DoubtOf(d.flights[call])
  }

  ghost predicate Recalls(s: State) { Remembers(s.reading.placing, s.desk, s.log) }

  lemma RemembersNoted(placing: Option<InDoubt>, d: Desk, log: Log, e: LogEntry)
    requires Remembers(placing, d, log)
    requires Placed(d).Some? ==> !Intrudes(e, Placed(d).value)
    ensures Remembers(placing, d, log + [e])
  {
    if Placed(d).Some? {
      DisplacedGrows(log, e, Placed(d).value);
      SentOrderGrows(log, e, Placed(d).value, d.flights[Placed(d).value].out.value.order);
    }
  }

  lemma RecallsTrade(s: State, busy: Busy)
    requires Recalls(s) && Books(s.desk) && !busy.Placing?
    ensures Recalls(Trade(s, busy, None))
  {
  }

  lemma {:induction false} RecallsMoves(s: State, moves: seq<Busy>)
    requires Recalls(s) && Books(s.desk)
    ensures Recalls(Moves(s, moves))
  {
    if moves != [] {
      var before := Moves(s, moves[..|moves| - 1]);
      RecallsMoves(s, moves[..|moves| - 1]);
      TameMoves(s, moves[..|moves| - 1]);
      if !moves[|moves| - 1].Placing? {
        RecallsTrade(before, moves[|moves| - 1]);
      }
    }
  }

  lemma RecallsSend(s: State, order: NewOrder, proof: Cleared, from: Origin, now: int)
    requires Placing !in s.desk.busy && Books(s.desk) && order.clientId.Some?
    requires Numbers(s.log, s.outbox.ordersSent, s.desk.callSeq)
    ensures Recalls(Send(s, order, proof, from, now))
  {
    var t := Send(s, order, proof, from, now);
    var call := s.desk.callSeq + 1;
    var e := Sent(call, order, proof, from);
    assert t.log == s.log + [e] && t.log[|s.log|] == e;
    assert !SentBy(s.log, call);
    assert !Displaced(s.log, call);
    DisplacedGrows(s.log, e, call);
  }

  lemma RecallsSendNext(s: State, env: Env)
    requires Recalls(s) && Books(s.desk) && Sound(TalkOf(s))
    ensures Recalls(SendNext(s, env))
  {
    if Placing !in s.desk.busy && s.outbox.queue != [] {
      var q := s.outbox.queue[0];
      RecallsSend(s.(outbox := s.outbox.(queue := s.outbox.queue[1..])), q.order, q.proof, OfPlan(q.plan, q.place), env.now);
    }
  }

  lemma RecallsPlaceWith(s: State, order: NewOrder, env: Env)
    requires Recalls(s) && Steady(s)
    ensures Recalls(PlaceWith(s, order, env))
  {
    if !Refuses(s, order, env) {
      var (named, count) := Identified(order, env.now, s.outbox.ordersSent);
      RecallsSend(s.(outbox := Counted(s.outbox, order.Imprint(), env).(ordersSent := count)),
                  named, Cleared(order.Imprint()), Single, env.now);
    }
  }

  lemma RecallsMarket(s: State, o: Option<ReverseOrder>, env: Env)
    requires Recalls(s) && Steady(s)
    ensures Recalls(Market(s, o, env))
  {
    if o.Some? {
      RecallsPlaceWith(s, MarketOrder(o.value), env);
    }
  }

  lemma {:induction false} RecallsMarketAll(s: State, orders: seq<ReverseOrder>, env: Env)
    requires Recalls(s) && Steady(s)
    ensures Recalls(MarketAll(s, orders, env))
  {
    if orders != [] {
      var before := MarketAll(s, orders[..|orders| - 1], env);
      RecallsMarketAll(s, orders[..|orders| - 1], env);
      SteadyMarketAll(s, orders[..|orders| - 1], env);
      RecallsMarket(before, Some(orders[|orders| - 1]), env);
    }
  }

  lemma RecallsOnExecution(s: State, e: Execution, env: Env)
    requires Recalls(s) && Steady(s)
    ensures Recalls(OnExecution(s, e, env))
  {
    var heard := Heard(s, e);
    assert TalkOf(heard) == TalkOf(s) && heard.reading.placing == s.reading.placing && heard.desk == s.desk;
    RecallsMoves(heard, env.moves);
    SteadyMoves(heard, env.moves);
    var managed := if e.kind == Some(Filled) then Moves(heard, env.moves) else heard;
    var (left, order) := ClosedBy(managed.reversing.pending, e);
    assert TalkOf(Tracking(managed, left)) == TalkOf(managed);
    RecallsMarket(Tracking(managed, left), order, env);
  }

  lemma RecallsArrived(s: State, call: nat, busy: Busy, ok: bool)
    requires Recalls(s) && Books(s.desk) && call in s.desk.flights && s.desk.flights[call].busy == busy
    ensures Remembers(if busy.Placing? then None else s.reading.placing,
                      Arrived(s.desk, call, busy), s.log + [Answered(call, busy, ok)])
  {
    var e := Answered(call, busy, ok);
    var d := Arrived(s.desk, call, busy);
    if Placed(d).Some? {
      var current := Placed(d).value;
      assert Placed(s.desk) == Some(current) && current != call;
      DisplacedGrows(s.log, e, current);
      SentOrderGrows(s.log, e, current, d.flights[current].out.value.order);
    }
  }

  lemma RecallsGivenUp(s: State, call: nat)
    requires Recalls(s) && Books(s.desk) && call in s.desk.timers
    ensures Recalls(TimerDone(s, call))
  {
    var busy := s.desk.timers[call];
    var over := s.(desk := s.desk.(timers := s.desk.timers - {call}));
    if busy in s.desk.calls && s.desk.calls[busy] == call {
      var d := Released(over.desk, call, busy);
      var placing := if busy.Placing? then None else s.reading.placing;
      assert Remembers(placing, d, s.log);
      RemembersNoted(placing, d, s.log, GaveUp(call, busy));
      RemembersNoted(placing, d, s.log + [GaveUp(call, busy)], Doubted);
      RemembersNoted(placing, d, s.log + [GaveUp(call, busy)] + [Doubted], ReadAsked(s.reading.epoch + 1));
    }
  }

  lemma RecallsLost(s: State, call: nat, busy: Busy, unknown: bool)
    requires Recalls(s) && Books(s.desk) && call in s.desk.flights && s.desk.flights[call].busy == busy
    ensures Recalls(Lost(s, call, busy, unknown))
  {
    RecallsArrived(s, call, busy, false);
    var log := s.log + [Answered(call, busy, false)];
    if busy.Placing? && unknown {
      RemembersNoted(None, Arrived(s.desk, call, busy), log, Doubted);
    }
  }

  ghost predicate IdSent(log: Log, id: ClientId) {
    exists i :: 0 <= i < |log| && log[i].Sent? && log[i].order.clientId == Some(id)
  }

  /** The log sends an order of this id, symbol, side and volume. */
  ghost predicate WasSent(log: Log, d: InDoubt) {
    exists i :: 0 <= i < |log| && log[i].Sent? && Tells(log[i].order, d)
  }

  predicate Tells(order: NewOrder, d: InDoubt) {
    order.clientId == Some(d.clientId) && order.symbol == d.symbol && (d.buy <==> order.side == 1) && order.volume == d.volume
  }

  lemma WasSentUnderId(log: Log, d: InDoubt)
    requires WasSent(log, d)
    ensures IdSent(log, d.clientId)
  {
    var i :| 0 <= i < |log| && log[i].Sent? && Tells(log[i].order, d);
  }

  lemma WasSentLater(log: Log, now: Log, d: InDoubt)
    requires WasSent(log, d) && log <= now
    ensures WasSent(now, d)
  {
    var i :| 0 <= i < |log| && log[i].Sent? && Tells(log[i].order, d);
    assert now[i] == log[i];
  }

  /** Every order in doubt is one that was sent. */
  ghost predicate DoubtsWereSent(s: State) {
    forall d | d in s.reading.inDoubt :: WasSent(s.log, d)
  }

  lemma DoubtsSentLater(s: State, t: State)
    requires DoubtsWereSent(s) && s.log <= t.log && (forall d | d in t.reading.inDoubt :: d in s.reading.inDoubt)
    ensures DoubtsWereSent(t)
  {
    forall d | d in t.reading.inDoubt ensures WasSent(t.log, d) {
      WasSentLater(s.log, t.log, d);
    }
  }

  /** The record of the order in flight is always that of an order the log has as sent. */
  lemma KeptWasSent(s: State)
    requires Recalls(s) && s.reading.placing.Some?
    ensures WasSent(s.log, s.reading.placing.value)
  {
    var call := Placed(s.desk).value;
    var order := s.desk.flights[call].out.value.order;
    var i :| 0 <= i < |s.log| && s.log[i].Sent? && s.log[i].call == call && s.log[i].order == order;
    assert Tells(s.log[i].order, s.reading.placing.value);
  }

  lemma DoubtedWasSent(s: State, t: State)
    requires Recalls(s) && DoubtsWereSent(s) && s.log <= t.log
    requires t.reading.inDoubt == DoubtPlacing(s.reading).inDoubt || t.reading.inDoubt == s.reading.inDoubt
    ensures DoubtsWereSent(t)
  {
    if s.reading.placing.Some? {
      KeptWasSent(s);
    }
    forall d | d in t.reading.inDoubt ensures WasSent(t.log, d) {
      WasSentLater(s.log, t.log, d);
    }
  }

  // ---- every step keeps every invariant ----

  ghost predicate Kept(s: State) {
    Steady(s) && Flowing(s) && Reads(s) && AllAlive(s) && Recalls(s) && DoubtsWereSent(s)
  }

  /** A step that only sends or drops doubts keeps all that does not speak of the calls it makes. */
  lemma KeptTame(s: State, t: State)
    requires Kept(s) && Tame(s, t) && Steady(t) && Flowing(t) && Recalls(t)
    ensures Kept(t)
  {
    ReadsTame(s, t);
    AliveTame(s, t, None);
    DoubtsSentLater(s, t);
  }

  lemma KeptAsking(s: State)
    requires Steady(s) && Flowing(s) && AllAlive(s) && Recalls(s) && DoubtsWereSent(s)
    ensures Kept(OnReady(s))
  {
    SteadyAsking(s);
    ReadsAsking(s);
    AskTalks(s);
    RemembersNoted(s.reading.placing, s.desk, s.log, ReadAsked(s.reading.epoch + 1));
    DoubtsSentLater(s, OnReady(s));
    assert AllAlive(OnReady(s));
  }
}
