/**
 What each step does to the fields, case by case: the calls that buttons and plans' rules make, the
 book of positions, the reads, the counts, and what failures and refusals end.
 */
module AccountEffects {
  import opened Wrappers
  import opened Reversals
  import opened AccountState
  import opened AccountInvariant
  import opened AccountTheorems
  import opened AccountReversing
  import opened AccountReleases

  // ---- calls ----

  /** One more call, now the current one of its button, with its answer and its timer to come. */
  ghost predicate OneMoreCall(d: Desk, e: Desk, busy: Busy) {
    && busy !in d.busy && e.callSeq == d.callSeq + 1 && e.busy == d.busy + {busy}
    && busy in e.calls && e.calls[busy] == e.callSeq
    && e.callSeq in e.flights && e.flights[e.callSeq] == Flight(busy, None)
    && e.callSeq in e.timers && e.timers[e.callSeq] == busy
    && (forall b | b != busy :: (b in e.calls <==> b in d.calls) && (b in d.calls ==> d.calls[b] == e.calls[b]))
    && (forall c | c != e.callSeq :: (c in e.flights <==> c in d.flights) && (c in d.flights ==> d.flights[c] == e.flights[c]))
  }

  /** The step is one call under this button when the button is free and the condition holds; else nothing changes. */
  ghost predicate CallsIf(s: State, t: State, busy: Busy, allowed: bool) {
    if allowed && busy !in s.desk.busy then OneMoreCall(s.desk, t.desk, busy) && t == s.(desk := t.desk) else t == s
  }

  /** A close needs its position, a change by the user no replay, a cancellation nothing; each is one call. */
  lemma AButtonMakesOneCall(s: State, id: int, byUser: bool)
    requires Books(s.desk)
    ensures CallsIf(s, Next(s, DoClose(id)), Closing(id), id in s.positions)
    ensures CallsIf(s, Next(s, DoCancel(id)), Cancelling(id), true)
    ensures CallsIf(s, Next(s, DoAmend(id, byUser)), Amending(id), !(byUser && s.replay))
  {
    ACallIsMade(s, Closing(id));
    ACallIsMade(s, Cancelling(id));
    ACallIsMade(s, Amending(id));
  }

  lemma ACallIsMade(s: State, busy: Busy)
    requires Books(s.desk)
    ensures CallsIf(s, Trade(s, busy, None), busy, true)
  {
  }

  /** Every move a plan's rules ask for is busy afterwards, and nothing else became so but a new order. */
  ghost predicate MadeMoves(d: Desk, e: Desk, moves: seq<Busy>) {
    && (forall m | m in moves && !m.Placing? :: m in e.busy)
    && (forall b | b in e.busy && b !in d.busy && !b.Placing? :: b in moves)
  }

  lemma {:induction false} MovesAreMade(s: State, moves: seq<Busy>)
    requires Books(s.desk)
    ensures MadeMoves(s.desk, Moves(s, moves).desk, moves)
    ensures Moves(s, moves).desk.busy >= s.desk.busy
  {
    if moves != [] {
      MovesAreMade(s, moves[..|moves| - 1]);
      assert forall m | m in moves :: m in moves[..|moves| - 1] || m == moves[|moves| - 1];
    }
  }

  lemma MarketBusies(s: State, o: Option<ReverseOrder>, env: Env)
    ensures forall b | b != Placing :: b in Market(s, o, env).desk.busy <==> b in s.desk.busy
  {
  }

  lemma {:induction false} MarketAllBusies(s: State, orders: seq<ReverseOrder>, env: Env)
    ensures forall b | b != Placing :: b in MarketAll(s, orders, env).desk.busy <==> b in s.desk.busy
  {
    if orders != [] {
      MarketAllBusies(s, orders[..|orders| - 1], env);
      MarketBusies(MarketAll(s, orders[..|orders| - 1], env), Some(orders[|orders| - 1]), env);
    }
  }

  /** The rules of the plans act when an order is filled, and at no other event. */
  lemma RulesActOnFills(s: State, e: Execution, env: Env)
    requires Books(s.desk)
    ensures var t := Next(s, NewsComes(News(e), env));
      MadeMoves(s.desk, t.desk, if e.kind == Some(Filled) then env.moves else [])
  {
    var heard := Heard(s, e);
    MovesAreMade(heard, env.moves);
    var managed := if e.kind == Some(Filled) then Moves(heard, env.moves) else heard;
    var (left, order) := ClosedBy(managed.reversing.pending, e);
    MarketBusies(Tracking(managed, left), order, env);
  }

  /** And when the account was read again. */
  lemma RulesActOnReads(s: State, env: Env, positions: map<int, Position>)
    requires Books(s.desk) && Enabled(s, ReadAnswers(s.reading.epoch, Found(positions), env))
    ensures MadeMoves(s.desk, Next(s, ReadAnswers(s.reading.epoch, Found(positions), env)).desk, env.moves)
  {
    var (left, orders) := CloseAll(s.reversing.pending, env.listing);
    var read := ReadApplies(Taken(s, s.reading.epoch), s.reading.epoch, positions, left);
    MovesAreMade(read, env.moves);
    MarketAllBusies(Moves(read, env.moves), orders, env);
  }

  // ---- the book of positions ----

  lemma {:induction false} MovesKeepPositions(s: State, moves: seq<Busy>)
    ensures Moves(s, moves).positions == s.positions
  {
    if moves != [] {
      MovesKeepPositions(s, moves[..|moves| - 1]);
    }
  }

  /** What an event says of a position is what the book says of it afterwards; the others are not touched. */
  lemma PositionsFollowEvents(s: State, e: Execution, env: Env, id: int)
    ensures var t := Next(s, NewsComes(News(e), env));
      if e.position.Some? && e.position.value.id == id then
        if e.position.value.status != IsOpen then id !in t.positions
        else if e.position.value.sideKnown then id in t.positions && t.positions[id] == e.position.value.position
        else SameAt(s.positions, t.positions, id)
      else SameAt(s.positions, t.positions, id)
  {
    MovesKeepPositions(Heard(s, e), env.moves);
  }

  predicate SameAt<V(==)>(m: map<int, V>, n: map<int, V>, id: int) {
    (id in m <==> id in n) && (id in m ==> n[id] == m[id])
  }

  lemma {:induction false} MarketAllKeepsBook(s: State, orders: seq<ReverseOrder>, env: Env)
    ensures var t := MarketAll(s, orders, env);
      t.positions == s.positions && t.reading == s.reading.(placing := t.reading.placing)
  {
    if orders != [] {
      MarketAllKeepsBook(s, orders[..|orders| - 1], env);
    }
  }

  lemma {:induction false} MovesKeepReading(s: State, moves: seq<Busy>)
    ensures Moves(s, moves).reading == s.reading
  {
    if moves != [] {
      MovesKeepReading(s, moves[..|moves| - 1]);
    }
  }

  /** What a read finds replaces the book, and the account is known and sure again; a failed one says so. */
  lemma WhatAReadLeaves(s: State, epoch: nat, found: ReadAnswer, env: Env)
    requires Enabled(s, ReadAnswers(epoch, found, env))
    ensures var t := Next(s, ReadAnswers(epoch, found, env));
      && t.reading.epoch == s.reading.epoch && t.reading.loads == s.reading.loads - {epoch}
      && if epoch != s.reading.epoch then t == s.(reading := t.reading) && t.reading == s.reading.(loads := t.reading.loads)
         else match found
           case Found(positions) =>
             t.positions == positions && t.reading.status == Status.Ready && t.reading.traderKnown
             && !t.reading.uncertain && t.reading.inDoubt == []
           case Unread =>
             t == s.(reading := t.reading) && t.reading.status == Status.Failed && t.reading.traderKnown == s.reading.traderKnown
             && t.reading.uncertain == s.reading.uncertain && t.reading.inDoubt == s.reading.inDoubt
  {
    if epoch == s.reading.epoch && found.Found? {
      var (left, orders) := CloseAll(s.reversing.pending, env.listing);
      var read := ReadApplies(Taken(s, epoch), epoch, found.positions, left);
      MovesKeepPositions(read, env.moves);
      MovesKeepReading(read, env.moves);
      MarketAllKeepsBook(Moves(read, env.moves), orders, env);
    }
  }

  /** Asking a read: a new epoch that is on its way, and the account shows as loading until it is known once. */
  lemma WhatAskingLeaves(s: State)
    ensures var t := Next(s, Refresh);
      && t.reading.epoch == s.reading.epoch + 1 && t.reading.loads == s.reading.loads + {t.reading.epoch}
      && t.reading.status == (if s.reading.traderKnown then s.reading.status else Loading)
      && t == s.(reading := t.reading, log := t.log)
  {
  }

  // ---- reversals whose position is gone ----

  lemma {:induction false} CloseAllMarks(m: Tracked, listing: seq<int>, id: int)
    requires forall i, j :: 0 <= i < j < |listing| ==> listing[i] != listing[j]
    ensures var after := CloseAll(m, listing).0;
      if id in listing && id in m then
        if m[id].acknowledged then id !in after else id in after && after[id] == m[id].(closed := true)
      else SameAt(m, after, id)
  {
    if listing != [] {
      var rest, last := listing[..|listing| - 1], listing[|listing| - 1];
      CloseAllMarks(m, rest, id);
      assert id in listing <==> id in rest || id == last;
      assert last !in rest;
    }
  }

  /** A read that finds no position any more completes its reversal when that was acknowledged, and marks it closed else. */
  lemma AReadClosesWhatIsGone(s: State, positions: map<int, Position>, env: Env, id: int)
    requires Books(s.desk) && Enabled(s, ReadAnswers(s.reading.epoch, Found(positions), env)) && id in s.reversing.pending
    ensures var t := Next(s, ReadAnswers(s.reading.epoch, Found(positions), env)).reversing.pending;
      if id in positions then id in t && t[id] == s.reversing.pending[id]
      else if s.reversing.pending[id].acknowledged then id !in t
      else id in t && t[id] == s.reversing.pending[id].(closed := true)
  {
    ReadTracks(s, s.reading.epoch, Found(positions), env);
    CloseAllMarks(s.reversing.pending, env.listing, id);
  }

  // ---- the kinds of events ----

  /** These three kinds accept a close, and no other kind does: it forgets the reversal. */
  lemma WhichAnswersAccept(s: State, call: nat, e: Execution, env: Env, id: int)
    requires Books(s.desk) && call in s.desk.flights && s.desk.flights[call].busy == Closing(id)
    requires id in s.reversing.pending && !s.reversing.pending[id].closed && e.position.None?
    ensures var t := Next(s, CallAnswers(call, Done(e), env)).reversing.pending;
      match e.kind
      case Some(Accepted) => id in t && t[id].acknowledged
      case Some(PartialFill) => id in t && t[id].acknowledged
      case Some(Filled) => id in t && t[id].acknowledged
      case _ => id !in t
  {
    DoneTracks(s, call, e, env);
  }

  /**
     The event is about this reversal: by the position it brings, or the one its order names, or by the
     closing order, or it names none.
  */
  predicate IsAbout(e: Execution, id: int, p: Pending) {
    match (e.position, e.order)
    case (None, None) => true
    case (Some(position), None) => position.id == id
    case (Some(position), Some(order)) => position.id == id || p.closeOrderId == Some(order.orderId)
    case (None, Some(order)) => order.positionId == Some(id) || p.closeOrderId == Some(order.orderId)
  }

  /** These three kinds end the reversals they are about, and no other kind does; a fill that closes is not of them. */
  lemma WhichEventsRefuse(s: State, e: Execution, env: Env, id: int)
    requires Books(s.desk) && id in s.reversing.pending && (e.position.Some? ==> e.position.value.status == IsOpen)
    ensures var t := Next(s, NewsComes(News(e), env)).reversing.pending;
      && (id in t ==> t[id] == s.reversing.pending[id])
      && match e.kind
         case Some(Rejected) => id in t <==> !IsAbout(e, id, s.reversing.pending[id])
         case Some(Cancelled) => id in t <==> !IsAbout(e, id, s.reversing.pending[id])
         case Some(Expired) => id in t <==> !IsAbout(e, id, s.reversing.pending[id])
         case _ => id in t
  {
    ExecutionTracks(s, e, env);
  }

  /**
     The answer of a close leaves a watch of the reversal that waits still, with its stamp and no look
     taken; and no other answer does.
  */
  lemma WhatAnAnswerWatches(s: State, call: nat, e: Execution, env: Env)
    requires Books(s.desk) && call in s.desk.flights
    ensures var t, busy := Next(s, CallAnswers(call, Done(e), env)).reversing, s.desk.flights[call].busy;
      if busy.Closing? && busy.id in t.pending then
        t.watches == s.reversing.watches[s.reversing.watchSeq := AccountState.Watch(busy.id, t.pending[busy.id].started, false)]
        && t.watchSeq == s.reversing.watchSeq + 1
      else t.watches == s.reversing.watches && t.watchSeq == s.reversing.watchSeq
  {
    var busy := s.desk.flights[call].busy;
    TameTelling(s, call, busy, e, env);
  }

  /** A refusal ends the reversal of the position it names, those of the closing order it names, or all. */
  lemma WhatARefusalEnds(s: State, position: Option<int>, order: Option<int>, env: Env, id: int)
    requires id in s.reversing.pending
    ensures var t := Next(s, NewsComes(Refused(position, order), env));
      && t == s.(reversing := t.reversing)
      && (id in t.reversing.pending ==> t.reversing.pending[id] == s.reversing.pending[id])
      && (id in t.reversing.pending <==> match (position, order)
            case (None, None) => false
            case (Some(p), None) => p != id
            case (None, Some(o)) => s.reversing.pending[id].closeOrderId != Some(o)
            case (Some(p), Some(o)) => p != id && s.reversing.pending[id].closeOrderId != Some(o))
  {
  }

  // ---- what is counted and kept of an order that goes ----

  /** An order that goes is one more of its day, the last one sent, and the record of what is in flight. */
  lemma WhatAnOrderLeaves(s: State, order: NewOrder, env: Env)
    requires Foreign(order) && Next(s, DoPlace(order, env)) != s
    ensures var t := Next(s, DoPlace(order, env));
      && t.outbox.sentToday == (env.day, if s.outbox.sentToday.0 == env.day then s.outbox.sentToday.1 + 1 else 1)
      && t.outbox.last == Some((Fingerprint(order.symbol, order.side == 1, order.volume, order.kind, order.price), env.now))
      && t.outbox.ordersSent == s.outbox.ordersSent + (if order.clientId.Some? then 0 else 1)
      && t.reading.placing.Some?
      && var record := t.reading.placing.value;
      && record == InDoubt(record.clientId, order.symbol, order.side == 1, order.volume, env.now)
      && (if order.clientId.Some? then order.clientId == Some(record.clientId)
          else record.clientId == Ours(env.now, t.outbox.ordersSent))
      && t == s.(desk := t.desk, outbox := t.outbox, log := t.log, reading := s.reading.(placing := t.reading.placing))
  {
  }

  /** A plan that goes counts as one order of its day. */
  lemma WhatAPlanLeaves(s: State, orders: seq<NewOrder>, probe: NewOrder, env: Env)
    requires |orders| > 1 && Enabled(s, DoBatch(orders, probe, env)) && Next(s, DoBatch(orders, probe, env)) != s
    ensures var t := Next(s, DoBatch(orders, probe, env));
      && t.outbox.sentToday == (env.day, if s.outbox.sentToday.0 == env.day then s.outbox.sentToday.1 + 1 else 1)
      && t.outbox.last == Some((orders[0].Imprint(), env.now))
  {
    SendingCountsNothing(Queueing(s, orders, env), env);
  }

  lemma SendingCountsNothing(s: State, env: Env)
    ensures SendNext(s, env).outbox.sentToday == s.outbox.sentToday && SendNext(s, env).outbox.last == s.outbox.last
  {
  }

  // ---- failures, timers and watches ----

  /**
     A new order that fails drops the plan, whichever call it was, and leaves the account unsure only
     when its outcome is open.
  */
  lemma WhatAFailureLeaves(s: State, call: nat, unknown: bool, env: Env)
    requires call in s.desk.flights
    ensures var t, busy := Next(s, CallAnswers(call, Broke(unknown), env)), s.desk.flights[call].busy;
      && call !in t.desk.flights && t.positions == s.positions && t.replay == s.replay
      && t.outbox == (if busy.Placing? then s.outbox.(queue := []) else s.outbox)
      && t.reading.uncertain == (s.reading.uncertain || (busy.Placing? && unknown))
      && t.reading.epoch == s.reading.epoch + 1 && t.reading.epoch in t.reading.loads
      && (forall id | id in s.reversing.pending :: id in t.reversing.pending <==> busy != Closing(id))
  {
  }

  /** A timer whose call was answered, or given over to a newer one, does nothing. */
  lemma AnOvertakenTimerDoesNothing(s: State, call: nat)
    requires call in s.desk.timers
    requires var busy := s.desk.timers[call]; busy !in s.desk.calls || s.desk.calls[busy] != call
    ensures var t := Next(s, TimerFires(call));
      t == s.(desk := t.desk) && t.desk == s.desk.(timers := t.desk.timers) && t.desk.timers.Keys == s.desk.timers.Keys - {call}
  {
  }

  /** The reversal a watch is for waits still: the same position, with the stamp of the same start. */
  predicate StillWaits(s: State, w: nat)
    requires w in s.reversing.watches
  {
    var watch := s.reversing.watches[w];
    watch.id in s.reversing.pending && s.reversing.pending[watch.id].started == watch.started
  }

  /** Its first look reads the account when the reversal waits still; its last one forgets exactly that reversal. */
  lemma WhatAWatchDoes(s: State, w: nat)
    requires w in s.reversing.watches
    ensures Enabled(s, WatchRechecks(w)) ==>
      var t := Next(s, WatchRechecks(w));
      && t.reversing.pending == s.reversing.pending && w in t.reversing.watches && t.reversing.watches[w].rechecked
      && t.reading.epoch == s.reading.epoch + (if StillWaits(s, w) then 1 else 0)
    ensures Enabled(s, WatchEnds(w)) ==>
      var t := Next(s, WatchEnds(w));
      && w !in t.reversing.watches && t.reading == s.reading && t.desk == s.desk
      && forall id | id in s.reversing.pending ::
           id in t.reversing.pending <==> !(StillWaits(s, w) && id == s.reversing.watches[w].id)
  {
  }

  /** The lock turns on only when no order is in flight or waits; turning it changes nothing else. */
  lemma WhatTheLockDoes(s: State, on: bool)
    ensures var t := Next(s, DoReplay(on));
      t == s.(replay := t.replay, log := t.log)
      && t.replay == (if on && (Placing in s.desk.busy || s.outbox.queue != []) then s.replay else on)
  {
  }
}
