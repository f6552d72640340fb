/**
 What sending in the middle of a step never disturbs, and the invariants that rest on it: doubts
 are settled only by a read asked after them, and a pending reversal never lingers.
 */
module AccountTame {
  import opened Wrappers
  import opened Reversals
  import opened AccountState
  import opened AccountLaws
  import opened AccountInvariant

  /** Only orders and plans were logged, no call was ended, and no doubt or reversal was added. */
  ghost predicate Tame(s: State, t: State) {
    && s.log <= t.log
    && (forall i | |s.log| <= i < |t.log| :: t.log[i].Sent? || t.log[i].Planned?)
    && TameDesk(s.desk, t.desk) && TameReading(s.reading, t.reading) && TameReversing(s.reversing, t.reversing)
    && (Placing in s.desk.calls ==> t.reading.placing == s.reading.placing)
  }

  /**
   Numbers are never taken twice: a current call is the one it was or a later one, and while it is
   the one it was, no other call with its button was made.
   */
  ghost predicate Later(d: Desk, e: Desk) {
    && d.callSeq <= e.callSeq
    && (forall b | b in e.calls && e.calls[b] <= d.callSeq ::
          && b in d.calls && d.calls[b] == e.calls[b]
          && (forall c | c in e.flights && e.flights[c].busy == b :: c in d.flights && d.flights[c] == e.flights[c]))
  }

  lemma LaterChain(d: Desk, e: Desk, f: Desk)
    requires Later(d, e) && Later(e, f)
    ensures Later(d, f)
  {
  }

  ghost predicate TameDesk(d: Desk, e: Desk) {
    && Later(d, e)
    && (forall b | b in d.calls :: b in e.calls && e.calls[b] == d.calls[b])
    && (forall c | c in d.flights :: c in e.flights && e.flights[c] == d.flights[c])
  }

  ghost predicate TameReading(r: Reading, q: Reading) {
    q.epoch == r.epoch && q.loads == r.loads && q.status == r.status && q.uncertain == r.uncertain
    && (forall d | d in q.inDoubt :: d in r.inDoubt)
  }

  ghost predicate TameReversing(r: Reversing, q: Reversing) {
    && q == r.(pending := q.pending)
    && Fewer(r.pending, q.pending)
  }

  ghost predicate Fewer(m: Tracked, n: Tracked) {
    forall id | id in n :: id in m && n[id].acknowledged == m[id].acknowledged && n[id].started == m[id].started
  }

  lemma TameChain(s: State, t: State, u: State)
    requires Tame(s, t) && Tame(t, u)
    ensures Tame(s, u)
  {
    forall i | |s.log| <= i < |u.log| ensures u.log[i].Sent? || u.log[i].Planned? {
      if i < |t.log| {
        assert u.log[i] == t.log[i];
      }
    }
  }

  lemma TameTrade(s: State, busy: Busy, out: Option<Outgoing>)
    requires Books(s.desk)
    ensures Tame(s, Trade(s, busy, out))
  {
    if busy !in s.desk.busy {
      DeskOpened(s.desk, busy, out);
    }
  }

  lemma DeskOpened(d: Desk, busy: Busy, out: Option<Outgoing>)
    requires Books(d) && busy !in d.busy
    ensures TameDesk(d, Opened(d, busy, out))
  {
  }

  lemma {:induction false} TameMoves(s: State, moves: seq<Busy>)
    requires Books(s.desk)
    ensures Tame(s, Moves(s, moves)) && Books(Moves(s, moves).desk)
    ensures Moves(s, moves).reading == s.reading && Moves(s, moves).reversing == s.reversing
  {
    if moves != [] {
      var before := Moves(s, moves[..|moves| - 1]);
      TameMoves(s, moves[..|moves| - 1]);
      if !moves[|moves| - 1].Placing? {
        TameTrade(before, moves[|moves| - 1], None);
        if moves[|moves| - 1] !in before.desk.busy {
          BooksOpened(before.desk, moves[|moves| - 1], None);
        }
        TameChain(s, before, Moves(s, moves));
      }
    }
  }

  lemma TameSend(s: State, order: NewOrder, proof: Cleared, from: Origin, now: int)
    requires Books(s.desk) && Placing !in s.desk.busy
    ensures var t := Send(s, order, proof, from, now);
      && Tame(s, t) && Books(t.desk)
      && t.reversing == s.reversing && t.reading.inDoubt == s.reading.inDoubt
  {
    var placing := s.(reading := s.reading.(placing := Doubt(order, now)));
    TameTrade(placing, Placing, Some(Outgoing(order, proof, from, now)));
    BooksOpened(s.desk, Placing, Some(Outgoing(order, proof, from, now)));
  }

  lemma TamePlaceWith(s: State, order: NewOrder, env: Env)
    requires Books(s.desk)
    ensures var t := PlaceWith(s, order, env);
      && Tame(s, t) && Books(t.desk)
      && t.reversing == s.reversing && t.reading.inDoubt == s.reading.inDoubt
  {
    if !Refuses(s, order, env) {
      var (named, count) := Identified(order, env.now, s.outbox.ordersSent);
      TameSend(s.(outbox := Counted(s.outbox, order.Imprint(), env).(ordersSent := count)),
               named, Cleared(order.Imprint()), Single, env.now);
    }
  }

  lemma TameMarket(s: State, o: Option<ReverseOrder>, env: Env)
    requires Books(s.desk)
    ensures var t := Market(s, o, env);
      && Tame(s, t) && Books(t.desk)
      && t.reversing == s.reversing && t.reading.inDoubt == s.reading.inDoubt
  {
    if o.Some? {
      TamePlaceWith(s, MarketOrder(o.value), env);
    }
  }

  lemma {:induction false} TameMarketAll(s: State, orders: seq<ReverseOrder>, env: Env)
    requires Books(s.desk)
    ensures var t := MarketAll(s, orders, env); Tame(s, t) && Books(t.desk) && t.reading.inDoubt == s.reading.inDoubt
  {
    if orders != [] {
      var before := MarketAll(s, orders[..|orders| - 1], env);
      TameMarketAll(s, orders[..|orders| - 1], env);
      TameMarket(before, Some(orders[|orders| - 1]), env);
      TameChain(s, before, MarketAll(s, orders, env));
    }
  }

  lemma TameSendNext(s: State, env: Env)
    requires Books(s.desk)
    ensures var t := SendNext(s, env); Tame(s, t) && Books(t.desk) && t.reading.inDoubt == s.reading.inDoubt
  {
    if Placing !in s.desk.busy && s.outbox.queue != [] {
      var q := s.outbox.queue[0];
      TameSend(s.(outbox := s.outbox.(queue := s.outbox.queue[1..])), q.order, q.proof, OfPlan(q.plan, q.place), env.now);
    }
  }

  lemma TamePlaceBatch(s: State, orders: seq<NewOrder>, probe: NewOrder, env: Env)
    requires Books(s.desk)
    ensures Tame(s, PlaceBatch(s, orders, probe, env))
    ensures PlaceBatch(s, orders, probe, env).reading.inDoubt == s.reading.inDoubt
  {
    if |orders| == 1 {
      TamePlaceWith(s, orders[0], env);
    } else if orders != [] && !RefusesBatch(s, orders, probe, env) {
      TameSendNext(Queueing(s, orders, env), env);
      TameChain(s, Queueing(s, orders, env), PlaceBatch(s, orders, probe, env));
    }
  }

  lemma FewerClosed(m: Tracked, id: int)
    ensures Fewer(m, Closed(m, id).0)
  {
  }

  lemma {:induction false} FewerCloseAll(m: Tracked, listing: seq<int>)
    ensures Fewer(m, CloseAll(m, listing).0)
  {
    if listing != [] {
      FewerCloseAll(m, listing[..|listing| - 1]);
      FewerClosed(CloseAll(m, listing[..|listing| - 1]).0, listing[|listing| - 1]);
    }
  }

  lemma {:induction false} NotNamedKeeps(doubts: seq<InDoubt>, id: ClientId)
    ensures forall d :: d in NotNamed(doubts, id) <==> d in doubts && d.clientId != id
  {
    if doubts != [] {
      NotNamedKeeps(doubts[..|doubts| - 1], id);
      assert doubts == doubts[..|doubts| - 1] + [doubts[|doubts| - 1]];
    }
  }

  lemma TameHeard(s: State, e: Execution)
    ensures Tame(s, Heard(s, e)) && Heard(s, e).desk == s.desk
  {
    if e.order.Some? && e.order.value.clientId.Some? {
      NotNamedKeeps(s.reading.inDoubt, e.order.value.clientId.value);
    }
  }

  lemma TameOnExecution(s: State, e: Execution, env: Env)
    requires Books(s.desk)
    ensures Tame(s, OnExecution(s, e, env)) && Books(OnExecution(s, e, env).desk)
    ensures OnExecution(s, e, env).reading.inDoubt == Doubting(s.reading, e).inDoubt
  {
    var heard := Heard(s, e);
    TameHeard(s, e);
    TameMoves(heard, env.moves);
    var managed := if e.kind == Some(Filled) then Moves(heard, env.moves) else heard;
    assert Tame(heard, managed);
    TameChain(s, heard, managed);
    var (left, order) := ClosedBy(managed.reversing.pending, e);
    if e.position.Some? {
      FewerClosed(managed.reversing.pending, e.position.value.id);
    }
    var tracking := Tracking(managed, left);
    assert Tame(managed, tracking);
    TameChain(s, managed, tracking);
    TameMarket(tracking, order, env);
    TameChain(s, tracking, OnExecution(s, e, env));
  }

  // ---- doubts and reads ----

  /** The read of this epoch was asked after every doubt, and while one is held it is to come or failed. */
  ghost predicate Reads(s: State) {
    && AskedAfterDoubts(s.log, s.reading.epoch)
    && (s.reading.uncertain || s.reading.inDoubt != [] ==>
          s.reading.epoch in s.reading.loads || s.reading.status == Failed)
  }

  lemma ReadsTame(s: State, t: State)
    requires Reads(s) && Tame(s, t)
    ensures Reads(t)
  {
    assert t.reading.inDoubt != [] ==> t.reading.inDoubt[0] in s.reading.inDoubt;
    forall i | 0 <= i < |t.log| && t.log[i].Doubted? ensures AskedSince(t.log, i, t.reading.epoch) {
      assert t.log[i] == s.log[i];
      assert AskedSince(s.log, i, s.reading.epoch);
      var k :| 0 <= k < |s.log| && i < k && s.log[k] == ReadAsked(s.reading.epoch);
      assert t.log[k] == s.log[k];
    }
  }

  lemma ReadsAsking(s: State)
    ensures Reads(OnReady(s))
  {
    AskedNow(s.log, s.reading.epoch + 1);
  }

  lemma ReadsNoted(s: State, e: LogEntry)
    requires Reads(s) && !e.Doubted?
    ensures Reads(Note(s, e))
  {
    AskedGrows(s.log, e, s.reading.epoch);
  }

  // ---- reversals ----

  ghost predicate WatchedBy(r: Reversing, id: int, started: int) {
    exists w :: w in r.watches && r.watches[w].id == id && r.watches[w].started == started
  }

  lemma WatchStays(r: Reversing, q: Reversing, id: int, started: int)
    requires WatchedBy(r, id, started)
    requires forall w | w in r.watches && r.watches[w].id == id && r.watches[w].started == started ::
      w in q.watches && q.watches[w].id == id && q.watches[w].started == started
    ensures WatchedBy(q, id, started)
  {
    var w :| w in r.watches && r.watches[w].id == id && r.watches[w].started == started;
    assert q.watches[w].id == id;
  }

  /** Its own close call is still unanswered, or it is acknowledged and watched. */
  ghost predicate Alive(r: Reversing, flights: map<nat, Flight>, id: int)
    requires id in r.pending
  {
    if r.pending[id].acknowledged then WatchedBy(r, id, r.pending[id].started)
    else id in r.closeCalls && r.closeCalls[id] in flights && flights[r.closeCalls[id]].busy == Closing(id)
  }

  /** Every pending reversal is alive; the one of except, whose answer is being taken, is acknowledged. */
  ghost predicate AliveBut(r: Reversing, flights: map<nat, Flight>, except: Option<int>) {
    && (forall w | w in r.watches :: w < r.watchSeq)
    && (forall id | id in r.pending ::
          if except == Some(id) then r.pending[id].acknowledged else Alive(r, flights, id))
  }

  ghost predicate AllAlive(s: State) { AliveBut(s.reversing, s.desk.flights, None) }

  lemma AliveTame(s: State, t: State, except: Option<int>)
    requires AliveBut(s.reversing, s.desk.flights, except) && Tame(s, t)
    ensures AliveBut(t.reversing, t.desk.flights, except)
  {
    forall id | id in t.reversing.pending && except != Some(id) ensures Alive(t.reversing, t.desk.flights, id) {
      assert Alive(s.reversing, s.desk.flights, id);
      if s.reversing.pending[id].acknowledged {
        WatchStays(s.reversing, t.reversing, id, s.reversing.pending[id].started);
      }
    }
  }

  /** A call that comes back, Ok: its reversal is acknowledged or gone, the others are untouched. */
  lemma AliveAcked(s: State, call: nat, busy: Busy, e: Execution)
    requires AllAlive(s) && call in s.desk.flights && s.desk.flights[call].busy == busy
    ensures var (left, order) := AckedBy(s.reversing.pending, busy, e);
      AliveBut(s.reversing.(pending := left), Arrived(s.desk, call, busy).flights,
               if busy.Closing? then Some(busy.id) else None)
  {
    var (left, order) := AckedBy(s.reversing.pending, busy, e);
    var r := s.reversing.(pending := left);
    var except := if busy.Closing? then Some(busy.id) else None;
    forall id | id in left && except != Some(id) ensures Alive(r, Arrived(s.desk, call, busy).flights, id) {
      assert left[id] == s.reversing.pending[id];
      assert Alive(s.reversing, s.desk.flights, id);
      if left[id].acknowledged {
        WatchStays(s.reversing, r, id, left[id].started);
      }
    }
  }

  lemma AliveWatched(r: Reversing, flights: map<nat, Flight>, id: int)
    requires AliveBut(r, flights, Some(id))
    ensures AliveBut(Watched(r, id), flights, None)
  {
    var t := Watched(r, id);
    forall other | other in t.pending ensures Alive(t, flights, other) {
      if other == id {
        assert t.watches[r.watchSeq] == Watch(id, t.pending[id].started, false);
      } else {
        assert Alive(r, flights, other);
        if r.pending[other].acknowledged {
          WatchStays(r, t, other, r.pending[other].started);
        }
      }
    }
  }

  /** A call that comes back, failed: its reversal is gone. */
  lemma AliveLost(s: State, call: nat, busy: Busy, unknown: bool)
    requires AllAlive(s) && call in s.desk.flights && s.desk.flights[call].busy == busy
    ensures AllAlive(Lost(s, call, busy, unknown))
  {
    var t := Lost(s, call, busy, unknown);
    forall id | id in t.reversing.pending ensures Alive(t.reversing, t.desk.flights, id) {
      assert Alive(s.reversing, s.desk.flights, id);
      if s.reversing.pending[id].acknowledged {
        WatchStays(s.reversing, t.reversing, id, s.reversing.pending[id].started);
      }
    }
  }

  lemma AliveBegun(s: State, id: int, stamp: int, env: Env)
    requires AllAlive(s) && Books(s.desk)
    ensures AllAlive(ReversePosition(s, id, stamp, env))
  {
    var t := ReversePosition(s, id, stamp, env);
    if t != s {
      forall other | other in t.reversing.pending ensures Alive(t.reversing, t.desk.flights, other) {
        if other != id {
          assert Alive(s.reversing, s.desk.flights, other);
          if s.reversing.pending[other].acknowledged {
            WatchStays(s.reversing, t.reversing, other, s.reversing.pending[other].started);
          }
        }
      }
    }
  }

  lemma AliveRechecked(s: State, w: nat)
    requires AllAlive(s) && w in s.reversing.watches
    ensures AllAlive(Rechecked(s, w))
  {
    var t := Rechecked(s, w);
    forall id | id in t.reversing.pending ensures Alive(t.reversing, t.desk.flights, id) {
      assert Alive(s.reversing, s.desk.flights, id);
      if s.reversing.pending[id].acknowledged {
        WatchStays(s.reversing, t.reversing, id, s.reversing.pending[id].started);
      }
    }
  }

  lemma AliveWatchOver(s: State, w: nat)
    requires AllAlive(s) && w in s.reversing.watches
    ensures AllAlive(WatchOver(s, w))
  {
    var t := WatchOver(s, w);
    forall id | id in t.reversing.pending ensures Alive(t.reversing, t.desk.flights, id) {
      assert Alive(s.reversing, s.desk.flights, id);
      if s.reversing.pending[id].acknowledged {
        WatchStays(s.reversing, t.reversing, id, s.reversing.pending[id].started);
      }
    }
  }
}
