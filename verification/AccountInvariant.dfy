/**
 What every step of the account keeps: the bookkeeping of the calls, and the link between the
 fields and the log that makes the next order to go always one the log allows.
 */
module AccountInvariant {
  import opened Wrappers
  import opened AccountState
  import opened AccountLaws

  /** What is busy is what has a current call, and each current call has its answer and timer to come. */
  ghost predicate Books(d: Desk) {
    && d.busy == d.calls.Keys
    && (forall b | b in d.calls ::
          && d.calls[b] <= d.callSeq
          && d.calls[b] in d.flights && d.flights[d.calls[b]].busy == b
          && d.calls[b] in d.timers && d.timers[d.calls[b]] == b)
    && (forall c | c in d.flights :: c <= d.callSeq && (d.flights[c].busy.Placing? <==> d.flights[c].out.Some?))
    && (forall c | c in d.timers :: c <= d.callSeq)
  }

  lemma BooksOpened(d: Desk, busy: Busy, out: Option<Outgoing>)
    requires Books(d) && busy !in d.busy && (busy.Placing? <==> out.Some?)
    ensures Books(Opened(d, busy, out))
  {
  }

  lemma BooksArrived(d: Desk, call: nat, busy: Busy)
    requires Books(d) && call in d.flights && d.flights[call].busy == busy
    ensures Books(Arrived(d, call, busy))
  {
  }

  lemma BooksGivenUp(d: Desk, call: nat, busy: Busy)
    requires Books(d) && call in d.timers && d.timers[call] == busy
    ensures Books(Released(d.(timers := d.timers - {call}), call, busy))
  {
  }

  // ---- what the log has to do with the fields ----

  function Placed(d: Desk): Option<nat> {
    if Placing in d.calls then Some(d.calls[Placing]) else None
  }

  /** The part of the state the laws of the log depend on; current is the call of the order in flight. */
  datatype Talk = Talk(log: Log, queue: seq<Queued>, ordersSent: nat, current: Option<nat>,
                       callSeq: nat, replay: bool, epoch: nat)

  function TalkOf(s: State): Talk {
    Talk(s.log, s.outbox.queue, s.outbox.ordersSent, Placed(s.desk), s.desk.callSeq, s.replay, s.reading.epoch)
  }

  predicate IdUnder(order: NewOrder, count: nat) {
    order.clientId.Some? && (order.clientId.value.Ours? ==> order.clientId.value.count <= count)
  }

  /** The ids of the orders sent are under the count, and the calls that sent them under the last one. */
  ghost predicate Numbers(log: Log, ordersSent: nat, callSeq: nat) {
    forall i | 0 <= i < |log| && log[i].Sent? :: log[i].call <= callSeq && IdUnder(log[i].order, ordersSent)
  }

  /** The ids of the orders sent and of those waiting are all different, when they are our own. */
  ghost predicate Ids(log: Log, queue: seq<Queued>, ordersSent: nat) {
    && (forall q | 0 <= q < |queue| ::
          IdUnder(queue[q].order, ordersSent) && queue[q].proof == Cleared(queue[q].order.Imprint()))
    && (forall i, q | 0 <= i < |log| && log[i].Sent? && 0 <= q < |queue| ::
          !SameOwnId(log[i].order, queue[q].order))
    && (forall p, q | 0 <= p < q < |queue| :: !SameOwnId(queue[p].order, queue[q].order))
  }

  /** Every order sent was answered or given up, except the one of the current call. */
  ghost predicate OneOut(log: Log, current: Option<nat>) {
    forall i | 0 <= i < |log| && log[i].Sent? ::
      SettledSince(log, i, log[i].call) || current == Some(log[i].call)
  }

  ghost predicate SentAndCurrent(log: Log, current: Option<nat>, plan: nat, place: nat) {
    exists i :: 0 <= i < |log| && SentAs(log[i], plan, place) && current == Some(log[i].call)
  }

  ghost predicate PlansPast(log: Log) {
    forall i | 0 <= i < |log| && log[i].Sent? && log[i].from.OfPlan? :: log[i].from.plan < |log|
  }

  /** The queue is the rest of one plan, none of it sent. */
  ghost predicate Rest(log: Log, queue: seq<Queued>)
    requires queue != []
  {
    var p, h := queue[0].plan, queue[0].place;
    && p < |log| && log[p].Planned? && h + |queue| == |log[p].orders|
    && (forall i | 0 <= i < |queue| ::
          queue[i].plan == p && queue[i].place == h + i && queue[i].order == log[p].orders[h + i])
    && (forall m | h <= m :: !PlaceSent(log, p, m))
  }

  /** The order before the head of the queue is in flight or was answered Ok. */
  ghost predicate PlanLink(log: Log, queue: seq<Queued>, current: Option<nat>) {
    queue != [] ==>
      && Rest(log, queue)
      && (queue[0].place > 0 ==>
            PlaceDone(log, queue[0].plan, queue[0].place - 1)
            || SentAndCurrent(log, current, queue[0].plan, queue[0].place - 1))
  }

  ghost predicate ReplayLink(k: Talk) {
    ReplayOn(k.log) == k.replay && (k.replay ==> k.queue == [] && k.current.None?)
  }

  ghost predicate Sound(k: Talk) {
    && Numbers(k.log, k.ordersSent, k.callSeq) && Ids(k.log, k.queue, k.ordersSent)
    && OneOut(k.log, k.current) && PlansPast(k.log) && PlanLink(k.log, k.queue, k.current)
    && ReplayLink(k) && AskedUnder(k.log, k.epoch + 1) && Lawful(k.log)
  }

  /** Between the parts of a step a waiting queue is past its first order. */
  ghost predicate Begun(queue: seq<Queued>) { queue != [] ==> queue[0].place > 0 }

  /** Holds between the parts of a step as well as between steps. */
  ghost predicate Steady(s: State) {
    Books(s.desk) && Sound(TalkOf(s)) && Begun(s.outbox.queue)
  }

  // ---- one more entry that sends nothing ----

  predicate Quiet(e: LogEntry) { !e.Sent? && !e.Replay? && !e.ReadAsked? }

  function Noted(k: Talk, e: LogEntry): Talk { k.(log := k.log + [e]) }

  lemma OneOutNoted(log: Log, current: Option<nat>, e: LogEntry)
    requires OneOut(log, current) && !e.Sent?
    ensures OneOut(log + [e], current)
    ensures (e.Answered? || e.GaveUp?) && current == Some(e.call) ==> OneOut(log + [e], None)
  {
    var now := log + [e];
    forall i | 0 <= i < |now| && now[i].Sent?
      ensures SettledSince(now, i, now[i].call) || current == Some(now[i].call)
      ensures (e.Answered? || e.GaveUp?) && current == Some(e.call) ==> SettledSince(now, i, now[i].call)
    {
      SettledGrows(log, e, i, now[i].call);
    }
  }

  lemma RestNoted(log: Log, queue: seq<Queued>, e: LogEntry)
    requires queue != [] && Rest(log, queue)
    requires e.Sent? && e.from.OfPlan? ==> e.from.plan != queue[0].plan || e.from.place < queue[0].place
    ensures Rest(log + [e], queue)
  {
    var p, h := queue[0].plan, queue[0].place;
    forall m | h <= m ensures !PlaceSent(log + [e], p, m) {
      PlaceSentGrows(log, e, p, m);
    }
  }

  lemma PlanLinkNoted(log: Log, queue: seq<Queued>, current: Option<nat>, e: LogEntry)
    requires PlanLink(log, queue, current) && !e.Sent?
    ensures PlanLink(log + [e], queue, current)
  {
    if queue != [] {
      RestNoted(log, queue, e);
      if queue[0].place > 0 {
        var p, h := queue[0].plan, queue[0].place - 1;
        if PlaceDone(log, p, h) {
          PlaceDoneGrows(log, e, p, h);
        } else {
          var i :| 0 <= i < |log| && SentAs(log[i], p, h) && current == Some(log[i].call);
          assert (log + [e])[i] == log[i];
        }
      }
    }
  }

  lemma SoundNoted(k: Talk, e: LogEntry)
    requires Sound(k) && Quiet(e) && Allowed(k.log, e)
    ensures Sound(Noted(k, e))
  {
    SoundNotedAt(k, e, k.epoch);
  }

  /** The epoch may rise with the entry, as long as it is over all that were asked. */
  lemma SoundNotedAt(k: Talk, e: LogEntry, epoch: nat)
    requires Sound(k) && !e.Sent? && !e.Replay? && Allowed(k.log, e) && AskedUnder(k.log + [e], epoch + 1)
    ensures Sound(Noted(k, e).(epoch := epoch))
  {
    LawfulGrows(k.log, e);
    OneOutNoted(k.log, k.current, e);
    PlanLinkNoted(k.log, k.queue, k.current, e);
    assert (k.log + [e])[..|k.log|] == k.log;
  }

  /** A read of the next epoch may be asked. */
  lemma AskingIsAllowed(log: Log, epoch: nat)
    requires AskedUnder(log, epoch)
    ensures Allowed(log, ReadAsked(epoch)) && AskedUnder(log + [ReadAsked(epoch)], epoch + 1)
  {
  }

  lemma SoundDropped(k: Talk)
    requires Sound(k)
    ensures Sound(k.(queue := []))
  {
  }

  lemma SoundLaterCall(k: Talk, callSeq: nat)
    requires Sound(k) && k.callSeq <= callSeq
    ensures Sound(k.(callSeq := callSeq))
  {
  }

  /** The call of the order in flight ends: answered Ok, or settled any other way with the queue gone. */
  lemma SoundEnded(k: Talk, e: LogEntry, call: nat)
    requires Sound(k) && k.current == Some(call)
    requires e == Answered(call, Placing, true) || (k.queue == [] && Settles(e, call))
    ensures Sound(Noted(k, e).(current := None))
  {
    SoundNoted(k, e);
    OneOutNoted(k.log, k.current, e);
    EndedLink(k.log, k.queue, call, e);
  }

  lemma EndedLink(log: Log, queue: seq<Queued>, call: nat, e: LogEntry)
    requires PlanLink(log, queue, Some(call)) && !e.Sent?
    requires queue == [] || e == Answered(call, Placing, true)
    ensures PlanLink(log + [e], queue, None)
  {
    var now := log + [e];
    if queue != [] {
      RestNoted(log, queue, e);
      if queue[0].place > 0 {
        var p, h := queue[0].plan, queue[0].place - 1;
        if PlaceDone(log, p, h) {
          PlaceDoneGrows(log, e, p, h);
        } else {
          var i :| 0 <= i < |log| && SentAs(log[i], p, h) && call == log[i].call;
          assert now[i] == log[i] && now[|log|] == Answered(now[i].call, Placing, true);
          assert PlaceDone(now, p, h);
        }
      }
    }
  }

  // ---- a new order goes out ----

  /** The order may go now: its id is new, its proof is its own and, in a plan, it is its turn. */
  ghost predicate MayGo(k: Talk, order: NewOrder, proof: Cleared, from: Origin) {
    && k.current.None? && !k.replay
    && IdUnder(order, k.ordersSent) && proof == Cleared(order.Imprint())
    && (forall i | 0 <= i < |k.log| && k.log[i].Sent? :: !SameOwnId(k.log[i].order, order))
    && (forall q | 0 <= q < |k.queue| :: !SameOwnId(order, k.queue[q].order))
    && match from
       case OfPlan(p, h) => Turn(k.log, order, p, h) && (k.queue != [] ==> k.queue[0].plan == p && k.queue[0].place == h + 1)
       case Single => Begun(k.queue) && (k.queue != [] ==> PlaceDone(k.log, k.queue[0].plan, k.queue[0].place - 1))
  }

  /** What an order needs of the rest of the account to go lawfully. */
  ghost predicate Clear(k: Talk) {
    && Numbers(k.log, k.ordersSent, k.callSeq) && Ids(k.log, k.queue, k.ordersSent) && OneOut(k.log, k.current)
    && PlansPast(k.log) && (k.queue != [] ==> Rest(k.log, k.queue)) && ReplayLink(k)
    && AskedUnder(k.log, k.epoch + 1) && Lawful(k.log)
  }

  function Gone(k: Talk, order: NewOrder, proof: Cleared, from: Origin): Talk {
    Noted(k, Sent(k.callSeq + 1, order, proof, from)).(callSeq := k.callSeq + 1, current := Some(k.callSeq + 1))
  }

  lemma GoesLawfully(k: Talk, order: NewOrder, proof: Cleared, from: Origin)
    requires Clear(k) && MayGo(k, order, proof, from)
    ensures Lawful(Gone(k, order, proof, from).log)
  {
    var e := Sent(k.callSeq + 1, order, proof, from);
    assert MaySend(k.log, e);
    LawfulGrows(k.log, e);
  }

  lemma OneOutGone(log: Log, e: LogEntry)
    requires OneOut(log, None) && e.Sent?
    ensures OneOut(log + [e], Some(e.call))
  {
    var now := log + [e];
    forall i | 0 <= i < |now| && now[i].Sent?
      ensures SettledSince(now, i, now[i].call) || Some(e.call) == Some(now[i].call)
    {
      if i < |log| {
        assert now[i] == log[i];
        SettledGrows(log, e, i, log[i].call);
      }
    }
  }

  lemma PlanLinkGone(k: Talk, order: NewOrder, proof: Cleared, from: Origin)
    requires k.queue != [] ==> Rest(k.log, k.queue)
    requires MayGo(k, order, proof, from)
    ensures var t := Gone(k, order, proof, from); PlanLink(t.log, t.queue, t.current) && Begun(t.queue)
  {
    var t := Gone(k, order, proof, from);
    var e := Sent(k.callSeq + 1, order, proof, from);
    if k.queue != [] {
      var p, h := k.queue[0].plan, k.queue[0].place - 1;
      RestNoted(k.log, k.queue, e);
      if from.OfPlan? {
        assert t.log[|k.log|] == e && SentAs(e, p, h);
        assert SentAndCurrent(t.log, t.current, p, h);
      } else {
        PlaceDoneGrows(k.log, e, p, h);
      }
    }
  }

  lemma SoundGone(k: Talk, order: NewOrder, proof: Cleared, from: Origin)
    requires Clear(k) && MayGo(k, order, proof, from)
    ensures Sound(Gone(k, order, proof, from)) && Begun(Gone(k, order, proof, from).queue)
  {
    GoesLawfully(k, order, proof, from);
    OneOutGone(k.log, Sent(k.callSeq + 1, order, proof, from));
    PlanLinkGone(k, order, proof, from);
    assert Gone(k, order, proof, from).log[..|k.log|] == k.log;
  }

  lemma HeadIdIsNew(log: Log, queue: seq<Queued>, ordersSent: nat)
    requires Ids(log, queue, ordersSent) && queue != []
    ensures Ids(log, queue[1..], ordersSent)
    ensures forall q | 0 <= q < |queue| - 1 :: !SameOwnId(queue[0].order, queue[1..][q].order)
  {
  }

  lemma TailRests(log: Log, queue: seq<Queued>)
    requires |queue| > 1 && Rest(log, queue)
    ensures Rest(log, queue[1..])
  {
  }

  lemma HeadTurn(log: Log, queue: seq<Queued>)
    requires queue != [] && PlanLink(log, queue, None)
    ensures Turn(log, queue[0].order, queue[0].plan, queue[0].place)
  {
    assert !PlaceSent(log, queue[0].plan, queue[0].place);
    if queue[0].place > 0 {
      assert !SentAndCurrent(log, None, queue[0].plan, queue[0].place - 1);
    }
  }

  /** The head of the queue may go when no order is in flight. */
  lemma SoundHeadGone(k: Talk)
    requires Sound(k) && k.current.None? && k.queue != [] && !k.replay
    ensures var q := k.queue[0];
      var t := Gone(k.(queue := k.queue[1..]), q.order, q.proof, OfPlan(q.plan, q.place));
      Sound(t) && Begun(t.queue)
  {
    var q, rest := k.queue[0], k.(queue := k.queue[1..]);
    HeadTurn(k.log, k.queue);
    HeadIdIsNew(k.log, k.queue, k.ordersSent);
    if rest.queue != [] {
      TailRests(k.log, k.queue);
      assert rest.queue[0] == k.queue[1];
    }
    SoundGone(rest, q.order, q.proof, OfPlan(q.plan, q.place));
  }

  /** A new order of its own may go when no order is in flight and no replay is on. */
  lemma SoundSingleGone(k: Talk, order: NewOrder, now: int)
    requires Sound(k) && Begun(k.queue) && k.current.None? && !k.replay && Foreign(order)
    ensures var (named, count) := Identified(order, now, k.ordersSent);
      var t := Gone(k.(ordersSent := count), named, Cleared(order.Imprint()), Single);
      Sound(t) && Begun(t.queue)
  {
    var (named, count) := Identified(order, now, k.ordersSent);
    var t := k.(ordersSent := count);
    if k.queue != [] {
      assert !SentAndCurrent(k.log, None, k.queue[0].plan, k.queue[0].place - 1);
    }
    SoundGone(t, named, Cleared(order.Imprint()), Single);
  }
}
