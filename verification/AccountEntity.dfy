/**
 The account entity as the object it is: its fields updated in place, one method per method or
 closure of the source, each tied to the step it takes on the value the fields stand for. The
 fields are held in the records of AccountState: the calls, the new orders, and what is known.
 */
module AccountEntity {
  import opened Wrappers
  import opened Reversals
  import opened AccountState
  import opened AccountLaws
  import AccountRuns
  import AccountTheorems

  // ---- one order that stands for a whole plan ----

  datatype Total = Total(side: int, volume: int, first: NewOrder)

  ghost predicate IsTotal(t: Total, orders: seq<NewOrder>) {
    t.volume == SideVolume(orders, t.side) && IsFirst(orders, t.side, t.first)
  }

  ghost predicate HasSide(totals: seq<Total>, side: int) {
    exists k :: 0 <= k < |totals| && totals[k].side == side
  }

  /** One entry for each side of the orders: the side, its volume and its first order. */
  ghost predicate IsTotals(totals: seq<Total>, orders: seq<NewOrder>) {
    && (forall k | 0 <= k < |totals| :: IsTotal(totals[k], orders))
    && (forall i | 0 <= i < |orders| :: HasSide(totals, orders[i].side))
    && (forall j, k | 0 <= j < k < |totals| :: totals[j].side != totals[k].side)
    && (forall j, k | 0 <= j < k < |totals| :: ComesFirst(orders, totals[j].side, totals[k].side))
  }

  /** One side is met before the other, if the other is met at all. */
  ghost predicate ComesFirst(orders: seq<NewOrder>, a: int, b: int) {
    exists i :: 0 <= i < |orders| && orders[i].side == a && forall h | 0 <= h <= i :: orders[h].side != b
  }

  lemma ComesFirstStays(orders: seq<NewOrder>, order: NewOrder, a: int, b: int)
    requires ComesFirst(orders, a, b)
    ensures ComesFirst(orders + [order], a, b)
  {
    var i :| 0 <= i < |orders| && orders[i].side == a && forall h | 0 <= h <= i :: orders[h].side != b;
    assert (orders + [order])[i].side == a;
  }

  ghost predicate IsFirst(orders: seq<NewOrder>, side: int, first: NewOrder) {
    exists i :: 0 <= i < |orders| && orders[i] == first && first.side == side
      && (forall j :: 0 <= j < i ==> orders[j].side != side)
  }

  lemma TotalStays(t: Total, orders: seq<NewOrder>, order: NewOrder)
    requires IsTotal(t, orders)
    ensures IsTotal(t.(volume := t.volume + (if order.side == t.side then order.volume else 0)), orders + [order])
  {
    assert (orders + [order])[..|orders|] == orders;
    var i :| 0 <= i < |orders| && orders[i] == t.first && t.first.side == t.side
      && (forall j :: 0 <= j < i ==> orders[j].side != t.side);
    assert (orders + [order])[i] == t.first;
  }

  lemma {:induction false} NoVolume(orders: seq<NewOrder>, side: int)
    requires forall i | 0 <= i < |orders| :: orders[i].side != side
    ensures SideVolume(orders, side) == 0
  {
    if orders != [] {
      NoVolume(orders[..|orders| - 1], side);
    }
  }

  lemma TotalStarts(totals: seq<Total>, orders: seq<NewOrder>, order: NewOrder)
    requires IsTotals(totals, orders) && !HasSide(totals, order.side)
    ensures IsTotal(Total(order.side, order.volume, order), orders + [order])
  {
    assert (orders + [order])[..|orders|] == orders;
    forall i | 0 <= i < |orders| ensures orders[i].side != order.side {
      assert HasSide(totals, orders[i].side);
    }
    NoVolume(orders, order.side);
    assert (orders + [order])[|orders|] == order;
  }

  lemma SidesStay(totals: seq<Total>, now: seq<Total>, orders: seq<NewOrder>, order: NewOrder)
    requires forall i | 0 <= i < |orders| :: HasSide(totals, orders[i].side)
    requires |totals| <= |now| && (forall k | 0 <= k < |totals| :: now[k].side == totals[k].side)
    requires HasSide(now, order.side)
    ensures forall i | 0 <= i < |orders| + 1 :: HasSide(now, (orders + [order])[i].side)
  {
    forall i | 0 <= i < |orders| ensures HasSide(now, orders[i].side) {
      var k :| 0 <= k < |totals| && totals[k].side == orders[i].side;
      assert now[k].side == orders[i].side;
    }
  }

  lemma TotalsBump(totals: seq<Total>, orders: seq<NewOrder>, order: NewOrder, k: nat)
    requires IsTotals(totals, orders) && k < |totals| && totals[k].side == order.side
    ensures IsTotals(totals[k := totals[k].(volume := totals[k].volume + order.volume)], orders + [order])
  {
    var now := totals[k := totals[k].(volume := totals[k].volume + order.volume)];
    forall h | 0 <= h < |now| ensures IsTotal(now[h], orders + [order]) {
      TotalStays(totals[h], orders, order);
    }
    assert now[k].side == order.side;
    SidesStay(totals, now, orders, order);
    forall i, j | 0 <= i < j < |now| ensures ComesFirst(orders + [order], now[i].side, now[j].side) {
      ComesFirstStays(orders, order, totals[i].side, totals[j].side);
    }
  }

  lemma TotalsAdd(totals: seq<Total>, orders: seq<NewOrder>, order: NewOrder)
    requires IsTotals(totals, orders) && (forall j | 0 <= j < |totals| :: totals[j].side != order.side)
    ensures IsTotals(totals + [Total(order.side, order.volume, order)], orders + [order])
  {
    var now := totals + [Total(order.side, order.volume, order)];
    forall h | 0 <= h < |now| ensures IsTotal(now[h], orders + [order]) {
      if h < |totals| {
        TotalStays(totals[h], orders, order);
      } else {
        TotalStarts(totals, orders, order);
      }
    }
    assert now[|totals|].side == order.side;
    SidesStay(totals, now, orders, order);
    forall i, j | 0 <= i < j < |now| ensures ComesFirst(orders + [order], now[i].side, now[j].side) {
      if j < |totals| {
        ComesFirstStays(orders, order, totals[i].side, totals[j].side);
      } else {
        NewComesLast(totals, orders, order, i);
      }
    }
  }

  lemma NewComesLast(totals: seq<Total>, orders: seq<NewOrder>, order: NewOrder, i: nat)
    requires IsTotals(totals, orders) && (forall j | 0 <= j < |totals| :: totals[j].side != order.side) && i < |totals|
    ensures ComesFirst(orders + [order], totals[i].side, order.side)
  {
    assert IsTotal(totals[i], orders);
    var h :| 0 <= h < |orders| && orders[h] == totals[i].first && totals[i].first.side == totals[i].side
      && (forall j :: 0 <= j < h ==> orders[j].side != totals[i].side);
    forall k | 0 <= k <= h ensures (orders + [order])[k].side != order.side {
      assert HasSide(totals, orders[k].side);
    }
    assert (orders + [order])[h].side == totals[i].side;
  }

  /** A side that comes before another is met before the orders of the other. */
  lemma NotMetLater(orders: seq<NewOrder>, side: int, other: int, i: nat, j: nat)
    requires i < j < |orders|
    ensures ComesFirst(orders, side, other) && orders[i].side == other && orders[j].side == side ==> !NewSide(orders, j)
  {
  }

  /** A side first met after an order of the one at most stands after it among the totals. */
  lemma StandsAfter(totals: seq<Total>, orders: seq<NewOrder>, most: nat, i: nat, j: nat, k: nat)
    requires most < |totals| && k < |totals| && i < j < |orders|
    requires forall h | 0 <= h < most :: ComesFirst(orders, totals[h].side, totals[most].side)
    requires orders[i].side == totals[most].side && NewSide(orders, j) && totals[k].side == orders[j].side
    ensures most < k
  {
    NotMetLater(orders, totals[k].side, totals[most].side, i, j);
  }

  /** A side met after the one at most has less volume than it. */
  lemma LaterIsLess(totals: seq<Total>, orders: seq<NewOrder>, most: nat, i: nat, j: nat)
    requires IsTotals(totals, orders) && most < |totals| && i < j < |orders|
    requires forall k | most < k < |totals| :: totals[k].volume < totals[most].volume
    requires orders[i].side == totals[most].side && NewSide(orders, j)
    ensures SideVolume(orders, orders[j].side) < totals[most].volume
  {
    assert HasSide(totals, orders[j].side);
    var k :| 0 <= k < |totals| && totals[k].side == orders[j].side;
    StandsAfter(totals, orders, most, i, j, k);
    assert IsTotal(totals[k], orders);
  }

  lemma MostProbes(totals: seq<Total>, orders: seq<NewOrder>, most: nat)
    requires IsTotals(totals, orders) && most < |totals|
    requires forall k | 0 <= k < |totals| :: totals[k].volume <= totals[most].volume
    requires forall k | most < k < |totals| :: totals[k].volume < totals[most].volume
    ensures Probes(orders, totals[most].first.(volume := totals[most].volume))
  {
    var t := totals[most];
    assert IsTotal(t, orders);
    var i :| 0 <= i < |orders| && orders[i] == t.first && t.first.side == t.side
      && (forall j :: 0 <= j < i ==> orders[j].side != t.side);
    forall j | 0 <= j < |orders| ensures SideVolume(orders, orders[j].side) <= t.volume {
      assert HasSide(totals, orders[j].side);
      var k :| 0 <= k < |totals| && totals[k].side == orders[j].side;
      assert IsTotal(totals[k], orders);
    }
    forall j | i < j < |orders| && NewSide(orders, j) ensures SideVolume(orders, orders[j].side) < t.volume {
      LaterIsLess(totals, orders, most, i, j);
    }
    assert t.first.(volume := t.volume) == orders[i].(volume := SideVolume(orders, orders[i].side));
  }

  /** The same step, but for the order that stood for a plan when it was checked. */
  ghost predicate SameButProbe(taken: Step, step: Step) {
    taken == step || (taken.DoBatch? && step.DoBatch? && taken == step.(probe := taken.probe))
  }

  class Account {
    var desk: Desk
    var outbox: Outbox
    var reading: Reading
    const reversals: ReverseTracker
    var watches: map<nat, AccountState.Watch>
    var watchSeq: nat
    var positions: map<int, Position>
    var replay: bool
    /** What happened, for the properties: no branch reads these. */
    ghost var closeCalls: map<int, nat>
    var log: seq<LogEntry>
    /** The steps taken so far. */
    ghost var past: seq<Step>

    ghost function Model(): State
      reads this, reversals
    {
      State(desk, outbox, reading, Reversing(reversals.pending, watches, watchSeq, closeCalls), positions, replay, log)
    }

    /** The object is where the run of its past leads, so what is proved of every run holds of it. */
    ghost predicate Valid()
      reads this, reversals
    {
      CanRun(past) && Model() == Run(past)
    }

    constructor ()
      ensures Model() == INITIAL && past == [] && Valid() && fresh(reversals)
    {
      desk := Desk({}, map[], 0, map[], map[]);
      outbox := Outbox([], 0, (0, 0), None);
      reading := Reading(false, None, [], 0, {}, Loading, false);
      reversals := new ReverseTracker();
      watches, watchSeq, positions, replay := map[], 0, map[], false;
      closeCalls, log, past := map[], [], [];
    }

    /** Between its steps the object keeps every invariant, and its log is lawful. */
    lemma Keeps()
      requires Valid()
      ensures AccountRuns.Kept(Model()) && Lawful(log)
    {
      AccountTheorems.EveryRunKeeps(past);
    }

    /**
     One call of the user or one closure of the executor. The step it comes to is the one given, with
     the probe that the object itself makes for a plan.
     */
    method Take(step: Step)
      requires Valid() && Enabled(Model(), step)
      modifies this, reversals
      ensures Valid() && |past| == |old(past)| + 1 && past[..|old(past)|] == old(past)
      ensures SameButProbe(past[|old(past)|], step) && Model() == Next(old(Model()), past[|old(past)|])
    {
      ghost var taken := step;
      match step {
        case DoPlace(order, env) => Place(order, env);
        case DoBatch(orders, _, env) =>
          ghost var probe := PlaceMany(orders, env);
          taken := DoBatch(orders, probe, env);
        case NewsComes(news, env) => Hear(news, env);
        case TimerFires(call) => GiveUp(call);
        case CallAnswers(call, answer, env) => Answer(call, answer, env);
        case ReadAnswers(epoch, found, env) => ReadCame(epoch, found, env);
        case _ => TakeSmall(step);
      }
      past := past + [taken];
      RunOne(old(past), taken);
    }

    method TakeSmall(step: Step)
      requires Enabled(Model(), step)
      requires step.DoClose? || step.DoCancel? || step.DoAmend? || step.DoReverse? || step.DoReplay? || step.Refresh?
            || step.WatchRechecks? || step.WatchEnds?
      modifies this`desk, this`log, this`reading, this`closeCalls, this`watches, this`replay, reversals
      ensures Model() == Next(old(Model()), step)
    {
      match step {
        case DoClose(id) => Close(id);
        case DoCancel(id) => Trade(Cancelling(id), None);
        case DoAmend(id, byUser) => AmendOrder(id, byUser);
        case DoReverse(id, stamp, env) => Reverse(id, stamp, env);
        case DoReplay(on) => var done := LockForReplay(on);
        case Refresh => Ready();
        case WatchRechecks(w) => Recheck(w);
        case WatchEnds(w) => EndWatch(w);
      }
    }

    // ---- calls ----

    method Trade(what: Busy, out: Option<Outgoing>)
      modifies this`desk, this`log
      ensures Model() == AccountState.Trade(old(Model()), what, out)
    {
      if what in desk.busy {
        return;
      }
      var call := desk.callSeq + 1;
      desk := Desk(desk.busy + {what}, desk.calls[what := call], call,
                   desk.flights[call := Flight(what, out)], desk.timers[call := what]);
      if out.Some? {
        log := log + [Sent(call, out.value.order, out.value.proof, out.value.from)];
      }
    }

    method Send(order: NewOrder, proof: Cleared, from: Origin, now: int)
      modifies this`desk, this`log, this`reading
      ensures Model() == AccountState.Send(old(Model()), order, proof, from, now)
    {
      reading := reading.(placing :=
        if order.clientId.None? then None
        else Some(InDoubt(order.clientId.value, order.symbol, order.side == BUY, order.volume, now)));
      Trade(Placing, Some(Outgoing(order, proof, from, now)));
    }

    method SendNext(env: Env)
      modifies this`desk, this`log, this`reading, this`outbox
      ensures Model() == AccountState.SendNext(old(Model()), env)
    {
      if Placing in desk.busy {
        return;
      }
      if outbox.queue != [] {
        var next := outbox.queue[0];
        outbox := outbox.(queue := outbox.queue[1..]);
        Send(next.order, next.proof, OfPlan(next.plan, next.place), env.now);
      }
    }

    /** Answers no at most once for a fingerprint within the window, since the answer no also stores it. */
    method IsRepeat(fp: Fingerprint, now: int) returns (repeated: bool)
      modifies this`outbox
      ensures repeated == Repeats(old(outbox), fp, now)
      ensures outbox == if repeated then old(outbox) else old(outbox).(last := Some((fp, now)))
    {
      if outbox.last.Some? && outbox.last.value.0 == fp && now - outbox.last.value.1 < DUPLICATE_WINDOW {
        return true;
      }
      outbox := outbox.(last := Some((fp, now)));
      return false;
    }

    method CountSent(day: int)
      modifies this`outbox
      ensures outbox == old(outbox).(sentToday :=
        (day, (if old(outbox).sentToday.0 == day then old(outbox).sentToday.1 else 0) + 1))
    {
      if outbox.sentToday.0 != day {
        outbox := outbox.(sentToday := (day, 0));
      }
      outbox := outbox.(sentToday := (day, outbox.sentToday.1 + 1));
    }

    method Identify(order: NewOrder, now: int) returns (named: NewOrder)
      modifies this`outbox
      ensures named == Identified(order, now, old(outbox).ordersSent).0
      ensures outbox == old(outbox).(ordersSent := Identified(order, now, old(outbox).ordersSent).1)
    {
      named := order;
      if order.clientId.None? {
        outbox := outbox.(ordersSent := outbox.ordersSent + 1);
        named := order.(clientId := Some(Ours(now, outbox.ordersSent)));
      }
    }

    method Place(order: NewOrder, env: Env)
      modifies this`desk, this`log, this`reading, this`outbox
      ensures Model() == PlaceWith(old(Model()), order, env)
    {
      if !order.Validates() || replay || !env.allows(desk.callSeq, order) || Placing in desk.busy {
        return;
      }
      var repeated := IsRepeat(order.Imprint(), env.now);
      if repeated {
        return;
      }
      CountSent(env.day);
      var named := Identify(order, env.now);
      assert !Refuses(old(Model()), order, env);
      Send(named, Cleared(order.Imprint()), Single, env.now);
    }

    method PlaceReverse(o: Option<ReverseOrder>, env: Env)
      modifies this`desk, this`log, this`reading, this`outbox
      ensures Model() == Market(old(Model()), o, env)
    {
      if o.Some? {
        Place(MarketOrder(o.value), env);
      }
    }

    // ---- plans ----

    /** One probe is cleared, one order is counted, and the whole plan is queued before its head goes. */
    method PlaceMany(orders: seq<NewOrder>, env: Env) returns (ghost probe: NewOrder)
      modifies this`desk, this`log, this`reading, this`outbox
      ensures |orders| > 1 ==> Probes(orders, probe)
      ensures Model() == PlaceBatch(old(Model()), orders, probe, env)
    {
      probe := NewOrder(0, BUY, MARKET, 0, 0, false, None);
      if |orders| <= 1 {
        if orders != [] {
          Place(orders[0], env);
        }
        return;
      }
      var sound := AllValidate(orders);
      var checked := BatchProbe(orders);
      probe := checked.value;
      if !sound || replay || !env.allows(desk.callSeq, checked.value) {
        return;
      }
      if Placing in desk.busy || outbox.queue != [] {
        return;
      }
      var repeated := IsRepeat(orders[0].Imprint(), env.now);
      if repeated {
        return;
      }
      CountSent(env.day);
      Enqueue(orders, env.now);
      assert Model() == Queueing(old(Model()), orders, env);
      SendNext(env);
    }

    /**
     Ensures Probes: no side sums to more than the probe, which is the earliest order of its side in
     everything but the volume; between equal sums it is of the side met last.
     */
    static method BatchProbe(orders: seq<NewOrder>) returns (probe: Option<NewOrder>)
      ensures probe.None? <==> orders == []
      ensures probe.Some? ==> Probes(orders, probe.value)
    {
      if orders == [] {
        return None;
      }
      var totals: seq<Total> := [];
      for i := 0 to |orders|
        invariant IsTotals(totals, orders[..i])
      {
        assert orders[..i + 1] == orders[..i] + [orders[i]];
        totals := Counted(totals, orders[..i], orders[i]);
      }
      assert orders[..|orders|] == orders;
      assert HasSide(totals, orders[0].side);
      var most := Heaviest(totals);
      MostProbes(totals, orders, most);
      return Some(totals[most].first.(volume := totals[most].volume));
    }

    /** One more order: its volume goes to the entry of its side, which is made when there is none. */
    static method Counted(totals: seq<Total>, ghost before: seq<NewOrder>, order: NewOrder) returns (after: seq<Total>)
      requires IsTotals(totals, before)
      ensures IsTotals(after, before + [order])
    {
      var k := SideAt(totals, order.side);
      if k < |totals| {
        TotalsBump(totals, before, order, k);
        after := totals[k := totals[k].(volume := totals[k].volume + order.volume)];
      } else {
        TotalsAdd(totals, before, order);
        after := totals + [Total(order.side, order.volume, order)];
      }
    }

    static method SideAt(totals: seq<Total>, side: int) returns (k: nat)
      ensures k <= |totals| && (k < |totals| ==> totals[k].side == side)
      ensures forall j :: 0 <= j < k ==> totals[j].side != side
    {
      k := 0;
      while k < |totals| && totals[k].side != side
        invariant k <= |totals|
        invariant forall j :: 0 <= j < k ==> totals[j].side != side
      {
        k := k + 1;
      }
    }

    /** The last of the entries with the most volume. */
    static method Heaviest(totals: seq<Total>) returns (most: nat)
      requires totals != []
      ensures most < |totals|
      ensures forall j :: 0 <= j < |totals| ==>
        totals[j].volume <= totals[most].volume && (j > most ==> totals[j].volume < totals[most].volume)
    {
      most := 0;
      for k := 1 to |totals|
        invariant most < k
        invariant forall j :: 0 <= j < k ==>
          totals[j].volume <= totals[most].volume && (j > most ==> totals[j].volume < totals[most].volume)
      {
        if totals[most].volume <= totals[k].volume {
          most := k;
        }
      }
    }

    method AllValidate(orders: seq<NewOrder>) returns (sound: bool)
      ensures sound <==> forall i :: 0 <= i < |orders| ==> orders[i].Validates()
    {
      for i := 0 to |orders|
        invariant forall j :: 0 <= j < i ==> orders[j].Validates()
      {
        if !orders[i].Validates() {
          return false;
        }
      }
      return true;
    }

    method Enqueue(orders: seq<NewOrder>, now: int)
      requires outbox.queue == []
      modifies this`outbox, this`log
      ensures var (named, count) := IdentifiedAll(orders, now, old(outbox).ordersSent);
        && outbox == old(outbox).(ordersSent := count, queue := QueueOf(named, |old(log)|))
        && log == old(log) + [Planned(named)]
    {
      var named: seq<NewOrder> := [];
      for i := 0 to |orders|
        invariant (named, outbox.ordersSent) == IdentifiedAll(orders[..i], now, old(outbox).ordersSent)
        invariant |named| == i && outbox == old(outbox).(ordersSent := outbox.ordersSent, queue := outbox.queue)
        invariant outbox.queue == QueueOf(named, |log|) && log == old(log)
      {
        var order := Identify(orders[i], now);
        assert orders[..i + 1][..i] == orders[..i];
        outbox := outbox.(queue := outbox.queue + [Queued(order, Cleared(order.Imprint()), |log|, i)]);
        named := named + [order];
      }
      assert orders[..|orders|] == orders;
      log := log + [Planned(named)];
    }

    /** Nothing of the plan is left to go; the order in flight, if any, is not touched. */
    method DropQueue()
      modifies this`outbox
      ensures outbox == old(outbox).(queue := [])
    {
      outbox := outbox.(queue := []);
    }

    // ---- account reads ----

    method Ready()
      modifies this`reading, this`log
      ensures Model() == OnReady(old(Model()))
    {
      reading := reading.(epoch := reading.epoch + 1);
      if !reading.traderKnown {
        reading := reading.(status := Loading);
      }
      reading := reading.(loads := reading.loads + {reading.epoch});
      log := log + [ReadAsked(reading.epoch)];
    }

    method MakeMoves(moves: seq<Busy>)
      modifies this`desk, this`log
      ensures Model() == Moves(old(Model()), moves)
    {
      for i := 0 to |moves|
        invariant Model() == Moves(old(Model()), moves[..i])
      {
        assert moves[..i + 1][..i] == moves[..i];
        if !moves[i].Placing? {
          Trade(moves[i], None);
        }
      }
      assert moves[..|moves|] == moves;
    }

    /** The reversals of the positions that are gone, and the orders that can go now. */
    method CloseMissing(listing: seq<int>) returns (orders: seq<ReverseOrder>)
      modifies reversals
      ensures (reversals.pending, orders) == CloseAll(old(reversals.pending), listing)
    {
      orders := [];
      for i := 0 to |listing|
        invariant (reversals.pending, orders) == CloseAll(old(reversals.pending), listing[..i])
      {
        assert listing[..i + 1][..i] == listing[..i];
        var order := reversals.Close(listing[i]);
        if order.Some? {
          orders := orders + [order.value];
        }
      }
      assert listing[..|listing|] == listing;
    }

    method PlaceReverses(orders: seq<ReverseOrder>, env: Env)
      modifies this`desk, this`log, this`reading, this`outbox
      ensures Model() == MarketAll(old(Model()), orders, env)
    {
      for i := 0 to |orders|
        invariant Model() == MarketAll(old(Model()), orders[..i], env)
      {
        assert orders[..i + 1][..i] == orders[..i];
        PlaceReverse(Some(orders[i]), env);
      }
      assert orders[..|orders|] == orders;
    }

    method ReadCame(e: nat, answer: ReadAnswer, env: Env)
      modifies this`desk, this`log, this`reading, this`outbox, this`positions, reversals
      ensures Model() == ReadDone(old(Model()), e, answer, env)
    {
      reading := reading.(loads := reading.loads - {e});
      if e != reading.epoch {
        return;
      }
      match answer {
        case Unread =>
          reading := reading.(status := Failed);
        case Found(found) =>
          positions := found;
          var orders := CloseMissing(env.listing);
          reading := reading.(traderKnown := true, status := Status.Ready, uncertain := false, inDoubt := []);
          log := log + [ReadApplied(e)];
          assert Model() == ReadApplies(Taken(old(Model()), e), e, found, reversals.pending);
          MakeMoves(env.moves);
          PlaceReverses(orders, env);
      }
    }

    // ---- events ----

    /** Keeps the doubts of every other id, in their order. */
    method Undoubt(id: ClientId)
      modifies this`reading
      ensures reading == old(reading).(inDoubt := NotNamed(old(reading).inDoubt, id))
    {
      var kept: seq<InDoubt> := [];
      var doubts := reading.inDoubt;
      for i := 0 to |doubts|
        invariant kept == NotNamed(doubts[..i], id)
      {
        assert doubts[..i + 1][..i] == doubts[..i];
        if doubts[i].clientId != id {
          kept := kept + [doubts[i]];
        }
      }
      assert doubts[..|doubts|] == doubts;
      reading := reading.(inDoubt := kept);
    }

    method ApplyToBook(news: Option<PositionNews>)
      modifies this`positions
      ensures positions == Applied(old(positions), news)
    {
      if news.Some? {
        if news.value.status == IsOpen {
          if news.value.sideKnown {
            positions := positions[news.value.id := news.value.position];
          }
        } else {
          positions := positions - {news.value.id};
        }
      }
    }

    method Execute(e: Execution, env: Env)
      modifies this`desk, this`log, this`reading, this`outbox, this`positions, reversals
      ensures Model() == OnExecution(old(Model()), e, env)
    {
      if e.order.Some? && e.order.value.clientId.Some? {
        Undoubt(e.order.value.clientId.value);
      }
      if Drops(e.kind) {
        reversals.Cancel(PositionNamed(e), OrderNamed(e));
      }
      ApplyToBook(e.position);
      assert Model() == Heard(old(Model()), e);
      if e.kind == Some(Filled) {
        MakeMoves(env.moves);
      }
      var order: Option<ReverseOrder> := None;
      if e.kind == Some(Filled) && e.position.Some? && e.position.value.status == IsClosed {
        order := reversals.Close(e.position.value.id);
      }
      PlaceReverse(order, env);
    }

    method Hear(news: News, env: Env)
      modifies this`desk, this`log, this`reading, this`outbox, this`positions, reversals
      ensures Model() == OnEvent(old(Model()), news, env)
    {
      match news {
        case News(e) => Execute(e, env);
        case Refused(positionId, orderId) => reversals.Cancel(positionId, orderId);
      }
    }

    // ---- what becomes of a call ----

    method Release(call: nat, what: Busy)
      modifies this`desk
      ensures desk == Released(old(desk), call, what)
    {
      if what in desk.calls && desk.calls[what] == call {
        desk := desk.(calls := desk.calls - {what}, busy := desk.busy - {what});
      }
    }

    method TakeDoubt()
      modifies this`reading
      ensures reading == DoubtPlacing(old(reading))
    {
      if reading.placing.Some? {
        reading := reading.(placing := None, inDoubt := reading.inDoubt + [reading.placing.value]);
      }
    }

    /** The closure of the give-up timer. */
    method GiveUp(call: nat)
      requires call in desk.timers
      modifies this`desk, this`log, this`reading, this`outbox
      ensures Model() == TimerDone(old(Model()), call)
    {
      var what := desk.timers[call];
      desk := desk.(timers := desk.timers - {call});
      if what in desk.calls && desk.calls[what] == call {
        ghost var over := Model();
        Release(call, what);
        reading := reading.(uncertain := true);
        DropQueue();
        if what.Placing? {
          TakeDoubt();
        }
        log := log + [GaveUp(call, what)];
        log := log + [Doubted];
        assert Model() == GivenUp(over, call, what);
        Ready();
      }
    }

    method Watch(id: int)
      modifies this`watches, this`watchSeq
      ensures Model() == old(Model()).(reversing := Watched(old(Model()).reversing, id))
    {
      if id in reversals.pending {
        watches := watches[watchSeq := AccountState.Watch(id, reversals.pending[id].started, false)];
        watchSeq := watchSeq + 1;
      }
    }

    method Land(call: nat, what: Busy)
      modifies this`desk, this`log, this`reading
      ensures Model() == Landed(old(Model()), call, what)
    {
      desk := desk.(flights := desk.flights - {call});
      Release(call, what);
      log := log + [Answered(call, what, true)];
      if what.Placing? {
        reading := reading.(placing := None);
      }
    }

    method TakeOk(call: nat, what: Busy, e: Execution, env: Env)
      modifies this`desk, this`log, this`reading, this`outbox, this`positions, this`watches, this`watchSeq, reversals
      ensures Model() == AnswerOk(old(Model()), call, what, e, env)
    {
      Land(call, what);
      ghost var landed := Model();
      var order: Option<ReverseOrder> := None;
      if what.Closing? {
        order := reversals.Acknowledge(what.id, e.kind, OrderNamed(e));
      }
      assert Model() == Tracking(landed, AckedBy(landed.reversing.pending, what, e).0);
      Execute(e, env);
      PlaceReverse(order, env);
      if what.Closing? {
        Watch(what.id);
      }
      if what.Placing? {
        SendNext(env);
      }
    }

    method Lose(call: nat, what: Busy, unknown: bool)
      modifies this`desk, this`log, this`reading, this`outbox, reversals
      ensures Model() == Lost(old(Model()), call, what, unknown)
    {
      desk := desk.(flights := desk.flights - {call});
      Release(call, what);
      log := log + [Answered(call, what, false)];
      if what.Closing? {
        reversals.Forget(what.id);
      }
      if what.Placing? {
        DropQueue();
        if unknown {
          reading := reading.(uncertain := true);
          TakeDoubt();
          log := log + [Doubted];
        } else {
          reading := reading.(placing := None);
        }
      }
    }

    /** The closure that takes the answer of a call. */
    method Answer(call: nat, answer: AccountState.Answer, env: Env)
      requires call in desk.flights
      modifies this`desk, this`log, this`reading, this`outbox, this`positions, this`watches, this`watchSeq, reversals
      ensures Model() == AnswerDone(old(Model()), call, answer, env)
    {
      var what := desk.flights[call].busy;
      match answer {
        case Done(e) =>
          TakeOk(call, what, e, env);
        case Broke(unknown) =>
          Lose(call, what, unknown);
          Ready();
      }
    }

    // ---- reversals ----

    method Close(id: int)
      modifies this`desk, this`log
      ensures Model() == ClosePosition(old(Model()), id)
    {
      if id in positions {
        Trade(Closing(id), None);
      }
    }

    method Reverse(id: int, stamp: int, env: Env)
      modifies this`desk, this`log, this`closeCalls, reversals
      ensures Model() == ReversePosition(old(Model()), id, stamp, env)
    {
      if Closing(id) in desk.busy || id !in positions {
        return;
      }
      var p := positions[id];
      var order := ReverseOrder(p.symbol, !p.buy, p.volume);
      if replay || !env.allows(desk.callSeq, MarketOrder(order)) {
        return;
      }
      var started := reversals.Start(id, order, stamp);
      if !started {
        return;
      }
      closeCalls := closeCalls[id := desk.callSeq + 1];
      Close(id);
    }

    method Recheck(w: nat)
      requires w in watches
      modifies this`watches, this`reading, this`log
      ensures Model() == Rechecked(old(Model()), w)
    {
      var watch := watches[w];
      watches := watches[w := watch.(rechecked := true)];
      if watch.id in reversals.pending && reversals.pending[watch.id].started == watch.started {
        Ready();
      }
    }

    method EndWatch(w: nat)
      requires w in watches
      modifies this`watches, reversals
      ensures Model() == WatchOver(old(Model()), w)
    {
      var watch := watches[w];
      watches := watches - {w};
      if watch.id in reversals.pending && reversals.pending[watch.id].started == watch.started {
        reversals.Forget(watch.id);
      }
    }

    // ---- the lock of a replay ----

    /** False exactly when it was to go on while a new order is in flight or queued; nothing changes then. */
    method LockForReplay(on: bool) returns (done: bool)
      modifies this`replay, this`log
      ensures Model() == SetReplay(old(Model()), on)
      ensures done == !(on && (Placing in desk.busy || outbox.queue != [])) && (done ==> replay == on)
    {
      if on && (Placing in desk.busy || outbox.queue != []) {
        return false;
      }
      if replay != on {
        replay := on;
        log := log + [Replay(on)];
      }
      return true;
    }

    method AmendOrder(id: int, byUser: bool)
      modifies this`desk, this`log
      ensures Model() == Amend(old(Model()), id, byUser)
    {
      if byUser && replay {
        return;
      }
      Trade(Amending(id), None);
    }
  }
}
