/**
 The opposite orders of whole runs: what the account tells its tracker, step by step, and that each
 opposite order it sends is one that the tracker released, at most one for each start of a reversal.
 */
module AccountReleases {
  import opened Wrappers
  import opened Reversals
  import RT = ReversalTheorems
  import opened AccountState
  import opened AccountInvariant
  import opened AccountTame
  import opened AccountTheorems
  import opened AccountMeaning
  import opened AccountReversing

  type Events = seq<RT.Event>

  /** What an execution tells the tracker: never both of these. */
  function HeardEvents(e: Execution): Events {
    if Drops(e.kind) then [RT.Cancel(PositionNamed(e), OrderNamed(e))]
    else if e.kind == Some(Filled) && e.position.Some? && e.position.value.status == IsClosed then [RT.Shut(e.position.value.id)]
    else []
  }

  function AckEvents(busy: Busy, e: Execution): Events {
    if busy.Closing? then [RT.Ack(busy.id, e.kind, OrderNamed(e))] else []
  }

  function ShutEvents(listing: seq<int>): Events {
    seq(|listing|, i requires 0 <= i < |listing| => RT.Shut(listing[i]))
  }

  /** What a step tells the tracker, in order. */
  function Feeds(s: State, step: Step): Events
    requires Enabled(s, step)
  {
    match step
    case DoReverse(id, stamp, _) =>
      if id !in s.reversing.pending && id in Next(s, step).reversing.pending
      then [RT.Start(id, Next(s, step).reversing.pending[id].order, stamp)] else []
    case CallAnswers(call, Done(e), _) => AckEvents(s.desk.flights[call].busy, e) + HeardEvents(e)
    case CallAnswers(call, Broke(_), _) =>
      if s.desk.flights[call].busy.Closing? then [RT.Forget(s.desk.flights[call].busy.id)] else []
    case NewsComes(News(e), _) => HeardEvents(e)
    case NewsComes(Refused(position, order), _) => [RT.Cancel(position, order)]
    case ReadAnswers(epoch, Found(_), env) => if epoch == s.reading.epoch then ShutEvents(env.listing) else []
    case WatchEnds(w) =>
      if Matches(s.reversing, s.reversing.watches[w]) then [RT.Forget(s.reversing.watches[w].id)] else []
    case _ => []
  }

  /** What the tracker becomes over some events, and the orders it gives on the way. */
  function Over(m: Tracked, events: Events): (Tracked, seq<ReverseOrder>) {
    if events == [] then (m, [])
    else
      var (before, orders) := Over(m, events[..|events| - 1]);
      var (after, order) := RT.Apply(before, events[|events| - 1]);
      (after, orders + OneOf(order))
  }

  function OneOf(order: Option<ReverseOrder>): seq<ReverseOrder> {
    if order.Some? then [order.value] else []
  }

  lemma OverOne(m: Tracked, e: RT.Event)
    ensures Over(m, [e]) == (RT.Apply(m, e).0, OneOf(RT.Apply(m, e).1))
  {
    assert [e][..0] == [] && [] + OneOf(RT.Apply(m, e).1) == OneOf(RT.Apply(m, e).1);
  }

  lemma {:induction false} OverMore(past: Events, more: Events)
    ensures RT.After(past + more) == Over(RT.After(past), more).0
  {
    if more == [] {
      assert past + more == past;
    } else {
      OverMore(past, more[..|more| - 1]);
      assert (past + more)[..|past + more| - 1] == past + more[..|more| - 1];
    }
  }

  // ---- the tracker of the account ----

  lemma HeardOver(m: Tracked, e: Execution)
    ensures Over(m, HeardEvents(e)).0 == HeardBy(m, e)
    ensures Over(m, HeardEvents(e)).1
         == OneOf(ClosedBy(if Drops(e.kind) then CancelRelated(m, PositionNamed(e), OrderNamed(e)) else m, e).1)
  {
    if HeardEvents(e) != [] {
      OverOne(m, HeardEvents(e)[0]);
    }
  }

  lemma {:induction false} OverJoin(m: Tracked, a: Events, b: Events)
    ensures Over(m, a + b) == (Over(Over(m, a).0, b).0, Over(m, a).1 + Over(Over(m, a).0, b).1)
  {
    if b == [] {
      assert a + b == a && Over(m, a).1 + [] == Over(m, a).1;
    } else {
      OverJoin(m, a, b[..|b| - 1]);
      assert (a + b)[..|a + b| - 1] == a + b[..|b| - 1];
      var rest := Over(Over(m, a).0, b[..|b| - 1]);
      Regroup(Over(m, a).1, rest.1, OneOf(RT.Apply(rest.0, b[|b| - 1]).1));
    }
  }

  lemma Regroup(a: seq<ReverseOrder>, b: seq<ReverseOrder>, c: seq<ReverseOrder>)
    ensures a + b + c == a + (b + c)
  {
  }

  lemma AckedOver(m: Tracked, busy: Busy, e: Execution)
    ensures Over(m, AckEvents(busy, e)) == (AckedBy(m, busy, e).0, OneOf(AckedBy(m, busy, e).1))
  {
    if busy.Closing? {
      OverOne(m, AckEvents(busy, e)[0]);
    }
  }

  lemma DoneOver(m: Tracked, busy: Busy, e: Execution)
    ensures var acked := AckedBy(m, busy, e);
      Over(m, AckEvents(busy, e) + HeardEvents(e))
      == (HeardBy(acked.0, e), OneOf(acked.1) + Over(acked.0, HeardEvents(e)).1)
  {
    OverJoin(m, AckEvents(busy, e), HeardEvents(e));
    AckedOver(m, busy, e);
    HeardOver(AckedBy(m, busy, e).0, e);
  }

  lemma {:induction false} ClosedOver(m: Tracked, listing: seq<int>)
    ensures Over(m, ShutEvents(listing)) == CloseAll(m, listing)
  {
    if listing != [] {
      ClosedOver(m, listing[..|listing| - 1]);
      assert ShutEvents(listing)[..|listing| - 1] == ShutEvents(listing[..|listing| - 1]);
      var orders := CloseAll(m, listing[..|listing| - 1]).1;
      assert orders + [] == orders;
    }
  }

  /** A step does to the tracker what the events it is told make of it. */
  lemma FeedsTrack(s: State, step: Step)
    requires Books(s.desk) && Enabled(s, step)
    ensures Next(s, step).reversing.pending == Over(s.reversing.pending, Feeds(s, step)).0
  {
    match step {
      case CallAnswers(call, Done(e), env) =>
        DoneTracks(s, call, e, env);
        DoneOver(s.reversing.pending, s.desk.flights[call].busy, e);
      case NewsComes(News(e), env) =>
        ExecutionTracks(s, e, env);
        HeardOver(s.reversing.pending, e);
      case ReadAnswers(epoch, found, env) => ReadTracks(s, epoch, found, env);
      case DoPlace(order, env) => TamePlaceWith(s, order, env);
      case DoBatch(orders, probe, env) => BatchTracks(s, orders, probe, env);
      case DoReverse(id, stamp, env) => ReverseTracks(s, id, stamp, env);
      case CallAnswers(call, Broke(unknown), env) => LostTracks(s, call, unknown, env);
      case _ => OthersTrack(s, step);
    }
  }

  lemma BatchTracks(s: State, orders: seq<NewOrder>, probe: NewOrder, env: Env)
    ensures PlaceBatch(s, orders, probe, env).reversing == s.reversing
  {
  }

  lemma ReadTracks(s: State, e: nat, found: ReadAnswer, env: Env)
    requires Books(s.desk)
    ensures ReadDone(s, e, found, env).reversing.pending
         == if e == s.reading.epoch && found.Found? then CloseAll(s.reversing.pending, env.listing).0 else s.reversing.pending
    ensures CloseAll(s.reversing.pending, env.listing) == Over(s.reversing.pending, ShutEvents(env.listing))
  {
    ClosedOver(s.reversing.pending, env.listing);
    if e == s.reading.epoch && found.Found? {
      var (left, orders) := CloseAll(s.reversing.pending, env.listing);
      var read := ReadApplies(Taken(s, e), e, found.positions, left);
      TameMoves(read, env.moves);
      MarketAllTracks(Moves(read, env.moves), orders, env);
    }
  }

  lemma {:induction false} MarketAllTracks(s: State, orders: seq<ReverseOrder>, env: Env)
    ensures MarketAll(s, orders, env).reversing == s.reversing
  {
    if orders != [] {
      MarketAllTracks(s, orders[..|orders| - 1], env);
    }
  }

  lemma ReverseTracks(s: State, id: int, stamp: int, env: Env)
    ensures var step := DoReverse(id, stamp, env);
      Next(s, step).reversing.pending == Over(s.reversing.pending, Feeds(s, step)).0
  {
    var step := DoReverse(id, stamp, env);
    if Feeds(s, step) != [] {
      OverOne(s.reversing.pending, Feeds(s, step)[0]);
    }
  }

  lemma LostTracks(s: State, call: nat, unknown: bool, env: Env)
    requires call in s.desk.flights
    ensures var step := CallAnswers(call, Broke(unknown), env);
      Next(s, step).reversing.pending == Over(s.reversing.pending, Feeds(s, step)).0
  {
    if s.desk.flights[call].busy.Closing? {
      OverOne(s.reversing.pending, RT.Forget(s.desk.flights[call].busy.id));
    }
  }

  lemma OthersTrack(s: State, step: Step)
    requires Enabled(s, step) && !step.DoPlace? && !step.DoBatch? && !step.ReadAnswers? && !step.DoReverse?
    requires !step.CallAnswers? && !(step.NewsComes? && step.news.News?)
    ensures Next(s, step).reversing.pending == Over(s.reversing.pending, Feeds(s, step)).0
  {
    if Feeds(s, step) != [] {
      OverOne(s.reversing.pending, Feeds(s, step)[0]);
    }
  }

  // ---- what a step sends ----

  predicate IsSingle(e: LogEntry) { e.Sent? && e.from.Single? }

  /** The user asks for an order, not the account itself. */
  predicate UserPlaces(step: Step) { step.DoPlace? || step.DoBatch? }

  ghost predicate IsOneOf(e: LogEntry, orders: seq<ReverseOrder>) {
    exists o :: o in orders && SendsReverse(e, o)
  }

  /** Of what was added to the log, at most one entry sends a single order, and it is one of these. */
  ghost predicate SendsOnly(log: seq<LogEntry>, now: seq<LogEntry>, orders: seq<ReverseOrder>) {
    && log <= now
    && (forall i | |log| <= i < |now| && IsSingle(now[i]) :: IsOneOf(now[i], orders))
    && (forall i, j | |log| <= i < j < |now| :: !(IsSingle(now[i]) && IsSingle(now[j])))
  }

  lemma SendsNothing(log: seq<LogEntry>, now: seq<LogEntry>, orders: seq<ReverseOrder>)
    requires log <= now && (forall i | |log| <= i < |now| :: !IsSingle(now[i]))
    ensures SendsOnly(log, now, orders)
  {
  }

  /** What is sent for an order released: that order, or nothing while another new order is in flight. */
  lemma MarketSends(s: State, o: Option<ReverseOrder>, env: Env)
    ensures var t := Market(s, o, env);
      || t == s
      || (o.Some? && t.log == s.log + [t.log[|s.log|]] && SendsReverse(t.log[|s.log|], o.value) && Placing in t.desk.busy)
  {
  }

  lemma {:induction false} MarketAllSends(s: State, orders: seq<ReverseOrder>, env: Env)
    ensures var t := MarketAll(s, orders, env);
      || t == s
      || (|t.log| == |s.log| + 1 && s.log <= t.log && IsOneOf(t.log[|s.log|], orders) && Placing in t.desk.busy)
  {
    if orders != [] {
      var rest, last := orders[..|orders| - 1], orders[|orders| - 1];
      var before := MarketAll(s, rest, env);
      MarketAllSends(s, rest, env);
      if before == s {
        MarketSends(before, Some(last), env);
      } else {
        BusyRefuses(before, last, env);
        var o :| o in rest && SendsReverse(before.log[|s.log|], o);
        assert o in orders;
      }
    }
  }

  /** One more entry that is one of these orders, and then no other new order may go. */
  ghost predicate SentOne(s: State, t: State, orders: seq<ReverseOrder>) {
    |t.log| == |s.log| + 1 && s.log <= t.log && IsOneOf(t.log[|s.log|], orders) && Placing in t.desk.busy
  }

  lemma ExecutionSends(s: State, e: Execution, env: Env)
    requires Books(s.desk)
    ensures var t := OnExecution(s, e, env);
      t.log == s.log || SentOne(s, t, Over(s.reversing.pending, HeardEvents(e)).1)
  {
    var heard := Heard(s, e);
    TameMoves(heard, env.moves);
    MovesLogNothing(heard, env.moves);
    HeardOver(s.reversing.pending, e);
    var managed := if e.kind == Some(Filled) then Moves(heard, env.moves) else heard;
    var (left, order) := ClosedBy(managed.reversing.pending, e);
    MarketSends(Tracking(managed, left), order, env);
    if order.Some? {
      assert order.value in OneOf(order);
    }
  }

  /** After the answer is in the log: what the event closed, what the answer acknowledged, and the plan. */
  lemma TellingSends(s: State, call: nat, busy: Busy, e: Execution, env: Env)
    requires Books(s.desk) && call in s.desk.flights && s.desk.flights[call].busy == busy
    ensures var acked := AckedBy(s.reversing.pending, busy, e);
      var taking, told := Taking(s, call, busy, e), Telling(s, call, busy, e, env);
      told.log == taking.log || SentOne(taking, told, OneOf(acked.1) + Over(acked.0, HeardEvents(e)).1)
  {
    var acked := AckedBy(s.reversing.pending, busy, e);
    var taking := Taking(s, call, busy, e);
    BooksArrived(s.desk, call, busy);
    ExecutionSends(taking, e, env);
    var heard := OnExecution(taking, e, env);
    MarketSends(heard, acked.1, env);
    if heard.log != taking.log {
      OneOfMore(heard.log[|taking.log|], OneOf(acked.1), Over(acked.0, HeardEvents(e)).1);
      if acked.1.Some? {
        BusyRefuses(heard, acked.1.value, env);
      }
    } else if acked.1.Some? {
      assert acked.1.value in OneOf(acked.1) + Over(acked.0, HeardEvents(e)).1;
    }
  }

  lemma OneOfMore(e: LogEntry, a: seq<ReverseOrder>, b: seq<ReverseOrder>)
    requires IsOneOf(e, b)
    ensures IsOneOf(e, a + b)
  {
    var o :| o in b && SendsReverse(e, o);
    assert o in a + b;
  }

  /** What follows only goes on with a plan. */
  lemma AfterTelling(told: State, busy: Busy, env: Env)
    ensures var t := if busy.Closing? then told.(reversing := Watched(told.reversing, busy.id))
                     else if busy.Placing? then SendNext(told, env) else told;
      t.log == told.log || (|t.log| == |told.log| + 1 && told.log <= t.log && t.log[|told.log|].Sent? && !IsSingle(t.log[|told.log|]))
  {
  }

  lemma DoneSends(s: State, call: nat, e: Execution, env: Env)
    requires Books(s.desk) && call in s.desk.flights
    ensures var step := CallAnswers(call, Done(e), env);
      SendsOnly(s.log, Next(s, step).log, Over(s.reversing.pending, Feeds(s, step)).1)
  {
    var busy := s.desk.flights[call].busy;
    DoneOver(s.reversing.pending, busy, e);
    TellingSends(s, call, busy, e, env);
    AfterTelling(Telling(s, call, busy, e, env), busy, env);
    var taking, told := Taking(s, call, busy, e), Telling(s, call, busy, e, env);
    assert taking.log == s.log + [Answered(call, busy, true)];
    ThreeParts(s.log, taking.log, told.log, AnswerDone(s, call, Done(e), env).log,
               Over(s.reversing.pending, Feeds(s, CallAnswers(call, Done(e), env))).1);
  }

  lemma ThreeParts(log: seq<LogEntry>, a: seq<LogEntry>, b: seq<LogEntry>, c: seq<LogEntry>, orders: seq<ReverseOrder>)
    requires |a| == |log| + 1 && log <= a && !IsSingle(a[|log|])
    requires b == a || (|b| == |a| + 1 && a <= b && IsOneOf(b[|a|], orders))
    requires c == b || (|c| == |b| + 1 && b <= c && !IsSingle(c[|b|]))
    ensures SendsOnly(log, c, orders)
  {
  }

  lemma ReadSends(s: State, e: nat, found: ReadAnswer, env: Env)
    requires Books(s.desk) && Enabled(s, ReadAnswers(e, found, env))
    ensures var step := ReadAnswers(e, found, env);
      SendsOnly(s.log, Next(s, step).log, Over(s.reversing.pending, Feeds(s, step)).1)
  {
    if e == s.reading.epoch && found.Found? {
      ReadTracks(s, e, found, env);
      FoundSends(s, e, found.positions, env);
    }
  }

  lemma FoundSends(s: State, e: nat, positions: map<int, Position>, env: Env)
    requires e == s.reading.epoch
    ensures SendsOnly(s.log, ReadDone(s, e, Found(positions), env).log, CloseAll(s.reversing.pending, env.listing).1)
  {
    var (left, orders) := CloseAll(s.reversing.pending, env.listing);
    var read := ReadApplies(Taken(s, e), e, positions, left);
    MovesLogNothing(read, env.moves);
    MarketAllSends(Moves(read, env.moves), orders, env);
    var sent := ReadDone(s, e, Found(positions), env).log;
    assert read.log == s.log + [ReadApplied(e)];
    ThreeParts(s.log, read.log, sent, sent, orders);
  }

  lemma NewsSends(s: State, news: News, env: Env)
    requires Books(s.desk)
    ensures var step := NewsComes(news, env);
      SendsOnly(s.log, Next(s, step).log, Over(s.reversing.pending, Feeds(s, step)).1)
  {
    if news.News? {
      ExecutionSends(s, news.execution, env);
    }
  }

  lemma LostSends(s: State, call: nat, unknown: bool, env: Env)
    requires call in s.desk.flights
    ensures var t := AnswerDone(s, call, Broke(unknown), env);
      s.log <= t.log && forall i | |s.log| <= i < |t.log| :: !IsSingle(t.log[i]) && !t.log[i].Planned?
  {
  }

  lemma NothingSent(s: State, step: Step)
    requires Enabled(s, step) && !UserPlaces(step) && !step.NewsComes? && !step.ReadAnswers?
    requires step.CallAnswers? ==> step.answer.Broke?
    ensures s.log <= Next(s, step).log
    ensures forall i | |s.log| <= i < |Next(s, step).log| ::
      !IsSingle(Next(s, step).log[i]) && !Next(s, step).log[i].Planned?
  {
    if step.CallAnswers? {
      LostSends(s, step.call, step.answer.unknown, step.env);
    }
  }

  /** What a step sends by itself, a plan apart, is at most one of the orders its events release. */
  lemma StepSends(s: State, step: Step)
    requires Books(s.desk) && Enabled(s, step) && !UserPlaces(step)
    ensures SendsOnly(s.log, Next(s, step).log, Over(s.reversing.pending, Feeds(s, step)).1)
  {
    if step.CallAnswers? && step.answer.Done? {
      DoneSends(s, step.call, step.answer.event, step.env);
    } else if step.NewsComes? {
      NewsSends(s, step.news, step.env);
    } else if step.ReadAnswers? {
      ReadSends(s, step.epoch, step.found, step.env);
    } else {
      NothingSent(s, step);
      SendsNothing(s.log, Next(s, step).log, Over(s.reversing.pending, Feeds(s, step)).1);
    }
  }

  // ---- over runs ----

  /** All that a run told the tracker. */
  ghost function History(steps: seq<Step>): Events
    requires CanRun(steps)
    decreases |steps|
  {
    if steps == [] then []
    else History(steps[..|steps| - 1]) + Feeds(Run(steps[..|steps| - 1]), steps[|steps| - 1])
  }

  /** In every run the tracker of the account is what the events it was told make of an empty one. */
  lemma {:induction false} TrackerIsItsHistory(steps: seq<Step>)
    requires CanRun(steps)
    ensures Run(steps).reversing.pending == RT.After(History(steps))
    decreases |steps|
  {
    if steps != [] {
      var before, last := steps[..|steps| - 1], steps[|steps| - 1];
      TrackerIsItsHistory(before);
      EveryRunKeeps(before);
      FeedsTrack(Run(before), last);
      OverMore(History(before), Feeds(Run(before), last));
    }
  }

  lemma {:induction false} HistoryGrows(steps: seq<Step>, n: nat)
    requires CanRun(steps) && n <= |steps|
    ensures CanRun(steps[..n]) && History(steps[..n]) <= History(steps)
    decreases |steps|
  {
    if n < |steps| {
      var before := steps[..|steps| - 1];
      assert before[..n] == steps[..n];
      HistoryGrows(before, n);
    } else {
      assert steps[..n] == steps;
    }
  }

  /** Step k of the run wrote entry j of the log. */
  ghost predicate Wrote(steps: seq<Step>, k: nat, j: nat) {
    && k < |steps| && CanRun(steps[..k]) && CanRun(steps[..k + 1])
    && |Run(steps[..k]).log| <= j < |Run(steps[..k + 1]).log|
  }

  /** Step k of the run told the tracker event i. */
  ghost predicate Told(steps: seq<Step>, k: nat, i: nat) {
    && k < |steps| && CanRun(steps[..k]) && CanRun(steps[..k + 1])
    && |History(steps[..k])| <= i < |History(steps[..k + 1])|
  }

  lemma {:induction false} WhoWrote(steps: seq<Step>, j: nat) returns (k: nat)
    requires CanRun(steps) && j < |Run(steps).log|
    ensures Wrote(steps, k, j)
    decreases |steps|
  {
    var before := steps[..|steps| - 1];
    if j < |Run(before).log| {
      k := WhoWrote(before, j);
      assert before[..k] == steps[..k] && before[..k + 1] == steps[..k + 1];
    } else {
      k := |steps| - 1;
      assert steps[..k + 1] == steps;
    }
  }

  /** Event i released the order of the start: an accepting answer and a closure both came since it. */
  ghost predicate Released(h: Events, i: nat, start: nat) {
    && start < i < |h| && h[start].Start?
    && RT.About(h[i], h[start].id) && RT.Waiting(h[..i], h[start].id) == Some(start)
    && RT.AckSince(h[..i + 1], h[start].id, start) && RT.ShutSince(h[..i + 1], h[start].id, start)
  }

  lemma {:induction false} WhichReleased(past: Events, events: Events, e: LogEntry) returns (a: nat, o: ReverseOrder)
    requires IsOneOf(e, Over(RT.After(past), events).1)
    ensures a < |events| && RT.Apply(RT.After(past + events[..a]), events[a]).1 == Some(o) && SendsReverse(e, o)
  {
    var front := events[..|events| - 1];
    var (before, orders) := Over(RT.After(past), front);
    if IsOneOf(e, orders) {
      a, o := WhichReleased(past, front, e);
      assert front[..a] == events[..a];
    } else {
      var r :| r in Over(RT.After(past), events).1 && SendsReverse(e, r);
      a, o := |events| - 1, r;
      OverMore(past, front);
    }
  }

  lemma ReleasedByStart(h: Events, i: nat, o: ReverseOrder) returns (start: nat)
    requires i < |h| && RT.Apply(RT.After(h[..i]), h[i]).1 == Some(o)
    ensures Released(h, i, start) && h[start].order == o
  {
    assert h[..i] + [h[i]] == h[..i + 1];
    var id := h[i].id;
    RT.ReleasedExactly(h[..i], h[i], id);
    RT.TrackerAgrees(h[..i], id);
    start := RT.Waiting(h[..i], id).value;
  }

  /** Entry j is the market order that event i of step k released, for this start. */
  ghost predicate SentFor(steps: seq<Step>, j: nat, k: nat, i: nat, start: nat) {
    && CanRun(steps) && j < |Run(steps).log| && IsSingle(Run(steps).log[j])
    && Wrote(steps, k, j) && !UserPlaces(steps[k]) && Told(steps, k, i)
    && Released(History(steps), i, start) && SendsReverse(Run(steps).log[j], History(steps)[start].order)
  }

  /** What step k, which the user did not take, added to the log of the run. */
  lemma WroteOnly(steps: seq<Step>, k: nat)
    requires CanRun(steps) && k < |steps| && CanRun(steps[..k]) && CanRun(steps[..k + 1]) && !UserPlaces(steps[k])
    ensures Enabled(Run(steps[..k]), steps[k]) && Run(steps[..k + 1]).log <= Run(steps).log
    ensures SendsOnly(Run(steps[..k]).log, Run(steps[..k + 1]).log,
                      Over(RT.After(History(steps[..k])), Feeds(Run(steps[..k]), steps[k])).1)
  {
    assert steps[..k + 1][..k] == steps[..k];
    RunGrows(steps, k + 1);
    EveryRunKeeps(steps[..k]);
    TrackerIsItsHistory(steps[..k]);
    StepSends(Run(steps[..k]), steps[k]);
  }

  lemma HistoryStep(steps: seq<Step>, k: nat)
    requires CanRun(steps) && k < |steps|
    ensures CanRun(steps[..k]) && CanRun(steps[..k + 1]) && Enabled(Run(steps[..k]), steps[k])
    ensures History(steps[..k + 1]) == History(steps[..k]) + Feeds(Run(steps[..k]), steps[k])
    ensures History(steps[..k + 1]) <= History(steps)
  {
    var upTo := steps[..k + 1];
    assert upTo[..|upTo| - 1] == steps[..k] && upTo[|upTo| - 1] == steps[k];
    HistoryGrows(steps, k + 1);
    HistoryLast(upTo);
  }

  lemma HistoryLast(steps: seq<Step>)
    requires CanRun(steps) && steps != []
    ensures var before, last := steps[..|steps| - 1], steps[|steps| - 1];
      CanRun(before) && Enabled(Run(before), last) && History(steps) == History(before) + Feeds(Run(before), last)
  {
  }

  lemma ReleasedIn(h: Events, past: Events, events: Events, a: nat, o: ReverseOrder) returns (i: nat, start: nat)
    requires past + events <= h && a < |events| && RT.Apply(RT.After(past + events[..a]), events[a]).1 == Some(o)
    ensures |past| <= i < |past + events| && Released(h, i, start) && h[start].order == o
  {
    i := |past| + a;
    PlaceInHistory(past, events, h, a);
    start := ReleasedByStart(h, i, o);
  }

  /** The entry is one of the orders that the events of its step release, and this is the event. */
  lemma WhichOfStep(steps: seq<Step>, k: nat, j: nat) returns (a: nat, o: ReverseOrder)
    requires CanRun(steps) && Wrote(steps, k, j) && !UserPlaces(steps[k]) && Enabled(Run(steps[..k]), steps[k])
    requires j < |Run(steps).log| && IsSingle(Run(steps).log[j])
    ensures var past, events := History(steps[..k]), Feeds(Run(steps[..k]), steps[k]);
      && a < |events| && RT.Apply(RT.After(past + events[..a]), events[a]).1 == Some(o)
      && SendsReverse(Run(steps).log[j], o)
  {
    WroteOnly(steps, k);
    a, o := WhichReleased(History(steps[..k]), Feeds(Run(steps[..k]), steps[k]), Run(steps).log[j]);
  }

  /**
   In every run an order sent on its own is one the user placed, or the opposite order of one start
   of a reversal, released in that step by the second of an accepting answer and a closure since it.
   */
  lemma AnOppositeOrderIsReleased(steps: seq<Step>, j: nat) returns (k: nat, i: nat, start: nat)
    requires CanRun(steps) && j < |Run(steps).log| && IsSingle(Run(steps).log[j])
    ensures Wrote(steps, k, j) && (UserPlaces(steps[k]) || SentFor(steps, j, k, i, start))
  {
    k := WhoWrote(steps, j);
    i, start := 0, 0;
    if !UserPlaces(steps[k]) {
      HistoryStep(steps, k);
      var a, o := WhichOfStep(steps, k, j);
      i, start := ReleasedIn(History(steps), History(steps[..k]), Feeds(Run(steps[..k]), steps[k]), a, o);
    }
  }

  lemma PlaceInHistory(past: Events, events: Events, h: Events, a: nat)
    requires past + events <= h && a < |events|
    ensures h[..|past| + a] == past + events[..a] && h[|past| + a] == events[a]
  {
    assert h[..|past + events|] == past + events;
    assert (past + events)[..|past| + a] == past + events[..a];
  }

  // ---- at most one order for each start ----

  /** A start that is waited for after it was not waited for is a later one. */
  lemma {:induction false} WaitingIsLater(h: Events, a: nat, b: nat, id: int)
    requires a <= b <= |h| && RT.Waiting(h[..a], id).None?
    ensures RT.Waiting(h[..b], id).Some? ==> RT.Waiting(h[..b], id).value >= a
    decreases b
  {
    if a < b {
      WaitingIsLater(h, a, b - 1, id);
      assert h[..b][..b - 1] == h[..b - 1];
    }
  }

  lemma ReleasedOnce(h: Events, i: nat, j: nat, start: nat)
    requires Released(h, i, start) && Released(h, j, start)
    ensures i == j
  {
    if i < j {
      NotReleasedAgain(h, i, j, start);
    } else if j < i {
      NotReleasedAgain(h, j, i, start);
    }
  }

  lemma NotReleasedAgain(h: Events, i: nat, j: nat, start: nat)
    requires Released(h, i, start) && i < j < |h|
    ensures !Released(h, j, start)
  {
    var id := h[start].id;
    assert h[..i] + [h[i]] == h[..i + 1];
    RT.ReleasedExactly(h[..i], h[i], id);
    WaitingIsLater(h, i + 1, j, id);
  }

  lemma ToldEarlier(steps: seq<Step>, k: nat, m: nat, i: nat)
    requires CanRun(steps) && Told(steps, k, i) && k < m <= |steps| && CanRun(steps[..m])
    ensures i < |History(steps[..m])|
  {
    assert steps[..m][..k + 1] == steps[..k + 1];
    HistoryGrows(steps[..m], k + 1);
  }

  lemma ToldOnce(steps: seq<Step>, k: nat, m: nat, i: nat)
    requires CanRun(steps) && Told(steps, k, i) && Told(steps, m, i)
    ensures k == m
  {
    if k < m {
      ToldEarlier(steps, k, m, i);
    } else if m < k {
      ToldEarlier(steps, m, k, i);
    }
  }

  lemma WroteOneSingle(steps: seq<Step>, k: nat, j: nat, j': nat)
    requires CanRun(steps) && Wrote(steps, k, j) && Wrote(steps, k, j') && !UserPlaces(steps[k])
    requires j < |Run(steps).log| && j' < |Run(steps).log| && IsSingle(Run(steps).log[j]) && IsSingle(Run(steps).log[j'])
    ensures j == j'
  {
    WroteOnly(steps, k);
  }

  /** In every run at most one order is sent for each start of a reversal. */
  lemma AtMostOncePerStart(steps: seq<Step>, j: nat, k: nat, i: nat, j': nat, k': nat, i': nat, start: nat)
    requires SentFor(steps, j, k, i, start) && SentFor(steps, j', k', i', start)
    ensures j == j'
  {
    ReleasedOnce(History(steps), i, i', start);
    ToldOnce(steps, k, k', i);
    WroteOneSingle(steps, k, j, j');
  }
}
