/** The limits on firing that the triggers promise, over every run. */
module AlertLimits {
  import opened Wrappers
  import opened AlertEval
  import opened AlertMoves
  import opened AlertBook
  import opened AlertBookTheorems
  import opened AlertEngine
  import opened AlertTheorems

  function Started(book: Book, clock: int): Engine {
    Engine(book, map[], map[], Past([], map[], map[], clock))
  }

  lemma StartedIsInv(book: Book, clock: int)
    requires Sound(book)
    ensures Inv(Started(book, clock), true) && Inv(Started(book, clock), false)
  {
  }

  /**
   Between edits a one-time alert fires at most once, whatever the clock does, and is off once it has:
   the log is that of the firings since the last edit.
   */
  lemma AOneTimeAlertFiresOnce(book: Book, clock: int, steps: seq<Step>, a: Alert)
    requires Sound(book) && CanRun(Started(book, clock), steps)
    requires a in Run(Started(book, clock), steps).book.alerts && a.trigger.Once?
    ensures |BarsOf(Run(Started(book, clock), steps).past.log, a.id)| <= if a.active then 0 else 1
  {
    StartedIsInv(book, clock);
    EveryRunKeeps(Started(book, clock), steps, false);
    var e := Run(Started(book, clock), steps);
    var i :| 0 <= i < |e.book.alerts| && e.book.alerts[i] == a;
    assert AlertOk(e.book.alerts[i], e.moves, e.past, false);
  }

  /** While neither the clock nor the bars go back, an alert limited by bar fires on later and later bars. */
  lemma AByBarAlertFiresOncePerBar(book: Book, clock: int, steps: seq<Step>, a: Alert)
    requires Sound(book) && CanRun(Started(book, clock), steps) && AllOrderly(Started(book, clock), steps)
    requires a in Run(Started(book, clock), steps).book.alerts && Limited(a)
    ensures Climbs(BarsOf(Run(Started(book, clock), steps).past.log, a.id))
  {
    StartedIsInv(book, clock);
    EveryRunKeeps(Started(book, clock), steps, true);
    var e := Run(Started(book, clock), steps);
    var i :| 0 <= i < |e.book.alerts| && e.book.alerts[i] == a;
    assert AlertOk(e.book.alerts[i], e.moves, e.past, true);
  }

  /** Identifiers stay unique, not zero and under the next one through every run. */
  lemma IdsStaySound(book: Book, clock: int, steps: seq<Step>)
    requires Sound(book) && CanRun(Started(book, clock), steps)
    ensures Sound(Run(Started(book, clock), steps).book)
  {
    StartedIsInv(book, clock);
    EveryRunKeeps(Started(book, clock), steps, false);
  }

  /** In such a run a move is judged as it would be on every reading since the last firing or edit. */
  lemma AMoveIsJudgedOnEveryReading(book: Book, clock: int, steps: seq<Step>, a: Alert, reading: Reading, now: int)
    requires Sound(book) && CanRun(Started(book, clock), steps) && AllOrderly(Started(book, clock), steps)
    requires a in Run(Started(book, clock), steps).book.alerts && OnTicks(a) && a.condition.MovesBy?
    requires now >= Run(Started(book, clock), steps).past.clock
    ensures var e := Run(Started(book, clock), steps);
      Hits(a, Get(e.last, a.id), HistoryOf(e.moves, a.id), reading, now)
      == Moved(HistoryOf(e.past.readings, a.id) + [(now, reading.value)], WindowOf(a), a.amount)
  {
    StartedIsInv(book, clock);
    EveryRunKeeps(Started(book, clock), steps, true);
    var e := Run(Started(book, clock), steps);
    var i :| 0 <= i < |e.book.alerts| && e.book.alerts[i] == a;
    assert AlertOk(e.book.alerts[i], e.moves, e.past, true);
    MoveIsJudged(e, a, reading, now);
  }

  lemma MoveIsJudged(e: Engine, a: Alert, reading: Reading, now: int)
    requires MovesOk(a, HistoryOf(e.moves, a.id), HistoryOf(e.past.readings, a.id), e.past.clock)
    requires OnTicks(a) && a.condition.MovesBy? && now >= e.past.clock
    ensures Hits(a, Get(e.last, a.id), HistoryOf(e.moves, a.id), reading, now)
         == Moved(HistoryOf(e.past.readings, a.id) + [(now, reading.value)], WindowOf(a), a.amount)
  {
    var more := HistoryOf(e.past.readings, a.id) + [(now, reading.value)];
    OneMoreSample(HistoryOf(e.past.readings, a.id), (now, reading.value), WindowOf(a));
    PrunedJudgesTheSame(more, WindowOf(a), a.amount);
  }

  // ---- where a trigger by bar does not limit ----

  ghost predicate SomethingHits(a: Alert) {
    exists before, kept, reading, now :: Hits(a, before, kept, reading, now)
  }

  /** With the current bar as its key no reading makes it fire. */
  ghost predicate HeldByItsBar(a: Alert) {
    forall before, kept, reading, now :: !FiresNow(a.(barKey := BarAt(a.frame, now)), before, kept, reading, now)
  }

  /**
   A trigger by bar holds an alert that is judged on ticks or profits exactly when it is once per bar
   and the timeframe has bars. At the close of bars it does not hold an alert on a profit, which is
   judged on every reading all the same.
   */
  lemma WhenTheBarHolds(a: Alert)
    requires OnTicks(a) && (a.trigger.OncePerBar? || a.trigger.OncePerBarClose?) && SomethingHits(a)
    ensures HeldByItsBar(a) <==> Limited(a)
  {
    if !Limited(a) {
      var before, kept, reading, now :| Hits(a, before, kept, reading, now);
      var b := a.(barKey := BarAt(a.frame, now));
      assert Samples(b, kept, reading, now) == Samples(a, kept, reading, now);
      assert FiresNow(b, before, kept, reading, now);
    }
  }

  /** A repaired book has no alert on a profit at the close of bars: only an edit can make one. */
  lemma ARepairedBookIsLimited(b: Book, a: Alert)
    requires Normalized(b).Some? && a in Normalized(b).value.alerts
    ensures !(a.source.IsMeasure() && a.trigger.OncePerBarClose?) && a.frame != Unknown
    ensures a.trigger.OncePerBar? && (OnTicks(a) ==> !a.frame.Ticks?) ==> Limited(a)
    ensures a.trigger.OncePerBarClose? ==> Limited(a)
  {
    NormalizedIsSound(b);
    var after, alerts := Normalized(b).value.alerts, Selected(b.alerts);
    var i :| 0 <= i < |after| && after[i] == a;
    assert after[i].(id := 0) == alerts[i].(id := 0);
  }

  function Profit(x: real): Reading {
    Reading(Finite(x), Finite(0.0), None)
  }

  function Watching(scope: PnlScope): Alert {
    Alert(1, 0, Pnl(scope), Finite(0.0), Finite(0.0), None, Crossing, OncePerBarClose, Finite(0.0), 0, M15, false, true,
          None, 0, 0, None, None, None)
  }

  /** Such an alert fires twice on one bar: the profit goes over zero and back within it. */
  lemma TwiceOnOneBar(now: int)
    ensures var book := Book(SCHEMA_VERSION, 2, [Watching(Account)], []);
            var steps := [TickStep(-1.0, now), TickStep(1.0, now), TickStep(-1.0, now)];
      Sound(book) && CanRun(Started(book, now), steps)
      && BarsOf(Run(Started(book, now), steps).past.log, 1) == [BarAt(M15, now), BarAt(M15, now)]
  {
    var e0 := Started(Book(SCHEMA_VERSION, 2, [Watching(Account)], []), now);
    var e3 := ThereAndBack(e0, Watching(Account), now);
    TwoEntries(e3.past.log, BarAt(M15, now));
  }

  lemma BothWaysCross()
    ensures Fired(Crossing, Profit(-1.0), Profit(1.0)) && Fired(Crossing, Profit(1.0), Profit(-1.0))
  {
  }

  lemma StillTicks(a: Alert, bar: Option<int>, now: int)
    requires OnTicks(a) && a.IsLive(now) && !a.trigger.Once?
    ensures var b := Recorded(a, bar, now);
      OnTicks(b) && b.IsLive(now) && b.id == a.id && b.condition == a.condition && b.trigger == a.trigger && b.frame == a.frame
  {
  }

  /** Under the level, over it and under it again, all at one time: an alert that crosses fires twice. */
  lemma ThereAndBack(e: Engine, a: Alert, now: int) returns (after: Engine)
    requires e.book.alerts == [a] && a.id == 1 && OnTicks(a) && a.IsLive(now) && e.past.clock == now
    requires a.condition.Crossing? && !a.trigger.OncePerBar? && !a.trigger.Once? && a.frame.Grid? && 1 !in e.last
    ensures var steps := [TickStep(-1.0, now), TickStep(1.0, now), TickStep(-1.0, now)];
      CanRun(e, steps) && after == Run(e, steps)
    ensures after.past.log == e.past.log + [Entry(1, BarAt(a.frame, now)), Entry(1, BarAt(a.frame, now))]
  {
    var e1 := OneTick(e, a, -1.0, now);
    var e2 := OneTick(e1, a, 1.0, now);
    var fired := Recorded(a, BarAt(a.frame, now), now);
    StillTicks(a, BarAt(a.frame, now), now);
    BothWaysCross();
    after := OneTick(e2, fired, -1.0, now);
    RunThree(e, TickStep(-1.0, now), TickStep(1.0, now), TickStep(-1.0, now));
  }

  lemma TwoEntries(log: seq<Entry>, bar: Option<int>)
    requires log == [Entry(1, bar), Entry(1, bar)]
    ensures BarsOf(log, 1) == [bar, bar]
  {
    BarsOneMore([], Entry(1, bar), 1);
    BarsOneMore([Entry(1, bar)], Entry(1, bar), 1);
    assert [Entry(1, bar)] + [Entry(1, bar)] == log && [] + [Entry(1, bar)] == [Entry(1, bar)];
    assert BarsOf([], 1) == [] && BarsOf([Entry(1, bar)], 1) == [bar];
  }

  lemma RunThree(e: Engine, a: Step, b: Step, c: Step)
    requires Enabled(e, a) && Enabled(Next(e, a), b) && Enabled(Next(Next(e, a), b), c)
    ensures CanRun(e, [a, b, c]) && Run(e, [a, b, c]) == Next(Next(Next(e, a), b), c)
  {
    var two := Next(Next(e, a), b);
    assert [a, b, c][1..] == [b, c] && [b, c][1..] == [c] && [c][1..] == [];
    assert CanRun(Next(two, c), []) && Run(Next(two, c), []) == Next(two, c);
    assert CanRun(two, [c]) && Run(two, [c]) == Run(Next(two, c), [c][1..]);
    assert CanRun(Next(e, a), [b, c]) && Run(Next(e, a), [b, c]) == Next(two, c);
  }

  function TickStep(x: real, now: int): Step {
    Prices(now, [Tick(1, Profit(x), now)], now)
  }

  lemma JudgeAllOfOne(e: Engine, g: Given)
    ensures JudgeAll(e, [g]) == (Judge(e, g).0, MoreHits([], Judge(e, g).1))
  {
    assert [g][..0] == [] && JudgeAll(e, []) == (e, []);
  }

  lemma FireAllOfOne(e: Engine, h: Hit, at: int)
    ensures FireAll(e, [h], at) == FireOne(e, h, at)
  {
    assert [h][..0] == [] && FireAll(e, [], at) == e;
  }

  /** What one reading of the only alert of a book does. */
  lemma OneTick(e: Engine, a: Alert, x: real, now: int) returns (after: Engine)
    requires e.book.alerts == [a] && a.id == 1 && OnTicks(a) && a.IsLive(now) && e.past.clock == now
    requires !a.condition.MovesBy? && !a.trigger.OncePerBar? && !a.trigger.Once?
    ensures Enabled(e, TickStep(x, now)) && after == Next(e, TickStep(x, now))
    ensures var fires := 1 in e.last && Fired(a.condition, e.last[1], Profit(x));
            var bar := BarAt(a.frame, now);
      && after.last == e.last[1 := Profit(x)] && after.past.clock == now
      && after.book.alerts == [if fires then Recorded(a, bar, now) else a]
      && after.past.log == if fires then e.past.log + [Entry(1, bar)] else e.past.log
  {
    var g := Tick(1, Profit(x), now);
    assert Find(e.book.alerts, 1) == Some(0);
    var (judged, hit) := Judge(e, g);
    JudgeAllOfOne(e, g);
    assert e.(past := e.past.(clock := now)) == e;
    if hit.Some? {
      assert [] + [hit.value] == [hit.value];
      FireAllOfOne(judged, hit.value, now);
      FireOnly(judged, a, hit.value, now);
    } else {
      assert FireAll(judged, [], now) == judged;
    }
    after := Next(e, TickStep(x, now));
  }

  lemma FireOnly(e: Engine, a: Alert, h: Hit, at: int)
    requires e.book.alerts == [a] && a.id == h.id
    ensures var after := FireOne(e, h, at);
      && after.book.alerts == [Recorded(a, h.bar, at)]
      && after.last == e.last && after.past == e.past.(log := e.past.log + [Entry(h.id, h.bar)])
  {
    assert Find(e.book.alerts, h.id) == Some(0);
    var once := Fire(e.book, h.id, h.value, at);
    assert once.alerts == [FiredOnce(a, at)];
    assert Find(once.alerts, h.id) == Some(0);
  }
}
