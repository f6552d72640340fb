/** How often an alert fires over a run, and on what a move is judged. */
module AlertTheorems {
  import opened Wrappers
  import opened AlertEval
  import opened AlertMoves
  import opened AlertBook
  import opened AlertBookTheorems
  import opened AlertEngine

  /** The bars an alert fired on since the last edit, one for each firing. */
  function BarsOf(log: seq<Entry>, id: nat): seq<Option<int>> {
    if log == [] then []
    else
      var rest, last := BarsOf(log[..|log| - 1], id), log[|log| - 1];
      if last.id == id then rest + [last.bar] else rest
  }

  lemma BarsOneMore(log: seq<Entry>, entry: Entry, id: nat)
    ensures BarsOf(log + [entry], id) == BarsOf(log, id) + if entry.id == id then [entry.bar] else []
  {
    assert (log + [entry])[..|log|] == log;
    assert BarsOf(log, id) + [] == BarsOf(log, id);
  }

  predicate Climbs(bars: seq<Option<int>>) {
    && (forall i | 0 <= i < |bars| :: bars[i].Some?)
    && (forall i, j | 0 <= i < j < |bars| :: bars[i].value < bars[j].value)
  }

  /**
     Whether the trigger of the alert limits it by bar: it does not on a profit at the close of bars, nor
     on ticks without bars.
  */
  predicate Limited(a: Alert) {
    || (a.trigger.OncePerBar? && (OnTicks(a) ==> a.frame.Grid?))
    || (a.trigger.OncePerBarClose? && !a.source.Pnl?)
  }

  // ---- what every step keeps of one alert ----

  predicate OnceOk(a: Alert, bars: seq<Option<int>>) {
    a.trigger.Once? ==> |bars| <= (if a.active then 0 else 1)
  }

  predicate BarsOk(a: Alert, bars: seq<Option<int>>, lastBar: Option<int>) {
    Limited(a) && bars != [] ==>
      && Climbs(bars) && a.barKey == bars[|bars| - 1]
      && lastBar.Some? && a.barKey.value <= lastBar.value
  }

  predicate ClockOk(a: Alert, lastBar: Option<int>, clock: int) {
    OnTicks(a) && a.frame.Grid? && lastBar.Some? ==> lastBar.value <= clock / a.frame.ms * a.frame.ms
  }

  predicate MovesOk(a: Alert, kept: History, all: History, clock: int) {
    OnTicks(a) && a.condition.MovesBy? ==>
      kept == Pruned(all, WindowOf(a)) && NeverBack(all) && (all != [] ==> all[|all| - 1].0 <= clock)
  }

  predicate OrderlyOk(a: Alert, moves: map<nat, History>, past: Past) {
    && BarsOk(a, BarsOf(past.log, a.id), Get(past.lastBar, a.id))
    && ClockOk(a, Get(past.lastBar, a.id), past.clock)
    && MovesOk(a, HistoryOf(moves, a.id), HistoryOf(past.readings, a.id), past.clock)
  }

  predicate AlertOk(a: Alert, moves: map<nat, History>, past: Past, orderly: bool) {
    OnceOk(a, BarsOf(past.log, a.id)) && (orderly ==> OrderlyOk(a, moves, past))
  }

  /** orderly says whether neither the clock nor the bars went back so far. */
  predicate Inv(e: Engine, orderly: bool) {
    Sound(e.book) && forall i | 0 <= i < |e.book.alerts| :: AlertOk(e.book.alerts[i], e.moves, e.past, orderly)
  }

  /** A hit that may be recorded: its alert is still on, and did not fire on that bar. */
  predicate Fireable(e: Engine, h: Hit, orderly: bool) {
    var place := Find(e.book.alerts, h.id);
    place.Some? &&
    var a := e.book.alerts[place.value];
    a.active && (orderly && Limited(a) ==> h.bar.Some? && a.barKey != h.bar && Get(e.past.lastBar, h.id) == h.bar)
  }

  lemma TimesGrows(x: int, y: int, ms: Millis)
    requires x <= y
    ensures x * ms <= y * ms
  {
  }

  lemma FloorGrows(ms: Millis, x: int, y: int)
    requires x <= y
    ensures x / ms * ms <= y / ms * ms
  {
    var q, r := x / ms, y / ms;
    assert x == q * ms + x % ms && y == r * ms + y % ms;
    if r + 1 <= q {
      TimesGrows(r + 1, q, ms);
    } else {
      TimesGrows(q, r, ms);
    }
  }

  lemma TickOk(a: Alert, e: Engine, reading: Reading, now: int, orderly: bool)
    requires AlertOk(a, e.moves, e.past, orderly) && OnTicks(a) && (orderly ==> now == e.past.clock)
    ensures AlertOk(a, JudgeTick(e, a, reading, now).0.moves, JudgeTick(e, a, reading, now).0.past, orderly)
  {
    TickBars(a, e.past, now, e, reading, orderly);
    if orderly {
      TickMoves(a, e, reading, now);
    }
  }

  lemma TickMoves(a: Alert, e: Engine, reading: Reading, now: int)
    requires MovesOk(a, HistoryOf(e.moves, a.id), HistoryOf(e.past.readings, a.id), e.past.clock)
    requires OnTicks(a) && now == e.past.clock
    ensures var after := JudgeTick(e, a, reading, now).0;
      MovesOk(a, HistoryOf(after.moves, a.id), HistoryOf(after.past.readings, a.id), after.past.clock)
  {
    var all := HistoryOf(e.past.readings, a.id);
    if a.condition.MovesBy? && !FiresNow(a, Get(e.last, a.id), HistoryOf(e.moves, a.id), reading, now) {
      OneMoreSample(all, (now, reading.value), WindowOf(a));
    }
  }

  lemma OneMoreSample(all: History, sample: Sample, window: nat)
    requires NeverBack(all) && (all != [] ==> all[|all| - 1].0 <= sample.0)
    ensures Pruned(all + [sample], window) == Within(Pruned(all, window) + [sample], sample.0, window)
    ensures NeverBack(all + [sample])
  {
    var more := all + [sample];
    assert more[..|all|] == all;
    forall i, j | 0 <= i < j < |more| ensures more[i].0 <= more[j].0 {
      if j == |all| {
        assert all[i].0 <= all[|all| - 1].0;
      }
    }
  }

  lemma TickBars(a: Alert, past: Past, now: int, e: Engine, reading: Reading, orderly: bool)
    requires e.past == past && OnTicks(a) && (orderly ==> now == past.clock)
    requires orderly ==> BarsOk(a, BarsOf(past.log, a.id), Get(past.lastBar, a.id)) && ClockOk(a, Get(past.lastBar, a.id), past.clock)
    ensures var after := JudgeTick(e, a, reading, now).0.past;
      orderly ==> BarsOk(a, BarsOf(after.log, a.id), Get(after.lastBar, a.id)) && ClockOk(a, Get(after.lastBar, a.id), after.clock)
  {
  }

  lemma OtherOk(a: Alert, e: Engine, after: Engine, orderly: bool)
    requires AlertOk(a, e.moves, e.past, orderly) && after.past.log == e.past.log && after.past.clock == e.past.clock
    requires Get(after.past.lastBar, a.id) == Get(e.past.lastBar, a.id)
    requires HistoryOf(after.moves, a.id) == HistoryOf(e.moves, a.id)
    requires HistoryOf(after.past.readings, a.id) == HistoryOf(e.past.readings, a.id)
    ensures AlertOk(a, after.moves, after.past, orderly)
  {
  }

  /** What judging changes: nothing of the book, the log or the clock, and nothing of another alert. */
  lemma JudgeElsewhere(e: Engine, g: Given, id: nat)
    ensures var after := Judge(e, g).0;
      && after.book == e.book && after.past.log == e.past.log && after.past.clock == e.past.clock
      && (id != g.id ==>
            && Get(after.past.lastBar, id) == Get(e.past.lastBar, id)
            && HistoryOf(after.moves, id) == HistoryOf(e.moves, id)
            && HistoryOf(after.past.readings, id) == HistoryOf(e.past.readings, id))
  {
  }

  predicate InOrder(e: Engine, g: Given, orderly: bool) {
    orderly ==> match g
      case Tick(_, _, now) => now == e.past.clock
      case Series(_, _) => NotBack(e, g)
  }

  lemma JudgedOk(e: Engine, g: Given, now: int, orderly: bool)
    requires Inv(e, orderly) && MayJudge(e, g, now) && InOrder(e, g, orderly)
    ensures var a, after := e.book.alerts[Find(e.book.alerts, g.id).value], Judge(e, g).0;
      AlertOk(a, after.moves, after.past, orderly)
  {
    var a := e.book.alerts[Find(e.book.alerts, g.id).value];
    assert AlertOk(a, e.moves, e.past, orderly);
    if g.Tick? {
      TickOk(a, e, g.reading, g.now, orderly);
    }
  }

  lemma JudgeKeeps(e: Engine, g: Given, now: int, orderly: bool)
    requires Inv(e, orderly) && MayJudge(e, g, now) && InOrder(e, g, orderly)
    ensures Inv(Judge(e, g).0, orderly)
  {
    var after := Judge(e, g).0;
    var place := Find(e.book.alerts, g.id).value;
    JudgeElsewhere(e, g, 0);
    forall i | 0 <= i < |after.book.alerts| ensures AlertOk(after.book.alerts[i], after.moves, after.past, orderly) {
      var a := e.book.alerts[i];
      if a.id == g.id {
        assert i == place;
        JudgedOk(e, g, now, orderly);
      } else {
        JudgeElsewhere(e, g, a.id);
        OtherOk(a, e, after, orderly);
      }
    }
  }

  lemma JudgeGivesFireable(e: Engine, g: Given, now: int, orderly: bool)
    requires MayJudge(e, g, now) && Judge(e, g).1.Some?
    ensures Fireable(Judge(e, g).0, Judge(e, g).1.value, orderly) && Judge(e, g).1.value.id == g.id
  {
    var a := e.book.alerts[Find(e.book.alerts, g.id).value];
    if g.Series? {
      JudgingIsLimited(a.condition, a.trigger, g.bars, a.createdAt, a.barKey, Get(e.last, a.id));
    }
  }

  ghost predicate AllFireable(e: Engine, hits: seq<Hit>, orderly: bool) {
    && (forall i | 0 <= i < |hits| :: Fireable(e, hits[i], orderly))
    && (forall i, j | 0 <= i < j < |hits| :: hits[i].id != hits[j].id)
  }

  ghost predicate Among(hits: seq<Hit>, given: seq<Given>) {
    forall i | 0 <= i < |hits| :: IdIn(given, hits[i].id)
  }

  ghost predicate IdIn(given: seq<Given>, id: nat) {
    exists j :: 0 <= j < |given| && given[j].id == id
  }

  predicate AllMay(e: Engine, given: seq<Given>, now: int, orderly: bool) {
    Apart(given) && forall i | 0 <= i < |given| :: MayJudge(e, given[i], now) && InOrder(e, given[i], orderly)
  }

  lemma FireableStays(e: Engine, g: Given, h: Hit, orderly: bool)
    requires Fireable(e, h, orderly) && h.id != g.id
    ensures Fireable(Judge(e, g).0, h, orderly)
  {
    JudgeElsewhere(e, g, h.id);
  }

  /** After a part of what was given, another alert has not been touched. */
  lemma {:induction false} JudgeAllElsewhere(e: Engine, given: seq<Given>, id: nat)
    requires forall i | 0 <= i < |given| :: given[i].id != id
    ensures var after := JudgeAll(e, given).0;
      after.book == e.book && after.past.clock == e.past.clock && Get(after.past.lastBar, id) == Get(e.past.lastBar, id)
  {
    if given != [] {
      JudgeAllElsewhere(e, given[..|given| - 1], id);
      JudgeElsewhere(JudgeAll(e, given[..|given| - 1]).0, given[|given| - 1], id);
    }
  }

  lemma StillMay(e: Engine, after: Engine, g: Given, now: int, orderly: bool)
    requires MayJudge(e, g, now) && InOrder(e, g, orderly)
    requires after.book == e.book && after.past.clock == e.past.clock && Get(after.past.lastBar, g.id) == Get(e.past.lastBar, g.id)
    ensures MayJudge(after, g, now) && InOrder(after, g, orderly)
  {
    assert g.id in after.past.lastBar <==> g.id in e.past.lastBar;
  }

  /** What is kept once some alerts were judged. */
  ghost predicate JudgedSoFar(after: Engine, hits: seq<Hit>, given: seq<Given>, orderly: bool) {
    Inv(after, orderly) && AllFireable(after, hits, orderly) && Among(hits, given)
  }

  lemma {:induction false} JudgeAllKeeps(e: Engine, given: seq<Given>, now: int, orderly: bool)
    requires Inv(e, orderly) && AllMay(e, given, now, orderly)
    ensures JudgedSoFar(JudgeAll(e, given).0, JudgeAll(e, given).1, given, orderly)
  {
    if given != [] {
      var some, g := given[..|given| - 1], given[|given| - 1];
      OneMoreMay(e, given, now, orderly);
      JudgeAllKeeps(e, some, now, orderly);
      OneMoreJudged(JudgeAll(e, some).0, some, JudgeAll(e, some).1, g, now, orderly);
      JudgeAllStep(e, given);
      assert some + [g] == given;
    }
  }

  lemma JudgeAllStep(e: Engine, given: seq<Given>)
    requires given != []
    ensures var (before, hits) := JudgeAll(e, given[..|given| - 1]);
      var (after, hit) := Judge(before, given[|given| - 1]);
      JudgeAll(e, given) == (after, MoreHits(hits, hit))
  {
  }

  lemma OneMoreJudged(before: Engine, some: seq<Given>, hits: seq<Hit>, g: Given, now: int, orderly: bool)
    requires JudgedSoFar(before, hits, some, orderly)
    requires MayJudge(before, g, now) && InOrder(before, g, orderly) && !IdIn(some, g.id)
    ensures JudgedSoFar(Judge(before, g).0, MoreHits(hits, Judge(before, g).1), some + [g], orderly)
  {
    JudgeKeeps(before, g, now, orderly);
    OneMoreHit(before, some, hits, g, now, orderly);
  }

  lemma OneMoreMay(e: Engine, given: seq<Given>, now: int, orderly: bool)
    requires given != [] && AllMay(e, given, now, orderly)
    ensures var some, g := given[..|given| - 1], given[|given| - 1];
      && AllMay(e, some, now, orderly) && !IdIn(some, g.id)
      && MayJudge(JudgeAll(e, some).0, g, now) && InOrder(JudgeAll(e, some).0, g, orderly)
  {
    var some, g := given[..|given| - 1], given[|given| - 1];
    JudgeAllElsewhere(e, some, g.id);
    StillMay(e, JudgeAll(e, some).0, g, now, orderly);
  }

  function MoreHits(hits: seq<Hit>, hit: Option<Hit>): seq<Hit> {
    if hit.Some? then hits + [hit.value] else hits
  }

  lemma OneMoreHit(before: Engine, some: seq<Given>, hits: seq<Hit>, g: Given, now: int, orderly: bool)
    requires AllFireable(before, hits, orderly) && Among(hits, some) && MayJudge(before, g, now)
    requires !IdIn(some, g.id)
    ensures AllFireable(Judge(before, g).0, MoreHits(hits, Judge(before, g).1), orderly)
    ensures Among(MoreHits(hits, Judge(before, g).1), some + [g])
  {
    var (after, hit) := Judge(before, g);
    forall i | 0 <= i < |hits| ensures Fireable(after, hits[i], orderly) && hits[i].id != g.id {
      assert IdIn(some, hits[i].id);
      FireableStays(before, g, hits[i], orderly);
    }
    if hit.Some? {
      JudgeGivesFireable(before, g, now, orderly);
    }
    StillAmong(hits, hit, some, g);
  }

  lemma StillAmong(hits: seq<Hit>, hit: Option<Hit>, some: seq<Given>, g: Given)
    requires Among(hits, some) && (hit.Some? ==> hit.value.id == g.id)
    ensures Among(MoreHits(hits, hit), some + [g])
  {
    assert (some + [g])[|some|].id == g.id;
    forall i | 0 <= i < |hits| ensures IdIn(some + [g], hits[i].id) {
      assert IdIn(some, hits[i].id);
      var j :| 0 <= j < |some| && some[j].id == hits[i].id;
      assert (some + [g])[j].id == hits[i].id;
    }
  }

  // ---- firing ----

  /** What a firing makes of its alert, and that it touches no other. */
  lemma FireOneBook(e: Engine, h: Hit, at: int)
    requires Sound(e.book) && Find(e.book.alerts, h.id).Some?
    ensures var after, i := FireOne(e, h, at), Find(e.book.alerts, h.id).value;
      && |after.book.alerts| == |e.book.alerts| && after.moves == e.moves
      && after.book.alerts[i] == Recorded(e.book.alerts[i], h.bar, at)
      && (forall j | 0 <= j < |e.book.alerts| && j != i :: after.book.alerts[j] == e.book.alerts[j])
      && after.past == e.past.(log := e.past.log + [Entry(h.id, h.bar)])
  {
  }

  function Recorded(a: Alert, bar: Option<int>, at: int): Alert {
    var fired := FiredOnce(a, at);
    fired.(barKey := if bar.Some? then bar else fired.barKey)
  }

  /** One more firing, on a bar it did not fire on, keeps the bars climbing. */
  lemma RecordedBarsOk(a: Alert, bars: seq<Option<int>>, lastBar: Option<int>, bar: Option<int>, at: int)
    requires BarsOk(a, bars, lastBar) && (Limited(a) ==> bar.Some? && a.barKey != bar && lastBar == bar)
    ensures BarsOk(Recorded(a, bar, at), bars + [bar], lastBar)
  {
  }

  lemma FiredAlertOk(a: Alert, e: Engine, h: Hit, at: int, orderly: bool)
    requires AlertOk(a, e.moves, e.past, orderly) && a.id == h.id && a.active
    requires orderly && Limited(a) ==> h.bar.Some? && a.barKey != h.bar && Get(e.past.lastBar, h.id) == h.bar
    ensures AlertOk(Recorded(a, h.bar, at), e.moves, e.past.(log := e.past.log + [Entry(h.id, h.bar)]), orderly)
  {
    BarsOneMore(e.past.log, Entry(h.id, h.bar), h.id);
    if orderly {
      RecordedBarsOk(a, BarsOf(e.past.log, a.id), Get(e.past.lastBar, a.id), h.bar, at);
      RecordedRestOk(a, e, h.bar, at);
    }
  }

  /** A firing has no part in what the clock and the history of moves are checked by. */
  lemma RecordedRestOk(a: Alert, e: Engine, bar: Option<int>, at: int)
    requires ClockOk(a, Get(e.past.lastBar, a.id), e.past.clock)
    requires MovesOk(a, HistoryOf(e.moves, a.id), HistoryOf(e.past.readings, a.id), e.past.clock)
    ensures ClockOk(Recorded(a, bar, at), Get(e.past.lastBar, a.id), e.past.clock)
    ensures MovesOk(Recorded(a, bar, at), HistoryOf(e.moves, a.id), HistoryOf(e.past.readings, a.id), e.past.clock)
  {
    assert WindowOf(Recorded(a, bar, at)) == WindowOf(a);
  }

  lemma FireOneKeeps(e: Engine, h: Hit, at: int, orderly: bool)
    requires Inv(e, orderly) && Fireable(e, h, orderly)
    ensures Inv(FireOne(e, h, at), orderly)
  {
    var after, place := FireOne(e, h, at), Find(e.book.alerts, h.id).value;
    FireOneBook(e, h, at);
    FireKeeps(e.book, h.id, h.value, at, h.bar);
    FiredAlertOk(e.book.alerts[place], e, h, at, orderly);
    forall i | 0 <= i < |after.book.alerts| ensures AlertOk(after.book.alerts[i], after.moves, after.past, orderly) {
      if i != place {
        var a := e.book.alerts[i];
        assert AlertOk(a, e.moves, e.past, orderly);
        BarsOneMore(e.past.log, Entry(h.id, h.bar), a.id);
        assert BarsOf(after.past.log, a.id) == BarsOf(e.past.log, a.id);
      }
    }
  }

  lemma FireableAfter(e: Engine, h: Hit, at: int, other: Hit, orderly: bool)
    requires Sound(e.book) && Fireable(e, h, orderly) && Fireable(e, other, orderly) && h.id != other.id
    ensures Fireable(FireOne(e, h, at), other, orderly)
  {
    FireOneBook(e, h, at);
    var after, i := FireOne(e, h, at), Find(e.book.alerts, other.id).value;
    assert after.book.alerts[i] == e.book.alerts[i];
    FireKeeps(e.book, h.id, h.value, at, h.bar);
    assert Find(after.book.alerts, other.id) == Some(i);
  }

  lemma {:induction false} FireAllKeeps(e: Engine, hits: seq<Hit>, at: int, orderly: bool)
    requires Inv(e, orderly) && AllFireable(e, hits, orderly)
    ensures Inv(FireAll(e, hits, at), orderly)
  {
    FireSomeKeeps(e, hits, |hits|, at, orderly);
    assert hits[..|hits|] == hits;
  }

  lemma {:induction false} FireSomeKeeps(e: Engine, hits: seq<Hit>, n: nat, at: int, orderly: bool)
    requires n <= |hits| && Inv(e, orderly) && AllFireable(e, hits, orderly)
    ensures Inv(FireAll(e, hits[..n], at), orderly)
    ensures forall i | n <= i < |hits| :: Fireable(FireAll(e, hits[..n], at), hits[i], orderly)
    decreases n
  {
    if n > 0 {
      FireSomeKeeps(e, hits, n - 1, at, orderly);
      assert hits[..n][..n - 1] == hits[..n - 1];
      var before := FireAll(e, hits[..n - 1], at);
      FireOneKeeps(before, hits[n - 1], at, orderly);
      forall i | n <= i < |hits| ensures Fireable(FireAll(e, hits[..n], at), hits[i], orderly) {
        FireableAfter(before, hits[n - 1], at, hits[i], orderly);
      }
    }
  }

  // ---- every step ----

  lemma ClockMoves(e: Engine, now: int, orderly: bool)
    requires Inv(e, orderly) && (orderly ==> now >= e.past.clock)
    ensures Inv(e.(past := e.past.(clock := now)), orderly)
  {
    var after := e.(past := e.past.(clock := now));
    forall i | 0 <= i < |e.book.alerts| ensures AlertOk(e.book.alerts[i], after.moves, after.past, orderly) {
      var a := e.book.alerts[i];
      assert AlertOk(a, e.moves, e.past, orderly);
      if orderly && a.frame.Grid? {
        FloorGrows(a.frame.ms, e.past.clock, now);
      }
    }
  }

  lemma Keeps(e: Engine, step: Step, orderly: bool)
    requires Inv(e, orderly) && Enabled(e, step) && (orderly ==> Orderly(e, step))
    ensures Inv(Next(e, step), orderly)
  {
    match step
    case Edit(book) =>
    case Poll(now) => PollKeeps(e, now, orderly);
    case Prices(now, given, at) =>
      ClockMoves(e, now, orderly);
      var ticking := e.(past := e.past.(clock := now));
      JudgeAllKeeps(ticking, given, now, orderly);
      FireAllKeeps(JudgeAll(ticking, given).0, JudgeAll(ticking, given).1, at, orderly);
    case Read(now, given, at) =>
      JudgeAllKeeps(e, given, now, orderly);
      FireAllKeeps(JudgeAll(e, given).0, JudgeAll(e, given).1, at, orderly);
  }

  lemma PollKeeps(e: Engine, now: int, orderly: bool)
    requires Inv(e, orderly)
    ensures Inv(Next(e, Step.Poll(now)), orderly)
  {
    var after := Next(e, Step.Poll(now));
    forall i | 0 <= i < |after.book.alerts| ensures AlertOk(after.book.alerts[i], after.moves, after.past, orderly) {
      assert AlertOk(e.book.alerts[i], e.moves, e.past, orderly);
    }
  }

  lemma {:induction false} EveryRunKeeps(e: Engine, steps: seq<Step>, orderly: bool)
    requires Inv(e, orderly) && CanRun(e, steps) && (orderly ==> AllOrderly(e, steps))
    ensures Inv(Run(e, steps), orderly)
    decreases |steps|
  {
    if steps != [] {
      Keeps(e, steps[0], orderly);
      EveryRunKeeps(Next(e, steps[0]), steps[1..], orderly);
    }
  }
}
