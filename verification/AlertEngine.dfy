/**
 The live alerts over a run: readings judged as they come, firings recorded, and the edits that make
 an alert start again. Judging comes first for all the alerts a price or some bars concern, then
 the firings, as the source does.
 */
module AlertEngine {
  import opened Wrappers
  import opened AlertEval
  import opened AlertMoves
  import opened AlertBook

  /** History of the run since the last edit: the firings, every reading of a move, the last bar looked at. */
  datatype Past = Past(log: seq<Entry>, readings: map<nat, History>, lastBar: map<nat, int>, clock: int)

  datatype Entry = Entry(id: nat, bar: Option<int>)

  datatype Engine = Engine(book: Book, last: map<nat, Reading>, moves: map<nat, History>, past: Past)

  datatype Hit = Hit(id: nat, value: Num, bar: Option<int>)

  function Get<V>(m: map<nat, V>, id: nat): Option<V> {
    if id in m then Some(m[id]) else None
  }

  function HistoryOf(m: map<nat, History>, id: nat): History {
    if id in m then m[id] else []
  }

  // ---- an alert on a reading ----

  function WindowOf(a: Alert): nat {
    (if a.minutes < 1 then 1 else a.minutes) * 60_000
  }

  /** The start of the grid cell a time falls in; ticks and unknown codes have no grid. */
  function BarAt(frame: Frame, now: int): Option<int> {
    match frame
    case Grid(ms) => Some(now / ms * ms)
    case _ => None
  }

  /** Whether readings, rather than series of bars, are what decides the alert. */
  predicate OnTicks(a: Alert) {
    (!a.NeedsBars() && (a.source.Price? || a.source.Spread?)) || a.source.Pnl?
  }

  predicate OnBars(a: Alert) {
    a.NeedsBars() && !a.source.IsMeasure()
  }

  function Samples(a: Alert, kept: History, reading: Reading, now: int): History {
    Within(kept + [(now, reading.value)], now, WindowOf(a))
  }

  predicate Hits(a: Alert, before: Option<Reading>, kept: History, reading: Reading, now: int) {
    if a.condition.MovesBy? then Moved(Samples(a, kept, reading, now), WindowOf(a), a.amount)
    else before.Some? && Fired(a.condition, before.value, reading)
  }

  predicate ByBar(a: Alert, now: int) {
    a.trigger.OncePerBar? && BarAt(a.frame, now).Some? && a.barKey == BarAt(a.frame, now)
  }

  predicate FiresNow(a: Alert, before: Option<Reading>, kept: History, reading: Reading, now: int) {
    Hits(a, before, kept, reading, now) && !ByBar(a, now)
  }

  function JudgeTick(e: Engine, a: Alert, reading: Reading, now: int): (Engine, Option<Hit>) {
    var id, kept, all := a.id, HistoryOf(e.moves, a.id), HistoryOf(e.past.readings, a.id);
    var fires := FiresNow(a, Get(e.last, id), kept, reading, now);
    var moves := if a.condition.MovesBy? then e.moves[id := Samples(a, kept, reading, now)] else e.moves;
    var readings :=
      if a.condition.MovesBy? then e.past.readings[id := all + [(now, reading.value)]] else e.past.readings;
    var bar := BarAt(a.frame, now);
    var past := e.past.(
      readings := if fires then readings - {id} else readings,
      lastBar := if bar.Some? then e.past.lastBar[id := bar.value] else e.past.lastBar);
    (e.(last := e.last[id := reading], moves := if fires then moves - {id} else moves, past := past),
     if fires then Some(Hit(id, reading.value, bar)) else None)
  }

  function JudgeBar(e: Engine, a: Alert, bars: Bars): (Engine, Option<Hit>) {
    match JudgeBars(a.condition, a.trigger, bars, a.createdAt, a.barKey, Get(e.last, a.id))
    case None => (e, None)
    case Some(j) =>
      (e.(last := e.last[a.id := j.reading], past := e.past.(lastBar := e.past.lastBar[a.id := j.bar])),
       if j.fired then Some(Hit(a.id, j.reading.value, Some(j.bar))) else None)
  }

  // ---- all the alerts a price or some bars concern ----

  /** What an alert is given to judge: a reading, or the bars of its timeframe. */
  datatype Given = Tick(id: nat, reading: Reading, now: int) | Series(id: nat, bars: Bars)

  function Judge(e: Engine, g: Given): (Engine, Option<Hit>) {
    match Find(e.book.alerts, g.id)
    case None => (e, None)
    case Some(i) =>
      match g
      case Tick(_, reading, now) => JudgeTick(e, e.book.alerts[i], reading, now)
      case Series(_, bars) => JudgeBar(e, e.book.alerts[i], bars)
  }

  function JudgeAll(e: Engine, given: seq<Given>): (Engine, seq<Hit>) {
    if given == [] then (e, [])
    else
      var (before, hits) := JudgeAll(e, given[..|given| - 1]);
      var (after, hit) := Judge(before, given[|given| - 1]);
      (after, if hit.Some? then hits + [hit.value] else hits)
  }

  function FireOne(e: Engine, h: Hit, at: int): Engine {
    if Find(e.book.alerts, h.id).None? then e
    else e.(book := SetBarKey(Fire(e.book, h.id, h.value, at), h.id, h.bar),
            past := e.past.(log := e.past.log + [Entry(h.id, h.bar)]))
  }

  function FireAll(e: Engine, hits: seq<Hit>, at: int): Engine {
    if hits == [] then e else FireOne(FireAll(e, hits[..|hits| - 1], at), hits[|hits| - 1], at)
  }

  // ---- the steps ----

  datatype Step =
    | Edit(book: Book)
    | Poll(now: int)
    | Prices(now: int, given: seq<Given>, at: int)
    | Read(now: int, given: seq<Given>, at: int)

  predicate Apart(given: seq<Given>) {
    forall i, j | 0 <= i < j < |given| :: given[i].id != given[j].id
  }

  /** What is judged is an alert that is on, not asleep and in time, on what it follows. */
  predicate MayJudge(e: Engine, g: Given, now: int) {
    var place := Find(e.book.alerts, g.id);
    place.Some? &&
    var a := e.book.alerts[place.value];
    a.IsLive(now) && match g
      case Tick(_, _, at) => OnTicks(a) && at == now
      case Series(_, _) => OnBars(a)
  }

  predicate Enabled(e: Engine, step: Step) {
    match step
    case Edit(book) => Sound(book)
    case Poll(now) => true
    case Prices(now, given, at) =>
      Apart(given) && forall i | 0 <= i < |given| :: given[i].Tick? && MayJudge(e, given[i], now)
    case Read(now, given, at) =>
      Apart(given) && forall i | 0 <= i < |given| :: given[i].Series? && MayJudge(e, given[i], now)
  }

  function Judging(e: Engine, given: seq<Given>, at: int): Engine {
    var (judged, hits) := JudgeAll(e, given);
    FireAll(judged, hits, at)
  }

  function Next(e: Engine, step: Step): Engine {
    match step
    case Edit(book) => Engine(book, map[], map[], Past([], map[], map[], e.past.clock))
    case Poll(now) => e.(book := e.book.(alerts := Expired(e.book.alerts, now)))
    case Prices(now, given, at) => Judging(e.(past := e.past.(clock := now)), given, at)
    case Read(now, given, at) => Judging(e, given, at)
  }

  predicate CanRun(e: Engine, steps: seq<Step>)
    decreases |steps|
  {
    steps == [] || (Enabled(e, steps[0]) && CanRun(Next(e, steps[0]), steps[1..]))
  }

  function Run(e: Engine, steps: seq<Step>): Engine
    decreases |steps|
  {
    if steps == [] then e else Run(Next(e, steps[0]), steps[1..])
  }

  /** Neither the clock nor the bars that are read go back. */
  predicate Orderly(e: Engine, step: Step) {
    match step
    case Prices(now, given, at) => now >= e.past.clock
    case Read(now, given, at) => forall i | 0 <= i < |given| :: given[i].Series? ==> NotBack(e, given[i])
    case _ => true
  }

  predicate NotBack(e: Engine, g: Given)
    requires g.Series?
  {
    var place := Find(e.book.alerts, g.id);
    place.Some? && CanJudge(g.bars) && g.id in e.past.lastBar ==>
      var a := e.book.alerts[place.value];
      e.past.lastBar[g.id] <= g.bars.times[JudgedAt(a.condition, a.trigger, g.bars)]
  }

  predicate AllOrderly(e: Engine, steps: seq<Step>)
    decreases |steps|
  {
    steps == [] || (Orderly(e, steps[0]) && AllOrderly(Next(e, steps[0]), steps[1..]))
  }
}
