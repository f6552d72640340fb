/** The saved alerts: what an alert is, and how the book of them is repaired and changed. */
module AlertBook {
  import opened Wrappers
  import opened AlertEval

  const U64_MAX := 0xFFFF_FFFF_FFFF_FFFF
  const U32_MAX := 0xFFFF_FFFF
  const MAX_SAVED_ALERTS := 2_000
  const MAX_HISTORY := 200
  const SCHEMA_VERSION := 2
  const MAX_MINUTES := 24 * 60 * 30

  type Millis = n: int | n > 0 witness 1

  /** The timeframe of an alert, by its code: one with bars of a length, the ticks, or none we know. */
  datatype Frame = Grid(ms: Millis) | Ticks | Unknown

  const M15 := Grid(900_000)

  datatype PriceKind = Bid | Ask | Mid

  datatype PnlScope = Account | Symbol | Position(id: int)

  datatype Source =
    | Price(kind: PriceKind)
    | Indicator(study: int, plot: nat)
    | Drawing(id: nat)
    | Spread(pip: Num)
    | Pnl(scope: PnlScope)
  {
    predicate IsMeasure() {
      Spread? || Pnl?
    }

    predicate HasSymbol() {
      !(Pnl? && scope.Account?)
    }

    predicate Allows(condition: Condition) {
      match this
      case Spread(_) => !condition.ChangesDirection?
      case Pnl(_) => !condition.ChangesDirection? && !condition.MovesBy?
      case _ => true
    }
  }

  const DEFAULT_PIP := Finite(0.0001)

  datatype Alert = Alert(
    id: nat,
    symbolId: int,
    source: Source,
    price: Num,
    upper: Num,
    versus: Option<Source>,
    condition: Condition,
    trigger: Trigger,
    amount: Num,
    minutes: nat,
    frame: Frame,
    again: bool,               // the flag that stood for a trigger in the oldest layout
    active: bool,
    firedAt: Option<int>,
    firedCount: nat,
    createdAt: int,
    expiresAt: Option<int>,
    snoozedUntil: Option<int>,
    barKey: Option<int>)
  {
    predicate IsExpired(now: int) {
      expiresAt.Some? && now >= expiresAt.value
    }

    predicate IsSnoozed(now: int) {
      snoozedUntil.Some? && now < snoozedUntil.value
    }

    predicate IsLive(now: int) {
      active && !IsSnoozed(now) && !IsExpired(now)
    }

    predicate NeedsBars() {
      source.Indicator? || (versus.Some? && versus.value.Indicator?)
      || trigger.OncePerBarClose? || condition.ChangesDirection?
    }
  }

  datatype Firing = Firing(alert: nat, at: int, value: Num)

  datatype Book = Book(version: nat, nextId: nat, alerts: seq<Alert>, history: seq<Firing>)

  // ---- identifiers ----

  predicate Distinct(alerts: seq<Alert>) {
    forall i, j | 0 <= i < j < |alerts| :: alerts[i].id != alerts[j].id
  }

  /** Identifiers are unique, never zero, and under the next one to give. */
  predicate Sound(b: Book) {
    && Distinct(b.alerts)
    && (forall i | 0 <= i < |b.alerts| :: 0 < b.alerts[i].id < b.nextId)
  }

  function Find(alerts: seq<Alert>, id: nat): (r: Option<nat>)
    ensures r.Some? ==> r.value < |alerts| && alerts[r.value].id == id
    ensures r.Some? ==> forall i | 0 <= i < r.value :: alerts[i].id != id
    ensures r.None? ==> forall i | 0 <= i < |alerts| :: alerts[i].id != id
  {
    if alerts == [] then None
    else match Find(alerts[..|alerts| - 1], id)
      case Some(i) => Some(i)
      case None => if alerts[|alerts| - 1].id == id then Some(|alerts| - 1) else None
  }

  // ---- repairing a book read from a file ----

  predicate IsKept(a: Alert) {
    && (a.symbolId > 0 || !a.source.HasSymbol())
    && (a.condition.NeedsLevel() && a.versus.None? ==>
          a.price.Finite? && (a.price.x > 0.0 || a.source.Indicator? || a.source.IsMeasure()))
  }

  function Repaired(a: Alert): Alert {
    var measured := if a.source.IsMeasure() then
      a.(versus := None,
         condition := if a.source.Allows(a.condition) then a.condition else Crossing,
         trigger := if a.trigger.OncePerBarClose? then EveryTime else a.trigger)
    else a;
    measured.(
      source := if a.source.Spread? && !(a.source.pip.Finite? && a.source.pip.x > 0.0) then Spread(DEFAULT_PIP) else a.source,
      trigger := if a.again && measured.trigger.Once? then EveryTime else measured.trigger,
      again := false,
      upper := if a.upper.Finite? then a.upper else Finite(0.0),
      amount := if a.amount.Finite? && a.amount.x >= 0.0 then a.amount else Finite(0.0),
      minutes := if a.minutes <= MAX_MINUTES then a.minutes else MAX_MINUTES,
      frame := if a.frame.Unknown? then M15 else a.frame)
  }

  function Kept(alerts: seq<Alert>): seq<Alert> {
    if alerts == [] then []
    else
      var rest, last := Kept(alerts[..|alerts| - 1]), alerts[|alerts| - 1];
      if IsKept(last) then rest + [last] else rest
  }

  function AllRepaired(alerts: seq<Alert>): (r: seq<Alert>)
    ensures |r| == |alerts|
    ensures forall i | 0 <= i < |alerts| :: r[i] == Repaired(alerts[i])
  {
    seq(|alerts|, i requires 0 <= i < |alerts| => Repaired(alerts[i]))
  }

  function Truncated<T>(s: seq<T>, n: nat): seq<T> {
    if |s| <= n then s else s[..n]
  }

  /** One over the largest identifier, and at least the one to start from. */
  function NextAfter(alerts: seq<Alert>, start: nat): nat {
    if alerts == [] then start
    else
      var rest, last := NextAfter(alerts[..|alerts| - 1], start), alerts[|alerts| - 1].id + 1;
      if last > rest then last else rest
  }

  /** Whether the identifier at a place has to be given again: it is zero, or one before it has it. */
  predicate NeedsNewId(alerts: seq<Alert>, i: nat)
    requires i < |alerts|
  {
    alerts[i].id == 0 || exists j :: 0 <= j < i && alerts[j].id == alerts[i].id
  }

  /** How many identifiers among the first n have to be given again. */
  function NewIds(alerts: seq<Alert>, n: nat): nat
    requires n <= |alerts|
  {
    if n == 0 then 0 else NewIds(alerts, n - 1) + if NeedsNewId(alerts, n - 1) then 1 else 0
  }

  /** Each identifier to give again gets the next free one, in order; the others stay. */
  function Renumbered(alerts: seq<Alert>, next: nat): seq<Alert> {
    seq(|alerts|, i requires 0 <= i < |alerts| => RenumberedAt(alerts, next, i))
  }

  function RenumberedAt(alerts: seq<Alert>, next: nat, i: nat): Alert
    requires i < |alerts|
  {
    if NeedsNewId(alerts, i) then alerts[i].(id := next + NewIds(alerts, i)) else alerts[i]
  }

  lemma {:induction false} NextIsOver(alerts: seq<Alert>, start: nat)
    ensures NextAfter(alerts, start) >= start
    ensures forall i | 0 <= i < |alerts| :: alerts[i].id < NextAfter(alerts, start)
    ensures NextAfter(alerts, start) == start || exists i :: 0 <= i < |alerts| && NextAfter(alerts, start) == alerts[i].id + 1
  {
    if alerts != [] {
      var rest := alerts[..|alerts| - 1];
      NextIsOver(rest, start);
      forall i | 0 <= i < |rest| ensures alerts[i] == rest[i] {
      }
    }
  }

  /** What of the alerts of a file goes on: at most so many of those that can be, each repaired. */
  function Selected(alerts: seq<Alert>): seq<Alert> {
    AllRepaired(Truncated(Kept(alerts), MAX_SAVED_ALERTS))
  }

  /** The repaired book. An identifier that does not fit in 64 bits stops the program: then there is none. */
  function Normalized(b: Book): Option<Book> {
    var alerts := Selected(b.alerts);
    var next := NextAfter(alerts, if b.nextId >= 1 then b.nextId else 1);
    var after := next + NewIds(alerts, |alerts|);
    if after > U64_MAX then None
    else Some(Book(SCHEMA_VERSION, after, Renumbered(alerts, next), Truncated(b.history, MAX_HISTORY)))
  }

  predicate Fit(alerts: seq<Alert>) {
    forall i | 0 <= i < |alerts| :: alerts[i].id <= U64_MAX
  }

  /** The first loop: one over the largest identifier, or None when that does not fit. */
  method FirstFree(alerts: seq<Alert>, start: nat) returns (r: Option<nat>)
    requires start <= U64_MAX && Fit(alerts)
    ensures r == if NextAfter(alerts, start) > U64_MAX then None else Some(NextAfter(alerts, start))
  {
    var next := start;
    var i := 0;
    while i < |alerts|
      invariant 0 <= i <= |alerts| && next == NextAfter(alerts[..i], start) <= U64_MAX
    {
      assert alerts[..i + 1][..i] == alerts[..i];
      if alerts[i].id + 1 > U64_MAX {
        NextIsOver(alerts, start);
        return None;
      }
      next := if alerts[i].id + 1 > next then alerts[i].id + 1 else next;
      i := i + 1;
    }
    assert alerts[..i] == alerts;
    return Some(next);
  }

  /** The second loop: with the identifiers seen so far, gives again those that are zero or were seen. */
  method GiveAgain(alerts: seq<Alert>, first: nat) returns (r: Option<(seq<Alert>, nat)>)
    requires first <= U64_MAX && Fit(alerts)
    ensures var after := first + NewIds(alerts, |alerts|);
      r == if after > U64_MAX then None else Some((Renumbered(alerts, first), after))
  {
    var next := first;
    var seen: set<nat> := {};
    var done: seq<Alert> := [];
    var i := 0;
    while i < |alerts|
      invariant 0 <= i <= |alerts|
      invariant next == first + NewIds(alerts, i) <= U64_MAX
      invariant seen == set j | 0 <= j < i && alerts[j].id != 0 :: alerts[j].id
      invariant done == Renumbered(alerts, first)[..i]
    {
      var id := alerts[i].id;
      var again := id == 0 || id in seen;
      assert again == NeedsNewId(alerts, i);
      assert Renumbered(alerts, first)[..i + 1] == Renumbered(alerts, first)[..i] + [RenumberedAt(alerts, first, i)];
      if again {
        if next + 1 > U64_MAX {
          NewIdsGrow(alerts, i + 1, |alerts|);
          return None;
        }
        done := done + [alerts[i].(id := next)];
        next := next + 1;
      } else {
        done := done + [alerts[i]];
      }
      if id != 0 {
        seen := seen + {id};
      }
      i := i + 1;
    }
    assert Renumbered(alerts, first)[..i] == Renumbered(alerts, first);
    return Some((done, next));
  }

  method GiveIds(alerts: seq<Alert>, nextId: nat) returns (r: Option<(seq<Alert>, nat)>)
    requires nextId <= U64_MAX && Fit(alerts)
    ensures var next := NextAfter(alerts, if nextId >= 1 then nextId else 1);
            var after := next + NewIds(alerts, |alerts|);
      r == if after > U64_MAX then None else Some((Renumbered(alerts, next), after))
  {
    var next := FirstFree(alerts, if nextId >= 1 then nextId else 1);
    if next.None? {
      return None;
    }
    r := GiveAgain(alerts, next.value);
  }

  lemma {:induction false} NewIdsGrow(alerts: seq<Alert>, m: nat, n: nat)
    requires m <= n <= |alerts|
    ensures NewIds(alerts, m) <= NewIds(alerts, n)
  {
    if m < n {
      NewIdsGrow(alerts, m, n - 1);
    }
  }

  // ---- changing the book ----

  function IdFor(b: Book): nat {
    if b.nextId >= 1 then b.nextId else 1
  }

  function Added(b: Book, alert: Alert): Book {
    b.(nextId := IdFor(b) + 1, alerts := b.alerts + [alert.(id := IdFor(b))])
  }

  /** None is an overflow of the identifier; a full book is left alone and gives no identifier. */
  function Insert(b: Book, alert: Alert, limit: nat): Option<(Book, Option<nat>)> {
    var most := if limit < 1 then 1 else if limit > MAX_SAVED_ALERTS then MAX_SAVED_ALERTS else limit;
    if |b.alerts| >= most then Some((b, None))
    else if IdFor(b) + 1 > U64_MAX then None
    else Some((Added(b, alert), Some(IdFor(b))))
  }

  function Without(alerts: seq<Alert>, id: nat): seq<Alert> {
    if alerts == [] then []
    else
      var rest, last := Without(alerts[..|alerts| - 1], id), alerts[|alerts| - 1];
      if last.id == id then rest else rest + [last]
  }

  function Remove(b: Book, id: nat): Book {
    b.(alerts := Without(b.alerts, id))
  }

  /** The alert after a firing: its time, a count that saturates, and off when its trigger is Once. */
  function FiredOnce(a: Alert, now: int): Alert {
    a.(firedAt := Some(now),
       firedCount := if a.firedCount < U32_MAX then a.firedCount + 1 else U32_MAX,
       active := a.active && !a.trigger.Once?)
  }

  function Fire(b: Book, id: nat, value: Num, now: int): (r: Book)
    ensures |r.history| <= MAX_HISTORY || r == b
  {
    match Find(b.alerts, id)
    case None => b
    case Some(i) =>
      b.(alerts := b.alerts[i := FiredOnce(b.alerts[i], now)],
         history := Truncated([Firing(id, now, value)] + b.history, MAX_HISTORY))
  }

  function SetBarKey(b: Book, id: nat, bar: Option<int>): Book {
    match Find(b.alerts, id)
    case None => b
    case Some(i) => b.(alerts := b.alerts[i := b.alerts[i].(barKey := if bar.Some? then bar else b.alerts[i].barKey)])
  }

  function OutOfTime(a: Alert, now: int): bool {
    a.active && a.IsExpired(now)
  }

  function Expired(alerts: seq<Alert>, now: int): (r: seq<Alert>)
    ensures |r| == |alerts|
    ensures forall i | 0 <= i < |alerts| ::
              r[i] == if OutOfTime(alerts[i], now) then alerts[i].(active := false) else alerts[i]
  {
    seq(|alerts|, i requires 0 <= i < |alerts| =>
      if OutOfTime(alerts[i], now) then alerts[i].(active := false) else alerts[i])
  }

  function Gone(alerts: seq<Alert>, now: int): seq<nat> {
    if alerts == [] then []
    else
      var rest, last := Gone(alerts[..|alerts| - 1], now), alerts[|alerts| - 1];
      if OutOfTime(last, now) then rest + [last.id] else rest
  }

  /** Switches off exactly the active alerts that are out of time; gone lists them in the order of the book. */
  method Expire(alerts: seq<Alert>, now: int) returns (after: seq<Alert>, gone: seq<nat>)
    ensures after == Expired(alerts, now) && gone == Gone(alerts, now)
  {
    after, gone := alerts, [];
    var i := 0;
    while i < |alerts|
      invariant 0 <= i <= |alerts| == |after|
      invariant forall j | 0 <= j < i :: after[j] == Expired(alerts, now)[j]
      invariant forall j | i <= j < |alerts| :: after[j] == alerts[j]
      invariant gone == Gone(alerts[..i], now)
    {
      assert alerts[..i + 1][..i] == alerts[..i];
      if after[i].active && after[i].IsExpired(now) {
        after := after[i := after[i].(active := false)];
        gone := gone + [after[i].id];
      }
      i := i + 1;
    }
    assert alerts[..i] == alerts;
  }
}
