/** When a pair of readings, a history or a series of bars makes an alert hit. */
module AlertEval {
  import opened Wrappers

  /** A number of the engine: a real one, or one that is not finite (no number, or an infinity). */
  datatype Num = Finite(x: real) | NotFinite

  datatype Condition =
    | CrossingUp | CrossingDown | Crossing | Above | Below | EntersZone | ExitsZone | MovesBy | ChangesDirection
  {
    predicate NeedsLevel() {
      !MovesBy? && !ChangesDirection?
    }
  }

  datatype Trigger = Once | EveryTime | OncePerBar | OncePerBarClose

  datatype Reading = Reading(value: Num, level: Num, upper: Option<Num>) {
    predicate IsFinite() {
      value.Finite? && level.Finite? && (upper.Some? ==> upper.value.Finite?)
    }

    /** How far the value is over the level. */
    function Over(): real
      requires IsFinite()
    {
      value.x - level.x
    }

    function Low(): real
      requires IsFinite() && upper.Some?
    {
      if level.x <= upper.value.x then level.x else upper.value.x
    }

    function High(): real
      requires IsFinite() && upper.Some?
    {
      if level.x <= upper.value.x then upper.value.x else level.x
    }

    function Inside(): Option<bool>
      requires IsFinite()
    {
      if upper.None? then None else Some(Low() <= value.x <= High())
    }
  }

  function Fired(condition: Condition, before: Reading, now: Reading): bool {
    if !before.IsFinite() || !now.IsFinite() then false
    else
      var d0, d1 := before.Over(), now.Over();
      match condition
      case CrossingUp => d0 < 0.0 && d1 >= 0.0
      case CrossingDown => d0 > 0.0 && d1 <= 0.0
      case Crossing => (d0 < 0.0 && d1 >= 0.0) || (d0 > 0.0 && d1 <= 0.0)
      case Above => d0 <= 0.0 && d1 > 0.0
      case Below => d0 >= 0.0 && d1 < 0.0
      case EntersZone => before.Inside() == Some(false) && now.Inside() == Some(true)
      case ExitsZone => before.Inside() == Some(true) && now.Inside() == Some(false)
      case _ => false
  }

  // ---- the rules seen in a mirror, and over a stream of readings ----

  function Negated(n: Num): Num {
    match n
    case Finite(x) => Finite(-x)
    case NotFinite => NotFinite
  }

  function Mirrored(r: Reading): Reading {
    Reading(Negated(r.value), Negated(r.level), if r.upper.Some? then Some(Negated(r.upper.value)) else None)
  }

  function MirrorOf(c: Condition): Condition {
    match c
    case CrossingUp => CrossingDown
    case CrossingDown => CrossingUp
    case Above => Below
    case Below => Above
    case _ => c
  }

  /** Up and down are the same rule in a mirror, and leaving a zone is entering it backwards. */
  lemma RulesAreSymmetric(c: Condition, before: Reading, now: Reading)
    ensures Fired(c, before, now) == Fired(MirrorOf(c), Mirrored(before), Mirrored(now))
    ensures Fired(EntersZone, before, now) == Fired(ExitsZone, now, before)
    ensures Fired(Crossing, before, now) == (Fired(CrossingUp, before, now) || Fired(CrossingDown, before, now))
    ensures !(Fired(CrossingUp, before, now) && Fired(CrossingDown, before, now))
  {
  }

  function Firings(c: Condition, readings: seq<Reading>): nat {
    if |readings| < 2 then 0
    else
      var last := if Fired(c, readings[|readings| - 2], readings[|readings| - 1]) then 1 else 0;
      Firings(c, readings[..|readings| - 1]) + last
  }

  /**
   Over any stream of finite readings that are never right on the level, rising above it and falling
   below it take turns, so their firings never differ by more than one; and crossing counts both.
   */
  lemma {:induction false} FiringsTakeTurns(readings: seq<Reading>)
    requires |readings| > 0 && forall i | 0 <= i < |readings| :: readings[i].IsFinite() && readings[i].Over() != 0.0
    ensures var ups, downs := Firings(Above, readings), Firings(Below, readings);
            var first, last := readings[0].Over(), readings[|readings| - 1].Over();
      ups as int - downs as int == (if last > 0.0 then 1 else 0) - (if first > 0.0 then 1 else 0)
    ensures Firings(CrossingUp, readings) == Firings(Above, readings)
    ensures Firings(CrossingDown, readings) == Firings(Below, readings)
    ensures Firings(Crossing, readings) == Firings(Above, readings) + Firings(Below, readings)
  {
    if |readings| > 1 {
      FiringsTakeTurns(readings[..|readings| - 1]);
    }
  }

  // ---- a move ----

  type Sample = (int, Num)

  predicate MovedFrom(then_: Num, now: real, pct: real) {
    then_.Finite? && then_.x != 0.0 &&
    var share := (now - then_.x) / then_.x;
    (if share < 0.0 then -share else share) * 100.0 >= pct
  }

  predicate SomeMove(history: seq<Sample>, at: int, now: real, window: int, pct: real) {
    exists i :: 0 <= i < |history| && at - history[i].0 <= window && MovedFrom(history[i].1, now, pct)
  }

  /** Some sample no older than the window differs from the last by at least this share of itself. */
  predicate Moved(history: seq<Sample>, window: int, pct: Num) {
    history != [] &&
    var (at, now) := history[|history| - 1];
    pct.Finite? && pct.x > 0.0 && now.Finite? && SomeMove(history, at, now.x, window, pct.x)
  }

  // ---- a change of direction ----

  predicate DirectionChanged(a: Num, b: Num, c: Num) {
    a.Finite? && b.Finite? && c.Finite?
    && ((b.x - a.x > 0.0 && c.x - b.x < 0.0) || (b.x - a.x < 0.0 && c.x - b.x > 0.0))
  }

  /** It turned around exactly when the middle is a strict peak or a strict bottom, whichever way it is read. */
  lemma ATurnIsAPeak(a: Num, b: Num, c: Num)
    ensures DirectionChanged(a, b, c) == DirectionChanged(c, b, a)
    ensures DirectionChanged(a, b, c) == DirectionChanged(Negated(a), Negated(b), Negated(c))
    ensures a.Finite? && b.Finite? && c.Finite? ==>
              (DirectionChanged(a, b, c) <==> (b.x > a.x && b.x > c.x) || (b.x < a.x && b.x < c.x))
  {
  }

  // ---- bars ----

  /** `series[index]`, or no number past its end. */
  function At(series: seq<Num>, index: nat): Num {
    if index < |series| then series[index] else NotFinite
  }

  datatype Bars = Bars(times: seq<int>, value: seq<Num>, level: seq<Num>, upper: Option<Num>)

  datatype Judged = Judged(fired: bool, bar: int, reading: Reading)

  function ReadingAt(b: Bars, i: nat): Reading {
    Reading(At(b.value, i), At(b.level, i), b.upper)
  }

  predicate OnClosedBars(condition: Condition, trigger: Trigger) {
    trigger == OncePerBarClose || condition == ChangesDirection
  }

  /** Whether there are enough bars, with a value and a level for each. */
  predicate CanJudge(b: Bars) {
    |b.times| >= 4 && |b.value| == |b.times| && |b.level| == |b.times|
  }

  /** Second to last for conditions on closed bars, else last. */
  function JudgedAt(condition: Condition, trigger: Trigger, b: Bars): (at: nat)
    requires CanJudge(b)
    ensures 2 <= at < |b.times|
  {
    if OnClosedBars(condition, trigger) then |b.times| - 2 else |b.times| - 1
  }

  function JudgeBars(condition: Condition, trigger: Trigger, b: Bars, createdAt: int, barKey: Option<int>,
                     last: Option<Reading>): (r: Option<Judged>)
    ensures r.Some? <==> CanJudge(b)
  {
    if !CanJudge(b) then None
    else
      var closed := OnClosedBars(condition, trigger);
      var at := JudgedAt(condition, trigger, b);
      var bar := b.times[at];
      var before := if closed then Some(ReadingAt(b, at - 1)) else last;
      var hit :=
        if condition == ChangesDirection then DirectionChanged(At(b.value, at - 2), At(b.value, at - 1), At(b.value, at))
        else before.Some? && Fired(condition, before.value, ReadingAt(b, at));
      var limited :=
        if closed then hit && barKey != Some(bar) && at + 1 < |b.times| && b.times[at + 1] >= createdAt
        else if trigger == OncePerBar then hit && barKey != Some(bar)
        else hit;
      Some(Judged(limited, bar, ReadingAt(b, at)))
  }

  /**
   Three guards, for every input: no hit on the stored bar key when the trigger or the condition goes
   by bar; no hit on a closed bar whose successor opened before the alert was created; and no hit on a
   forming bar without an earlier reading.
   */
  lemma JudgingIsLimited(condition: Condition, trigger: Trigger, b: Bars, createdAt: int, barKey: Option<int>,
                         last: Option<Reading>)
    requires CanJudge(b)
    ensures var j := JudgeBars(condition, trigger, b, createdAt, barKey, last).value;
      && (j.fired && (trigger == OncePerBar || OnClosedBars(condition, trigger)) ==> barKey != Some(j.bar))
      && (j.fired && OnClosedBars(condition, trigger) ==>
            j.bar == b.times[|b.times| - 2] && b.times[|b.times| - 1] >= createdAt)
      && (!OnClosedBars(condition, trigger) && last.None? ==> !j.fired)
  {
  }
}
