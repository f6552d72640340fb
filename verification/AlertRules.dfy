/**
 The rules of the alerts in plain numbers: when each condition fires, what a tick, a firing and a
 repair make of an alert, and what stays in the book.
 */
module AlertRules {
  import opened Wrappers
  import opened AlertEval
  import opened AlertMoves
  import opened AlertBook
  import opened AlertEngine

  // ---- when a condition fires ----

  function At(value: real, level: real, upper: Option<real>): Reading {
    Reading(Finite(value), Finite(level), if upper.Some? then Some(Finite(upper.value)) else None)
  }

  /**
   A value that reaches its level from below crosses up, and one that reaches it from above crosses
   down, right on the level too; rising above it or falling below it may start on the level but must
   leave it.
   */
  lemma WhenALevelFires(v: real, l: real, u: Option<real>, w: real, m: real, x: Option<real>)
    ensures var before, now := At(v, l, u), At(w, m, x);
      && (Fired(CrossingUp, before, now) <==> v < l && m <= w)
      && (Fired(CrossingDown, before, now) <==> l < v && w <= m)
      && (Fired(Crossing, before, now) <==> (v < l && m <= w) || (l < v && w <= m))
      && (Fired(Above, before, now) <==> v <= l && m < w)
      && (Fired(Below, before, now) <==> l <= v && w < m)
      && !Fired(MovesBy, before, now) && !Fired(ChangesDirection, before, now)
  {
  }

  /** Between the two sides, on either of them too, whichever is the lower. */
  predicate Between(v: real, a: real, b: real) {
    (a <= v && v <= b) || (b <= v && v <= a)
  }

  /** Under both sides, or over both. */
  predicate Outside(v: real, a: real, b: real) {
    (v < a && v < b) || (v > a && v > b)
  }

  /** A zone is entered from outside and left from inside; without its second side, before or now, neither fires. */
  lemma WhenAZoneFires(v: real, l: real, u: Option<real>, w: real, m: real, x: Option<real>)
    ensures var before, now := At(v, l, u), At(w, m, x);
      && (Fired(EntersZone, before, now) <==> u.Some? && x.Some? && Outside(v, l, u.value) && Between(w, m, x.value))
      && (Fired(ExitsZone, before, now) <==> u.Some? && x.Some? && Between(v, l, u.value) && Outside(w, m, x.value))
  {
  }

  predicate HasNoNumber(r: Reading) {
    r.value.NotFinite? || r.level.NotFinite? || (r.upper.Some? && r.upper.value.NotFinite?)
  }

  /** A reading with something that is not a number fires nothing, as the earlier one or the later. */
  lemma NothingFiresWithoutNumbers(c: Condition, before: Reading, now: Reading)
    requires HasNoNumber(before) || HasNoNumber(now)
    ensures !Fired(c, before, now)
  {
  }

  function Distance(a: real, b: real): real { if a < b then b - a else a - b }

  /** A move counts up and down alike: the distance is at least that many hundredths of what it was; from zero none is. */
  lemma WhenAMoveCounts(then_: real, now: real, pct: real)
    ensures MovedFrom(Finite(then_), now, pct) <==> then_ != 0.0 && 100.0 * Distance(then_, now) >= pct * Distance(then_, 0.0)
    ensures !MovedFrom(NotFinite, now, pct)
  {
    if then_ != 0.0 {
      var share := (now - then_) / then_;
      assert share * then_ == now - then_;
      ShareOfDistance(share, then_, pct);
    }
  }

  lemma ShareOfDistance(share: real, of: real, pct: real)
    requires of != 0.0
    ensures (if share < 0.0 then -share else share) * 100.0 >= pct
       <==> 100.0 * Distance(of, of + share * of) >= pct * Distance(of, 0.0)
  {
    var size, base := if share < 0.0 then -share else share, Distance(of, 0.0);
    DistanceIsShare(share, of);
    if size * 100.0 >= pct {
      TimesKeeps(pct, size * 100.0, base);
    } else {
      TimesKeepsLess(size * 100.0, pct, base);
    }
  }

  lemma DistanceIsShare(share: real, of: real)
    ensures 100.0 * Distance(of, of + share * of) == (if share < 0.0 then -share else share) * 100.0 * Distance(of, 0.0)
  {
    if share >= 0.0 {
      SignOf(share, of);
    } else {
      SignOf(-share, of);
    }
  }

  lemma SignOf(a: real, b: real)
    requires a >= 0.0
    ensures b >= 0.0 ==> a * b >= 0.0
    ensures b <= 0.0 ==> a * b <= 0.0
  {
  }

  lemma TimesKeeps(a: real, b: real, c: real)
    requires a <= b && c >= 0.0
    ensures a * c <= b * c
  {
  }

  lemma TimesKeepsLess(a: real, b: real, c: real)
    requires a < b && c > 0.0
    ensures a * c < b * c
  {
  }

  // ---- bars ----

  /** The reading of a series at one of its bars. */
  function BarReading(b: Bars, i: nat): Reading
    requires i < |b.value| && i < |b.level|
  {
    Reading(b.value[i], b.level[i], b.upper)
  }

  /** Four bars or more, each with its value and its level. */
  predicate HasBars(b: Bars) { |b.times| >= 4 && |b.value| == |b.times| == |b.level| }

  /**
   At the close of bars the last closed bar is judged against the one before it, or with the two before
   it for a turn; it fires once, and only if the next bar opened when the alert was there.
   */
  lemma WhatAClosedBarFires(c: Condition, trigger: Trigger, b: Bars, createdAt: int, barKey: Option<int>, last: Option<Reading>)
    requires HasBars(b) && (c == ChangesDirection || trigger == OncePerBarClose)
    ensures var n := |b.times|;
      JudgeBars(c, trigger, b, createdAt, barKey, last) == Some(Judged(
        (if c == ChangesDirection then DirectionChanged(b.value[n - 4], b.value[n - 3], b.value[n - 2])
         else Fired(c, BarReading(b, n - 3), BarReading(b, n - 2)))
        && barKey != Some(b.times[n - 2]) && b.times[n - 1] >= createdAt,
        b.times[n - 2], BarReading(b, n - 2)))
  {
  }

  /** Otherwise the bar that forms is judged against the reading kept, and fires once where the trigger goes by bar. */
  lemma WhatAFormingBarFires(c: Condition, trigger: Trigger, b: Bars, createdAt: int, barKey: Option<int>, last: Option<Reading>)
    requires HasBars(b) && c != ChangesDirection && trigger != OncePerBarClose
    ensures var n := |b.times|;
      JudgeBars(c, trigger, b, createdAt, barKey, last) == Some(Judged(
        last.Some? && Fired(c, last.value, BarReading(b, n - 1)) && (trigger == OncePerBar ==> barKey != Some(b.times[n - 1])),
        b.times[n - 1], BarReading(b, n - 1)))
  {
  }

  lemma TooFewBarsFireNothing(c: Condition, trigger: Trigger, b: Bars, createdAt: int, barKey: Option<int>, last: Option<Reading>)
    requires !HasBars(b)
    ensures JudgeBars(c, trigger, b, createdAt, barKey, last) == None
  {
  }

  // ---- a tick ----

  /** The bar a time falls in starts at that time less what is over a whole number of bars. */
  lemma WhichBarATimeIsIn(ms: Millis, now: int)
    ensures BarAt(Grid(ms), now) == Some(now - now % ms)
    ensures BarAt(Ticks, now) == None && BarAt(Unknown, now) == None
  {
    assert now == ms * (now / ms) + now % ms;
  }

  /** The minutes of a move, at least one. */
  predicate IsWindow(a: Alert, window: int) {
    if a.minutes == 0 then window == 60_000 else window == 60_000 * a.minutes
  }

  /**
   A tick hits when its rule fires on the reading before and this one, or, for a move, when the value
   moved in its window; and what hits on the bar it fired on is held when it fires once per bar.
   */
  lemma WhenATickHits(e: Engine, a: Alert, reading: Reading, now: int)
    ensures IsWindow(a, WindowOf(a))
    ensures var (after, hit) := JudgeTick(e, a, reading, now);
      var held := a.trigger == OncePerBar && BarAt(a.frame, now).Some? && a.barKey == BarAt(a.frame, now);
      var hits := if a.condition == MovesBy
        then Moved(Within(HistoryOf(e.moves, a.id) + [(now, reading.value)], now, WindowOf(a)), WindowOf(a), a.amount)
        else a.id in e.last && Fired(a.condition, e.last[a.id], reading);
      && (hit.Some? <==> hits && !held)
      && (hit.Some? ==> hit.value == Hit(a.id, reading.value, BarAt(a.frame, now)))
      && a.id in after.last && after.last[a.id] == reading && after.book == e.book
  {
  }

  /** An alert is judged while it is on, past its snooze and before its time is up. */
  lemma WhenAnAlertIsLive(a: Alert, now: int)
    ensures a.IsLive(now) <==>
      && a.active
      && (match a.snoozedUntil case None => true case Some(until) => until <= now)
      && (match a.expiresAt case None => true case Some(end) => now < end)
  {
  }

  /** Prices and spreads with no bars are judged on ticks, and so is every profit; the rest that need bars on bars. */
  lemma WhatAnAlertFollows(a: Alert)
    ensures OnTicks(a) <==> match a.source
      case Pnl(_) => true
      case Price(_) => !NeedsItsBars(a)
      case Spread(_) => !NeedsItsBars(a)
      case _ => false
    ensures OnBars(a) <==> match a.source
      case Pnl(_) => false
      case Spread(_) => false
      case _ => NeedsItsBars(a)
  {
  }

  predicate NeedsItsBars(a: Alert) {
    || a.source.Indicator? || a.trigger == OncePerBarClose || a.condition == ChangesDirection
    || (match a.versus case None => false case Some(source) => source.Indicator?)
  }

  // ---- a firing ----

  /** A firing counts once more, keeps its time and its bar, ends a one-time alert, and is the first of the history. */
  lemma WhatAFiringLeaves(e: Engine, h: Hit, at: int, i: nat)
    requires Sound(e.book) && i < |e.book.alerts| && e.book.alerts[i].id == h.id
    ensures var a, after := e.book.alerts[i], FireOne(e, h, at);
      && |after.book.alerts| == |e.book.alerts|
      && (forall j | 0 <= j < |e.book.alerts| && j != i :: after.book.alerts[j] == e.book.alerts[j])
      && var b := after.book.alerts[i];
      && b == a.(firedAt := b.firedAt, firedCount := b.firedCount, active := b.active, barKey := b.barKey)
      && b.firedAt == Some(at) && (b.active <==> a.active && a.trigger != Once)
      && b.firedCount == (if a.firedCount >= 0xFFFF_FFFF then 0xFFFF_FFFF else a.firedCount + 1)
      && b.barKey == (if h.bar.Some? then h.bar else a.barKey)
      && |after.book.history| == (if |e.book.history| >= 200 then 200 else |e.book.history| + 1)
      && after.book.history[0] == Firing(h.id, at, h.value)
      && (forall k | 1 <= k < |after.book.history| :: after.book.history[k] == e.book.history[k - 1])
  {
  }

  /** Polling ends the active alerts whose time has come, and changes nothing else. */
  lemma WhatAPollEnds(e: Engine, now: int, i: nat)
    requires i < |e.book.alerts|
    ensures var a, after := e.book.alerts[i], Next(e, Step.Poll(now));
      && |after.book.alerts| == |e.book.alerts|
      && after.book.alerts[i] == a.(active := a.active && (match a.expiresAt case None => true case Some(end) => now < end))
  {
  }

  // ---- what stays in the book ----

  /**
     A symbol, unless it is the profit of the account; and a price where one is compared with, which only
     some may have at zero or under.
  */
  predicate MayStay(a: Alert) {
    && (a.symbolId > 0 || (a.source.Pnl? && a.source.scope.Account?))
    && (a.versus.Some? || a.condition == MovesBy || a.condition == ChangesDirection
        || match a.price
           case NotFinite => false
           case Finite(x) => x > 0.0 || a.source.Indicator? || a.source.Spread? || a.source.Pnl?)
  }

  /** The alerts of a file that may stay do, each on its own account and in their order. */
  lemma {:induction false} WhatStays(a: seq<Alert>, b: seq<Alert>)
    ensures Kept(a + b) == Kept(a) + Kept(b)
    ensures |a| == 1 ==> Kept(a) == if MayStay(a[0]) then a else []
  {
    if b == [] {
      assert a + b == a && Kept(a) + [] == Kept(a);
    } else {
      WhatStays(a, b[..|b| - 1]);
      assert (a + b)[..|a + b| - 1] == a + b[..|b| - 1];
      StaysOneMore(Kept(a), Kept(b[..|b| - 1]), b[|b| - 1]);
    }
  }

  lemma StaysOneMore(a: seq<Alert>, b: seq<Alert>, last: Alert)
    ensures (a + b) + [last] == a + (b + [last])
  {
  }

  /** What a repair makes of one alert, field by field. */
  lemma WhatARepairChanges(a: Alert)
    ensures var b, measure := Repaired(a), a.source.Spread? || a.source.Pnl?;
      && b == a.(source := b.source, versus := b.versus, condition := b.condition, trigger := b.trigger, again := false,
                 upper := b.upper, amount := b.amount, minutes := b.minutes, frame := b.frame)
      && b.versus == (if measure then None else a.versus)
      && b.condition == (if (a.source.Spread? && a.condition == ChangesDirection)
                            || (a.source.Pnl? && (a.condition == ChangesDirection || a.condition == MovesBy))
                         then Crossing else a.condition)
      && b.trigger == (if measure && a.trigger == OncePerBarClose then EveryTime
                       else if a.again && a.trigger == Once then EveryTime else a.trigger)
      && b.source == (match a.source
           case Spread(Finite(pip)) => if pip > 0.0 then a.source else Spread(Finite(0.0001))
           case Spread(NotFinite) => Spread(Finite(0.0001))
           case _ => a.source)
      && b.upper == (if a.upper.NotFinite? then Finite(0.0) else a.upper)
      && b.amount == (match a.amount case NotFinite => Finite(0.0) case Finite(x) => if x < 0.0 then Finite(0.0) else a.amount)
      && b.minutes == (if a.minutes > 43_200 then 43_200 else a.minutes)
      && b.frame == (if a.frame == Unknown then Grid(900_000) else a.frame)
  {
  }

  /**
     An alert is added exactly while there are fewer than the limit, which is at least one and at most
     2000; it comes last, under the next identifier.
  */
  lemma WhenAnAlertIsAdded(b: Book, alert: Alert, limit: nat)
    requires b.nextId < U64_MAX
    ensures var most := if limit == 0 then 1 else if limit >= 2_000 then 2_000 else limit;
      if |b.alerts| < most then
        var id := if b.nextId == 0 then 1 else b.nextId;
        Insert(b, alert, limit) == Some((b.(nextId := id + 1, alerts := b.alerts + [alert.(id := id)]), Some(id)))
      else Insert(b, alert, limit) == Some((b, None))
  {
  }

  // ---- a move, and a book ----

  /** The value is a number other than zero, and now is far enough from it. */
  predicate IsFar(value: Num, now: real, pct: real) {
    value.Finite? && value.x != 0.0 && 100.0 * Distance(value.x, now) >= pct * Distance(value.x, 0.0)
  }

  lemma FarIsMoved(value: Num, now: real, pct: real)
    ensures MovedFrom(value, now, pct) <==> IsFar(value, now, pct)
  {
    if value.Finite? {
      WhenAMoveCounts(value.x, now, pct);
    }
  }

  /** A move hits when the last value is far enough from one that is in the window still. */
  lemma WhenAMoveHits(history: History, at: int, now: real, window: int, pct: real)
    ensures var all := history + [(at, Finite(now))];
      Moved(all, window, Finite(pct)) <==>
      pct > 0.0 && exists s: Sample :: s in all && at - s.0 <= window && IsFar(s.1, now, pct)
    ensures !Moved(history + [(at, NotFinite)], window, Finite(pct)) && !Moved(history, window, NotFinite)
  {
    SomeMoveIn(history + [(at, Finite(now))], at, now, window, pct);
    forall value ensures MovedFrom(value, now, pct) <==> IsFar(value, now, pct) {
      FarIsMoved(value, now, pct);
    }
  }

  /**
     A book read from a file: the first 2000 alerts that may stay, each repaired, the first 200 firings,
     and the layout of now.
  */
  lemma WhatABookBecomes(b: Book, i: nat)
    requires Normalized(b).Some?
    ensures var after, kept := Normalized(b).value, Kept(b.alerts);
      && after.version == 2 && |after.alerts| == (if |kept| < 2_000 then |kept| else 2_000)
      && after.history == b.history[..(if |b.history| < 200 then |b.history| else 200)]
      && (i < |after.alerts| ==> after.alerts[i].(id := 0) == Repaired(kept[i]).(id := 0))
  {
  }

  // ---- what the engine hands on ----

  /** A series hits what its alert, as it is now, and the reading kept for it make of its bars. */
  lemma WhenBarsHit(e: Engine, i: nat, bars: Bars)
    requires Sound(e.book) && i < |e.book.alerts|
    ensures var a := e.book.alerts[i];
      var last := if a.id in e.last then Some(e.last[a.id]) else None;
      var (after, hit) := Judge(e, Series(a.id, bars));
      match JudgeBars(a.condition, a.trigger, bars, a.createdAt, a.barKey, last)
      case None => hit == None && after == e
      case Some(judged) =>
        && hit == (if judged.fired then Some(Hit(a.id, judged.reading.value, Some(judged.bar))) else None)
        && a.id in after.last && after.last[a.id] == judged.reading && after.book == e.book && after.moves == e.moves
  {
    assert Find(e.book.alerts, e.book.alerts[i].id) == Some(i);
  }

  /** A change of the alerts forgets every reading and every history, whichever alert it is about. */
  lemma WhatAnEditForgets(e: Engine, book: Book)
    ensures var t := Next(e, Step.Edit(book)); t.book == book && t.last == map[] && t.moves == map[]
  {
  }
}
