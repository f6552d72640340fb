/** The alerts of the app as the object they are: what it saw, and how it judges and fires in place. */
module AlertEntity {
  import opened Wrappers
  import opened AlertEval
  import opened AlertMoves
  import opened AlertBook
  import opened AlertEngine
  import opened AlertTheorems

  /** What holds of an orderly run holds when nothing is said of its order. */
  lemma InvWeakens(e: Engine, was: bool, now: bool)
    requires Inv(e, was) && (now ==> was)
    ensures Inv(e, now)
  {
  }

  class Alerts {
    var book: Book
    var last: map<nat, Reading>
    var moves: map<nat, History>
    ghost var past: Past
    /** Whether neither the clock nor the bars went back so far. */
    ghost var orderly: bool

    ghost function Model(): Engine
      reads this
    {
      Engine(book, last, moves, past)
    }

    /** Holds between the steps, and says of the object what EveryRunKeeps says of the runs. */
    ghost predicate Valid()
      reads this
    {
      Inv(Model(), orderly)
    }

    constructor (saved: Book)
      requires Sound(saved)
      ensures Model() == Engine(saved, map[], map[], Past([], map[], map[], 0)) && orderly && Valid()
    {
      book, last, moves, past := saved, map[], map[], Past([], map[], map[], 0);
      orderly := true;
    }

    /** Forgets every reading, history and firing, whatever the change was. */
    method Edit(changed: Book)
      requires Sound(changed)
      modifies this
      ensures Model() == Next(old(Model()), Step.Edit(changed)) && orderly && Valid()
    {
      orderly := true;
      book, last, moves := changed, map[], map[];
      past := Past([], map[], map[], past.clock);
    }

    method Poll(now: int) returns (gone: seq<nat>)
      requires Valid()
      modifies this`book
      ensures Model() == Next(old(Model()), Step.Poll(now)) && gone == Gone(old(book).alerts, now) && Valid()
    {
      PollKeeps(Model(), now, orderly);
      var after;
      after, gone := Expire(book.alerts, now);
      book := book.(alerts := after);
    }

    /** Adds a value to what a move is judged on, drops what is out of its window, and judges it. */
    method Remember(alert: Alert, reading: Reading, now: int) returns (hit: bool)
      modifies this`moves, this`past
      ensures moves == old(moves)[alert.id := Samples(alert, HistoryOf(old(moves), alert.id), reading, now)]
      ensures past == old(past).(
                readings := old(past).readings[alert.id := HistoryOf(old(past).readings, alert.id) + [(now, reading.value)]])
      ensures hit == Moved(moves[alert.id], WindowOf(alert), alert.amount)
    {
      var history := (if alert.id in moves then moves[alert.id] else []) + [(now, reading.value)];
      history := Within(history, now, WindowOf(alert));
      moves := moves[alert.id := history];
      past := past.(readings := past.readings[alert.id := HistoryOf(past.readings, alert.id) + [(now, reading.value)]]);
      hit := Moved(history, WindowOf(alert), alert.amount);
    }

    /** Compares with the reading stored before, and stores the new one whether or not it hits. */
    method JudgeOn(alert: Alert, reading: Reading, now: int) returns (hit: Option<Hit>)
      modifies this`last, this`moves, this`past
      ensures (Model(), hit) == JudgeTick(old(Model()), alert, reading, now)
    {
      var before := Get(last, alert.id);
      last := last[alert.id := reading];
      var bar := BarAt(alert.frame, now);
      var hits;
      if alert.condition.MovesBy? {
        hits := Remember(alert, reading, now);
      } else {
        hits := before.Some? && Fired(alert.condition, before.value, reading);
      }
      assert hits == Hits(alert, before, HistoryOf(old(moves), alert.id), reading, now);
      var byBar := alert.trigger.OncePerBar? && bar.Some? && alert.barKey == bar;
      assert byBar == ByBar(alert, now);
      if bar.Some? {
        past := past.(lastBar := past.lastBar[alert.id := bar.value]);
      }
      if hits && !byBar {
        moves := moves - {alert.id};
        past := past.(readings := past.readings - {alert.id});
        return Some(Hit(alert.id, reading.value, bar));
      }
      return None;
    }

    method FireHit(h: Hit, at: int)
      modifies this`book, this`past
      ensures Model() == FireOne(old(Model()), h, at)
    {
      if Find(book.alerts, h.id).None? {
        return;
      }
      book := Fire(book, h.id, h.value, at);
      book := SetBarKey(book, h.id, h.bar);
      past := past.(log := past.log + [Entry(h.id, h.bar)]);
    }

    method FireHits(hits: seq<Hit>, at: int)
      modifies this`book, this`past
      ensures Model() == FireAll(old(Model()), hits, at)
    {
      var i := 0;
      while i < |hits|
        invariant 0 <= i <= |hits|
        invariant Model() == FireAll(old(Model()), hits[..i], at)
      {
        assert hits[..i + 1][..i] == hits[..i];
        FireHit(hits[i], at);
        i := i + 1;
      }
      assert hits[..i] == hits;
    }

    /** A price or a profit came: the alerts it concerns are judged in turn, then those that hit fire. */
    method OnReadings(now: int, given: seq<Given>, at: int)
      requires Valid() && Enabled(Model(), Prices(now, given, at))
      modifies this
      ensures Model() == Next(old(Model()), Prices(now, given, at)) && Valid()
      ensures orderly == (old(orderly) && Orderly(old(Model()), Prices(now, given, at)))
    {
      orderly := orderly && now >= past.clock;
      InvWeakens(Model(), old(orderly), orderly);
      Keeps(Model(), Prices(now, given, at), orderly);
      past := past.(clock := now);
      ghost var ticking := Model();
      var hits: seq<Hit> := [];
      var i := 0;
      while i < |given|
        invariant 0 <= i <= |given| && orderly == (old(orderly) && Orderly(old(Model()), Prices(now, given, at)))
        invariant (Model(), hits) == JudgeAll(ticking, given[..i])
      {
        assert given[..i + 1][..i] == given[..i];
        var place := Find(book.alerts, given[i].id);
        if place.Some? {
          var hit := JudgeOn(book.alerts[place.value], given[i].reading, given[i].now);
          if hit.Some? {
            hits := hits + [hit.value];
          }
        }
        i := i + 1;
      }
      assert given[..i] == given;
      FireHits(hits, at);
    }

    /** Bars were read: the same, each alert on its own series. */
    method OnBars(now: int, given: seq<Given>, at: int)
      requires Valid() && Enabled(Model(), Read(now, given, at))
      modifies this
      ensures Model() == Next(old(Model()), Read(now, given, at)) && Valid()
      ensures orderly == (old(orderly) && Orderly(old(Model()), Read(now, given, at)))
    {
      orderly := orderly && Orderly(Model(), Read(now, given, at));
      InvWeakens(Model(), old(orderly), orderly);
      Keeps(Model(), Read(now, given, at), orderly);
      var hits: seq<Hit> := [];
      var i := 0;
      while i < |given|
        invariant 0 <= i <= |given| && orderly == (old(orderly) && Orderly(old(Model()), Read(now, given, at)))
        invariant (Model(), hits) == JudgeAll(old(Model()), given[..i])
      {
        assert given[..i + 1][..i] == given[..i];
        var place := Find(book.alerts, given[i].id);
        if place.Some? {
          var hit := JudgeOnBars(book.alerts[place.value], given[i].bars);
          if hit.Some? {
            hits := hits + [hit.value];
          }
        }
        i := i + 1;
      }
      assert given[..i] == given;
      FireHits(hits, at);
    }

    /** Too few bars change nothing; else the reading judged is stored, hit or not. */
    method JudgeOnBars(alert: Alert, bars: Bars) returns (hit: Option<Hit>)
      modifies this`last, this`past
      ensures (Model(), hit) == JudgeBar(old(Model()), alert, bars)
    {
      var judged := JudgeBars(alert.condition, alert.trigger, bars, alert.createdAt, alert.barKey, Get(last, alert.id));
      if judged.None? {
        return None;
      }
      last := last[alert.id := judged.value.reading];
      past := past.(lastBar := past.lastBar[alert.id := judged.value.bar]);
      return if judged.value.fired then Some(Hit(alert.id, judged.value.reading.value, Some(judged.value.bar))) else None;
    }
  }
}
