/**
 A move is judged on a history that drops what is out of its window at each reading. When that
 gives what the whole history would give.
 */
module AlertMoves {
  import opened AlertEval

  type History = seq<Sample>

  /** The samples that are still in the window at a time. */
  function Within(history: History, at: int, window: int): History {
    if history == [] then []
    else
      var rest, last := Within(history[..|history| - 1], at, window), history[|history| - 1];
      if at - last.0 <= window then rest + [last] else rest
  }

  /** What the engine keeps after these readings: it adds each, then drops what is out of the window. */
  function Pruned(readings: History, window: int): History {
    if readings == [] then []
    else
      var last := readings[|readings| - 1];
      Within(Pruned(readings[..|readings| - 1], window) + [last], last.0, window)
  }

  predicate NeverBack(readings: History) {
    forall i, j | 0 <= i < j < |readings| :: readings[i].0 <= readings[j].0
  }

  lemma {:induction false} WithinOneMore(history: History, sample: Sample, at: int, window: int)
    ensures Within(history + [sample], at, window)
         == Within(history, at, window) + if at - sample.0 <= window then [sample] else []
  {
    assert (history + [sample])[..|history|] == history;
    assert Within(history, at, window) + [] == Within(history, at, window);
  }

  /** Dropping earlier and then again later is dropping later. */
  lemma {:induction false} WithinTwice(history: History, earlier: int, later: int, window: int)
    requires earlier <= later
    ensures Within(Within(history, earlier, window), later, window) == Within(history, later, window)
  {
    if history != [] {
      var rest, last := history[..|history| - 1], history[|history| - 1];
      WithinTwice(rest, earlier, later, window);
      if earlier - last.0 <= window {
        WithinOneMore(Within(rest, earlier, window), last, later, window);
      }
    }
  }

  /** While the clock does not go back, what is kept is just what is in the window of the last reading. */
  lemma {:induction false} PrunedIsWithin(readings: History, window: int)
    requires NeverBack(readings) && readings != []
    ensures Pruned(readings, window) == Within(readings, readings[|readings| - 1].0, window)
  {
    var rest, last := readings[..|readings| - 1], readings[|readings| - 1];
    assert rest + [last] == readings;
    WithinOneMore(Pruned(rest, window), last, last.0, window);
    WithinOneMore(rest, last, last.0, window);
    if rest != [] {
      PrunedIsWithin(rest, window);
      WithinTwice(rest, rest[|rest| - 1].0, last.0, window);
    }
  }

  lemma {:induction false} WithinHolds(history: History, at: int, window: int, sample: Sample)
    ensures sample in Within(history, at, window) <==> sample in history && at - sample.0 <= window
  {
    if history != [] {
      WithinHolds(history[..|history| - 1], at, window, sample);
      assert sample in history <==> sample in history[..|history| - 1] || sample == history[|history| - 1];
    }
  }

  lemma {:induction false} LastIsWithin(history: History, at: int, window: int)
    requires history != [] && at - history[|history| - 1].0 <= window
    ensures Within(history, at, window) != []
    ensures Within(history, at, window)[|Within(history, at, window)| - 1] == history[|history| - 1]
  {
  }

  lemma SomeMoveIn(history: History, at: int, now: real, window: int, pct: real)
    ensures SomeMove(history, at, now, window, pct)
       <==> exists s :: s in history && at - s.0 <= window && MovedFrom(s.1, now, pct)
  {
    if SomeMove(history, at, now, window, pct) {
      var i :| 0 <= i < |history| && at - history[i].0 <= window && MovedFrom(history[i].1, now, pct);
      assert history[i] in history;
    }
    if exists s :: s in history && at - s.0 <= window && MovedFrom(s.1, now, pct) {
      var s :| s in history && at - s.0 <= window && MovedFrom(s.1, now, pct);
      var i :| 0 <= i < |history| && history[i] == s;
      assert at - history[i].0 <= window && MovedFrom(history[i].1, now, pct);
    }
  }

  /** Judging a move on what was kept gives what every reading since the last firing or edit would. */
  lemma PrunedJudgesTheSame(readings: History, window: nat, pct: Num)
    requires NeverBack(readings)
    ensures Moved(Pruned(readings, window), window, pct) == Moved(readings, window, pct)
  {
    if readings != [] {
      var (at, now) := readings[|readings| - 1];
      var kept := Within(readings, at, window);
      PrunedIsWithin(readings, window);
      LastIsWithin(readings, at, window);
      if now.Finite? && pct.Finite? {
        SomeMoveIn(readings, at, now.x, window, pct.x);
        SomeMoveIn(kept, at, now.x, window, pct.x);
        forall s ensures s in kept <==> s in readings && at - s.0 <= window {
          WithinHolds(readings, at, window, s);
        }
      }
    }
  }

  // ---- a clock that goes back ----

  predicate DroppedAt(times: seq<int>, i: nat, window: int) {
    i < |times| && exists j :: i <= j < |times| && times[j] - times[i] > window
  }

  /** A reading dropped at some moment is never in the window of the last one again. */
  predicate DroppedForGood(times: seq<int>, window: int) {
    forall i: nat | i < |times| && DroppedAt(times, i, window) :: times[|times| - 1] - times[i] > window
  }

  function TimesOf(readings: History): seq<int> {
    seq(|readings|, i requires 0 <= i < |readings| => readings[i].0)
  }

  ghost predicate KeptFrom(readings: History, window: int, sample: Sample) {
    exists i: nat :: i < |readings| && readings[i] == sample && !DroppedAt(TimesOf(readings), i, window)
  }

  lemma DroppedLater(readings: History, window: int, i: nat)
    requires readings != [] && i < |readings| - 1
    ensures var rest := readings[..|readings| - 1];
      DroppedAt(TimesOf(readings), i, window)
      <==> DroppedAt(TimesOf(rest), i, window) || readings[|readings| - 1].0 - readings[i].0 > window
  {
    var rest := readings[..|readings| - 1];
    var all, some := TimesOf(readings), TimesOf(rest);
    if DroppedAt(all, i, window) {
      var j :| i <= j < |all| && all[j] - all[i] > window;
      assert j < |some| ==> some[j] - some[i] > window;
    }
    if DroppedAt(some, i, window) {
      var j :| i <= j < |some| && some[j] - some[i] > window;
      assert all[j] - all[i] > window;
    }
    if readings[|readings| - 1].0 - readings[i].0 > window {
      assert all[|readings| - 1] - all[i] > window;
    }
  }

  /** What the engine keeps, whatever the clock does: the readings that were never out of the window. */
  lemma {:induction false} PrunedHolds(readings: History, window: nat, sample: Sample)
    ensures sample in Pruned(readings, window) <==> KeptFrom(readings, window, sample)
  {
    if readings != [] {
      var rest, last := readings[..|readings| - 1], readings[|readings| - 1];
      PrunedHolds(rest, window, sample);
      WithinHolds(Pruned(rest, window) + [last], last.0, window, sample);
      assert sample in Pruned(rest, window) + [last] <==> sample in Pruned(rest, window) || sample == last;
      assert !DroppedAt(TimesOf(readings), |readings| - 1, window);
      if KeptFrom(rest, window, sample) && last.0 - sample.0 <= window {
        var i: nat :| i < |rest| && rest[i] == sample && !DroppedAt(TimesOf(rest), i, window);
        DroppedLater(readings, window, i);
        assert readings[i] == sample;
      }
      if KeptFrom(readings, window, sample) && sample != last {
        var i: nat :| i < |readings| && readings[i] == sample && !DroppedAt(TimesOf(readings), i, window);
        DroppedLater(readings, window, i);
        assert rest[i] == sample;
      }
    }
  }

  lemma {:induction false} PrunedEndsWithTheLast(readings: History, window: nat)
    requires readings != []
    ensures Pruned(readings, window) != []
    ensures Pruned(readings, window)[|Pruned(readings, window)| - 1] == readings[|readings| - 1]
  {
    var last := readings[|readings| - 1];
    LastIsWithin(Pruned(readings[..|readings| - 1], window) + [last], last.0, window);
  }

  /** Whatever values come at these times, the pruned history and the whole one judge alike. */
  ghost predicate AlwaysJudgesTheSame(times: seq<int>, window: nat) {
    forall readings, pct | TimesOf(readings) == times ::
      Moved(Pruned(readings, window), window, pct) == Moved(readings, window, pct)
  }

  /** One value at a place, another everywhere else. */
  function OneOff(times: seq<int>, place: nat): (r: History)
    ensures TimesOf(r) == times
  {
    seq(|times|, i requires 0 <= i < |times| => (times[i], Finite(if i == place then 1.0 else 2.0)))
  }

  /**
   Dropping agrees with keeping everything, for all values, exactly when no reading that was dropped
   comes back into the window: that is all it asks of a clock that may go back.
   */
  lemma WhenPruningIsHarmless(times: seq<int>, window: nat)
    ensures AlwaysJudgesTheSame(times, window) <==> DroppedForGood(times, window)
  {
    if DroppedForGood(times, window) {
      forall readings, pct | TimesOf(readings) == times
        ensures Moved(Pruned(readings, window), window, pct) == Moved(readings, window, pct)
      {
        HarmlessFor(readings, window, pct);
      }
    } else {
      var i: nat :| i < |times| && DroppedAt(times, i, window) && times[|times| - 1] - times[i] <= window;
      HarmfulFor(times, window, i);
    }
  }

  lemma HarmlessFor(readings: History, window: nat, pct: Num)
    requires DroppedForGood(TimesOf(readings), window)
    ensures Moved(Pruned(readings, window), window, pct) == Moved(readings, window, pct)
  {
    if readings != [] {
      var (at, now) := readings[|readings| - 1];
      PrunedEndsWithTheLast(readings, window);
      if now.Finite? && pct.Finite? {
        SomeMoveIn(readings, at, now.x, window, pct.x);
        SomeMoveIn(Pruned(readings, window), at, now.x, window, pct.x);
        forall s: Sample | at - s.0 <= window ensures s in Pruned(readings, window) <==> s in readings {
          PrunedHolds(readings, window, s);
          if s in readings {
            var i: nat :| i < |readings| && readings[i] == s;
            assert TimesOf(readings)[i] == s.0;
            assert !DroppedAt(TimesOf(readings), i, window);
          }
        }
      }
    }
  }

  lemma HarmfulFor(times: seq<int>, window: nat, place: nat)
    requires place < |times| && DroppedAt(times, place, window) && times[|times| - 1] - times[place] <= window
    ensures Moved(OneOff(times, place), window, Finite(100.0))
    ensures !Moved(Pruned(OneOff(times, place), window), window, Finite(100.0))
  {
    var readings := OneOff(times, place);
    var at := times[|times| - 1];
    var kept := Pruned(readings, window);
    var j :| place <= j < |times| && times[j] - times[place] > window;
    assert place != |times| - 1;
    assert MovedFrom(readings[place].1, 2.0, 100.0);
    PrunedEndsWithTheLast(readings, window);
    SomeMoveIn(kept, at, 2.0, window, 100.0);
    forall s | s in kept ensures !MovedFrom(s.1, 2.0, 100.0) {
      PrunedHolds(readings, window, s);
      var i: nat :| i < |readings| && readings[i] == s && !DroppedAt(times, i, window);
      assert s.1 == Finite(2.0);
    }
  }

  /** A clock that goes back brings a dropped reading into the window again, and the verdicts part. */
  lemma AClockThatGoesBack()
    ensures !AlwaysJudgesTheSame([0, 100, 10], 50)
  {
    var times := [0, 100, 10];
    assert times[1] - times[0] > 50;
    assert DroppedAt(times, 0, 50) && times[|times| - 1] - times[0] <= 50;
    WhenPruningIsHarmless(times, 50);
  }
}
