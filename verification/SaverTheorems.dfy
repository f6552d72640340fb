/** What the delayed writer promises, in every interleaving. */
module SaverTheorems {
  import opened Wrappers
  import opened Saver

  // ---- nothing is lost ----

  /** The newest value waits, was taken by a flush, or was handed to the disk. */
  predicate Accounted(s: State) {
    s.count > 0 ==>
      var newest := s.count - 1;
      s.pending == Some(newest) || (exists f :: f in s.flushes && s.flushes[f] == newest)
      || newest in s.saved || newest in s.lost
  }

  /** Something is still to come that will take the value that waits. */
  predicate WillBeTaken(s: State) {
    s.pending.Some? ==>
      s.scheduling != {} || s.due != {} || exists t :: t in s.timers && s.timers[t] == s.generation
  }

  predicate Inv(s: State) {
    && Accounted(s) && WillBeTaken(s)
    && (s.pending.Some? ==> s.count > 0 && s.pending.value == s.count - 1)
    && (forall f | f in s.flushes ::
          s.flushes[f] < s.count && (s.pending.Some? ==> s.flushes[f] < s.pending.value))
    && (forall f, g | f in s.flushes && g in s.flushes && f != g :: s.flushes[f] != s.flushes[g])
    && (forall v | v in s.saved :: v < s.count)
    && (s.disk.Some? ==> s.disk.value in s.saved)
    && (s.dropped ==> s.pending.None? && s.scheduling == {})
  }

  lemma KeepsTaken(s: State, flush: nat)
    requires Inv(s) && flush !in s.flushes
    ensures Inv(Taken(s, flush))
  {
    var after := Taken(s, flush);
    if s.pending.Some? {
      assert after.flushes[flush] == s.count - 1;
    }
  }

  lemma KeepsTakeDue(s: State, timer: nat, flush: nat)
    requires Inv(s) && Enabled(s, TakeDue(timer, flush))
    ensures Inv(Next(s, TakeDue(timer, flush)))
  {
    KeepsTaken(s, flush);
  }

  lemma KeepsDrop(s: State, flush: nat)
    requires Inv(s) && Enabled(s, Drop(flush))
    ensures Inv(Next(s, Drop(flush)))
  {
    KeepsTaken(s, flush);
  }

  lemma KeepsSaved(s: State, flush: nat, works: bool)
    requires Inv(s) && flush in s.flushes
    ensures Inv(Saved(s, flush, works))
  {
    var after := Saved(s, flush, works);
    if s.count > 0 && (exists f :: f in s.flushes && s.flushes[f] == s.count - 1) {
      var f :| f in s.flushes && s.flushes[f] == s.count - 1;
      assert f != flush ==> f in after.flushes && after.flushes[f] == s.count - 1;
    }
  }

  lemma KeepsBump(s: State, k: nat, timer: nat)
    requires Inv(s) && Enabled(s, Bump(k, timer))
    ensures Inv(Next(s, Bump(k, timer)))
  {
    assert Next(s, Bump(k, timer)).timers[timer] == s.generation + 1;
  }

  lemma KeepsWake(s: State, timer: nat)
    requires Inv(s) && timer in s.timers
    ensures Inv(Next(s, Wake(timer)))
  {
    var after := Next(s, Wake(timer));
    if exists t :: t in s.timers && s.timers[t] == s.generation {
      var t :| t in s.timers && s.timers[t] == s.generation;
      assert t != timer ==> t in after.timers && after.timers[t] == s.generation;
    }
  }

  lemma KeepsStore(s: State, k: nat)
    requires Inv(s) && Enabled(s, Store(k))
    ensures Inv(Next(s, Store(k)))
  {
    assert k in Next(s, Store(k)).scheduling;
  }

  lemma Keeps(s: State, step: Step)
    requires Inv(s) && Enabled(s, step)
    ensures Inv(Next(s, step))
  {
    match step
    case Store(k) => KeepsStore(s, k);
    case Bump(k, timer) => KeepsBump(s, k, timer);
    case Wake(timer) => KeepsWake(s, timer);
    case TakeDue(timer, flush) => KeepsTakeDue(s, timer, flush);
    case Take(flush) => KeepsTaken(s, flush);
    case Drop(flush) => KeepsDrop(s, flush);
    case Save(flush, works) => KeepsSaved(s, flush, works);
  }

  lemma {:induction false} EveryRunKeeps(s: State, steps: seq<Step>)
    requires Inv(s) && CanRun(s, steps)
    ensures Inv(Run(s, steps)) && s.count <= Run(s, steps).count
    decreases |steps|
  {
    if steps != [] {
      Keeps(s, steps[0]);
      EveryRunKeeps(Next(s, steps[0]), steps[1..]);
    }
  }

  /** In every run: the newest value is never just forgotten, and what waits will be taken. */
  lemma TheNewestIsNeverForgotten(steps: seq<Step>)
    requires CanRun(INITIAL, steps)
    ensures Accounted(Run(INITIAL, steps)) && WillBeTaken(Run(INITIAL, steps))
    ensures Run(INITIAL, steps).dropped ==> Run(INITIAL, steps).pending.None?
  {
    EveryRunKeeps(INITIAL, steps);
  }

  // ---- when the disk ends with the last value ----

  /** A take comes when no flush is saving, unless there is nothing to take; and the saves work. */
  predicate Polite(s: State, step: Step) {
    match step
    case TakeDue(_, _) => s.pending.None? || s.flushes == map[]
    case Take(_) => s.pending.None? || s.flushes == map[]
    case Drop(_) => s.pending.None? || s.flushes == map[]
    case Save(_, works) => works
    case _ => true
  }

  predicate AllPolite(s: State, steps: seq<Step>)
    requires CanRun(s, steps)
    decreases |steps|
  {
    steps == [] || (Polite(s, steps[0]) && AllPolite(Next(s, steps[0]), steps[1..]))
  }

  predicate InOrder(s: State) {
    && (forall f, g | f in s.flushes && g in s.flushes :: f == g)
    && (s.pending.None? && s.count > 0 ==>
          if s.flushes == map[] then s.disk == Some(s.count - 1)
          else forall f | f in s.flushes :: s.flushes[f] == s.count - 1)
  }

  lemma InOrderNext(s: State, step: Step)
    requires Inv(s) && InOrder(s) && Enabled(s, step) && Polite(s, step)
    ensures InOrder(Next(s, step))
  {
    if step.Save? {
      var after := Next(s, step);
      assert forall f :: f !in after.flushes;
      assert after.flushes == map[];
    }
  }

  /** When flushes never overlap and saves work, the disk holds the last value once all is done after the drop. */
  lemma {:induction false} TheLastValueIsOnDisk(s: State, steps: seq<Step>)
    requires Inv(s) && InOrder(s) && CanRun(s, steps) && AllPolite(s, steps)
    ensures var end := Run(s, steps);
      end.dropped && end.flushes == map[] && end.count > 0 ==> end.disk == Some(end.count - 1)
    decreases |steps|
  {
    if steps != [] {
      InOrderNext(s, steps[0]);
      Keeps(s, steps[0]);
      assert Run(s, steps) == Run(Next(s, steps[0]), steps[1..]);
      TheLastValueIsOnDisk(Next(s, steps[0]), steps[1..]);
    }
  }

  // ---- when they do overlap ----

  ghost predicate NoStore(steps: seq<Step>) {
    forall i | 0 <= i < |steps| :: !steps[i].Store? && (steps[i].Save? ==> steps[i].works)
  }

  predicate Finished(s: State) {
    s.pending.None? && s.flushes == map[]
  }

  /** However the writes that are on their way end, this value is the one the disk keeps. */
  ghost predicate EndsOnDisk(s: State, v: nat) {
    forall steps | CanRun(s, steps) && NoStore(steps) && Finished(Run(s, steps)) :: Run(s, steps).disk == Some(v)
  }

  ghost predicate Alone(s: State, v: nat) {
    || (s.pending == Some(v) && s.flushes == map[])
    || (s.pending == None && (exists f :: f in s.flushes && s.flushes == map[f := v]))
    || (s.pending == None && s.flushes == map[] && s.disk == Some(v))
  }

  lemma AloneNext(s: State, step: Step, v: nat)
    requires Alone(s, v) && Enabled(s, step) && !step.Store? && (step.Save? ==> step.works)
    ensures Alone(Next(s, step), v)
  {
    var after := Next(s, step);
    if step.Save? {
      assert after.flushes == map[];
    }
    if (step.TakeDue? || step.Take? || step.Drop?) && s.pending.Some? {
      assert after.flushes == map[step.flush := v];
    }
  }

  lemma {:induction false} AloneRun(s: State, steps: seq<Step>, v: nat)
    requires Alone(s, v) && CanRun(s, steps) && NoStore(steps)
    ensures Alone(Run(s, steps), v)
    decreases |steps|
  {
    if steps != [] {
      AloneNext(s, steps[0], v);
      assert forall i | 0 <= i < |steps[1..]| :: steps[1..][i] == steps[i + 1];
      AloneRun(Next(s, steps[0]), steps[1..], v);
    }
  }

  /** The saves that are left, in some order: the last of them is what the disk keeps. */
  lemma {:induction false} SaveAll(s: State) returns (steps: seq<Step>)
    requires s.pending.None?
    ensures CanRun(s, steps) && NoStore(steps) && Finished(Run(s, steps))
    ensures s.flushes != map[] ==> exists f :: f in s.flushes && Run(s, steps).disk == Some(s.flushes[f])
    decreases |s.flushes|
  {
    if s.flushes == map[] {
      steps := [];
    } else {
      var f :| f in s.flushes;
      var next := Next(s, Save(f, true));
      var rest := SaveAll(next);
      steps := [Save(f, true)] + rest;
      assert steps[1..] == rest;
      assert Run(s, steps) == Run(next, rest);
      if next.flushes == map[] {
        assert rest == [] || Run(next, rest).disk == next.disk by { AfterAll(next, rest); }
        assert Run(s, steps).disk == Some(s.flushes[f]);
      } else {
        var g :| g in next.flushes && Run(next, rest).disk == Some(next.flushes[g]);
        assert g in s.flushes && s.flushes[g] == next.flushes[g];
      }
    }
  }

  lemma {:induction false} AfterAll(s: State, steps: seq<Step>)
    requires s.pending.None? && s.flushes == map[] && CanRun(s, steps) && NoStore(steps)
    ensures Run(s, steps).disk == s.disk
    decreases |steps|
  {
    if steps != [] {
      assert forall i | 0 <= i < |steps[1..]| :: steps[1..][i] == steps[i + 1];
      AfterAll(Next(s, steps[0]), steps[1..]);
    }
  }

  /**
   While the newest value waits and nothing more is scheduled: the disk is sure to end with it
   exactly when no flush is still saving an older one. Else that flush may save last, and the older
   value replaces the newer on the disk.
   */
  lemma AnOlderSaveMayWin(s: State, v: nat, flush: nat)
    requires Inv(s) && s.pending == Some(v) && !s.dropped && flush !in s.flushes
    ensures EndsOnDisk(s, v) <==> s.flushes == map[]
  {
    if s.flushes == map[] {
      forall steps | CanRun(s, steps) && NoStore(steps) && Finished(Run(s, steps)) ensures Run(s, steps).disk == Some(v) {
        AloneRun(s, steps, v);
      }
    } else {
      var taken := Next(s, Take(flush));
      var saved := Next(taken, Save(flush, true));
      assert saved.flushes == s.flushes;
      var rest := SaveAll(saved);
      var steps := [Take(flush), Save(flush, true)] + rest;
      assert steps[1..] == [Save(flush, true)] + rest && steps[1..][1..] == rest;
      assert CanRun(taken, steps[1..]);
      assert Run(s, steps) == Run(taken, steps[1..]) == Run(saved, rest);
      assert Run(s, steps).disk != Some(v);
    }
  }

  /** Two values, the first of them still being saved when the second comes: the disk may end with the first. */
  lemma TheOlderValueMayStay()
    ensures var steps := [Store(0), Bump(0, 0), Take(0), Store(1)];
      && CanRun(INITIAL, steps)
      && Run(INITIAL, steps).pending == Some(1) && Run(INITIAL, steps).flushes == map[0 := 0]
      && !EndsOnDisk(Run(INITIAL, steps), 1)
  {
    var steps := [Store(0), Bump(0, 0), Take(0), Store(1)];
    var one := Next(INITIAL, Store(0));
    var two := Next(one, Bump(0, 0));
    var three := Next(two, Take(0));
    assert steps[1..] == [Bump(0, 0), Take(0), Store(1)] && steps[1..][1..] == [Take(0), Store(1)];
    assert steps[1..][1..][1..] == [Store(1)] && [Store(1)][1..] == [];
    assert CanRun(three, [Store(1)]) && Run(three, [Store(1)]) == Next(three, Store(1));
    assert CanRun(two, steps[1..][1..]) && CanRun(one, steps[1..]);
    EveryRunKeeps(INITIAL, steps);
    AnOlderSaveMayWin(Run(INITIAL, steps), 1, 1);
  }

  // ---- schedules and delays ----

  /** A schedule replaces what waits, then starts a delay of its own generation, which overtakes the earlier ones. */
  lemma WhatAScheduleStarts(s: State, k: nat, timer: nat)
    requires Inv(s) && Enabled(s, Store(k)) && timer !in s.timers && timer !in s.due
    ensures var stored := Next(s, Store(k));
      && stored.pending == Some(s.count) && stored.count == s.count + 1 && Enabled(stored, Bump(k, timer))
      && var t := Next(stored, Bump(k, timer));
      && t.pending == Some(s.count) && t.generation == s.generation + 1 && timer in t.timers && t.timers[timer] == t.generation
      && (forall other | other in s.timers && s.timers[other] <= s.generation ::
            other in t.timers && t.timers[other] < t.generation)
  {
  }

  /** A delay that ends writes when nothing was scheduled since it began, and does nothing else. */
  lemma WhatADelayDoes(s: State, timer: nat)
    requires timer in s.timers
    ensures var t := Next(s, Wake(timer));
      && t == s.(timers := t.timers, due := t.due) && timer !in t.timers
      && t.due == (if s.timers[timer] == s.generation then s.due + {timer} else s.due)
  {
  }
}
