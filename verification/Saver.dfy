/**
 The delayed writer of a document. A schedule is two steps (the value, then the
 generation), a delayed write wakes and then flushes, a flush takes the value and then saves it: all
 of these, from any threads, may come in any order between each other. Values are numbered in the
 order they were scheduled.
 */
module Saver {
  import opened Wrappers

  datatype State = State(
    count: nat,                // how many values were scheduled
    pending: Option<nat>,
    generation: nat,
    scheduling: set<nat>,      // schedules between their two steps
    timers: map<nat, nat>,     // sleeping writes, each with its generation
    due: set<nat>,             // writes that woke in time and have still to flush
    flushes: map<nat, nat>,    // flushes that took a value and have still to save it
    disk: Option<nat>,
    saved: set<nat>,
    lost: set<nat>,            // values whose save failed
    dropped: bool)

  const INITIAL := State(0, None, 0, {}, map[], {}, map[], None, {}, {}, false)

  datatype Step =
    | Store(k: nat)
    | Bump(k: nat, timer: nat)
    | Wake(timer: nat)
    | TakeDue(timer: nat, flush: nat)
    | Take(flush: nat)
    | Drop(flush: nat)
    | Save(flush: nat, works: bool)

  predicate Enabled(s: State, step: Step) {
    match step
    case Store(k) => !s.dropped && k !in s.scheduling
    case Bump(k, timer) => k in s.scheduling && timer !in s.timers && timer !in s.due
    case Wake(timer) => timer in s.timers
    case TakeDue(timer, flush) => timer in s.due && flush !in s.flushes
    case Take(flush) => !s.dropped && flush !in s.flushes
    case Drop(flush) => !s.dropped && s.scheduling == {} && flush !in s.flushes
    case Save(flush, works) => flush in s.flushes
  }

  function Taken(s: State, flush: nat): State {
    if s.pending.None? then s
    else s.(pending := None, flushes := s.flushes[flush := s.pending.value])
  }

  function Saved(s: State, flush: nat, works: bool): State
    requires flush in s.flushes
  {
    var v := s.flushes[flush];
    var rest := s.(flushes := s.flushes - {flush});
    if works then rest.(disk := Some(v), saved := s.saved + {v}) else rest.(lost := s.lost + {v})
  }

  function Next(s: State, step: Step): State
    requires Enabled(s, step)
  {
    match step
    case Store(k) => s.(pending := Some(s.count), count := s.count + 1, scheduling := s.scheduling + {k})
    case Bump(k, timer) =>
      s.(generation := s.generation + 1, scheduling := s.scheduling - {k}, timers := s.timers[timer := s.generation + 1])
    case Wake(timer) =>
      var gone := s.(timers := s.timers - {timer});
      if s.timers[timer] == s.generation then gone.(due := s.due + {timer}) else gone
    case TakeDue(timer, flush) => Taken(s, flush).(due := s.due - {timer})
    case Take(flush) => Taken(s, flush)
    case Drop(flush) => Taken(s, flush).(dropped := true)
    case Save(flush, works) => Saved(s, flush, works)
  }

  predicate CanRun(s: State, steps: seq<Step>)
    decreases |steps|
  {
    steps == [] || (Enabled(s, steps[0]) && CanRun(Next(s, steps[0]), steps[1..]))
  }

  function Run(s: State, steps: seq<Step>): State
    requires CanRun(s, steps)
    decreases |steps|
  {
    if steps == [] then s else Run(Next(s, steps[0]), steps[1..])
  }

  // ---- the object ----

  /** What the object holds of the state; the rest are the tasks that are on their way. */
  datatype Core = Core(count: nat, pending: Option<nat>, generation: nat, disk: Option<nat>)

  function CoreOf(s: State): Core {
    Core(s.count, s.pending, s.generation, s.disk)
  }

  function Flushed(s: State, flush: nat, works: bool): State
    requires Enabled(s, Take(flush))
  {
    if s.pending.None? then Next(s, Take(flush)) else Next(Next(s, Take(flush)), Save(flush, works))
  }

  function Scheduled(s: State, k: nat, timer: nat): State
    requires Enabled(s, Store(k)) && timer !in s.timers && timer !in s.due
  {
    Next(Next(s, Store(k)), Bump(k, timer))
  }

  class Inner {
    var count: nat
    var pending: Option<nat>
    var generation: nat
    var disk: Option<nat>

    ghost function Model(): Core
      reads this
    {
      Core(count, pending, generation, disk)
    }

    constructor ()
      ensures Model() == CoreOf(INITIAL)
      ensures count == 0 && pending == None && generation == 0 && disk == None
    {
      count, pending, generation, disk := 0, None, 0, None;
    }

    /** Both steps of a schedule at once: the result is the generation its timer is to compare with. */
    method Schedule() returns (generation: nat)
      modifies this`count, this`pending, this`generation
      ensures pending == Some(old(count)) && count == old(count) + 1
      ensures generation == this.generation == old(this.generation) + 1
      ensures forall s, k, timer | CoreOf(s) == old(Model()) && Enabled(s, Store(k)) && timer !in s.timers && timer !in s.due ::
                CoreOf(Scheduled(s, k, timer)) == Model()
    {
      pending := Some(count);
      count := count + 1;
      this.generation := this.generation + 1;
      generation := this.generation;
    }

    /** What waits is written once: a second flush has nothing to write. */
    method Flush(works: bool)
      modifies this`pending, this`disk
      ensures pending == None
      ensures disk == if old(pending).Some? && works then old(pending) else old(disk)
      ensures forall s, flush | CoreOf(s) == old(Model()) && Enabled(s, Take(flush)) ::
                CoreOf(Flushed(s, flush, works)) == Model()
    {
      var value := pending;
      pending := None;
      if value.Some? && works {
        disk := value;
      }
    }

    /** A delayed write that was overtaken by a later change does nothing. */
    method Wake(timer: nat, works: bool)
      modifies this`pending, this`disk
      ensures timer == generation ==> pending == None
      ensures timer == generation && old(pending).Some? && works ==> disk == old(pending)
      ensures timer != generation || old(pending).None? || !works ==> disk == old(disk)
      ensures timer != generation ==> pending == old(pending)
    {
      if timer == generation {
        Flush(works);
      }
    }
  }
}
