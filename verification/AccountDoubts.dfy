/**
 The order in flight and its doubt, over whole runs: which orders are in doubt once they were given
 up, and where the code falls short of keeping every one of them.
 */
module AccountDoubts {
  import opened Wrappers
  import opened Reversals
  import opened AccountState
  import opened AccountLaws
  import opened AccountInvariant
  import opened AccountSafety
  import opened AccountTame
  import opened AccountRuns
  import opened AccountTheorems
  import opened AccountMeaning

  // ---- what one step does to the calls, the doubts and the record of the order in flight ----

  /** What enters doubt was the record of the order in flight, which is then gone. */
  ghost predicate DoubtsFrom(r: Reading, q: Reading) {
    && (forall x | x in q.inDoubt :: x in r.inDoubt || r.placing == Some(x))
    && ((forall x | x in q.inDoubt :: x in r.inDoubt) || q.placing.None?)
  }

  /** The answer of another new order comes while the one in flight has its record. */
  predicate IntrudesFirst(s: State, step: Step, call: nat) {
    && Placed(s.desk) == Some(call) && s.reading.placing.Some?
    && step.CallAnswers? && step.call != call && step.call in s.desk.flights && s.desk.flights[step.call].busy.Placing?
  }

  /** The record stays while its order is in flight, but for such an answer. */
  ghost predicate RecordStays(s: State, step: Step, t: State) {
    Placed(s.desk).Some? && Placed(t.desk) == Placed(s.desk) && s.reading.placing.Some? && t.reading.placing.None? ==>
      IntrudesFirst(s, step, Placed(s.desk).value)
  }

  ghost predicate MovesOn(s: State, step: Step, t: State) {
    Later(s.desk, t.desk) && DoubtsFrom(s.reading, t.reading) && RecordStays(s, step, t)
  }

  lemma EveryStepMoves(s: State, step: Step)
    requires Books(s.desk) && Enabled(s, step)
    ensures MovesOn(s, step, Next(s, step))
  {
    if Asked(step) {
      AskedOnlyAdds(s, step);
      return;
    }
    match step {
      case CallAnswers(call, Done(e), env) => MovesDone(s, call, e, env);
      case CallAnswers(call, Broke(unknown), env) => MovesLost(s, call, unknown, env);
      case NewsComes(news, env) => MovesNews(s, news, env);
      case ReadAnswers(epoch, found, env) => MovesRead(s, epoch, found, env);
      case TimerFires(call) => MovesTimer(s, call);
      case WatchRechecks(w) => MovesWatch(s, step, w);
      case WatchEnds(w) => MovesWatch(s, step, w);
    }
  }

  lemma MovesTimer(s: State, call: nat)
    requires Books(s.desk) && call in s.desk.timers
    ensures MovesOn(s, TimerFires(call), TimerDone(s, call))
  {
  }

  lemma MovesWatch(s: State, step: Step, w: nat)
    requires w in s.reversing.watches && Books(s.desk)
    ensures MovesOn(s, step, Rechecked(s, w)) && MovesOn(s, step, WatchOver(s, w))
  {
  }

  lemma MovesDone(s: State, call: nat, e: Execution, env: Env)
    requires Books(s.desk) && call in s.desk.flights
    ensures MovesOn(s, CallAnswers(call, Done(e), env), AnswerDone(s, call, Done(e), env))
  {
    var busy := s.desk.flights[call].busy;
    var taking, t := Taking(s, call, busy, e), CalmDone(s, call, e, env);
    DoneIsTame(s, call, e, env);
    assert Later(s.desk, taking.desk);
    LaterChain(s.desk, taking.desk, t.desk);
  }

  lemma MovesLost(s: State, call: nat, unknown: bool, env: Env)
    requires Books(s.desk) && call in s.desk.flights
    ensures MovesOn(s, CallAnswers(call, Broke(unknown), env), AnswerDone(s, call, Broke(unknown), env))
  {
    var busy := s.desk.flights[call].busy;
    LaterArrived(s.desk, call, busy);
    LostTalks(s, call, busy, unknown);
  }

  lemma LaterArrived(d: Desk, call: nat, busy: Busy)
    ensures Later(d, Arrived(d, call, busy))
  {
  }

  lemma MovesNews(s: State, news: News, env: Env)
    requires Books(s.desk)
    ensures MovesOn(s, NewsComes(news, env), OnEvent(s, news, env))
  {
    if news.News? {
      TameOnExecution(s, news.execution, env);
    }
  }

  lemma MovesRead(s: State, e: nat, found: ReadAnswer, env: Env)
    requires Books(s.desk)
    ensures MovesOn(s, ReadAnswers(e, found, env), ReadDone(s, e, found, env))
  {
    if e == s.reading.epoch && found.Found? {
      ReadIsTame(s, e, found.positions, env);
    }
  }

  lemma ReadIsTame(s: State, e: nat, positions: map<int, Position>, env: Env)
    requires Books(s.desk) && e == s.reading.epoch
    ensures var t := ReadDone(s, e, Found(positions), env);
      && TameDesk(s.desk, t.desk) && t.reading.inDoubt == []
      && (Placing in s.desk.calls ==> t.reading.placing == s.reading.placing)
  {
    var (left, orders) := CloseAll(s.reversing.pending, env.listing);
    var read := ReadApplies(Taken(s, e), e, positions, left);
    var moved := Moves(read, env.moves);
    TameMoves(read, env.moves);
    TameMarketAll(moved, orders, env);
    TameChain(read, moved, ReadDone(s, e, Found(positions), env));
  }

  // ---- what settles a doubt ----

  /** The newest read, or an event that names the order. */
  predicate SettlesDoubt(s: State, step: Step, id: ClientId) {
    AppliesRead(s, step) || Names(HeardIn(step), id)
  }

  lemma SettledLeaves(s: State, step: Step, d: InDoubt)
    requires Books(s.desk) && Enabled(s, step) && SettlesDoubt(s, step, d.clientId)
    ensures d !in Next(s, step).reading.inDoubt
  {
    if AppliesRead(s, step) {
      ReadIsTame(s, step.epoch, step.found.positions, step.env);
    } else {
      HeardSettles(s, step);
      NamedIsGone(s.reading, HeardIn(step).value, d);
    }
  }

  lemma HeardSettles(s: State, step: Step)
    requires Books(s.desk) && Enabled(s, step) && HeardIn(step).Some?
    ensures Next(s, step).reading.inDoubt == Doubting(s.reading, HeardIn(step).value).inDoubt
  {
    if step.NewsComes? {
      TameOnExecution(s, step.news.execution, step.env);
    } else {
      DoneSettles(s, step.call, step.answer.event, step.env);
    }
  }

  lemma NamedIsGone(r: Reading, e: Execution, d: InDoubt)
    requires Names(Some(e), d.clientId)
    ensures d !in Doubting(r, e).inDoubt
  {
    NotNamedKeeps(r.inDoubt, d.clientId);
  }

  /** While nothing is kept of the order in flight, no order enters doubt, and one leaves it exactly when it is settled. */
  lemma DoubtsOnlyLeave(s: State, step: Step, d: InDoubt)
    requires Books(s.desk) && Enabled(s, step) && s.reading.placing.None?
    ensures d in Next(s, step).reading.inDoubt <==> d in s.reading.inDoubt && !SettlesDoubt(s, step, d.clientId)
  {
    EveryStepMoves(s, step);
    if d in s.reading.inDoubt {
      DoubtLeavesOnlyWhenAnswered(s, step, d);
      if SettlesDoubt(s, step, d.clientId) {
        SettledLeaves(s, step, d);
      }
    }
  }

  // ---- over runs ----

  lemma {:induction false} LaterRun(steps: seq<Step>, n: nat)
    requires CanRun(steps) && n <= |steps|
    ensures CanRun(steps[..n]) && Later(Run(steps[..n]).desk, Run(steps).desk)
    decreases |steps|
  {
    if n < |steps| {
      var before := steps[..|steps| - 1];
      assert before[..n] == steps[..n];
      LaterRun(before, n);
      EveryRunKeeps(before);
      EveryStepMoves(Run(before), steps[|steps| - 1]);
      LaterChain(Run(steps[..n]).desk, Run(before).desk, Run(steps).desk);
    } else {
      assert steps[..n] == steps;
    }
  }

  /** The order of the call went at step `n` of the run or before it, and is in flight as the current call still. */
  lemma StillInFlight(steps: seq<Step>, n: nat, call: nat)
    requires CanRun(steps) && n <= |steps| && Placed(Run(steps).desk) == Some(call)
    requires CanRun(steps[..n]) && call <= Run(steps[..n]).desk.callSeq
    ensures Placed(Run(steps[..n]).desk) == Some(call) && call in Run(steps).desk.flights
    ensures call in Run(steps[..n]).desk.flights && Run(steps[..n]).desk.flights[call] == Run(steps).desk.flights[call]
  {
    LaterRun(steps, n);
    EveryRunKeeps(steps);
    EveryRunKeeps(steps[..n]);
  }

  lemma DisplacedStays(log: Log, now: Log, call: nat)
    requires Displaced(log, call) && log <= now
    ensures Displaced(now, call)
  {
    var i, j :| 0 <= i < j < |log| && log[i].Sent? && log[i].call == call
      && log[j].Answered? && log[j].busy.Placing? && log[j].call != call;
    assert now[i] == log[i] && now[j] == log[j];
  }

  /** The first answer of another new order that comes while the order of this call is in flight is step `n`. */
  ghost predicate FirstReply(steps: seq<Step>, n: nat, call: nat) {
    n < |steps| && CanRun(steps[..n]) && IntrudesFirst(Run(steps[..n]), steps[n], call)
  }

  /** An order only just sent has its record. */
  lemma JustSentIsKept(s: State, t: State, call: nat)
    requires Kept(s) && Kept(t) && Extends(s.log, t.log) && Placed(t.desk) == Some(call) && t.reading.placing.None?
    ensures call <= s.desk.callSeq
  {
    var i, j :| 0 <= i < j < |t.log| && t.log[i].Sent? && t.log[i].call == call
      && t.log[j].Answered? && t.log[j].busy.Placing? && t.log[j].call != call;
    assert s.log[i] == t.log[i];
  }

  /** The record was lost in this step, by such an answer, or it was lost before. */
  lemma LostNowOrBefore(s: State, step: Step, call: nat)
    requires Kept(s) && Enabled(s, step)
    requires Placed(Next(s, step).desk) == Some(call) && Next(s, step).reading.placing.None?
    ensures Placed(s.desk) == Some(call) && (s.reading.placing.None? || IntrudesFirst(s, step, call))
  {
    KeptNext(s, step);
    LogGrows(s, step);
    EveryStepMoves(s, step);
    JustSentIsKept(s, Next(s, step), call);
  }

  /** If nothing is kept of the order in flight there was such an answer, and it is found. */
  lemma {:induction false} TheRecordWasLost(steps: seq<Step>, call: nat) returns (n: nat)
    requires CanRun(steps) && Placed(Run(steps).desk) == Some(call) && Run(steps).reading.placing.None?
    ensures FirstReply(steps, n, call)
    decreases |steps|
  {
    var before, last := steps[..|steps| - 1], steps[|steps| - 1];
    EveryRunKeeps(before);
    LostNowOrBefore(Run(before), last, call);
    if Run(before).reading.placing.Some? {
      n := |steps| - 1;
    } else {
      n := TheRecordWasLost(before, call);
      FirstReplyStays(steps, n, call);
    }
  }

  lemma FirstReplyStays(steps: seq<Step>, n: nat, call: nat)
    requires steps != [] && FirstReply(steps[..|steps| - 1], n, call)
    ensures FirstReply(steps, n, call)
  {
    assert steps[..|steps| - 1][..n] == steps[..n];
  }

  // ---- what such an answer makes of the order in flight ----

  /** It wipes the record: an open outcome puts the order in doubt at once, anything else forgets it. */
  lemma TheFirstReplyDecides(s: State, step: Step, call: nat)
    requires Kept(s) && Enabled(s, step) && IntrudesFirst(s, step, call)
    ensures call in s.desk.flights && DoubtOf(s.desk.flights[call]).Some?
    ensures var d, t := DoubtOf(s.desk.flights[call]).value, Next(s, step);
      && Placed(t.desk) == Some(call) && t.reading.placing.None?
      && (step.answer == Broke(true) ==> t.reading.inDoubt == s.reading.inDoubt + [d])
      && (step.answer != Broke(true) ==> forall x :: x in t.reading.inDoubt <==>
            x in s.reading.inDoubt && !SettlesDoubt(s, step, x.clientId))
  {
    OnlyItsOwnCallFrees(s, step);
    match step.answer
    case Broke(unknown) => NoneNamed(step.call, unknown, step.env);
    case Done(e) =>
      DoneIsTame(s, step.call, e, step.env);
      HeardSettles(s, step);
      NamedLeave(s.reading, e);
  }

  lemma NoneNamed(call: nat, unknown: bool, env: Env)
    ensures HeardIn(CallAnswers(call, Broke(unknown), env)).None?
  {
  }

  lemma NamedLeave(r: Reading, e: Execution)
    ensures forall x :: x in Doubting(r, e).inDoubt <==> x in r.inDoubt && !Names(Some(e), x.clientId)
  {
    if e.order.Some? && e.order.value.clientId.Some? {
      NotNamedKeeps(r.inDoubt, e.order.value.clientId.value);
    }
  }

  lemma NothingIsKeptAgain(s: State, step: Step, call: nat)
    requires Kept(s) && Enabled(s, step) && s.reading.placing.None?
    requires Placed(s.desk) == Some(call) && Placed(Next(s, step).desk) == Some(call)
    ensures Next(s, step).reading.placing.None?
  {
    KeptNext(s, step);
    LogGrows(s, step);
    DisplacedStays(s.log, Next(s, step).log, call);
  }

  ghost predicate SettledAt(steps: seq<Step>, k: nat, id: ClientId) {
    k < |steps| && CanRun(steps[..k]) && SettlesDoubt(Run(steps[..k]), steps[k], id)
  }

  ghost predicate OpenSince(steps: seq<Step>, n: nat, id: ClientId) {
    forall k | n <= k < |steps| :: !SettledAt(steps, k, id)
  }

  lemma OpenOneMore(steps: seq<Step>, n: nat, id: ClientId)
    requires n < |steps|
    ensures OpenSince(steps, n, id) <==>
      OpenSince(steps[..|steps| - 1], n, id) && !SettledAt(steps, |steps| - 1, id)
  {
    var before := steps[..|steps| - 1];
    forall k | n <= k < |before| ensures SettledAt(before, k, id) <==> SettledAt(steps, k, id) {
      assert before[..k] == steps[..k];
    }
  }

  /** Once nothing is kept of the order in flight, a doubt held then is held later exactly if nothing settled it. */
  lemma {:induction false} DoubtSince(steps: seq<Step>, n: nat, call: nat, d: InDoubt)
    requires CanRun(steps) && n <= |steps| && CanRun(steps[..n]) && Run(steps[..n]).reading.placing.None?
    requires Placed(Run(steps[..n]).desk) == Some(call) && Placed(Run(steps).desk) == Some(call)
    ensures Run(steps).reading.placing.None?
    ensures d in Run(steps).reading.inDoubt <==> d in Run(steps[..n]).reading.inDoubt && OpenSince(steps, n, d.clientId)
    decreases |steps|
  {
    if n == |steps| {
      assert steps[..n] == steps;
    } else {
      var before, last := steps[..|steps| - 1], steps[|steps| - 1];
      assert before[..n] == steps[..n];
      EveryRunKeeps(steps[..n]);
      EveryRunKeeps(before);
      LaterRun(before, n);
      assert call <= Run(before).desk.callSeq;
      EveryStepMoves(Run(before), last);
      DoubtSince(before, n, call, d);
      NothingIsKeptAgain(Run(before), last, call);
      DoubtsOnlyLeave(Run(before), last, d);
      OpenOneMore(steps, n, d.clientId);
    }
  }

  // ---- an order of ours is never in doubt beside its record ----

  ghost predicate Apart(r: Reading) {
    r.placing.Some? && r.placing.value.clientId.Ours? ==>
      forall x | x in r.inDoubt :: x.clientId != r.placing.value.clientId
  }

  lemma ApartNext(s: State, step: Step)
    requires Kept(s) && Enabled(s, step) && Apart(s.reading)
    ensures Apart(Next(s, step).reading)
  {
    var t := Next(s, step);
    KeptNext(s, step);
    LogGrows(s, step);
    EveryStepMoves(s, step);
    if t.reading.placing.Some? && t.reading.placing.value.clientId.Ours? {
      var call := Placed(t.desk).value;
      if call <= s.desk.callSeq {
        if Displaced(s.log, call) {
          DisplacedStays(s.log, t.log, call);
        }
      } else {
        NewIdIsNoDoubt(s, t, call);
      }
    }
  }

  lemma NewIdIsNoDoubt(s: State, t: State, call: nat)
    requires Kept(s) && Kept(t) && s.log <= t.log && Placed(t.desk) == Some(call) && call > s.desk.callSeq
    requires t.reading.placing.Some? && t.reading.placing.value.clientId.Ours?
    ensures forall x | x in s.reading.inDoubt :: x.clientId != t.reading.placing.value.clientId
  {
    var order := t.desk.flights[call].out.value.order;
    var i :| 0 <= i < |t.log| && t.log[i].Sent? && t.log[i].call == call && t.log[i].order == order;
    if i < |s.log| {
      assert false;
    }
    forall x | x in s.reading.inDoubt ensures x.clientId != t.reading.placing.value.clientId {
      WasSentUnderId(s.log, x);
      var h :| 0 <= h < |s.log| && s.log[h].Sent? && s.log[h].order.clientId == Some(x.clientId);
      assert t.log[h] == s.log[h];
      NeverTwice(t.log, h, i);
    }
  }

  lemma {:induction false} EveryRunIsApart(steps: seq<Step>)
    requires CanRun(steps)
    ensures Apart(Run(steps).reading)
    decreases |steps|
  {
    if steps != [] {
      EveryRunIsApart(steps[..|steps| - 1]);
      EveryRunKeeps(steps[..|steps| - 1]);
      ApartNext(Run(steps[..|steps| - 1]), steps[|steps| - 1]);
    }
  }

  // ---- when the order in flight is in doubt ----

  /**
   The order in flight enters doubt when its own call is given up, or fails with its outcome open,
   exactly when no answer of an older new order came while it was in flight. If one came, it is in
   doubt then only if it was in doubt before.
   */
  lemma UnansweredIsDoubted(s: State, call: nat)
    requires Kept(s) && Placed(s.desk) == Some(call)
    ensures call in s.desk.timers && call in s.desk.flights && DoubtOf(s.desk.flights[call]).Some?
    ensures var d := DoubtOf(s.desk.flights[call]).value;
      var doubts := if Displaced(s.log, call) then s.reading.inDoubt else s.reading.inDoubt + [d];
      && TimerDone(s, call).reading.inDoubt == doubts
      && (forall env :: AnswerDone(s, call, Broke(true), env).reading.inDoubt == doubts)
      && (d in doubts <==> !Displaced(s.log, call) || d in s.reading.inDoubt)
  {
  }

  /**
   The first answer of an older order left its own outcome open, so this one went into doubt, or its
   very record was in doubt before; and nothing settled that since.
   */
  ghost predicate HeldBy(steps: seq<Step>, n: nat, call: nat, d: InDoubt) {
    && FirstReply(steps, n, call)
    && (steps[n].answer == Broke(true) || d in Run(steps[..n]).reading.inDoubt)
    && OpenSince(steps, n, d.clientId)
  }

  lemma HeldAtOnce(steps: seq<Step>, n: nat, call: nat, d: InDoubt)
    requires CanRun(steps) && FirstReply(steps, n, call)
    requires call in Run(steps[..n]).desk.flights && DoubtOf(Run(steps[..n]).desk.flights[call]) == Some(d)
    ensures CanRun(steps[..n + 1])
    ensures Placed(Run(steps[..n + 1]).desk) == Some(call) && Run(steps[..n + 1]).reading.placing.None?
    ensures d in Run(steps[..n + 1]).reading.inDoubt <==>
      (steps[n].answer == Broke(true) || d in Run(steps[..n]).reading.inDoubt) && !SettledAt(steps, n, d.clientId)
  {
    LaterRun(steps, n + 1);
    EveryRunKeeps(steps[..n]);
    assert steps[..n + 1][..n] == steps[..n];
    TheFirstReplyDecides(Run(steps[..n]), steps[n], call);
  }

  lemma OpenFrom(steps: seq<Step>, n: nat, id: ClientId)
    requires n < |steps|
    ensures OpenSince(steps, n, id) <==> OpenSince(steps, n + 1, id) && !SettledAt(steps, n, id)
  {
  }

  lemma HeldSince(steps: seq<Step>, n: nat, call: nat, d: InDoubt)
    requires CanRun(steps) && Placed(Run(steps).desk) == Some(call) && FirstReply(steps, n, call)
    requires call in Run(steps).desk.flights && DoubtOf(Run(steps).desk.flights[call]) == Some(d)
    ensures d in Run(steps).reading.inDoubt <==> HeldBy(steps, n, call, d)
  {
    EveryRunKeeps(steps[..n]);
    StillInFlight(steps, n, call);
    HeldAtOnce(steps, n, call, d);
    DoubtSince(steps, n + 1, call, d);
    OpenFrom(steps, n, d.clientId);
  }

  /**
   In every run, once its own timer goes off the order in flight is in doubt exactly when no answer
   of an older new order came while it was in flight, or the first that came failed with its own
   outcome open and neither a read nor an event settled the doubt since. For an order that came with
   an id of its own, an equal record may also have been in doubt before.
   */
  lemma WhenTheUnansweredIsDoubted(steps: seq<Step>, call: nat)
    requires CanRun(steps) && Placed(Run(steps).desk) == Some(call)
    ensures var s := Run(steps);
      && call in s.desk.timers && call in s.desk.flights && DoubtOf(s.desk.flights[call]).Some?
      && var d := DoubtOf(s.desk.flights[call]).value;
      && (d in TimerDone(s, call).reading.inDoubt <==>
            !Displaced(s.log, call) || exists n: nat :: HeldBy(steps, n, call, d))
      && (d.clientId.Ours? ==> forall n: nat | HeldBy(steps, n, call, d) :: steps[n].answer == Broke(true))
  {
    var s := Run(steps);
    EveryRunKeeps(steps);
    UnansweredIsDoubted(s, call);
    var d := DoubtOf(s.desk.flights[call]).value;
    HeldOnceDisplaced(steps, call, d);
    if d.clientId.Ours? {
      forall n: nat | HeldBy(steps, n, call, d) ensures steps[n].answer == Broke(true) {
        OursWasNotDoubted(steps, n, call, d);
      }
    }
  }

  lemma HeldOnceDisplaced(steps: seq<Step>, call: nat, d: InDoubt)
    requires CanRun(steps) && Placed(Run(steps).desk) == Some(call)
    requires call in Run(steps).desk.flights && DoubtOf(Run(steps).desk.flights[call]) == Some(d)
    ensures Displaced(Run(steps).log, call) ==> (d in Run(steps).reading.inDoubt <==> exists n: nat :: HeldBy(steps, n, call, d))
  {
    EveryRunKeeps(steps);
    if Displaced(Run(steps).log, call) {
      var n := TheRecordWasLost(steps, call);
      HeldSince(steps, n, call, d);
      forall m: nat | HeldBy(steps, m, call, d) ensures d in Run(steps).reading.inDoubt {
        HeldSince(steps, m, call, d);
      }
    }
  }

  lemma OursWasNotDoubted(steps: seq<Step>, n: nat, call: nat, d: InDoubt)
    requires CanRun(steps) && Placed(Run(steps).desk) == Some(call) && FirstReply(steps, n, call)
    requires call in Run(steps).desk.flights && DoubtOf(Run(steps).desk.flights[call]) == Some(d) && d.clientId.Ours?
    ensures d !in Run(steps[..n]).reading.inDoubt
  {
    EveryRunKeeps(steps[..n]);
    StillInFlight(steps, n, call);
    EveryRunIsApart(steps[..n]);
  }

  // ---- what can be known as the order goes ----

  /** No other new order is unanswered. */
  ghost predicate NoOtherOut(d: Desk, call: nat) {
    forall c | c in d.flights && d.flights[c].busy.Placing? :: c == call
  }

  /** Whatever comes, the order has its record for as long as it is the one in flight. */
  ghost predicate RecordIsSafe(steps: seq<Step>, call: nat)
    requires CanRun(steps)
  {
    forall more: seq<Step> | CanRun(steps + more) && Placed(Run(steps + more).desk) == Some(call) ::
      Run(steps + more).reading.placing.Some?
  }

  /**
   Of an order in flight that has its record: nothing that may still come can take the record away
   while the order stays in flight, exactly when no other new order is unanswered.
   */
  lemma WhenTheRecordIsSafe(steps: seq<Step>, call: nat)
    requires CanRun(steps) && Placed(Run(steps).desk) == Some(call) && Run(steps).reading.placing.Some?
    ensures RecordIsSafe(steps, call) <==> NoOtherOut(Run(steps).desk, call)
  {
    EveryRunKeeps(steps);
    if NoOtherOut(Run(steps).desk, call) {
      forall more: seq<Step> | CanRun(steps + more) && Placed(Run(steps + more).desk) == Some(call)
        ensures Run(steps + more).reading.placing.Some?
      {
        assert (steps + more)[..|steps|] == steps;
        RecordStaysSafe(steps + more, |steps|, call);
      }
    } else {
      var c :| c in Run(steps).desk.flights && Run(steps).desk.flights[c].busy.Placing? && c != call;
      var answer := CallAnswers(c, Broke(false), AnyEnv());
      RunOne(steps, answer);
      TheFirstReplyDecides(Run(steps), answer, call);
    }
  }

  lemma {:induction false} RecordStaysSafe(steps: seq<Step>, n: nat, call: nat)
    requires CanRun(steps) && n <= |steps| && CanRun(steps[..n]) && Run(steps[..n]).reading.placing.Some?
    requires Placed(Run(steps[..n]).desk) == Some(call) && NoOtherOut(Run(steps[..n]).desk, call)
    requires Placed(Run(steps).desk) == Some(call)
    ensures Run(steps).reading.placing.Some?
    decreases |steps|
  {
    if n == |steps| {
      assert steps[..n] == steps;
    } else {
      var before, last := steps[..|steps| - 1], steps[|steps| - 1];
      assert before[..n] == steps[..n];
      EveryRunKeeps(steps[..n]);
      EveryRunKeeps(before);
      LaterRun(before, n);
      SafeOneMore(Run(steps[..n]), Run(before), last, call);
      RecordStaysSafe(before, n, call);
    }
  }

  /** The step leaves the record where it is: the answer that could take it has no flight to come from. */
  lemma SafeOneMore(start: State, s: State, step: Step, call: nat)
    requires Books(start.desk) && Placed(start.desk) == Some(call) && NoOtherOut(start.desk, call)
    requires Books(s.desk) && Enabled(s, step) && Later(start.desk, s.desk) && Placed(Next(s, step).desk) == Some(call)
    ensures Placed(s.desk) == Some(call)
    ensures s.reading.placing.Some? ==> Next(s, step).reading.placing.Some?
  {
    EveryStepMoves(s, step);
  }

  /** In every run each doubt, and the record of the order in flight, tells an order that the log sends. */
  lemma EveryDoubtIsAnOrder(steps: seq<Step>)
    requires CanRun(steps)
    ensures forall d | d in Run(steps).reading.inDoubt :: WasSent(Run(steps).log, d)
    ensures Run(steps).reading.placing.Some? ==> WasSent(Run(steps).log, Run(steps).reading.placing.value)
  {
    EveryRunKeeps(steps);
    if Run(steps).reading.placing.Some? {
      KeptWasSent(Run(steps));
    }
  }

  // ---- two orders, of which the first was given up ----

  function FirstOrder(): NewOrder { NewOrder(1, BUY, MARKET, 100, 0, true, None) }

  function SecondOrder(): NewOrder { NewOrder(2, BUY, MARKET, 100, 0, true, None) }

  function AnyEnv(): Env { Env(0, 0, (n: nat, o: NewOrder) => true, [], []) }

  /** The first order was given up and the second is in flight. */
  ghost predicate SecondOut(s: State) {
    && Placed(s.desk) == Some(2) && 2 in s.desk.timers && s.desk.timers[2] == Placing
    && 1 in s.desk.flights && s.desk.flights[1].busy == Placing
    && s.outbox.queue == [] && s.reversing.pending == map[] && s.reading.placing.Some?
    && |s.reading.inDoubt| == 1 && s.reading.inDoubt[0].clientId == Ours(0, 1)
    && |s.log| == 5 && s.log[4].Sent? && s.log[4].call == 2
  }

  /** The first of the two is out. */
  ghost predicate FirstOut(s: State) {
    && s.desk.busy == {Placing} && s.desk.calls == map[Placing := 1] && s.desk.callSeq == 1
    && 1 in s.desk.flights && s.desk.flights[1].busy == Placing && 1 in s.desk.timers && s.desk.timers[1] == Placing
    && s.outbox.queue == [] && s.outbox.ordersSent == 1 && s.outbox.last == Some((FirstOrder().Imprint(), 0))
    && s.reading.placing == Some(InDoubt(Ours(0, 1), 1, true, 100, 0)) && s.reading.inDoubt == []
    && s.reversing.pending == map[] && !s.replay && |s.log| == 1
  }

  /** It was given up, and its answer may still come. */
  ghost predicate FirstOver(s: State) {
    && s.desk.busy == {} && s.desk.calls == map[] && s.desk.callSeq == 1
    && 1 in s.desk.flights && s.desk.flights[1].busy == Placing
    && s.outbox.queue == [] && s.outbox.ordersSent == 1 && s.outbox.last == Some((FirstOrder().Imprint(), 0))
    && |s.reading.inDoubt| == 1 && s.reading.inDoubt[0].clientId == Ours(0, 1)
    && s.reversing.pending == map[] && !s.replay && |s.log| == 4
  }

  lemma FirstGoesOut()
    ensures FirstOut(Next(INITIAL, DoPlace(FirstOrder(), AnyEnv())))
  {
  }

  lemma FirstIsGivenUp(s: State)
    requires FirstOut(s)
    ensures Enabled(s, TimerFires(1)) && FirstOver(Next(s, TimerFires(1)))
  {
  }

  lemma SecondGoesOut(s: State)
    requires FirstOver(s)
    ensures SecondOut(Next(s, DoPlace(SecondOrder(), AnyEnv())))
  {
  }

  lemma SecondIsOut() returns (steps: seq<Step>)
    ensures CanRun(steps) && SecondOut(Run(steps))
  {
    var first, second := DoPlace(FirstOrder(), AnyEnv()), DoPlace(SecondOrder(), AnyEnv());
    FirstGoesOut();
    RunOne([], first);
    assert [] + [first] == [first];
    FirstIsGivenUp(Run([first]));
    RunOne([first], TimerFires(1));
    SecondGoesOut(Run([first] + [TimerFires(1)]));
    RunOne([first] + [TimerFires(1)], second);
    steps := [first] + [TimerFires(1)] + [second];
  }

  /** What the late answer of the first order leaves: no order being placed, though the second is in flight. */
  ghost predicate SecondForgotten(s: State) {
    && Placed(s.desk) == Some(2) && 2 in s.desk.timers && s.desk.timers[2] == Placing
    && s.reading.placing == None && Displaced(s.log, 2)
    && s.reading.inDoubt != [] && forall d | d in s.reading.inDoubt :: d.clientId == Ours(0, 1)
  }

  function LateAnswer(): Step {
    CallAnswers(1, Done(Execution(Some(Accepted), None, None)), AnyEnv())
  }

  lemma LateAnswerLands(s: State)
    requires SecondOut(s)
    ensures Enabled(s, LateAnswer()) && SecondForgotten(Next(s, LateAnswer()))
  {
    var log := Next(s, LateAnswer()).log;
    assert log[4] == s.log[4] && log[5] == Answered(1, Placing, true);
  }

  lemma TimerForgets(steps: seq<Step>, call: nat, id: ClientId)
    requires CanRun(steps) && Placed(Run(steps).desk) == Some(call)
    requires Displaced(Run(steps).log, call) && (forall d | d in Run(steps).reading.inDoubt :: d.clientId == id)
    ensures CanRun(steps + [TimerFires(call)])
    ensures forall d | d in Run(steps + [TimerFires(call)]).reading.inDoubt :: d.clientId == id
  {
    EveryRunKeeps(steps);
    UnansweredIsDoubted(Run(steps), call);
    RunOne(steps, TimerFires(call));
  }

  /**
   So not every order that gets no answer in time is kept in doubt: at the end of this run the
   second order is in flight, its timer goes off next, and still only the first is in doubt.
   */
  lemma AnOrderIsForgotten() returns (steps: seq<Step>)
    ensures CanRun(steps) && Placed(Run(steps).desk) == Some(2)
    ensures CanRun(steps + [TimerFires(2)])
    ensures forall d | d in Run(steps + [TimerFires(2)]).reading.inDoubt :: d.clientId == Ours(0, 1)
  {
    var early := SecondIsOut();
    LateAnswerLands(Run(early));
    RunOne(early, LateAnswer());
    steps := early + [LateAnswer()];
    TimerForgets(steps, 2, Ours(0, 1));
  }

  function OpenAnswer(): Step { CallAnswers(1, Broke(true), AnyEnv()) }

  lemma OpenAnswerLands(s: State)
    requires Kept(s) && SecondOut(s)
    ensures Enabled(s, OpenAnswer()) && 2 in s.desk.flights && DoubtOf(s.desk.flights[2]).Some?
    ensures var t := Next(s, OpenAnswer());
      && Placed(t.desk) == Some(2) && Displaced(t.log, 2) && t.reversing.pending == map[]
      && t.reading.epoch in t.reading.loads
      && 2 in t.desk.flights && DoubtOf(t.desk.flights[2]).Some? && DoubtOf(t.desk.flights[2]).value in t.reading.inDoubt
  {
    TheFirstReplyDecides(s, OpenAnswer(), 2);
    KeptNext(s, OpenAnswer());
    LostAsks(s, 1, AnyEnv());
    assert Recalls(Next(s, OpenAnswer()));
  }

  lemma LostAsks(s: State, call: nat, env: Env)
    requires call in s.desk.flights && s.desk.flights[call].busy.Placing?
    ensures var t := AnswerDone(s, call, Broke(true), env);
      && t.reversing == s.reversing && t.reading.epoch in t.reading.loads
      && (forall c | c in s.desk.flights && c != call :: c in t.desk.flights && t.desk.flights[c] == s.desk.flights[c])
  {
  }

  /**
   The same two orders, but the late answer of the first fails with its outcome open: the second is
   in doubt at once, before its own timer, and after it.
   */
  lemma AnOrderIsDoubtedEarly() returns (steps: seq<Step>)
    ensures CanRun(steps) && Placed(Run(steps).desk) == Some(2) && Displaced(Run(steps).log, 2)
    ensures 2 in Run(steps).desk.flights && DoubtOf(Run(steps).desk.flights[2]).Some?
    ensures DoubtOf(Run(steps).desk.flights[2]).value in Run(steps).reading.inDoubt
    ensures CanRun(steps + [TimerFires(2)])
    ensures DoubtOf(Run(steps).desk.flights[2]).value in Run(steps + [TimerFires(2)]).reading.inDoubt
    ensures Run(steps).reversing.pending == map[] && Run(steps).reading.epoch in Run(steps).reading.loads
  {
    var early := SecondIsOut();
    EveryRunKeeps(early);
    OpenAnswerLands(Run(early));
    RunOne(early, OpenAnswer());
    steps := early + [OpenAnswer()];
    EveryRunKeeps(steps);
    UnansweredIsDoubted(Run(steps), 2);
    RunOne(steps, TimerFires(2));
  }

  /** And a read that comes before the timer settles that doubt while the order is still unanswered. */
  lemma AnEarlyDoubtIsSettled() returns (steps: seq<Step>)
    ensures CanRun(steps) && Placed(Run(steps).desk) == Some(2) && CanRun(steps + [TimerFires(2)])
    ensures Run(steps + [TimerFires(2)]).reading.inDoubt == []
  {
    var early := AnOrderIsDoubtedEarly();
    EveryRunKeeps(early);
    var s := Run(early);
    var read := ReadAnswers(s.reading.epoch, Found(map[]), AnyEnv());
    RunOne(early, read);
    steps := early + [read];
    EveryRunKeeps(steps);
    ReadIsTame(s, s.reading.epoch, map[], AnyEnv());
    LogGrows(s, read);
    DisplacedStays(s.log, Run(steps).log, 2);
    UnansweredIsDoubted(Run(steps), 2);
    RunOne(steps, TimerFires(2));
  }
}
