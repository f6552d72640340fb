/**
 Which answers decide a reversal: those of every close of its position do, whoever made that close,
 by accepting it or by failing.
 */
module AccountReversing {
  import opened Wrappers
  import opened Reversals
  import opened AccountState
  import opened AccountInvariant
  import opened AccountTame
  import opened AccountRuns
  import opened AccountTheorems
  import opened AccountMeaning
  import opened AccountDoubts

  /** A reversal that waits for an answer of its close. */
  predicate Waits(s: State, id: int) {
    id in s.reversing.pending && !s.reversing.pending[id].acknowledged
  }

  /** An answer that accepts or fails: with it the reversal is acknowledged, on its way, or forgotten. */
  predicate Decides(s: State, step: Step, id: int)
    requires Enabled(s, step)
  {
    && step.CallAnswers? && (step.answer.Done? ==> Accepts(step.answer.event.kind))
    && !Waits(Next(s, step), id)
  }

  // ---- one step ----

  /** The reversals that wait may go, but are not acknowledged. */
  ghost predicate WaitsStay(m: Tracked, n: Tracked) {
    forall id | id in n && id in m && !m[id].acknowledged :: !n[id].acknowledged
  }

  lemma NothingElseAcknowledges(s: State, step: Step, id: int)
    requires Books(s.desk) && Enabled(s, step) && Waits(s, id)
    requires id in Next(s, step).reversing.pending && Next(s, step).reversing.pending[id].acknowledged
    ensures Decides(s, step, id) && step.answer.Done?
  {
    if step.CallAnswers? && step.answer.Done? {
      AnAnswerAcknowledges(s, step.call, step.answer.event, step.env, id);
    } else {
      OnlyAnswersAcknowledge(s, step);
    }
  }

  lemma OnlyAnswersAcknowledge(s: State, step: Step)
    requires Books(s.desk) && Enabled(s, step) && !(step.CallAnswers? && step.answer.Done?)
    ensures WaitsStay(s.reversing.pending, Next(s, step).reversing.pending)
  {
    match step {
      case NewsComes(news, env) => NewsAcknowledgesNothing(s, news, env);
      case ReadAnswers(epoch, found, env) => ReadAcknowledgesNothing(s, epoch, found, env);
      case DoPlace(order, env) => OneAcknowledgesNothing(s, order, env);
      case DoBatch(orders, probe, env) => PlacingAcknowledgesNothing(s, orders, probe, env);
      case CallAnswers(call, Broke(unknown), _) => LostAcknowledgesNothing(s, call, s.desk.flights[call].busy, unknown);
      case _ => OthersAcknowledgeNothing(s, step);
    }
  }

  lemma LostAcknowledgesNothing(s: State, call: nat, busy: Busy, unknown: bool)
    ensures WaitsStay(s.reversing.pending, OnReady(Lost(s, call, busy, unknown)).reversing.pending)
  {
  }

  lemma OthersAcknowledgeNothing(s: State, step: Step)
    requires Enabled(s, step) && !step.DoPlace? && !step.DoBatch? && !step.NewsComes? && !step.ReadAnswers?
    requires !step.CallAnswers?
    ensures WaitsStay(s.reversing.pending, Next(s, step).reversing.pending)
  {
  }

  lemma PlacingAcknowledgesNothing(s: State, orders: seq<NewOrder>, probe: NewOrder, env: Env)
    requires Books(s.desk)
    ensures WaitsStay(s.reversing.pending, PlaceBatch(s, orders, probe, env).reversing.pending)
  {
    TamePlaceBatch(s, orders, probe, env);
  }

  lemma OneAcknowledgesNothing(s: State, order: NewOrder, env: Env)
    requires Books(s.desk)
    ensures WaitsStay(s.reversing.pending, PlaceWith(s, order, env).reversing.pending)
  {
    TamePlaceWith(s, order, env);
  }

  lemma NewsAcknowledgesNothing(s: State, news: News, env: Env)
    requires Books(s.desk)
    ensures WaitsStay(s.reversing.pending, OnEvent(s, news, env).reversing.pending)
  {
    if news.News? {
      TameOnExecution(s, news.execution, env);
    }
  }

  lemma ReadAcknowledgesNothing(s: State, e: nat, found: ReadAnswer, env: Env)
    requires Books(s.desk)
    ensures WaitsStay(s.reversing.pending, ReadDone(s, e, found, env).reversing.pending)
  {
    if e == s.reading.epoch && found.Found? {
      var (left, orders) := CloseAll(s.reversing.pending, env.listing);
      FewerCloseAll(s.reversing.pending, env.listing);
      var read := ReadApplies(Taken(s, e), e, found.positions, left);
      TameMoves(read, env.moves);
      TameMarketAll(Moves(read, env.moves), orders, env);
    }
  }

  /** What an execution leaves of the reversals, whatever it sends. */
  function HeardBy(m: Tracked, e: Execution): Tracked {
    ClosedBy(if Drops(e.kind) then CancelRelated(m, PositionNamed(e), OrderNamed(e)) else m, e).0
  }

  lemma ExecutionTracks(s: State, e: Execution, env: Env)
    requires Books(s.desk)
    ensures OnExecution(s, e, env).reversing == s.reversing.(pending := HeardBy(s.reversing.pending, e))
  {
    var heard := Heard(s, e);
    TameMoves(heard, env.moves);
    var managed := if e.kind == Some(Filled) then Moves(heard, env.moves) else heard;
    var (left, order) := ClosedBy(managed.reversing.pending, e);
    TameMarket(Tracking(managed, left), order, env);
  }

  lemma DoneTracks(s: State, call: nat, e: Execution, env: Env)
    requires Books(s.desk) && call in s.desk.flights
    ensures AnswerDone(s, call, Done(e), env).reversing.pending
         == HeardBy(AckedBy(s.reversing.pending, s.desk.flights[call].busy, e).0, e)
  {
    var busy := s.desk.flights[call].busy;
    var taking := Taking(s, call, busy, e);
    var order := AckedBy(s.reversing.pending, busy, e).1;
    BooksArrived(s.desk, call, busy);
    ExecutionTracks(taking, e, env);
    TameOnExecution(taking, e, env);
    TameMarket(OnExecution(taking, e, env), order, env);
  }

  predicate WaitsIn(m: Tracked, id: int) { id in m && !m[id].acknowledged }

  lemma HeardWaits(m: Tracked, e: Execution, id: int)
    ensures id in HeardBy(m, e) ==> id in m && HeardBy(m, e)[id].acknowledged == m[id].acknowledged
    ensures !Drops(e.kind) && WaitsIn(m, id) ==> WaitsIn(HeardBy(m, e), id)
  {
  }

  /** An answer acknowledges a reversal that waits exactly when it accepts a close of its position. */
  lemma AnAnswerAcknowledges(s: State, call: nat, e: Execution, env: Env, id: int)
    requires Books(s.desk) && call in s.desk.flights && Waits(s, id)
    ensures var t := AnswerDone(s, call, Done(e), env);
      && (Accepts(e.kind) ==> (!Waits(t, id) <==> s.desk.flights[call].busy == Closing(id)))
      && (!Accepts(e.kind) ==> id !in t.reversing.pending || !t.reversing.pending[id].acknowledged)
  {
    DoneTracks(s, call, e, env);
    HeardWaits(AckedBy(s.reversing.pending, s.desk.flights[call].busy, e).0, e, id);
  }

  /** A failure forgets exactly the reversal of the position its call was to close. */
  lemma AFailureForgets(s: State, call: nat, unknown: bool, env: Env, id: int)
    requires call in s.desk.flights && Waits(s, id)
    ensures !Waits(AnswerDone(s, call, Broke(unknown), env), id) <==> s.desk.flights[call].busy == Closing(id)
  {
  }

  // ---- which call it may be ----

  /** Only the call made when the reversal was started can decide it. */
  ghost predicate OnlyItsOwn(s: State, id: int) {
    forall step | Enabled(s, step) && Decides(s, step, id) ::
      id in s.reversing.closeCalls && step.call == s.reversing.closeCalls[id]
  }

  /** No other close of the position is unanswered. */
  ghost predicate OneClose(s: State, id: int) {
    forall c | c in s.desk.flights && s.desk.flights[c].busy == Closing(id) ::
      id in s.reversing.closeCalls && c == s.reversing.closeCalls[id]
  }

  function Accepting(call: nat): Step {
    CallAnswers(call, Done(Execution(Some(Accepted), None, None)), AnyEnv())
  }

  function Failing(call: nat): Step { CallAnswers(call, Broke(false), AnyEnv()) }

  /** A reversal that waits can be decided by its own close only, exactly when no other close of its position is out. */
  lemma WhoMayDecide(s: State, id: int)
    requires Books(s.desk) && Waits(s, id)
    ensures OnlyItsOwn(s, id) <==> OneClose(s, id)
  {
    if OneClose(s, id) {
      forall step | Enabled(s, step) && Decides(s, step, id)
        ensures id in s.reversing.closeCalls && step.call == s.reversing.closeCalls[id]
      {
        match step.answer
        case Done(e) => AnAnswerAcknowledges(s, step.call, e, step.env, id);
        case Broke(unknown) => AFailureForgets(s, step.call, unknown, step.env, id);
      }
    }
    if OnlyItsOwn(s, id) {
      forall c | c in s.desk.flights && s.desk.flights[c].busy == Closing(id)
        ensures id in s.reversing.closeCalls && c == s.reversing.closeCalls[id]
      {
        AnAnswerAcknowledges(s, c, Execution(Some(Accepted), None, None), AnyEnv(), id);
        assert Decides(s, Accepting(c), id);
      }
    }
  }

  /**
   Over a run: when no close of the position was out as the reversal was started, then for as long as
   the call it made is the current one, no other call can decide it.
   */
  lemma OnlyItsOwnWhileCurrent(steps: seq<Step>, n: nat, id: int)
    requires CanRun(steps) && n < |steps| && CanRun(steps[..n]) && Starts(Run(steps[..n]), steps[n], id)
    requires NoCloseOut(Run(steps[..n]).desk, id)
    requires Closing(id) in Run(steps).desk.calls
    requires Run(steps).desk.calls[Closing(id)] == Run(steps[..n]).desk.callSeq + 1 && Waits(Run(steps), id)
    ensures OnlyItsOwn(Run(steps), id)
  {
    var start := Run(steps[..n]);
    LaterRun(steps, n + 1);
    assert steps[..n + 1][..n] == steps[..n];
    EveryRunKeeps(steps[..n]);
    EveryRunKeeps(steps);
    OneCloseLater(start, steps[n], Run(steps), id);
    WhoMayDecide(Run(steps), id);
  }

  /** The step starts a reversal of the position. */
  predicate Starts(s: State, step: Step, id: int) {
    step.DoReverse? && step.id == id && id !in s.reversing.pending && id in Next(s, step).reversing.pending
  }

  ghost predicate NoCloseOut(d: Desk, id: int) {
    forall c | c in d.flights :: d.flights[c].busy != Closing(id)
  }

  lemma OneCloseLater(start: State, step: Step, s: State, id: int)
    requires Books(start.desk) && Starts(start, step, id) && NoCloseOut(start.desk, id)
    requires Kept(s) && Later(Next(start, step).desk, s.desk) && Waits(s, id)
    requires Closing(id) in s.desk.calls && s.desk.calls[Closing(id)] == start.desk.callSeq + 1
    ensures OneClose(s, id)
  {
    var begun := Next(start, step);
    ReversingAsksForTheClose(start, id, step.stamp, step.env);
    OwnCloseOut(start, step, id);
    assert Alive(s.reversing, s.desk.flights, id);
  }

  lemma OwnCloseOut(s: State, step: Step, id: int)
    requires Starts(s, step, id) && NoCloseOut(s.desk, id)
    ensures forall c | c in Next(s, step).desk.flights && Next(s, step).desk.flights[c].busy == Closing(id) ::
      c == s.desk.callSeq + 1
  {
  }

  /** Its own close call is the current one of its button. */
  predicate OwnIsCurrent(s: State, id: int, call: nat) {
    Waits(s, id) && Closing(id) in s.desk.calls && s.desk.calls[Closing(id)] == call
  }

  ghost predicate OwnDecidesLater(steps: seq<Step>, id: int, call: nat)
    requires CanRun(steps)
  {
    forall more: seq<Step> | CanRun(steps + more) && OwnIsCurrent(Run(steps + more), id, call) :: OnlyItsOwn(Run(steps + more), id)
  }

  /**
   Of a reversal whose own close is the current call: whatever comes, no other call decides it while
   that stays so, exactly when no other close of its position is unanswered now.
   */
  lemma WhenItsOwnDecides(steps: seq<Step>, id: int, call: nat)
    requires CanRun(steps) && OwnIsCurrent(Run(steps), id, call)
    requires id in Run(steps).reversing.closeCalls && Run(steps).reversing.closeCalls[id] == call
    ensures OwnDecidesLater(steps, id, call) <==> OneClose(Run(steps), id)
  {
    EveryRunKeeps(steps);
    if OneClose(Run(steps), id) {
      forall more: seq<Step> | CanRun(steps + more) && OwnIsCurrent(Run(steps + more), id, call)
        ensures OnlyItsOwn(Run(steps + more), id)
      {
        assert (steps + more)[..|steps|] == steps;
        LaterRun(steps + more, |steps|);
        EveryRunKeeps(steps + more);
        OneCloseStays(Run(steps), Run(steps + more), id, call);
        WhoMayDecide(Run(steps + more), id);
      }
    }
    if OwnDecidesLater(steps, id, call) {
      assert steps + [] == steps;
      WhoMayDecide(Run(steps), id);
    }
  }

  lemma OneCloseStays(s: State, t: State, id: int, call: nat)
    requires Books(s.desk) && OneClose(s, id) && id in s.reversing.closeCalls && s.reversing.closeCalls[id] == call
    requires OwnIsCurrent(s, id, call) && Later(s.desk, t.desk)
    requires OwnIsCurrent(t, id, call) && AllAlive(t)
    ensures OneClose(t, id)
  {
    assert Alive(t.reversing, t.desk.flights, id);
  }

  // ---- a close that was given up ----

  function Bought(): Position { Position(1, true, 100) }

  function Opens(): Step {
    NewsComes(News(Execution(None, None, Some(PositionNews(7, IsOpen, true, Bought())))), AnyEnv())
  }

  /** The plain close was given up, and its answer may still come. */
  ghost predicate CloseGivenUp(s: State) {
    && s.desk.busy == {} && s.desk.callSeq == 1 && !s.replay && s.reversing.pending == map[]
    && 1 in s.desk.flights && s.desk.flights[1].busy == Closing(7)
    && 7 in s.positions && s.positions[7] == Bought()
  }

  lemma ACloseIsGivenUp() returns (steps: seq<Step>)
    ensures CanRun(steps) && CloseGivenUp(Run(steps))
  {
    var a := [Opens()];
    RunOne([], a[0]);
    assert [] + a == a;
    RunOne(a, DoClose(7));
    var b := a + [DoClose(7)];
    RunOne(b, TimerFires(1));
    steps := b + [TimerFires(1)];
  }

  lemma TheReversalWaits(s: State)
    requires CloseGivenUp(s)
    ensures var t := Next(s, DoReverse(7, 0, AnyEnv()));
      && Waits(t, 7) && !t.reversing.pending[7].closed && 7 in t.reversing.closeCalls && t.reversing.closeCalls[7] == 2
      && 1 in t.desk.flights && t.desk.flights[1].busy == Closing(7)
      && 2 in t.desk.flights && t.desk.flights[2].busy == Closing(7)
  {
  }

  /**
   A plain close is given up, a reversal of the same position is started, and while its own close is
   still unanswered the late answer of the plain one acknowledges it, or its late failure forgets it.
   */
  lemma AnotherCloseDecides() returns (steps: seq<Step>)
    ensures CanRun(steps) && Waits(Run(steps), 7)
    ensures 7 in Run(steps).reversing.closeCalls && Run(steps).reversing.closeCalls[7] == 2
    ensures 2 in Run(steps).desk.flights && Run(steps).desk.flights[2].busy == Closing(7)
    ensures Enabled(Run(steps), Accepting(1)) && Enabled(Run(steps), Failing(1))
    ensures 7 in Next(Run(steps), Accepting(1)).reversing.pending
         && Next(Run(steps), Accepting(1)).reversing.pending[7].acknowledged
    ensures 7 !in Next(Run(steps), Failing(1)).reversing.pending
  {
    var before := ACloseIsGivenUp();
    TheReversalWaits(Run(before));
    RunOne(before, DoReverse(7, 0, AnyEnv()));
    steps := before + [DoReverse(7, 0, AnyEnv())];
    EveryRunKeeps(steps);
    LateAnswerDecides(Run(steps));
  }

  lemma LateAnswerDecides(s: State)
    requires Books(s.desk) && Waits(s, 7) && 1 in s.desk.flights && s.desk.flights[1].busy == Closing(7)
    requires !s.reversing.pending[7].closed
    ensures var t := Next(s, Accepting(1)); 7 in t.reversing.pending && t.reversing.pending[7].acknowledged
    ensures 7 !in Next(s, Failing(1)).reversing.pending
  {
    DoneTracks(s, 1, Execution(Some(Accepted), None, None), AnyEnv());
  }
}
