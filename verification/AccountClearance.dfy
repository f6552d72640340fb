/**
 What the safety limits answer decides what goes: an order, a plan and a reversal go exactly when
 they were allowed, and nothing else stood in the way.
 */
module AccountClearance {
  import opened Wrappers
  import opened Reversals
  import opened AccountState
  import opened AccountLaws
  import opened AccountInvariant
  import opened AccountTheorems
  import opened AccountMeaning
  import opened AccountReleases
  import opened AccountProgress

  /** The order as it was asked for, before it got an id of ours. */
  function AsAsked(order: NewOrder): NewOrder {
    if order.clientId.Some? && order.clientId.value.Ours? then order.(clientId := None) else order
  }

  predicate IsSound(order: NewOrder) { order.symbol > 0 && order.volume > 0 && order.wellFormed }

  /** Alike to the last order sent in all that the source compares, less than two seconds after it. */
  predicate IsRepeated(o: Outbox, order: NewOrder, now: int) {
    o.last.Some? && now < o.last.value.1 + 2_000
    && var fp := o.last.value.0;
    && fp.symbol == order.symbol && (fp.buy <==> order.side == 1) && fp.volume == order.volume
    && fp.kind == order.kind && fp.price == order.price
  }

  /** The entry sends this order, under an id of ours when it came with none. */
  predicate Sends(e: LogEntry, order: NewOrder, call: nat) {
    && e.Sent? && e.from == Single && e.call == call && e.order.clientId.Some?
    && e.order == order.(clientId := e.order.clientId)
    && (if order.clientId.Some? then e.order.clientId == order.clientId else e.order.clientId.value.Ours?)
  }

  /** An order that is asked for goes exactly when all of these hold, as one call of its own; else nothing changes. */
  lemma WhenAnOrderGoes(s: State, order: NewOrder, env: Env)
    requires Foreign(order)
    ensures var t := Next(s, DoPlace(order, env));
      if IsSound(order) && !s.replay && env.allows(s.desk.callSeq, order) && Placing !in s.desk.busy
         && !IsRepeated(s.outbox, order, env.now)
      then
        && |t.log| == |s.log| + 1 && s.log <= t.log && Sends(t.log[|s.log|], order, s.desk.callSeq + 1)
        && Placed(t.desk) == Some(s.desk.callSeq + 1) && t.outbox.queue == s.outbox.queue
      else t == s
  {
  }

  /** Nothing stands in the way of this plan, which probe stands for. */
  predicate PlanMayGo(s: State, orders: seq<NewOrder>, probe: NewOrder, env: Env)
    requires orders != []
  {
    && (forall i | 0 <= i < |orders| :: IsSound(orders[i])) && !s.replay && env.allows(s.desk.callSeq, probe)
    && Placing !in s.desk.busy && s.outbox.queue == [] && !IsRepeated(s.outbox, orders[0], env.now)
  }

  /** A plan of several orders goes exactly when every one is sound and the order that stands for it is allowed. */
  lemma WhenAPlanGoes(s: State, orders: seq<NewOrder>, probe: NewOrder, env: Env)
    requires |orders| > 1 && Enabled(s, DoBatch(orders, probe, env))
    ensures var t := Next(s, DoBatch(orders, probe, env));
      if PlanMayGo(s, orders, probe, env)
      then |t.log| == |s.log| + 2 && s.log <= t.log && t.log[|s.log|].Planned? && NamedFrom(t.log[|s.log|].orders, orders)
      else t == s
  {
    PlanIsRefused(s, orders, probe, env);
    if PlanMayGo(s, orders, probe, env) {
      PlanIsNoted(s, orders, probe, env);
      APlanStarts(s, orders, probe, env);
    }
  }

  lemma PlanIsRefused(s: State, orders: seq<NewOrder>, probe: NewOrder, env: Env)
    requires |orders| > 1
    ensures RefusesBatch(s, orders, probe, env) <==> !PlanMayGo(s, orders, probe, env)
  {
  }

  /**
     What stands for a plan is its first order of a side, with the volume of that side: no other is over
     it, and none met later as heavy.
  */
  lemma WhatIsAsked(orders: seq<NewOrder>, probe: NewOrder) returns (i: nat)
    requires Probes(orders, probe)
    ensures i < |orders| && probe == orders[i].(volume := probe.volume)
    ensures forall j | 0 <= j < i :: orders[j].side != probe.side
    ensures probe.volume == SideVolume(orders, probe.side)
    ensures forall j | 0 <= j < |orders| :: SideVolume(orders, orders[j].side) <= probe.volume
    ensures forall j | i < j < |orders| && (forall h | 0 <= h < j :: orders[h].side != orders[j].side) ::
      SideVolume(orders, orders[j].side) < probe.volume
  {
    i :| i < |orders|
      && (forall j :: 0 <= j < i ==> orders[j].side != orders[i].side)
      && probe == orders[i].(volume := SideVolume(orders, orders[i].side))
      && (forall j :: 0 <= j < |orders| ==> SideVolume(orders, orders[j].side) <= probe.volume)
      && (forall j :: i < j < |orders| && NewSide(orders, j) ==> SideVolume(orders, orders[j].side) < probe.volume);
    forall j | i < j < |orders| && (forall h | 0 <= h < j :: orders[h].side != orders[j].side)
      ensures SideVolume(orders, orders[j].side) < probe.volume
    {
      assert NewSide(orders, j);
    }
  }

  /** The volume of a side is that of its orders, added up in any grouping. */
  lemma {:induction false} SidesAddUp(a: seq<NewOrder>, b: seq<NewOrder>, side: int)
    ensures SideVolume(a + b, side) == SideVolume(a, side) + SideVolume(b, side)
    ensures |a| == 1 ==> SideVolume(a, side) == if a[0].side == side then a[0].volume else 0
  {
    if b == [] {
      assert a + b == a;
    } else {
      SidesAddUp(a, b[..|b| - 1], side);
      assert (a + b)[..|a + b| - 1] == a + b[..|b| - 1];
    }
  }

  lemma PlanIsNoted(s: State, orders: seq<NewOrder>, probe: NewOrder, env: Env)
    requires |orders| > 1 && !RefusesBatch(s, orders, probe, env)
    ensures |PlaceBatch(s, orders, probe, env).log| > |s.log|
  {
  }

  /** The market order that would open the opposite of a position. */
  function Opposite(p: Position): NewOrder {
    NewOrder(p.symbol, if p.buy then 2 else 1, 1, p.volume, 0, true, None)
  }

  /** A reversal starts exactly when its opposite order would be allowed now; else nothing changes. */
  lemma WhenAReversalStarts(s: State, id: int, stamp: int, env: Env)
    requires Books(s.desk)
    ensures var t := Next(s, DoReverse(id, stamp, env));
      if Closing(id) !in s.desk.busy && id in s.positions && !s.replay
         && env.allows(s.desk.callSeq, Opposite(s.positions[id])) && id !in s.reversing.pending
      then
        && t.log == s.log && id in t.reversing.pending && Closing(id) in t.desk.busy
        && t.reversing.pending[id]
           == Pending(ReverseOrder(s.positions[id].symbol, !s.positions[id].buy, s.positions[id].volume), stamp, None, false, false)
        && (forall other | other != id ::
              (other in t.reversing.pending <==> other in s.reversing.pending)
              && (other in s.reversing.pending ==> t.reversing.pending[other] == s.reversing.pending[other]))
      else t == s
  {
  }

  // ---- every order of every run ----

  /** The limits allowed the order as it was asked for, before its call was made. */
  predicate WasAllowed(env: Env, e: LogEntry) {
    e.Sent? && e.call > 0 && env.allows(e.call - 1, AsAsked(e.order)) && IsSound(e.order)
  }

  ghost predicate AllAllowed(log: Log, now: Log, env: Env) {
    log <= now && forall i | |log| <= i < |now| && IsSingle(now[i]) :: WasAllowed(env, now[i])
  }

  lemma PlaceAllowed(s: State, order: NewOrder, env: Env)
    requires Foreign(order)
    ensures AllAllowed(s.log, PlaceWith(s, order, env).log, env)
  {
    WhenAnOrderGoes(s, order, env);
  }

  lemma MarketAllowed(s: State, o: Option<ReverseOrder>, env: Env)
    ensures AllAllowed(s.log, Market(s, o, env).log, env)
  {
    if o.Some? {
      PlaceAllowed(s, MarketOrder(o.value), env);
    }
  }

  lemma AllowedChain(a: Log, b: Log, c: Log, env: Env)
    requires AllAllowed(a, b, env) && AllAllowed(b, c, env)
    ensures AllAllowed(a, c, env)
  {
    forall i | |a| <= i < |c| && IsSingle(c[i]) ensures WasAllowed(env, c[i]) {
      if i < |b| {
        assert c[i] == b[i];
      }
    }
  }

  lemma {:induction false} MarketAllAllowed(s: State, orders: seq<ReverseOrder>, env: Env)
    ensures AllAllowed(s.log, MarketAll(s, orders, env).log, env)
  {
    if orders != [] {
      var before := MarketAll(s, orders[..|orders| - 1], env);
      MarketAllAllowed(s, orders[..|orders| - 1], env);
      MarketAllowed(before, Some(orders[|orders| - 1]), env);
      AllowedChain(s.log, before.log, MarketAll(s, orders, env).log, env);
    }
  }

  lemma ExecutionAllowed(s: State, e: Execution, env: Env)
    ensures AllAllowed(s.log, OnExecution(s, e, env).log, env)
  {
    var heard := Heard(s, e);
    MovesLogNothing(heard, env.moves);
    var managed := if e.kind == Some(Filled) then Moves(heard, env.moves) else heard;
    var (left, order) := ClosedBy(managed.reversing.pending, e);
    MarketAllowed(Tracking(managed, left), order, env);
  }

  lemma DoneAllowed(s: State, call: nat, e: Execution, env: Env)
    requires call in s.desk.flights
    ensures AllAllowed(s.log, AnswerDone(s, call, Done(e), env).log, env)
  {
    var busy := s.desk.flights[call].busy;
    var taking, told := Taking(s, call, busy, e), Telling(s, call, busy, e, env);
    assert taking.log == s.log + [Answered(call, busy, true)];
    var heard := OnExecution(taking, e, env);
    ExecutionAllowed(taking, e, env);
    MarketAllowed(heard, AckedBy(s.reversing.pending, busy, e).1, env);
    AllowedChain(s.log, taking.log, heard.log, env);
    AllowedChain(s.log, heard.log, told.log, env);
    AfterTelling(told, busy, env);
    AllowedChain(s.log, told.log, AnswerDone(s, call, Done(e), env).log, env);
  }

  lemma ReadAllowed(s: State, e: nat, found: ReadAnswer, env: Env)
    ensures AllAllowed(s.log, ReadDone(s, e, found, env).log, env)
  {
    if e == s.reading.epoch && found.Found? {
      var (left, orders) := CloseAll(s.reversing.pending, env.listing);
      var read := ReadApplies(Taken(s, e), e, found.positions, left);
      MovesLogNothing(read, env.moves);
      MarketAllAllowed(Moves(read, env.moves), orders, env);
      AllowedChain(s.log, read.log, ReadDone(s, e, found, env).log, env);
    }
  }

  lemma BatchAllowed(s: State, orders: seq<NewOrder>, probe: NewOrder, env: Env)
    requires Enabled(s, DoBatch(orders, probe, env))
    ensures AllAllowed(s.log, PlaceBatch(s, orders, probe, env).log, env)
  {
    if |orders| == 1 {
      PlaceAllowed(s, orders[0], env);
    }
  }

  predicate HasEnv(step: Step) {
    UserPlaces(step) || step.DoReverse? || step.CallAnswers? || step.NewsComes? || step.ReadAnswers?
  }

  lemma StepAllowed(s: State, step: Step)
    requires Enabled(s, step)
    ensures if HasEnv(step) then AllAllowed(s.log, Next(s, step).log, step.env)
            else forall i | |s.log| <= i < |Next(s, step).log| :: !IsSingle(Next(s, step).log[i])
  {
    if step.DoPlace? {
      PlaceAllowed(s, step.order, step.env);
    } else if step.DoBatch? {
      BatchAllowed(s, step.orders, step.probe, step.env);
    } else if step.CallAnswers? && step.answer.Done? {
      DoneAllowed(s, step.call, step.answer.event, step.env);
    } else if step.NewsComes? {
      if step.news.News? {
        ExecutionAllowed(s, step.news.execution, step.env);
      }
    } else if step.ReadAnswers? {
      ReadAllowed(s, step.epoch, step.found, step.env);
    } else {
      NothingSent(s, step);
    }
  }

  /** In every run each order sent on its own was allowed by the limits, as they were in the step that sent it. */
  lemma EveryOrderWasAllowed(steps: seq<Step>, j: nat) returns (k: nat)
    requires CanRun(steps) && j < |Run(steps).log| && IsSingle(Run(steps).log[j])
    ensures Wrote(steps, k, j) && HasEnv(steps[k]) && WasAllowed(steps[k].env, Run(steps).log[j])
  {
    k := WhoWrote(steps, j);
    assert steps[..k + 1][..k] == steps[..k];
    RunGrows(steps, k + 1);
    StepAllowed(Run(steps[..k]), steps[k]);
  }

  // ---- every plan of every run ----

  ghost predicate PlansNothing(log: Log, now: Log) {
    log <= now && forall i | |log| <= i < |now| :: !now[i].Planned?
  }

  lemma DonePlansNothing(s: State, call: nat, e: Execution, env: Env)
    requires Books(s.desk) && call in s.desk.flights
    ensures PlansNothing(s.log, AnswerDone(s, call, Done(e), env).log)
  {
    var busy := s.desk.flights[call].busy;
    var taking, told := Taking(s, call, busy, e), Telling(s, call, busy, e, env);
    assert taking.log == s.log + [Answered(call, busy, true)];
    TellingSends(s, call, busy, e, env);
    PlansNothingChain(s.log, taking.log, told.log);
    AfterTelling(told, busy, env);
    PlansNothingChain(s.log, told.log, AnswerDone(s, call, Done(e), env).log);
  }

  lemma PlansNothingChain(a: Log, b: Log, c: Log)
    requires PlansNothing(a, b) && PlansNothing(b, c)
    ensures PlansNothing(a, c)
  {
    forall i | |a| <= i < |c| ensures !c[i].Planned? {
      if i < |b| {
        assert c[i] == b[i];
      }
    }
  }

  lemma ReadPlansNothing(s: State, e: nat, found: ReadAnswer, env: Env)
    ensures PlansNothing(s.log, ReadDone(s, e, found, env).log)
  {
    if e == s.reading.epoch && found.Found? {
      var (left, orders) := CloseAll(s.reversing.pending, env.listing);
      var read := ReadApplies(Taken(s, e), e, found.positions, left);
      MovesLogNothing(read, env.moves);
      MarketAllSends(Moves(read, env.moves), orders, env);
    }
  }

  lemma OnlyBatchesPlan(s: State, step: Step)
    requires Books(s.desk) && Enabled(s, step) && !step.DoBatch?
    ensures PlansNothing(s.log, Next(s, step).log)
  {
    if step.DoPlace? {
      WhenAnOrderGoes(s, step.order, step.env);
    } else if step.CallAnswers? && step.answer.Done? {
      DonePlansNothing(s, step.call, step.answer.event, step.env);
    } else if step.NewsComes? {
      if step.news.News? {
        ExecutionSends(s, step.news.execution, step.env);
      }
    } else if step.ReadAnswers? {
      ReadPlansNothing(s, step.epoch, step.found, step.env);
    } else {
      NothingSent(s, step);
    }
  }

  lemma BatchMayGo(s: State, orders: seq<NewOrder>, probe: NewOrder, env: Env, j: nat)
    requires Enabled(s, DoBatch(orders, probe, env))
    requires |s.log| <= j < |PlaceBatch(s, orders, probe, env).log| && PlaceBatch(s, orders, probe, env).log[j].Planned?
    ensures |orders| > 1 && PlanMayGo(s, orders, probe, env)
    ensures NamedFrom(PlaceBatch(s, orders, probe, env).log[j].orders, orders)
  {
    FewPlanNothing(s, orders, probe, env);
    WhenAPlanGoes(s, orders, probe, env);
    APlanStarts(s, orders, probe, env);
  }

  lemma FewPlanNothing(s: State, orders: seq<NewOrder>, probe: NewOrder, env: Env)
    requires Enabled(s, DoBatch(orders, probe, env))
    ensures |orders| <= 1 ==> PlansNothing(s.log, PlaceBatch(s, orders, probe, env).log)
  {
    if |orders| == 1 {
      WhenAnOrderGoes(s, orders[0], env);
    }
  }

  /** In every run each plan noted is one the user asked for, and the limits allowed the order that stood for it. */
  lemma EveryPlanWasAllowed(steps: seq<Step>, j: nat) returns (k: nat)
    requires CanRun(steps) && j < |Run(steps).log| && Run(steps).log[j].Planned?
    ensures Wrote(steps, k, j) && steps[k].DoBatch? && |steps[k].orders| > 1
    ensures PlanMayGo(Run(steps[..k]), steps[k].orders, steps[k].probe, steps[k].env)
    ensures NamedFrom(Run(steps).log[j].orders, steps[k].orders)
  {
    k := WhoWrote(steps, j);
    assert steps[..k + 1][..k] == steps[..k];
    RunGrows(steps, k + 1);
    EveryRunKeeps(steps[..k]);
    if !steps[k].DoBatch? {
      OnlyBatchesPlan(Run(steps[..k]), steps[k]);
    }
    BatchMayGo(Run(steps[..k]), steps[k].orders, steps[k].probe, steps[k].env, j);
  }
}
