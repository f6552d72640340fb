/** The upgrade of a table through the steps of a plan, and what those steps compose to. */
module Upgrade {
  import opened Wrappers

  datatype Value =
    | Integer(n: int)
    | Text(text: string)
    | Flag(on: bool)
    | Number(x: real)
    | List(items: seq<Value>)
    | Sub(table: map<string, Value>)

  type Table = map<string, Value>

  const VERSION_KEY := "schema_version"
  const FIRST_VERSION := 1
  const U32_END := 0x1_0000_0000

  datatype Step = Step(from: nat, apply: Table -> Result<Table, string>)

  datatype Plan = Plan(current: nat, steps: seq<Step>)

  datatype Reason = OutOfRange | NotWhole | NoStep | StepFailed(text: string)

  datatype Refusal = Refusal(from: nat, reason: Reason)

  datatype Found = Current | Upgraded(from: nat) | Newer(found: nat)

  /** As many steps as earlier versions, the i-th starting at version i + 1. */
  predicate IsComplete(plan: Plan) {
    && |plan.steps| == (if plan.current == 0 then 0 else plan.current - 1)
    && forall i | 0 <= i < |plan.steps| :: plan.steps[i].from == FIRST_VERSION + i
  }

  function VersionOf(table: Table): Result<nat, Refusal> {
    if VERSION_KEY !in table then Ok(FIRST_VERSION)
    else match table[VERSION_KEY]
      case Integer(n) => if FIRST_VERSION <= n < U32_END then Ok(n) else Err(Refusal(0, OutOfRange))
      case _ => Err(Refusal(0, NotWhole))
  }

  /** The place of the first step that starts at this version. */
  function FindStep(steps: seq<Step>, version: nat): (r: Option<nat>)
    ensures r.Some? ==> r.value < |steps| && steps[r.value].from == version
    ensures r.Some? ==> forall i | 0 <= i < r.value :: steps[i].from != version
    ensures r.None? ==> forall i | 0 <= i < |steps| :: steps[i].from != version
  {
    if steps == [] then None
    else match FindStep(steps[..|steps| - 1], version)
      case Some(i) => Some(i)
      case None => if steps[|steps| - 1].from == version then Some(|steps| - 1) else None
  }

  function OneStep(table: Table, plan: Plan, version: nat): Result<Table, Refusal> {
    match FindStep(plan.steps, version)
    case None => Err(Refusal(version, NoStep))
    case Some(i) =>
      match plan.steps[i].apply(table)
      case Err(text) => Err(Refusal(version, StepFailed(text)))
      case Ok(changed) => Ok(changed[VERSION_KEY := Integer(version + 1)])
  }

  /** The steps from one version up to another, each followed by setting the version it led to. */
  function Stepped(table: Table, plan: Plan, from: nat, goal: nat): Result<Table, Refusal>
    decreases goal
  {
    if goal <= from then Ok(table)
    else match Stepped(table, plan, from, goal - 1)
      case Err(e) => Err(e)
      case Ok(t) => OneStep(t, plan, goal - 1)
  }

  function UpgradeOf(table: Table, plan: Plan): Result<(Table, Found), Refusal> {
    match VersionOf(table)
    case Err(e) => Err(e)
    case Ok(found) =>
      if found == plan.current then Ok((table, Current))
      else if found > plan.current then Ok((table, Newer(found)))
      else match Stepped(table, plan, found, plan.current)
        case Err(e) => Err(e)
        case Ok(t) => Ok((t, Upgraded(found)))
  }

  lemma {:induction false} StepErrorStays(table: Table, plan: Plan, from: nat, mid: nat, goal: nat)
    requires mid <= goal && Stepped(table, plan, from, mid).Err?
    ensures Stepped(table, plan, from, goal) == Stepped(table, plan, from, mid)
    decreases goal
  {
    if mid < goal {
      StepErrorStays(table, plan, from, mid, goal - 1);
    }
  }

  /** The table is changed in place, one version after the other; on an error it is half changed and dropped. */
  method UpgradeTable(table: Table, plan: Plan) returns (r: Result<(Table, Found), Refusal>)
    ensures r == UpgradeOf(table, plan)
  {
    var found := VersionOf(table);
    if found.Err? {
      return Err(found.error);
    }
    if found.value == plan.current {
      return Ok((table, Current));
    }
    if found.value > plan.current {
      return Ok((table, Newer(found.value)));
    }
    var t := table;
    var version := found.value;
    while version < plan.current
      invariant found.value <= version <= plan.current
      invariant Stepped(table, plan, found.value, version) == Ok(t)
    {
      var place := FindStep(plan.steps, version);
      if place.None? {
        StepErrorStays(table, plan, found.value, version + 1, plan.current);
        return Err(Refusal(version, NoStep));
      }
      var changed := plan.steps[place.value].apply(t);
      if changed.Err? {
        StepErrorStays(table, plan, found.value, version + 1, plan.current);
        return Err(Refusal(version, StepFailed(changed.error)));
      }
      t := changed.value[VERSION_KEY := Integer(version + 1)];
      version := version + 1;
    }
    return Ok((t, Upgraded(found.value)));
  }

  // ---- what the steps come to ----

  lemma CompleteFinds(plan: Plan, version: nat)
    requires IsComplete(plan)
    ensures FindStep(plan.steps, version)
         == if FIRST_VERSION <= version < plan.current then Some(version - FIRST_VERSION) else None
  {
    var r := FindStep(plan.steps, version);
    if FIRST_VERSION <= version < plan.current {
      assert plan.steps[version - FIRST_VERSION].from == version;
    }
  }

  /** The second table is made from the first by the step at the place of this version, and marked. */
  predicate ByItsStep(table: Table, plan: Plan, version: nat, next: Table)
    requires FIRST_VERSION <= version < FIRST_VERSION + |plan.steps|
  {
    var changed := plan.steps[version - FIRST_VERSION].apply(table);
    changed.Ok? && next == changed.value[VERSION_KEY := Integer(version + 1)]
  }

  /** The tables the upgrade goes through: each made by the step of its version, and marked with the next. */
  ghost predicate InOrder(tables: seq<Table>, plan: Plan, found: nat, table: Table, result: Table) {
    && FIRST_VERSION <= found < plan.current == FIRST_VERSION + |plan.steps|
    && |tables| == plan.current - found + 1 && tables[0] == table && tables[|tables| - 1] == result
    && forall k | 0 <= k < |tables| - 1 :: ByItsStep(tables[k], plan, found + k, tables[k + 1])
  }

  ghost predicate Chain(tables: seq<Table>, plan: Plan, found: nat, goal: nat, table: Table, result: Table) {
    && found <= goal && |tables| == goal - found + 1 && tables[0] == table && tables[|tables| - 1] == result
    && forall k | 0 <= k < |tables| - 1 :: OneStep(tables[k], plan, found + k) == Ok(tables[k + 1])
  }

  lemma {:induction false} SteppedIsAChain(table: Table, plan: Plan, found: nat, goal: nat) returns (tables: seq<Table>)
    requires found <= goal && Stepped(table, plan, found, goal).Ok?
    ensures Chain(tables, plan, found, goal, table, Stepped(table, plan, found, goal).value)
    decreases goal
  {
    if found == goal {
      tables := [table];
    } else {
      var before := SteppedIsAChain(table, plan, found, goal - 1);
      tables := before + [Stepped(table, plan, found, goal).value];
    }
  }

  lemma {:induction false} AChainIsStepped(tables: seq<Table>, plan: Plan, found: nat, goal: nat, table: Table, result: Table)
    requires Chain(tables, plan, found, goal, table, result)
    ensures Stepped(table, plan, found, goal) == Ok(result)
    decreases goal
  {
    if found < goal {
      var before := tables[..|tables| - 1];
      AChainIsStepped(before, plan, found, goal - 1, table, before[|before| - 1]);
      assert OneStep(tables[goal - 1 - found], plan, goal - 1) == Ok(result);
    }
  }

  /**
   Under a complete plan success is the same as a chain of tables, one link for each version still
   to leave, in order, and each link made by the step of its version.
   */
  lemma StepsGoInOrder(table: Table, plan: Plan, found: nat, result: Table)
    requires IsComplete(plan) && VersionOf(table) == Ok(found) && found < plan.current
    ensures UpgradeOf(table, plan) == Ok((result, Upgraded(found)))
       <==> exists tables :: InOrder(tables, plan, found, table, result)
  {
    if UpgradeOf(table, plan) == Ok((result, Upgraded(found))) {
      var tables := SteppedIsAChain(table, plan, found, plan.current);
      ChainIsInOrder(tables, plan, found, table, result);
    }
    if exists tables :: InOrder(tables, plan, found, table, result) {
      var tables :| InOrder(tables, plan, found, table, result);
      ChainIsInOrder(tables, plan, found, table, result);
      AChainIsStepped(tables, plan, found, plan.current, table, result);
    }
  }

  lemma ChainIsInOrder(tables: seq<Table>, plan: Plan, found: nat, table: Table, result: Table)
    requires IsComplete(plan) && FIRST_VERSION <= found < plan.current
    ensures Chain(tables, plan, found, plan.current, table, result) <==> InOrder(tables, plan, found, table, result)
  {
    if |tables| == plan.current - found + 1 {
      forall k | 0 <= k < |tables| - 1
        ensures OneStep(tables[k], plan, found + k) == Ok(tables[k + 1])
           <==> ByItsStep(tables[k], plan, found + k, tables[k + 1])
      {
        CompleteFinds(plan, found + k);
      }
    }
  }

  lemma {:induction false} SteppedMarksTheVersion(table: Table, plan: Plan, from: nat, goal: nat)
    requires FIRST_VERSION <= from < goal < U32_END && Stepped(table, plan, from, goal).Ok?
    ensures VersionOf(Stepped(table, plan, from, goal).value) == Ok(goal)
  {
  }

  /** After an upgrade the table is current, so that a second run finds nothing to change. */
  lemma SecondRunChangesNothing(table: Table, plan: Plan)
    requires plan.current < U32_END && UpgradeOf(table, plan).Ok? && !UpgradeOf(table, plan).value.1.Newer?
    ensures var result := UpgradeOf(table, plan).value.0;
      VersionOf(result) == Ok(plan.current) && UpgradeOf(result, plan) == Ok((result, Current))
  {
    if UpgradeOf(table, plan).value.1.Upgraded? {
      SteppedMarksTheVersion(table, plan, VersionOf(table).value, plan.current);
    }
  }

  lemma {:induction false} StepsCompose(table: Table, plan: Plan, from: nat, mid: nat, goal: nat)
    requires from <= mid <= goal && Stepped(table, plan, from, mid).Ok?
    ensures Stepped(table, plan, from, goal) == Stepped(Stepped(table, plan, from, mid).value, plan, mid, goal)
    decreases goal
  {
    if mid < goal {
      StepsCompose(table, plan, from, mid, goal - 1);
    }
  }

  lemma {:induction false} OnlyTheStepsMatter(table: Table, a: Plan, b: Plan, from: nat, goal: nat)
    requires a.steps == b.steps
    ensures Stepped(table, a, from, goal) == Stepped(table, b, from, goal)
    decreases goal
  {
    if from < goal {
      OnlyTheStepsMatter(table, a, b, from, goal - 1);
    }
  }

  /** Stopping at any version in between, as an older build would, and resuming gives the same table. */
  lemma ResumingIsTheSame(table: Table, plan: Plan, mid: nat)
    requires VersionOf(table).Ok? && VersionOf(table).value < mid < plan.current < U32_END
    requires UpgradeOf(table, plan).Ok?
    ensures UpgradeOf(table, plan.(current := mid)).Ok?
    ensures var half := UpgradeOf(table, plan.(current := mid)).value.0;
      UpgradeOf(half, plan).Ok? && UpgradeOf(half, plan).value.0 == UpgradeOf(table, plan).value.0
      && UpgradeOf(half, plan).value.1 == Upgraded(mid)
  {
    var found := VersionOf(table).value;
    OnlyTheStepsMatter(table, plan, plan.(current := mid), found, mid);
    if Stepped(table, plan, found, mid).Err? {
      StepErrorStays(table, plan, found, mid, plan.current);
    }
    StepsCompose(table, plan, found, mid, plan.current);
    SteppedMarksTheVersion(table, plan, found, mid);
  }

  lemma {:induction false} WhereItLacks(table: Table, plan: Plan, from: nat, goal: nat)
    requires Stepped(table, plan, from, goal).Err? && Stepped(table, plan, from, goal).error.reason.NoStep?
    ensures var version := Stepped(table, plan, from, goal).error.from;
      from <= version < goal && FindStep(plan.steps, version).None?
    decreases goal
  {
    if Stepped(table, plan, from, goal - 1).Err? {
      WhereItLacks(table, plan, from, goal - 1);
    }
  }

  ghost predicate LacksAStep(table: Table, plan: Plan) {
    UpgradeOf(table, plan).Err? && UpgradeOf(table, plan).error.reason.NoStep?
  }

  /** Some table is refused for want of a step exactly when an earlier version has none. */
  lemma WhenAStepIsMissing(plan: Plan)
    requires plan.current <= U32_END
    ensures (exists table :: LacksAStep(table, plan))
       <==> (exists v: nat :: FIRST_VERSION <= v < plan.current && FindStep(plan.steps, v).None?)
  {
    if exists table :: LacksAStep(table, plan) {
      var table :| LacksAStep(table, plan);
      WhereItLacks(table, plan, VersionOf(table).value, plan.current);
    }
    if exists v: nat :: FIRST_VERSION <= v < plan.current && FindStep(plan.steps, v).None? {
      var v: nat :| FIRST_VERSION <= v < plan.current && FindStep(plan.steps, v).None?;
      var table: Table := map[VERSION_KEY := Integer(v)];
      assert Stepped(table, plan, v, v) == Ok(table);
      assert Stepped(table, plan, v, v + 1) == Err(Refusal(v, NoStep));
      StepErrorStays(table, plan, v, v + 1, plan.current);
      assert LacksAStep(table, plan);
    }
  }

  /** A complete plan never refuses a table for want of a step. */
  lemma CompleteNeverLacks(plan: Plan, table: Table)
    requires IsComplete(plan)
    ensures !LacksAStep(table, plan)
  {
    if LacksAStep(table, plan) {
      WhereItLacks(table, plan, VersionOf(table).value, plan.current);
      CompleteFinds(plan, UpgradeOf(table, plan).error.from);
    }
  }

  /** A version that only adds fields with a default leaves every other key of the table as it was. */
  lemma {:induction false} UnchangedStepsOnlyMark(table: Table, plan: Plan, from: nat, goal: nat)
    requires IsComplete(plan) && FIRST_VERSION <= from <= goal <= plan.current
    requires forall i, t | 0 <= i < |plan.steps| :: plan.steps[i].apply(t) == Ok(t)
    ensures Stepped(table, plan, from, goal) == Ok(if from == goal then table else table[VERSION_KEY := Integer(goal)])
    decreases goal
  {
    if from < goal {
      UnchangedStepsOnlyMark(table, plan, from, goal - 1);
      CompleteFinds(plan, goal - 1);
      assert table[VERSION_KEY := Integer(goal - 1)][VERSION_KEY := Integer(goal)] == table[VERSION_KEY := Integer(goal)];
    }
  }
}
