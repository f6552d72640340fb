/** What the upgrade of a file comes to, however often it is cut and started again. */
module UpgradeTheorems {
  import opened Wrappers
  import opened Directory
  import U = Upgrade
  import opened UpgradeRuns

  function Start(names: Names): State {
    State(Dir(names, map[]), Ready)
  }

  lemma StartIsInv(job: Job, names: Names)
    requires Faithful(job.toml) && job.plan.current < U.U32_END
    ensures Inv(job, names, Start(names))
  {
    if Decide(job, Entry(names, job.path)).Rewrite? {
      UpgradedIsUpToDate(job, names[job.path]);
    }
  }

  /** The state after any run from a disk at rest. */
  lemma Reached(job: Job, names: Names, steps: seq<Step>) returns (s: State)
    requires Faithful(job.toml) && job.plan.current < U.U32_END && CanRun(job, Start(names), steps)
    ensures s == Run(job, Start(names), steps) && Inv(job, names, s)
  {
    StartIsInv(job, names);
    EveryRunKeeps(job, names, Start(names), steps);
    s := Run(job, Start(names), steps);
  }

  /**
   Crashes, failures and new starts in any number and at any step: once a start gets through, the
   files are those that one uninterrupted run leaves.
   */
  lemma Converges(job: Job, names: Names, steps: seq<Step>)
    requires Faithful(job.toml) && job.plan.current < U.U32_END && CanRun(job, Start(names), steps)
    requires Run(job, Start(names), steps).at.Over? && !Run(job, Start(names), steps).at.outcome.Failed?
    ensures Run(job, Start(names), steps).files.names == Goal(job, names)
  {
    var s := Reached(job, names, steps);
    EndsAtTheGoal(job, names, s);
  }

  lemma EndsAtTheGoal(job: Job, names: Names, s: State)
    requires Inv(job, names, s) && s.at.Over? && !s.at.outcome.Failed?
    ensures s.files.names == Goal(job, names)
  {
    forall q ensures Entry(s.files.names, q) == Entry(Goal(job, names), q) {
      match Decide(job, Entry(names, job.path))
      case Rewrite(from, upgraded) => assert q == job.path || q == BackupOf(job.path, from) || Firm(s.files, q);
      case SetAside(found) => assert q == job.path || q == AsideOf(job.path, found) || Firm(s.files, q);
      case _ =>
    }
    DiskFiles.EntriesMakeTheMap(s.files.names, Goal(job, names));
  }

  // ---- a start that fails ----

  /** Within one start: nothing cuts it and the app is not started again. */
  ghost predicate OneStart(steps: seq<Step>) {
    forall i | 0 <= i < |steps| :: !steps[i].Crash? && !steps[i].Restart?
  }

  /** The path has this text still, unless the start is past its replacement or got through. */
  predicate PathKept(job: Job, s: State, text: Option<Bytes>) {
    s.at.Replaced? || (s.at.Over? && !s.at.outcome.Failed?) || Entry(s.files.names, job.path) == text
  }

  lemma PathKeptNext(job: Job, s: State, step: Step, text: Option<Bytes>)
    requires PathKept(job, s, text) && Enabled(s, step) && !step.Crash? && !step.Restart?
    ensures PathKept(job, Next(job, s, step), text)
  {
  }

  /** A start that fails leaves the text that it found at the path, whatever other starts did before it. */
  lemma {:induction false} AFailureChangesNothing(job: Job, s: State, steps: seq<Step>, text: Option<Bytes>)
    requires CanRun(job, s, steps) && OneStart(steps) && PathKept(job, s, text)
    ensures PathKept(job, Run(job, s, steps), text)
    ensures Run(job, s, steps).at == Over(Failed) ==> Entry(Run(job, s, steps).files.names, job.path) == text
    decreases |steps|
  {
    if steps != [] {
      PathKeptNext(job, s, steps[0], text);
      assert forall i | 0 <= i < |steps[1..]| :: steps[1..][i] == steps[i + 1];
      AFailureChangesNothing(job, Next(job, s, steps[0]), steps[1..], text);
    }
  }

  /**
     Over all the starts: after one that failed the path has its old text, or what a start that gets
     through leaves there.
  */
  lemma AfterAFailure(job: Job, names: Names, steps: seq<Step>)
    requires Faithful(job.toml) && job.plan.current < U.U32_END && CanRun(job, Start(names), steps)
    requires Run(job, Start(names), steps).at == Over(Failed)
    ensures var now := Entry(Run(job, Start(names), steps).files.names, job.path);
      now == Entry(names, job.path) || now == Entry(Goal(job, names), job.path)
  {
    var s := Reached(job, names, steps);
    FailedKeeps(job, names, s);
  }

  lemma FailedKeeps(job: Job, names: Names, s: State)
    requires Inv(job, names, s) && s.at == Over(Failed)
    ensures var now := Entry(s.files.names, job.path);
      now == Entry(names, job.path) || now == Entry(Goal(job, names), job.path)
  {
    assert MaySurvive(s.files, job.path, Entry(s.files.names, job.path));
  }

  // ---- the old text ----

  /** The two names the text of the file may be under. */
  function KeptUnder(job: Job, names: Names): string {
    match Decide(job, Entry(names, job.path))
    case Rewrite(from, _) => BackupOf(job.path, from)
    case SetAside(found) => AsideOf(job.path, found)
    case _ => job.path
  }

  predicate HasTheText(job: Job, names: Names, now: Names) {
    Entry(now, job.path) == Entry(names, job.path) || Entry(now, KeptUnder(job, names)) == Entry(names, job.path)
  }

  /** No other copy was there under the name of the backup. */
  predicate RoomForACopy(job: Job, names: Names) {
    Decide(job, Entry(names, job.path)).Rewrite? ==>
      KeptUnder(job, names) !in names || Entry(names, KeptUnder(job, names)) == Entry(names, job.path)
  }

  ghost predicate AlwaysHasTheText(job: Job, names: Names) {
    forall steps | CanRun(job, Start(names), steps) :: HasTheText(job, names, Run(job, Start(names), steps).files.names)
  }

  lemma HasTheTextNow(job: Job, names: Names, steps: seq<Step>)
    requires Faithful(job.toml) && job.plan.current < U.U32_END && CanRun(job, Start(names), steps)
    requires RoomForACopy(job, names)
    ensures HasTheText(job, names, Run(job, Start(names), steps).files.names)
  {
    var s := Reached(job, names, steps);
    InvHasTheText(job, names, s);
  }

  lemma InvHasTheText(job: Job, names: Names, s: State)
    requires Inv(job, names, s) && RoomForACopy(job, names)
    ensures HasTheText(job, names, s.files.names)
  {
    if Decide(job, Entry(names, job.path)).SetAside? {
      assert MaySurvive(s.files, job.path, Entry(s.files.names, job.path));
    }
  }

  lemma TheGoalHasNot(job: Job, names: Names)
    requires Faithful(job.toml) && job.plan.current < U.U32_END && !RoomForACopy(job, names)
    ensures !HasTheText(job, names, Goal(job, names))
  {
    UpgradedIsUpToDate(job, names[job.path]);
  }

  lemma AnOlderCopyWins(job: Job, names: Names)
    requires Faithful(job.toml) && job.plan.current < U.U32_END && !RoomForACopy(job, names)
    ensures CanRun(job, Start(names), [Look, Put])
    ensures !HasTheText(job, names, Run(job, Start(names), [Look, Put]).files.names)
  {
    var s0 := Start(names);
    var s1 := Next(job, s0, Look);
    var s2 := Next(job, s1, Put);
    assert [Look, Put][1..] == [Put] && [Put][1..] == [];
    assert CanRun(job, s2, []) && CanRun(job, s1, [Put]);
    assert Run(job, s1, [Put]) == s2;
    UpgradedIsUpToDate(job, names[job.path]);
  }

  /**
   In every state a crash may leave, the old text is whole at the path or in its kept copy, exactly
   when the name of the copy was free or held that text before.
   */
  lemma TheOldTextIsKept(job: Job, names: Names)
    requires Faithful(job.toml) && job.plan.current < U.U32_END
    ensures AlwaysHasTheText(job, names) <==> RoomForACopy(job, names)
  {
    if RoomForACopy(job, names) {
      forall steps | CanRun(job, Start(names), steps)
        ensures HasTheText(job, names, Run(job, Start(names), steps).files.names)
      {
        HasTheTextNow(job, names, steps);
      }
    } else {
      AnOlderCopyWins(job, names);
    }
  }

  // ---- a start that nothing cuts ----

  /** The step a start takes next. */
  function OwnStep(at: At): Step
    requires !at.Over?
  {
    match at
    case Ready => Look
    case KeepOld(_, _, _) => Put
    case Replace(_, _) => Put
    case Aside(_, _) => Put
    case Remove(_) => RemoveOld
    case _ => Flush
  }

  function Rank(at: At): nat {
    match at
    case Ready => 6
    case KeepOld(_, _, _) => 5
    case OldKept(_, _) => 4
    case Replace(_, _) => 3
    case Replaced(_) => 2
    case Aside(_, _) => 3
    case AsideKept(_) => 2
    case Remove(_) => 1
    case Over(_) => 0
  }

  lemma {:induction false} GoesThrough(job: Job, s: State) returns (steps: seq<Step>)
    ensures CanRun(job, s, steps) && |steps| <= Rank(s.at) && Run(job, s, steps).at.Over?
    ensures s.at.Over? || (s.at.Ready? && Decide(job, Entry(s.files.names, job.path)).Refused?)
         || !Run(job, s, steps).at.outcome.Failed?
    decreases Rank(s.at)
  {
    if s.at.Over? {
      steps := [];
    } else {
      var step := OwnStep(s.at);
      var rest := GoesThrough(job, Next(job, s, step));
      steps := [step] + rest;
      assert steps[1..] == rest;
    }
  }

  /** From whatever a cut left, a start that nothing cuts is through after at most six steps. */
  lemma AStartGetsThrough(job: Job, names: Names, steps: seq<Step>) returns (more: seq<Step>)
    requires Faithful(job.toml) && job.plan.current < U.U32_END
    requires CanRun(job, Start(names), steps) && Run(job, Start(names), steps).at.Ready?
    requires !Decide(job, Entry(names, job.path)).Refused?
    ensures var cut := Run(job, Start(names), steps);
      CanRun(job, cut, more) && |more| <= 6 && Run(job, cut, more).at.Over? && !Run(job, cut, more).at.outcome.Failed?
  {
    var s := Reached(job, names, steps);
    more := GoesThrough(job, s);
    ReadyIsNotRefused(job, names, s);
  }

  lemma ReadyIsNotRefused(job: Job, names: Names, s: State)
    requires Faithful(job.toml) && job.plan.current < U.U32_END
    requires Inv(job, names, s) && s.at.Ready? && !Decide(job, Entry(names, job.path)).Refused?
    ensures !Decide(job, Entry(s.files.names, job.path)).Refused?
  {
    assert MaySurvive(s.files, job.path, Entry(s.files.names, job.path));
    if Decide(job, Entry(names, job.path)).Rewrite? {
      UpgradedIsUpToDate(job, names[job.path]);
    }
  }

  // ---- an older copy under the name of the backup ----

  const OLD: Bytes := [1]
  const NEW: Bytes := [2]
  const OTHER: Bytes := [3]

  /** A writing that knows two tables, each with its text, and reads back what it wrote. */
  function TwoTexts(): Toml {
    var upgraded := map[U.VERSION_KEY := U.Integer(2)];
    Toml(b => if b == OLD then Some(map[]) else if b == NEW then Some(upgraded) else None,
         t => if t == map[] then Some(OLD) else if t == upgraded then Some(NEW) else None)
  }

  function FromOneToTwo(): Job {
    Job("p", U.Plan(2, [U.Step(1, t => Ok(t))]), TwoTexts())
  }

  /** A file of the first version beside a copy that holds something else: the upgrade loses its old text. */
  lemma AnOlderCopyMayStay()
    ensures var job, names := FromOneToTwo(), map["p" := OLD, BackupOf("p", 1) := OTHER];
      && Faithful(job.toml) && Decide(job, Entry(names, job.path)) == Rewrite(1, NEW)
      && !AlwaysHasTheText(job, names)
  {
    var job, names := FromOneToTwo(), map["p" := OLD, BackupOf("p", 1) := OTHER];
    Decided();
    TheOldTextIsKept(job, names);
  }

  lemma Decided()
    ensures var job := FromOneToTwo();
      Decide(job, Some(OLD)) == Rewrite(1, NEW) && Faithful(job.toml)
  {
    var job := FromOneToTwo();
    assert U.FindStep(job.plan.steps, 1) == Some(0);
    var marked := map[U.VERSION_KEY := U.Integer(2)];
    assert U.Stepped(map[], job.plan, 1, 1) == Ok(map[]);
    assert U.OneStep(map[], job.plan, 1) == Ok(marked);
    assert U.UpgradeOf(map[], job.plan) == Ok((marked, U.Upgraded(1)));
  }

  lemma RunOne(job: Job, s: State, steps: seq<Step>, step: Step)
    requires CanRun(job, s, steps) && Enabled(Run(job, s, steps), step)
    ensures CanRun(job, s, steps + [step]) && Run(job, s, steps + [step]) == Next(job, Run(job, s, steps), step)
    decreases |steps|
  {
    if steps == [] {
      assert [step][1..] == [];
    } else {
      assert (steps + [step])[1..] == steps[1..] + [step];
      RunOne(job, Next(job, s, steps[0]), steps[1..], step);
    }
  }

  /**
   A start that fails leaves what it found, which need not be the text before all the starts: here a
   crash comes once the file is replaced and keeps it, and the next start cannot read it.
   */
  lemma AFailureMayFindTheNewText() returns (steps: seq<Step>)
    ensures var job, names := FromOneToTwo(), map["p" := OLD];
      && CanRun(job, Start(names), steps) && Run(job, Start(names), steps).at == Over(Failed)
      && Entry(Run(job, Start(names), steps).files.names, "p") == Some(NEW)
  {
    var job, names := FromOneToTwo(), map["p" := OLD];
    Decided();
    RunOne(job, Start(names), [], Look);
    RunOne(job, Start(names), [] + [Look], Put);
    RunOne(job, Start(names), [] + [Look] + [Put], Flush);
    var kept := [] + [Look] + [Put] + [Flush];
    RunOne(job, Start(names), kept, Put);
    var s := Run(job, Start(names), kept + [Put]);
    CrashKeepsAll(s.files);
    RunOne(job, Start(names), kept + [Put], Crash(s.files.names));
    RunOne(job, Start(names), kept + [Put] + [Crash(s.files.names)], Fail);
    steps := kept + [Put] + [Crash(s.files.names)] + [Fail];
  }

  lemma CrashKeepsAll(f: Files)
    ensures CrashTo(f, f.names)
  {
  }
}
