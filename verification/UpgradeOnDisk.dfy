/**
 The upgrade of a file on the disk itself: each of its writes is taken step by step, from the
 temporary name to the flush of the directory, and a crash may come between any two and tear what
 was not flushed. It refines UpgradeRuns, so what holds of those runs holds of these.
 */
module UpgradeOnDisk {
  import opened Wrappers
  import opened Directory
  import Disk
  import DI = DiskInvariant
  import opened DiskFiles
  import DT = DiskTheorems
  import U = Upgrade
  import opened UpgradeRuns
  import UT = UpgradeTheorems

  /** `call` is the atomic write the upgrade waits for. */
  datatype OnDisk = OnDisk(disk: Disk.State, at: At, call: Option<nat>)

  datatype DiskStep =
    | Reads
    | Begins(k: nat, random: nat)
    | Writes(step: Disk.Step)
    | Removes
    | Fails
    | Crashes(names: map<Disk.Name, nat>, inodes: map<nat, Disk.Inode>)
    | Restarts

  predicate IsWriting(at: At) {
    at.KeepOld? || at.Replace? || at.Aside?
  }

  predicate IsUnflushed(at: At) {
    at.OldKept? || at.Replaced? || at.AsideKept?
  }

  function TargetOf(job: Job, at: At): string
    requires IsWriting(at)
  {
    match at
    case KeepOld(from, _, _) => BackupOf(job.path, from)
    case Replace(_, _) => job.path
    case Aside(found, _) => AsideOf(job.path, found)
  }

  function BytesOf(at: At): Bytes
    requires IsWriting(at)
  {
    match at
    case KeepOld(_, text, _) => text
    case Replace(_, upgraded) => upgraded
    case Aside(_, text) => text
  }

  /** Where the upgrade is once the write is renamed into place. */
  function AfterRename(at: At): At
    requires IsWriting(at)
  {
    match at
    case KeepOld(from, _, upgraded) => OldKept(from, upgraded)
    case Replace(from, _) => Replaced(from)
    case Aside(found, _) => AsideKept(found)
  }

  function AfterFlush(job: Job, at: At): At
    requires IsUnflushed(at)
  {
    match at
    case OldKept(from, upgraded) => Replace(from, upgraded)
    case Replaced(from) => Over(Migrated(from, job.plan.current))
    case AsideKept(found) => Remove(found)
  }

  /** What is seen of the disk from outside, with where the upgrade is. */
  function Abs(s: OnDisk): State {
    State(Seen(s.disk), s.at)
  }

  /** A step of the atomic write itself, on this call; its directory is flushed for sure. */
  predicate IsOf(step: Disk.Step, k: nat) {
    && (step.Create? || step.Append? || step.Fsync? || step.Rename? || step.FlushDir? || step.Fail? || step.RemoveTemp?)
    && step.k == k && (step.FlushDir? ==> step.works)
  }

  ghost predicate MayTake(s: OnDisk, step: DiskStep) {
    match step
    case Reads => s.at.Ready?
    case Begins(k, random) => IsWriting(s.at) && s.call.None? && k !in s.disk.calls && random !in s.disk.past.randoms
    case Writes(w) => s.call.Some? && IsOf(w, s.call.value) && Disk.Enabled(s.disk, w)
    case Removes => s.at.Remove?
    case Fails => s.at.Ready? || s.at.Remove?
    case Crashes(names, inodes) => Disk.Enabled(s.disk, Disk.Crash(names, inodes))
    case Restarts => s.at.Over?
  }

  /** The file is gone from its path; until the next flush a crash may bring it back. */
  function Removed(d: Disk.State, p: string): Disk.State {
    d.(dir := SetEntry(d.dir, Disk.Real(p), None), past := d.past.(settled := d.past.settled - {p}))
  }

  function AtAfter(job: Job, at: At, w: Disk.Step): At {
    if w.Rename? && IsWriting(at) then AfterRename(at)
    else if w.FlushDir? && IsUnflushed(at) then AfterFlush(job, at)
    else if w.RemoveTemp? then Over(Failed)
    else at
  }

  ghost function Takes(job: Job, s: OnDisk, step: DiskStep): OnDisk
    requires MayTake(s, step)
  {
    match step
    case Reads => s.(at := Looking(job, Abs(s)))
    case Begins(k, random) =>
      s.(disk := Disk.Next(s.disk, Disk.Ask(k, TargetOf(job, s.at), BytesOf(s.at), random)), call := Some(k))
    case Writes(w) =>
      OnDisk(Disk.Next(s.disk, w), AtAfter(job, s.at, w), if w.FlushDir? || w.RemoveTemp? then None else s.call)
    case Removes => s.(disk := Removed(s.disk, job.path), at := Over(KeptAside(s.at.found)))
    case Fails => s.(at := Over(Failed))
    case Crashes(names, inodes) => OnDisk(Disk.Next(s.disk, Disk.Crash(names, inodes)), Ready, None)
    case Restarts => s.(at := Ready)
  }

  ghost predicate CanTake(job: Job, s: OnDisk, steps: seq<DiskStep>)
    decreases |steps|
  {
    steps == [] || (MayTake(s, steps[0]) && CanTake(job, Takes(job, s, steps[0]), steps[1..]))
  }

  ghost function TakesAll(job: Job, s: OnDisk, steps: seq<DiskStep>): OnDisk
    requires CanTake(job, s, steps)
    decreases |steps|
  {
    if steps == [] then s else TakesAll(job, Takes(job, s, steps[0]), steps[1..])
  }

  // ---- what every step keeps ----

  /** The call of the upgrade writes what the upgrade is at, or renamed it; every other call has returned. */
  ghost predicate CallsFit(job: Job, calls: map<nat, Disk.Call>, at: At, call: Option<nat>) {
    && (forall k | k in calls && call != Some(k) :: calls[k].phase.Returned?)
    && (call.None? ==> !IsUnflushed(at))
    && (call.Some? ==> call.value in calls && Fits(job, at, calls[call.value]))
  }

  ghost predicate CallFits(job: Job, s: OnDisk) { CallsFit(job, s.disk.calls, s.at, s.call) }

  predicate Fits(job: Job, at: At, c: Disk.Call) {
    if c.phase.Renamed? then IsUnflushed(at)
    else !c.phase.Returned? && IsWriting(at) && c.path == TargetOf(job, at) && c.bytes == BytesOf(at)
  }

  ghost predicate DiskInv(job: Job, names: Names, s: OnDisk) {
    DI.Inv(s.disk) && CallFits(job, s) && Inv(job, names, Abs(s))
  }

  /** Seen from outside the step taken is this one of the upgrade; only a crash is a crash, and a new start one. */
  ghost predicate IsSeenAs(job: Job, before: State, taken: DiskStep, after: State, step: Step) {
    Enabled(before, step) && after == Next(job, before, step)
    && (step.Crash? <==> taken.Crashes?) && (step.Restart? <==> taken.Restarts?)
  }

  /** From outside, a step is one step of the upgrade or none. */
  ghost predicate Stepwise(job: Job, before: State, taken: DiskStep, after: State) {
    || (before == after && !taken.Crashes? && !taken.Restarts?)
    || exists step :: IsSeenAs(job, before, taken, after, step)
  }

  lemma RemovedKeeps(d: Disk.State, p: string)
    requires DI.Inv(d) && forall k | k in d.calls :: d.calls[k].phase.Returned?
    ensures DI.Inv(Removed(d, p))
  {
    var after := Removed(d, p);
    forall q, v | MaySurvive(after.dir, Disk.Real(q), v) ensures DI.Whole(after.inodes, after.renames, after.past.settled, q, v) {
      assert (q == p && v == None) || MaySurvive(d.dir, Disk.Real(q), v);
      assert v.Some? || q != p ==> DI.Whole(d.inodes, d.renames, d.past.settled, q, v);
    }
    assert DI.CallsOk(after);
  }

  lemma OneStepIsSeen(job: Job, before: State, taken: DiskStep, after: State, step: Step)
    requires Enabled(before, step) && after == Next(job, before, step)
    requires (step.Crash? <==> taken.Crashes?) && (step.Restart? <==> taken.Restarts?)
    ensures Stepwise(job, before, taken, after)
  {
    assert IsSeenAs(job, before, taken, after, step);
  }

  /** The step of the upgrade that a step of its write comes to, when it comes to one. */
  function SeenOf(w: Disk.Step): Option<Step> {
    if w.Rename? then Some(Put) else if w.FlushDir? then Some(Flush) else if w.RemoveTemp? then Some(Fail) else None
  }

  lemma WriteIsSeen(job: Job, s: OnDisk, w: Disk.Step)
    requires DI.Inv(s.disk) && CallFits(job, s) && MayTake(s, Writes(w))
    ensures match SeenOf(w)
      case None => Abs(Takes(job, s, Writes(w))) == Abs(s)
      case Some(step) => Enabled(Abs(s), step) && Abs(Takes(job, s, Writes(w))) == Next(job, Abs(s), step)
  {
    Refines(s.disk, w);
  }

  lemma WriteRefines(job: Job, s: OnDisk, w: Disk.Step)
    requires DI.Inv(s.disk) && CallFits(job, s) && MayTake(s, Writes(w))
    ensures Stepwise(job, Abs(s), Writes(w), Abs(Takes(job, s, Writes(w))))
  {
    WriteIsSeen(job, s, w);
    if SeenOf(w).Some? {
      OneStepIsSeen(job, Abs(s), Writes(w), Abs(Takes(job, s, Writes(w))), SeenOf(w).value);
    }
  }

  lemma CrashStepRefines(job: Job, s: OnDisk, names: map<Disk.Name, nat>, inodes: map<nat, Disk.Inode>)
    requires DI.Inv(s.disk) && MayTake(s, Crashes(names, inodes))
    ensures Stepwise(job, Abs(s), Crashes(names, inodes), Abs(Takes(job, s, Crashes(names, inodes))))
  {
    var after := Abs(Takes(job, s, Crashes(names, inodes)));
    Refines(s.disk, Disk.Crash(names, inodes));
    OneStepIsSeen(job, Abs(s), Crashes(names, inodes), after, Crash(after.files.names));
  }

  lemma RemovalRefines(job: Job, s: OnDisk)
    requires MayTake(s, Removes)
    ensures Stepwise(job, Abs(s), Removes, Abs(Takes(job, s, Removes)))
  {
    PlacedAt(s.disk.dir, s.disk.inodes, job.path, None);
    OneStepIsSeen(job, Abs(s), Removes, Abs(Takes(job, s, Removes)), RemoveOld);
  }

  lemma StepRefines(job: Job, s: OnDisk, step: DiskStep)
    requires DI.Inv(s.disk) && CallFits(job, s) && MayTake(s, step)
    ensures Stepwise(job, Abs(s), step, Abs(Takes(job, s, step)))
  {
    var before, after := Abs(s), Abs(Takes(job, s, step));
    match step
    case Reads => assert IsSeenAs(job, before, step, after, Look);
    case Begins(k, random) => Refines(s.disk, Disk.Ask(k, TargetOf(job, s.at), BytesOf(s.at), random));
    case Writes(w) => WriteRefines(job, s, w);
    case Removes => RemovalRefines(job, s);
    case Fails => assert IsSeenAs(job, before, step, after, Fail);
    case Crashes(names, inodes) => CrashStepRefines(job, s, names, inodes);
    case Restarts => assert IsSeenAs(job, before, step, after, Restart);
  }

  lemma DiskKeeps(job: Job, s: OnDisk, step: DiskStep)
    requires DI.Inv(s.disk) && CallFits(job, s) && MayTake(s, step)
    ensures DI.Inv(Takes(job, s, step).disk)
  {
    match step
    case Begins(k, random) => DI.Keeps(s.disk, Disk.Ask(k, TargetOf(job, s.at), BytesOf(s.at), random));
    case Writes(w) => DI.Keeps(s.disk, w);
    case Removes => RemovedKeeps(s.disk, job.path);
    case Crashes(names, inodes) => DI.Keeps(s.disk, Disk.Crash(names, inodes));
    case _ =>
  }

  lemma CallFitsNext(job: Job, s: OnDisk, step: DiskStep)
    requires CallFits(job, s) && MayTake(s, step)
    ensures CallFits(job, Takes(job, s, step))
  {
    if step.Writes? {
      WriteFits(job, s, step.step);
    } else if step.Begins? {
      BeginFits(job, s, step.k, step.random);
    } else {
      RestFits(job, s, step);
    }
  }

  lemma RestFits(job: Job, s: OnDisk, step: DiskStep)
    requires CallFits(job, s) && MayTake(s, step) && !step.Writes? && !step.Begins?
    ensures CallFits(job, Takes(job, s, step))
  {
    var after := Takes(job, s, step);
    if !step.Crashes? {
      LookIsFlushed(job, Abs(s));
      NoneFits(job, s.disk.calls, s.at, s.call, after.at);
      assert after.disk.calls == s.disk.calls;
    }
  }

  lemma NoneFits(job: Job, calls: map<nat, Disk.Call>, at: At, call: Option<nat>, now: At)
    requires CallsFit(job, calls, at, call) && !IsWriting(at) && !IsUnflushed(at) && !IsUnflushed(now)
    ensures call.None? && CallsFit(job, calls, now, None)
  {
  }

  lemma LookIsFlushed(job: Job, s: State)
    ensures !IsUnflushed(Looking(job, s))
  {
  }

  lemma BeginFits(job: Job, s: OnDisk, k: nat, random: nat)
    requires CallFits(job, s) && MayTake(s, Begins(k, random))
    ensures CallFits(job, Takes(job, s, Begins(k, random)))
  {
  }

  function PhaseAfter(d: Disk.State, w: Disk.Step, phase: Disk.Phase): Disk.Phase {
    match w
    case Create(_, i) => Disk.Filling(i)
    case Fsync(_) => if phase.Filling? then Disk.Synced(phase.inode) else phase
    case Rename(_) => Disk.Renamed(|d.renames|)
    case FlushDir(_, _) => Disk.Returned(true, if phase.Renamed? then phase.rank else 0)
    case Fail(_) => Disk.Failing
    case RemoveTemp(_, _) => Disk.Returned(false, 0)
    case _ => phase
  }

  lemma WriteCalls(d: Disk.State, w: Disk.Step, k: nat)
    requires IsOf(w, k) && Disk.Enabled(d, w)
    ensures k in d.calls
    ensures Disk.Next(d, w).calls == d.calls[k := d.calls[k].(phase := PhaseAfter(d, w, d.calls[k].phase))]
  {
  }

  lemma PhaseFits(job: Job, at: At, d: Disk.State, w: Disk.Step, k: nat)
    requires IsOf(w, k) && Disk.Enabled(d, w) && k in d.calls && Fits(job, at, d.calls[k])
    ensures var c, now := d.calls[k].(phase := PhaseAfter(d, w, d.calls[k].phase)), AtAfter(job, at, w);
      if w.FlushDir? || w.RemoveTemp? then c.phase.Returned? && !IsUnflushed(now) else Fits(job, now, c)
  {
  }

  lemma WriteFits(job: Job, s: OnDisk, w: Disk.Step)
    requires CallFits(job, s) && MayTake(s, Writes(w))
    ensures CallFits(job, Takes(job, s, Writes(w)))
  {
    var k, after := s.call.value, Takes(job, s, Writes(w));
    WriteCalls(s.disk, w, k);
    PhaseFits(job, s.at, s.disk, w, k);
    OneFits(job, s.disk.calls, s.at, k, after.disk.calls[k], after.at, after.call);
  }

  lemma OneFits(job: Job, calls: map<nat, Disk.Call>, at: At, k: nat, c: Disk.Call, now: At, call: Option<nat>)
    requires CallsFit(job, calls, at, Some(k))
    requires (call == Some(k) && Fits(job, now, c)) || (call == None && c.phase.Returned? && !IsUnflushed(now))
    ensures CallsFit(job, calls[k := c], now, call)
  {
  }

  lemma StepKeeps(job: Job, names: Names, s: OnDisk, step: DiskStep)
    requires Faithful(job.toml) && job.plan.current < U.U32_END
    requires DiskInv(job, names, s) && MayTake(s, step)
    ensures DiskInv(job, names, Takes(job, s, step))
  {
    DiskKeeps(job, s, step);
    CallFitsNext(job, s, step);
    StepRefines(job, s, step);
    var before, after := Abs(s), Abs(Takes(job, s, step));
    if before != after {
      var whole :| IsSeenAs(job, before, step, after, whole);
      Keeps(job, names, before, whole);
    }
  }

  lemma {:induction false} EveryDiskRunKeeps(job: Job, names: Names, s: OnDisk, steps: seq<DiskStep>)
    requires Faithful(job.toml) && job.plan.current < U.U32_END
    requires DiskInv(job, names, s) && CanTake(job, s, steps)
    ensures DiskInv(job, names, TakesAll(job, s, steps))
    decreases |steps|
  {
    if steps != [] {
      StepKeeps(job, names, s, steps[0]);
      EveryDiskRunKeeps(job, names, Takes(job, s, steps[0]), steps[1..]);
    }
  }

  // ---- from a disk at rest ----

  lemma RestIsSeen(d: Disk.State, names: Names)
    requires DT.Start(d, names)
    ensures Seen(d) == Dir(names, map[])
  {
    forall p ensures Entry(Seen(d).names, p) == Entry(names, p) {
      EntryOf(d.dir, d.inodes, p);
      var entry := Entry(d.dir.names, Disk.Real(p));
      assert MaySurvive(d.dir, Disk.Real(p), entry);
      assert DI.Whole(d.inodes, d.renames, d.past.settled, p, entry);
      if entry.Some? {
        assert (p, d.inodes[entry.value].data) in d.past.asked;
      }
    }
    EntriesMakeTheMap(Seen(d).names, names);
    assert Seen(d).earlier == map[];
  }

  lemma Reaches(job: Job, names: Names, d: Disk.State, steps: seq<DiskStep>)
    requires Faithful(job.toml) && job.plan.current < U.U32_END
    requires DT.Start(d, names) && CanTake(job, OnDisk(d, Ready, None), steps)
    ensures DiskInv(job, names, TakesAll(job, OnDisk(d, Ready, None), steps))
  {
    RestIsSeen(d, names);
    UT.StartIsInv(job, names);
    EveryDiskRunKeeps(job, names, OnDisk(d, Ready, None), steps);
  }

  /**
   However failures, crashes that tear what was not flushed, and new starts cut the upgrade, between
   any two steps of any of its writes: once a start gets through, every file reads as after one
   uninterrupted run.
   */
  lemma ConvergesOnDisk(job: Job, names: Names, d: Disk.State, steps: seq<DiskStep>, p: string)
    requires Faithful(job.toml) && job.plan.current < U.U32_END
    requires DT.Start(d, names) && CanTake(job, OnDisk(d, Ready, None), steps)
    requires var s := TakesAll(job, OnDisk(d, Ready, None), steps); s.at.Over? && !s.at.outcome.Failed?
    ensures DT.ReadAt(TakesAll(job, OnDisk(d, Ready, None), steps).disk, p) == Entry(Goal(job, names), p)
  {
    var s := TakesAll(job, OnDisk(d, Ready, None), steps);
    Reaches(job, names, d, steps);
    UT.EndsAtTheGoal(job, names, Abs(s));
    EntryOf(s.disk.dir, s.disk.inodes, p);
  }

  ghost predicate OneStartOnDisk(steps: seq<DiskStep>) {
    forall i | 0 <= i < |steps| :: !steps[i].Crashes? && !steps[i].Restarts?
  }

  lemma {:induction false} PathKeptOnDisk(job: Job, s: OnDisk, steps: seq<DiskStep>, text: Option<Bytes>)
    requires DI.Inv(s.disk) && CallFits(job, s) && CanTake(job, s, steps) && OneStartOnDisk(steps)
    requires UT.PathKept(job, Abs(s), text)
    ensures UT.PathKept(job, Abs(TakesAll(job, s, steps)), text)
    decreases |steps|
  {
    if steps != [] {
      PathKeptAStep(job, s, steps[0], text);
      OneStartRest(steps);
      PathKeptOnDisk(job, Takes(job, s, steps[0]), steps[1..], text);
    }
  }

  lemma OneStartRest(steps: seq<DiskStep>)
    requires steps != [] && OneStartOnDisk(steps)
    ensures OneStartOnDisk(steps[1..])
  {
  }

  lemma PathKeptAStep(job: Job, s: OnDisk, taken: DiskStep, text: Option<Bytes>)
    requires DI.Inv(s.disk) && CallFits(job, s) && MayTake(s, taken) && !taken.Crashes? && !taken.Restarts?
    requires UT.PathKept(job, Abs(s), text)
    ensures var after := Takes(job, s, taken);
      DI.Inv(after.disk) && CallFits(job, after) && UT.PathKept(job, Abs(after), text)
  {
    DiskKeeps(job, s, taken);
    CallFitsNext(job, s, taken);
    StepRefines(job, s, taken);
    PathKeptStepwise(job, Abs(s), taken, Abs(Takes(job, s, taken)), text);
  }

  lemma PathKeptStepwise(job: Job, before: State, taken: DiskStep, after: State, text: Option<Bytes>)
    requires UT.PathKept(job, before, text) && Stepwise(job, before, taken, after) && !taken.Crashes? && !taken.Restarts?
    ensures UT.PathKept(job, after, text)
  {
    if before != after {
      var step :| IsSeenAs(job, before, taken, after, step);
      UT.PathKeptNext(job, before, step, text);
    }
  }

  /**
   A start that fails, on whatever step of whatever write, leaves the file reading as the start found
   it, after any runs before it.
   */
  lemma AFailureKeepsTheFile(job: Job, names: Names, d: Disk.State, steps: seq<DiskStep>, start: seq<DiskStep>)
    requires Faithful(job.toml) && job.plan.current < U.U32_END
    requires DT.Start(d, names) && CanTake(job, OnDisk(d, Ready, None), steps)
    requires var s := TakesAll(job, OnDisk(d, Ready, None), steps);
      s.at.Ready? && CanTake(job, s, start) && OneStartOnDisk(start) && TakesAll(job, s, start).at == Over(Failed)
    ensures var s := TakesAll(job, OnDisk(d, Ready, None), steps);
      DT.ReadAt(TakesAll(job, s, start).disk, job.path) == DT.ReadAt(s.disk, job.path)
  {
    var s := TakesAll(job, OnDisk(d, Ready, None), steps);
    Reaches(job, names, d, steps);
    EntryOf(s.disk.dir, s.disk.inodes, job.path);
    PathKeptOnDisk(job, s, start, DT.ReadAt(s.disk, job.path));
    var end := TakesAll(job, s, start);
    EntryOf(end.disk.dir, end.disk.inodes, job.path);
  }

  // ---- a start that nothing cuts gets through ----

  lemma {:induction false} FreshNat(used: set<nat>) returns (n: nat)
    ensures forall m | m in used :: m < n
    decreases |used|
  {
    n := 0;
    if used != {} {
      var m :| m in used;
      var rest := FreshNat(used - {m});
      n := if m < rest then rest else m + 1;
      assert forall x | x in used :: x == m || x in used - {m};
    }
  }

  predicate IsFailing(s: OnDisk) {
    s.call.Some? && s.call.value in s.disk.calls && s.disk.calls[s.call.value].phase.Failing?
  }

  function CallRank(s: OnDisk): nat {
    if s.call.None? || s.call.value !in s.disk.calls then 7
    else match s.disk.calls[s.call.value].phase
      case Starting => 6
      case Filling(_) => if Disk.Full(s.disk, s.disk.calls[s.call.value]) then 4 else 5
      case Synced(_) => 3
      case _ => 2
  }

  /** A step of the start itself that brings it nearer to its end, and fails only where it has to. */
  ghost predicate GoesOn(job: Job, s: OnDisk, step: DiskStep) {
    && MayTake(s, step)
    && var after := Takes(job, s, step);
    && (UT.Rank(after.at) < UT.Rank(s.at) || (after.at == s.at && CallRank(after) < CallRank(s)))
    && (IsFailing(after) ==> IsFailing(s)) && !after.at.Ready?
    && (after.at == Over(Failed) ==> IsFailing(s) || (s.at.Ready? && Decide(job, Entry(Seen(s.disk).names, job.path)).Refused?))
  }

  lemma FillGoesOn(job: Job, s: OnDisk) returns (w: Disk.Step)
    requires CallFits(job, s) && s.call.Some? && s.disk.calls[s.call.value].phase.Filling?
    requires DI.Private(s.disk.calls[s.call.value], s.disk.dir.names, s.disk.inodes)
    ensures GoesOn(job, s, Writes(w))
  {
    var k := s.call.value;
    var c := s.disk.calls[k];
    w := if Disk.Full(s.disk, c) then Disk.Fsync(k)
         else Disk.Append(k, |c.bytes| - |s.disk.inodes[c.phase.inode].data|);
  }

  lemma NextOfCall(job: Job, s: OnDisk) returns (w: Disk.Step)
    requires DI.Inv(s.disk) && CallFits(job, s) && s.call.Some?
    ensures GoesOn(job, s, Writes(w))
  {
    var k := s.call.value;
    var c := s.disk.calls[k];
    assert DI.Private(c, s.disk.dir.names, s.disk.inodes);
    match c.phase {
      case Starting =>
        var i := FreshNat(s.disk.inodes.Keys);
        w := Disk.Create(k, i);
      case Filling(_) => w := FillGoesOn(job, s);
      case Synced(i) => w := Disk.Rename(k);
      case Renamed(_) => w := Disk.FlushDir(k, true);
      case Failing => w := Disk.RemoveTemp(k, true);
    }
  }

  lemma BeginGoesOn(job: Job, s: OnDisk) returns (step: DiskStep)
    requires IsWriting(s.at) && s.call.None?
    ensures GoesOn(job, s, step)
  {
    var k := FreshNat(s.disk.calls.Keys);
    var random := FreshNat(s.disk.past.randoms);
    step := Begins(k, random);
  }

  lemma ReadGoesOn(job: Job, s: OnDisk)
    requires s.at.Ready? && s.call.None?
    ensures GoesOn(job, s, Reads)
  {
  }

  lemma NextOfStart(job: Job, s: OnDisk) returns (step: DiskStep)
    requires DI.Inv(s.disk) && CallFits(job, s) && !s.at.Over?
    ensures GoesOn(job, s, step)
  {
    if s.call.Some? {
      var w := NextOfCall(job, s);
      step := Writes(w);
    } else if IsWriting(s.at) {
      step := BeginGoesOn(job, s);
    } else if s.at.Ready? {
      ReadGoesOn(job, s);
      step := Reads;
    } else {
      step := Removes;
    }
  }

  lemma {:induction false} GoesThroughOnDisk(job: Job, s: OnDisk) returns (steps: seq<DiskStep>)
    requires DI.Inv(s.disk) && CallFits(job, s)
    ensures CanTake(job, s, steps) && TakesAll(job, s, steps).at.Over? && (s.at.Over? ==> steps == [])
    ensures s.at.Over? || IsFailing(s) || (s.at.Ready? && Decide(job, Entry(Seen(s.disk).names, job.path)).Refused?)
         || !TakesAll(job, s, steps).at.outcome.Failed?
    decreases UT.Rank(s.at), CallRank(s)
  {
    if s.at.Over? {
      steps := [];
    } else {
      var step := NextOfStart(job, s);
      DiskKeeps(job, s, step);
      CallFitsNext(job, s, step);
      var after := Takes(job, s, step);
      var rest := GoesThroughOnDisk(job, after);
      steps := [step] + rest;
      assert steps[1..] == rest;
      assert TakesAll(job, s, steps) == TakesAll(job, after, rest);
    }
  }

  /** From whatever cuts and crashes left of the disk, a start that nothing cuts gets through. */
  lemma AStartGetsThroughOnDisk(job: Job, names: Names, d: Disk.State, steps: seq<DiskStep>) returns (more: seq<DiskStep>)
    requires Faithful(job.toml) && job.plan.current < U.U32_END && !Decide(job, Entry(names, job.path)).Refused?
    requires DT.Start(d, names) && CanTake(job, OnDisk(d, Ready, None), steps)
    requires TakesAll(job, OnDisk(d, Ready, None), steps).at.Ready?
    ensures var cut := TakesAll(job, OnDisk(d, Ready, None), steps);
      && CanTake(job, cut, more)
      && TakesAll(job, cut, more).at.Over? && !TakesAll(job, cut, more).at.outcome.Failed?
      && Seen(TakesAll(job, cut, more).disk).names == Goal(job, names)
  {
    var cut := TakesAll(job, OnDisk(d, Ready, None), steps);
    Reaches(job, names, d, steps);
    UT.ReadyIsNotRefused(job, names, Abs(cut));
    more := GoesThroughOnDisk(job, cut);
    EveryDiskRunKeeps(job, names, cut, more);
    UT.EndsAtTheGoal(job, names, Abs(TakesAll(job, cut, more)));
  }

  // ---- the old text ----

  ghost predicate AlwaysHasItOnDisk(job: Job, names: Names, d: Disk.State) {
    forall steps | CanTake(job, OnDisk(d, Ready, None), steps) ::
      UT.HasTheText(job, names, Seen(TakesAll(job, OnDisk(d, Ready, None), steps).disk).names)
  }

  /**
     The old text can be read, whole, after every step and every crash exactly when the name of its copy
     was free or held it.
  */
  lemma TheOldTextIsKeptOnDisk(job: Job, names: Names, d: Disk.State)
    requires Faithful(job.toml) && job.plan.current < U.U32_END && DT.Start(d, names)
    ensures AlwaysHasItOnDisk(job, names, d) <==> UT.RoomForACopy(job, names)
  {
    if UT.RoomForACopy(job, names) {
      forall steps | CanTake(job, OnDisk(d, Ready, None), steps)
        ensures UT.HasTheText(job, names, Seen(TakesAll(job, OnDisk(d, Ready, None), steps).disk).names)
      {
        Reaches(job, names, d, steps);
        UT.InvHasTheText(job, names, Abs(TakesAll(job, OnDisk(d, Ready, None), steps)));
      }
    } else {
      var start := OnDisk(d, Ready, None);
      assert CanTake(job, start, []) && TakesAll(job, start, []) == start;
      var more := AStartGetsThroughOnDisk(job, names, d, []);
      UT.TheGoalHasNot(job, names);
    }
  }
}
