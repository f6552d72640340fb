/**
 The upgrade of a file over the starts of the app: it is cut by a crash or a failure at any step,
 and started again, any number of times. The atomic writes are the whole steps that DiskFiles shows
 they are; the flush of the directory works, the removal of a file is not flushed.
 */
module UpgradeRuns {
  import opened Wrappers
  import opened Directory
  import opened Upgrade
  import Disk
  import DiskFiles

  type Bytes = Disk.Bytes
  type Files = DiskFiles.Files

  /** The reading and the writing of a text. What is written reads back as it was. */
  datatype Toml = Toml(parse: Bytes -> Option<Table>, write: Table -> Option<Bytes>)

  ghost predicate Faithful(toml: Toml) {
    forall t, b :: toml.write(t) == Some(b) ==> toml.parse(b) == Some(t)
  }

  datatype Job = Job(path: string, plan: Plan, toml: Toml)

  function Decimal(n: nat): string {
    (if n < 10 then "" else Decimal(n / 10)) + ["0123456789"[n % 10]]
  }

  function Sibling(path: string, suffix: string): (r: string)
    ensures r != path
  {
    path + "." + suffix
  }

  function BackupOf(path: string, from: nat): (r: string)
    ensures r != path
  {
    Sibling(path, "v" + Decimal(from) + ".bak")
  }

  function AsideOf(path: string, found: nat): (r: string)
    ensures r != path
  {
    Sibling(path, "from-v" + Decimal(found))
  }

  /** What the text at the path calls for. */
  datatype Decision =
    | Nothing
    | Refused
    | UpToDate
    | SetAside(found: nat)
    | Rewrite(from: nat, upgraded: Bytes)

  function Decide(job: Job, text: Option<Bytes>): Decision {
    match text
    case None => Nothing
    case Some(bytes) =>
      match job.toml.parse(bytes)
      case None => Refused
      case Some(table) =>
        match UpgradeOf(table, job.plan)
        case Err(_) => Refused
        case Ok((_, Current)) => UpToDate
        case Ok((_, Newer(found))) => SetAside(found)
        case Ok((t, Upgraded(from))) =>
          match job.toml.write(t)
          case None => Refused
          case Some(upgraded) => Rewrite(from, upgraded)
  }

  datatype Outcome = Absent | AlreadyCurrent | Migrated(from: nat, goal: nat) | KeptAside(found: nat) | Failed

  /** How a start that decided so ends, when nothing fails. */
  predicate LeadsTo(job: Job, decision: Decision, outcome: Outcome) {
    match decision
    case Nothing => outcome == Absent
    case Refused => outcome == Failed
    case UpToDate => outcome == AlreadyCurrent
    case SetAside(found) => outcome == KeptAside(found)
    case Rewrite(from, _) => outcome == Migrated(from, job.plan.current)
  }

  /** Where a start of the app is in `upgrade_document`. */
  datatype At =
    | Ready
    | KeepOld(from: nat, text: Bytes, upgraded: Bytes)
    | OldKept(from: nat, upgraded: Bytes)
    | Replace(from: nat, upgraded: Bytes)
    | Replaced(from: nat)
    | Aside(found: nat, text: Bytes)
    | AsideKept(found: nat)
    | Remove(found: nat)
    | Over(outcome: Outcome)

  datatype State = State(files: Files, at: At)

  datatype Step = Look | Put | Flush | RemoveOld | Fail | Crash(names: map<string, Bytes>) | Restart

  ghost predicate Enabled(s: State, step: Step) {
    match step
    case Look => s.at.Ready?
    case Put => s.at.KeepOld? || s.at.Replace? || s.at.Aside?
    case Flush => s.at.OldKept? || s.at.Replaced? || s.at.AsideKept?
    case RemoveOld => s.at.Remove?
    // The file cannot be read, or a write or the removal is refused.
    case Fail => s.at.Ready? || s.at.KeepOld? || s.at.Replace? || s.at.Aside? || s.at.Remove?
    case Crash(names) => CrashTo(s.files, names)
    case Restart => s.at.Over?
  }

  function Looking(job: Job, s: State): At {
    var text := Entry(s.files.names, job.path);
    match Decide(job, text)
    case Nothing => Over(Absent)
    case Refused => Over(Failed)
    case UpToDate => Over(AlreadyCurrent)
    case SetAside(found) => Aside(found, text.value)
    case Rewrite(from, upgraded) =>
      if BackupOf(job.path, from) in s.files.names then Replace(from, upgraded)
      else KeepOld(from, text.value, upgraded)
  }

  function Putting(job: Job, s: State): State
    requires Enabled(s, Put)
  {
    match s.at
    case KeepOld(from, text, upgraded) =>
      State(SetEntry(s.files, BackupOf(job.path, from), Some(text)), OldKept(from, upgraded))
    case Replace(from, upgraded) => State(SetEntry(s.files, job.path, Some(upgraded)), Replaced(from))
    case Aside(found, text) => State(SetEntry(s.files, AsideOf(job.path, found), Some(text)), AsideKept(found))
  }

  function Flushing(job: Job, s: State): State
    requires Enabled(s, Flush)
  {
    State(Flushed(s.files), match s.at
      case OldKept(from, upgraded) => Replace(from, upgraded)
      case Replaced(from) => Over(Migrated(from, job.plan.current))
      case AsideKept(found) => Remove(found))
  }

  ghost function Next(job: Job, s: State, step: Step): State
    requires Enabled(s, step)
  {
    match step
    case Look => s.(at := Looking(job, s))
    case Put => Putting(job, s)
    case Flush => Flushing(job, s)
    case RemoveOld => State(SetEntry(s.files, job.path, None), Over(KeptAside(s.at.found)))
    case Fail => s.(at := Over(Failed))
    case Crash(names) => State(Dir(names, map[]), Ready)
    case Restart => s.(at := Ready)
  }

  ghost predicate CanRun(job: Job, s: State, steps: seq<Step>)
    decreases |steps|
  {
    steps == [] || (Enabled(s, steps[0]) && CanRun(job, Next(job, s, steps[0]), steps[1..]))
  }

  ghost function Run(job: Job, s: State, steps: seq<Step>): State
    requires CanRun(job, s, steps)
    decreases |steps|
  {
    if steps == [] then s else Run(job, Next(job, s, steps[0]), steps[1..])
  }

  // ---- where it must come to ----

  type Names = map<string, Bytes>

  /** What one run that nothing cuts leaves. */
  function Goal(job: Job, names: Names): Names {
    match Decide(job, Entry(names, job.path))
    case Rewrite(from, upgraded) =>
      var backup := BackupOf(job.path, from);
      (if backup in names then names else names[backup := names[job.path]])[job.path := upgraded]
    case SetAside(found) => names[AsideOf(job.path, found) := names[job.path]] - {job.path}
    case _ => names
  }

  /** A crash would leave at the name what is there now. */
  ghost predicate Firm(f: Files, name: string) {
    forall v :: MaySurvive(f, name, v) ==> v == Entry(f.names, name)
  }

  ghost predicate Untouched(f: Files, names: Names, but: set<string>) {
    forall q | q !in but :: Firm(f, q) && Entry(f.names, q) == Entry(names, q)
  }

  /** The upgrade of an older file, while it lasts. */
  ghost predicate Rewriting(job: Job, names: Names, s: State, from: nat, upgraded: Bytes)
    requires job.path in names
  {
    var path, backup := job.path, BackupOf(job.path, from);
    var text := names[path];
    var keep := if backup in names then names[backup] else text;
    var now := Entry(s.files.names, path);
    var copy := Entry(s.files.names, backup);
    && Untouched(s.files, names, {path, backup})
    && (!s.at.OldKept? ==> Firm(s.files, backup))
    && (!s.at.Replaced? ==> Firm(s.files, path))
    && (now == Some(text) || now == Some(upgraded))
    && (copy == Some(keep) || (copy == None && backup !in names && now == Some(text)))
    && (now == Some(upgraded) ==> copy == Some(keep) && (s.at.Ready? || s.at.Replaced? || s.at.Over?))
    && match s.at
       case Ready => true
       case KeepOld(f, t, u) => f == from && t == text && u == upgraded && backup !in names && copy == None
       case OldKept(f, u) => f == from && u == upgraded && backup !in names && copy == Some(text) && now == Some(text)
                          && forall v :: MaySurvive(s.files, backup, v) ==> v == None || v == Some(text)
       case Replace(f, u) => f == from && u == upgraded && copy == Some(keep)
       case Replaced(f) => now == Some(upgraded)
                        && forall v :: MaySurvive(s.files, path, v) ==> v == Some(text) || v == Some(upgraded)
       case Over(outcome) => outcome.Failed? || (now == Some(upgraded) && copy == Some(keep))
       case _ => false
  }

  /** The moving aside of a newer file, while it lasts. */
  ghost predicate Moving(job: Job, names: Names, s: State, found: nat)
    requires job.path in names
  {
    var path, kept := job.path, AsideOf(job.path, found);
    var text := names[path];
    var now := Entry(s.files.names, path);
    && Untouched(s.files, names, {path, kept})
    && (!s.at.AsideKept? ==> Firm(s.files, kept))
    && (forall v :: MaySurvive(s.files, path, v) ==> v == Some(text) || (v == None && Entry(s.files.names, kept) == Some(text)))
    && (now == None ==> s.at.Ready? || s.at.Over?)
    && (now == Some(text) ==> Firm(s.files, path))
    && match s.at
       case Ready => true
       case Aside(f, t) => f == found && t == text && now == Some(text)
       case AsideKept(f) => f == found && Entry(s.files.names, kept) == Some(text) && now == Some(text)
       case Remove(f) => f == found && Entry(s.files.names, kept) == Some(text) && now == Some(text)
       case Over(outcome) =>
         outcome.Failed? || (now == None && Entry(s.files.names, kept) == Some(text))
       case _ => false
  }

  ghost predicate Idle(names: Names, s: State) {
    s.files == Dir(names, map[]) && (s.at.Ready? || s.at.Over?)
  }

  ghost predicate Inv(job: Job, names: Names, s: State) {
    match Decide(job, Entry(names, job.path))
    case Rewrite(from, upgraded) => Rewriting(job, names, s, from, upgraded)
    case SetAside(found) => Moving(job, names, s, found)
    case _ => Idle(names, s)
  }

  // ---- it holds in every run ----

  lemma SetElsewhere(f: Files, name: string, v: Option<Bytes>, names: Names, but: set<string>)
    requires Untouched(f, names, but) && name in but
    ensures Untouched(SetEntry(f, name, v), names, but)
  {
    var g := SetEntry(f, name, v);
    forall q | q !in but ensures Firm(g, q) && Entry(g.names, q) == Entry(names, q) {
      FirmElsewhere(f, name, v, q);
    }
  }

  lemma FirmElsewhere(f: Files, name: string, v: Option<Bytes>, q: string)
    requires q != name
    ensures Firm(SetEntry(f, name, v), q) <==> Firm(f, q)
    ensures Entry(SetEntry(f, name, v).names, q) == Entry(f.names, q)
  {
    forall w ensures MaySurvive(SetEntry(f, name, v), q, w) <==> MaySurvive(f, q, w) {
    }
  }

  lemma SetOnFirm(f: Files, name: string, v: Option<Bytes>)
    requires Firm(f, name)
    ensures Entry(SetEntry(f, name, v).names, name) == v
    ensures forall w :: MaySurvive(SetEntry(f, name, v), name, w) ==> w == v || w == Entry(f.names, name)
  {
    forall w | MaySurvive(SetEntry(f, name, v), name, w) ensures w == v || w == Entry(f.names, name) {
      assert w == v || MaySurvive(f, name, w);
    }
  }

  lemma FlushedElsewhere(f: Files, names: Names, but: set<string>)
    requires Untouched(f, names, but)
    ensures Untouched(Flushed(f), names, but)
  {
  }

  lemma CrashElsewhere(f: Files, after: Names, names: Names, but: set<string>)
    requires Untouched(f, names, but) && CrashTo(f, after)
    ensures Untouched(Dir(after, map[]), names, but)
  {
    forall q | q !in but ensures Entry(after, q) == Entry(names, q) {
      assert MaySurvive(f, q, Entry(after, q));
    }
  }

  /** What was upgraded is not upgraded again. */
  lemma UpgradedIsUpToDate(job: Job, text: Bytes)
    requires Faithful(job.toml) && job.plan.current < U32_END && Decide(job, Some(text)).Rewrite?
    ensures Decide(job, Some(Decide(job, Some(text)).upgraded)) == UpToDate
  {
    SecondRunChangesNothing(job.toml.parse(text).value, job.plan);
  }

  lemma RewritingNext(job: Job, names: Names, s: State, step: Step, from: nat, upgraded: Bytes)
    requires Faithful(job.toml) && job.plan.current < U32_END
    requires job.path in names && Decide(job, Some(names[job.path])) == Rewrite(from, upgraded)
    requires Rewriting(job, names, s, from, upgraded) && Enabled(s, step) && !step.Crash?
    ensures Rewriting(job, names, Next(job, s, step), from, upgraded)
  {
    var backup := BackupOf(job.path, from);
    UpgradedIsUpToDate(job, names[job.path]);
    match step
    case Put =>
      var name := if s.at.KeepOld? then backup else job.path;
      SetElsewhere(s.files, name, Entry(Next(job, s, step).files.names, name), names, {job.path, backup});
      FirmElsewhere(s.files, name, Entry(Next(job, s, step).files.names, name), if s.at.KeepOld? then job.path else backup);
      SetOnFirm(s.files, name, Entry(Next(job, s, step).files.names, name));
    case Flush =>
      FlushedElsewhere(s.files, names, {job.path, backup});
    case _ =>
  }

  lemma RewritingCrash(job: Job, names: Names, s: State, after: Names, from: nat, upgraded: Bytes)
    requires job.path in names && Decide(job, Some(names[job.path])) == Rewrite(from, upgraded)
    requires Rewriting(job, names, s, from, upgraded) && CrashTo(s.files, after)
    ensures Rewriting(job, names, State(Dir(after, map[]), Ready), from, upgraded)
  {
    var backup := BackupOf(job.path, from);
    CrashElsewhere(s.files, after, names, {job.path, backup});
    assert MaySurvive(s.files, job.path, Entry(after, job.path));
    assert MaySurvive(s.files, backup, Entry(after, backup));
  }

  lemma MovingNext(job: Job, names: Names, s: State, step: Step, found: nat)
    requires job.path in names && Decide(job, Some(names[job.path])) == SetAside(found)
    requires Moving(job, names, s, found) && Enabled(s, step) && !step.Crash?
    ensures Moving(job, names, Next(job, s, step), found)
  {
    var kept := AsideOf(job.path, found);
    assert MaySurvive(s.files, job.path, Entry(s.files.names, job.path));
    match step
    case Put =>
      SetElsewhere(s.files, kept, Some(names[job.path]), names, {job.path, kept});
      FirmElsewhere(s.files, kept, Some(names[job.path]), job.path);
    case RemoveOld =>
      SetElsewhere(s.files, job.path, None, names, {job.path, kept});
      FirmElsewhere(s.files, job.path, None, kept);
      SetOnFirm(s.files, job.path, None);
    case Flush =>
      FlushedElsewhere(s.files, names, {job.path, kept});
    case _ =>
  }

  lemma MovingCrash(job: Job, names: Names, s: State, after: Names, found: nat)
    requires job.path in names && Decide(job, Some(names[job.path])) == SetAside(found)
    requires Moving(job, names, s, found) && CrashTo(s.files, after)
    ensures Moving(job, names, State(Dir(after, map[]), Ready), found)
  {
    var kept := AsideOf(job.path, found);
    CrashElsewhere(s.files, after, names, {job.path, kept});
    assert MaySurvive(s.files, job.path, Entry(after, job.path));
    assert MaySurvive(s.files, kept, Entry(after, kept));
  }

  lemma IdleCrash(names: Names, after: Names)
    requires CrashTo(Dir(names, map[]), after)
    ensures after == names
  {
    forall q ensures Entry(after, q) == Entry(names, q) {
      assert MaySurvive(Dir(names, map[]), q, Entry(after, q));
    }
    DiskFiles.EntriesMakeTheMap(after, names);
  }

  lemma Keeps(job: Job, names: Names, s: State, step: Step)
    requires Faithful(job.toml) && job.plan.current < U32_END
    requires Inv(job, names, s) && Enabled(s, step)
    ensures Inv(job, names, Next(job, s, step))
  {
    match Decide(job, Entry(names, job.path))
    case Rewrite(from, upgraded) =>
      if step.Crash? {
        RewritingCrash(job, names, s, step.names, from, upgraded);
      } else {
        RewritingNext(job, names, s, step, from, upgraded);
      }
    case SetAside(found) =>
      if step.Crash? {
        MovingCrash(job, names, s, step.names, found);
      } else {
        MovingNext(job, names, s, step, found);
      }
    case _ =>
      if step.Crash? {
        IdleCrash(names, step.names);
      }
  }

  lemma {:induction false} EveryRunKeeps(job: Job, names: Names, s: State, steps: seq<Step>)
    requires Faithful(job.toml) && job.plan.current < U32_END
    requires Inv(job, names, s) && CanRun(job, s, steps)
    ensures Inv(job, names, Run(job, s, steps))
    decreases |steps|
  {
    if steps != [] {
      Keeps(job, names, s, steps[0]);
      EveryRunKeeps(job, names, Next(job, s, steps[0]), steps[1..]);
    }
  }
}
