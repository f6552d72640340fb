/**
 What becomes of a file, by what its text says of its version: newer, current, older, or nothing that
 can be used. Each over every run, with its crashes, failures and new starts.
 */
module UpgradeOutcomes {
  import opened Wrappers
  import opened Directory
  import U = Upgrade
  import opened UpgradeRuns
  import opened UpgradeTheorems

  /** The text at the path reads as this table. */
  predicate Holds(job: Job, names: Names, text: Bytes, table: U.Table) {
    job.path in names && names[job.path] == text && job.toml.parse(text) == Some(table)
  }

  /** The table says that it is of this version; one that says nothing is of the first. */
  predicate Says(table: U.Table, version: nat) {
    if "schema_version" in table then table["schema_version"] == U.Integer(version) && 1 <= version < 0x1_0000_0000
    else version == 1
  }

  ghost predicate GetsThrough(job: Job, names: Names, steps: seq<Step>) {
    CanRun(job, Start(names), steps)
    && Run(job, Start(names), steps).at.Over? && !Run(job, Start(names), steps).at.outcome.Failed?
  }

  ghost predicate SameBut(after: Names, before: Names, a: string, b: string) {
    forall q | q != a && q != b :: Entry(after, q) == Entry(before, q)
  }

  // ---- the outcome of one start ----

  /** Where one start may be, when it decided so and the path has this text until then. */
  predicate OnItsWay(job: Job, s: State, text: Option<Bytes>, decision: Decision, outcome: Outcome) {
    match s.at
    case Ready => Entry(s.files.names, job.path) == text
    case KeepOld(from, _, upgraded) => decision == Rewrite(from, upgraded)
    case OldKept(from, upgraded) => decision == Rewrite(from, upgraded)
    case Replace(from, upgraded) => decision == Rewrite(from, upgraded)
    case Replaced(from) => decision.Rewrite? && decision.from == from
    case Aside(found, _) => decision == SetAside(found)
    case AsideKept(found) => decision == SetAside(found)
    case Remove(found) => decision == SetAside(found)
    case Over(end) => end == Failed || end == outcome
  }

  lemma {:induction false} OneStartEnds(job: Job, s: State, steps: seq<Step>, text: Option<Bytes>, outcome: Outcome)
    requires CanRun(job, s, steps) && OneStart(steps) && LeadsTo(job, Decide(job, text), outcome)
    requires OnItsWay(job, s, text, Decide(job, text), outcome)
    ensures OnItsWay(job, Run(job, s, steps), text, Decide(job, text), outcome)
    decreases |steps|
  {
    if steps != [] {
      OnItsWayNext(job, s, steps[0], text, outcome);
      assert forall i | 0 <= i < |steps[1..]| :: steps[1..][i] == steps[i + 1];
      OneStartEnds(job, Next(job, s, steps[0]), steps[1..], text, outcome);
    }
  }

  lemma OnItsWayNext(job: Job, s: State, step: Step, text: Option<Bytes>, outcome: Outcome)
    requires Enabled(s, step) && !step.Crash? && !step.Restart? && LeadsTo(job, Decide(job, text), outcome)
    requires OnItsWay(job, s, text, Decide(job, text), outcome)
    ensures OnItsWay(job, Next(job, s, step), text, Decide(job, text), outcome)
  {
  }

  // ---- a newer file ----

  lemma SaidVersion(table: U.Table, version: nat)
    ensures Says(table, version) <==> U.VersionOf(table) == Ok(version)
  {
  }

  /**
   A file whose version is over the current one, by one or by more: whatever cuts the starts, one that
   gets through leaves nothing at the path and the whole text beside it, under the found version.
   */
  lemma ANewerFileIsSetAside(job: Job, names: Names, text: Bytes, table: U.Table, version: nat, steps: seq<Step>)
    requires Faithful(job.toml) && job.plan.current < U.U32_END && GetsThrough(job, names, steps)
    requires Holds(job, names, text, table) && Says(table, version) && version > job.plan.current
    ensures var s, kept := Run(job, Start(names), steps), job.path + "." + "from-v" + Decimal(version);
      && job.path !in s.files.names && kept in s.files.names && s.files.names[kept] == text
      && SameBut(s.files.names, names, job.path, kept)
      && (OneStart(steps) ==> s.at == Over(KeptAside(version)))
  {
    SaidVersion(table, version);
    assert Decide(job, Some(text)) == SetAside(version);
    Converges(job, names, steps);
    assert job.path + "." + "from-v" + Decimal(version) == AsideOf(job.path, version);
    if OneStart(steps) {
      OneStartEnds(job, Start(names), steps, Some(text), KeptAside(version));
    }
  }

  // ---- a current file, one that cannot be used, and none ----

  /** The files are as they were, whatever happened, and the starts end like this or fail. */
  ghost predicate Untouchable(job: Job, names: Names, s: State, outcome: Outcome) {
    s.files == Dir(names, map[]) && (s.at.Ready? || s.at == Over(outcome) || s.at == Over(Failed))
  }

  lemma {:induction false} StaysUntouched(job: Job, names: Names, s: State, steps: seq<Step>, outcome: Outcome)
    requires CanRun(job, s, steps) && Untouchable(job, names, s, outcome)
    requires var decision := Decide(job, Entry(names, job.path));
      (decision.Nothing? || decision.Refused? || decision.UpToDate?) && LeadsTo(job, decision, outcome)
    ensures Untouchable(job, names, Run(job, s, steps), outcome)
    decreases |steps|
  {
    if steps != [] {
      if steps[0].Crash? {
        IdleCrash(names, steps[0].names);
      }
      StaysUntouched(job, names, Next(job, s, steps[0]), steps[1..], outcome);
    }
  }

  /** A current file is not touched: the starts that get through say that it is current. */
  lemma ACurrentFileStays(job: Job, names: Names, text: Bytes, table: U.Table, steps: seq<Step>)
    requires CanRun(job, Start(names), steps) && Holds(job, names, text, table) && Says(table, job.plan.current)
    ensures Untouchable(job, names, Run(job, Start(names), steps), AlreadyCurrent)
  {
    SaidVersion(table, job.plan.current);
    StaysUntouched(job, names, Start(names), steps, AlreadyCurrent);
  }

  predicate HasNoVersion(table: U.Table) {
    "schema_version" in table
    && (table["schema_version"].Integer? ==> table["schema_version"].n < 1 || table["schema_version"].n >= 0x1_0000_0000)
  }

  /**
     Neither a text that is no table, nor one whose version is no whole number from 1 under 2^32, is
     touched: every start fails.
  */
  lemma AnUnusableFileStays(job: Job, names: Names, steps: seq<Step>)
    requires CanRun(job, Start(names), steps) && job.path in names
    requires var parsed := job.toml.parse(names[job.path]); parsed.Some? ==> HasNoVersion(parsed.value)
    ensures Untouchable(job, names, Run(job, Start(names), steps), Failed)
  {
    StaysUntouched(job, names, Start(names), steps, Failed);
  }

  /** Where no file is none is made. */
  lemma NoFileIsMade(job: Job, names: Names, steps: seq<Step>)
    requires CanRun(job, Start(names), steps) && job.path !in names
    ensures Untouchable(job, names, Run(job, Start(names), steps), Absent)
  {
    StaysUntouched(job, names, Start(names), steps, Absent);
  }

  // ---- an older file ----

  /**
   An older file whose steps go through, one after the other: a start that gets through leaves the
   written result at the path and beside it the old text, or the copy that was there before.
   */
  lemma AnOlderFileIsUpgraded(job: Job, names: Names, text: Bytes, table: U.Table, version: nat,
                              tables: seq<U.Table>, result: U.Table, written: Bytes, steps: seq<Step>)
    requires Faithful(job.toml) && job.plan.current < U.U32_END && GetsThrough(job, names, steps)
    requires U.IsComplete(job.plan) && Holds(job, names, text, table) && Says(table, version) && version < job.plan.current
    requires U.InOrder(tables, job.plan, version, table, result) && job.toml.write(result) == Some(written)
    ensures var s, copy := Run(job, Start(names), steps), job.path + "." + "v" + Decimal(version) + ".bak";
      && job.path in s.files.names && s.files.names[job.path] == written
      && copy in s.files.names && s.files.names[copy] == (if copy in names then names[copy] else text)
      && SameBut(s.files.names, names, job.path, copy)
      && (OneStart(steps) ==> s.at == Over(Migrated(version, job.plan.current)))
  {
    SaidVersion(table, version);
    U.StepsGoInOrder(table, job.plan, version, result);
    assert Decide(job, Some(text)) == Rewrite(version, written);
    Converges(job, names, steps);
    assert job.path + "." + "v" + Decimal(version) + ".bak" == BackupOf(job.path, version);
    if OneStart(steps) {
      OneStartEnds(job, Start(names), steps, Some(text), Migrated(version, job.plan.current));
    }
  }

  // ---- the names of the copies ----

  predicate IsDigit(c: char) { '0' <= c <= '9' }

  function ValueOf(digits: string): nat
    requires AllDigits(digits)
  {
    if digits == "" then 0
    else
      assert IsDigit(digits[|digits| - 1]);
      ValueOf(digits[..|digits| - 1]) * 10 + (digits[|digits| - 1] as int - '0' as int)
  }

  predicate AllDigits(s: string) {
    forall i | 0 <= i < |s| :: IsDigit(s[i])
  }

  lemma OneMoreDigit(front: string, digit: char)
    requires AllDigits(front) && IsDigit(digit)
    ensures AllDigits(front + [digit])
    ensures ValueOf(front + [digit]) == ValueOf(front) * 10 + (digit as int - '0' as int)
  {
    assert (front + [digit])[..|front|] == front;
  }

  lemma DigitOf(d: nat)
    requires d < 10
    ensures IsDigit("0123456789"[d]) && "0123456789"[d] as int - '0' as int == d
  {
  }

  /** The digits written for a version are read as it. */
  lemma {:induction false} DecimalReads(n: nat)
    ensures AllDigits(Decimal(n)) && ValueOf(Decimal(n)) == n
  {
    DigitOf(n % 10);
    if n < 10 {
      OneMoreDigit("", "0123456789"[n % 10]);
      assert Decimal(n) == "" + ["0123456789"[n % 10]];
    } else {
      DecimalReads(n / 10);
      OneMoreDigit(Decimal(n / 10), "0123456789"[n % 10]);
    }
  }

  /** Copies of different versions have different names, and none is the name of a file set aside. */
  lemma CopiesAreApart(path: string, a: nat, b: nat)
    ensures BackupOf(path, a) == BackupOf(path, b) ==> a == b
    ensures AsideOf(path, a) == AsideOf(path, b) ==> a == b
    ensures BackupOf(path, a) != AsideOf(path, b)
  {
    DecimalReads(a);
    DecimalReads(b);
    BackupText(path, a);
    BackupText(path, b);
    AsideText(path, a);
    AsideText(path, b);
    SameBetween(path + ".v", Decimal(a), Decimal(b), ".bak");
    SameBetween(path + ".from-v", Decimal(a), Decimal(b), "");
    OtherLetters(path, Decimal(a) + ".bak", Decimal(b));
  }

  lemma BackupText(path: string, n: nat)
    ensures BackupOf(path, n) == path + ".v" + Decimal(n) + ".bak"
    ensures BackupOf(path, n) == path + (".v" + (Decimal(n) + ".bak"))
  {
  }

  lemma AsideText(path: string, n: nat)
    ensures AsideOf(path, n) == path + ".from-v" + Decimal(n) + ""
    ensures AsideOf(path, n) == path + (".from-v" + Decimal(n))
  {
  }

  lemma OtherLetters(path: string, a: string, b: string)
    ensures path + (".v" + a) != path + (".from-v" + b)
  {
    assert (path + (".v" + a))[|path| + 1] == 'v' && (path + (".from-v" + b))[|path| + 1] == 'f';
  }

  lemma SameBetween(front: string, a: string, b: string, back: string)
    ensures front + a + back == front + b + back ==> a == b
  {
    if front + a + back == front + b + back {
      var text := front + a + back;
      assert |a| == |b|;
      assert a == text[|front|..|front| + |a|] && b == text[|front|..|front| + |b|];
    }
  }
}
