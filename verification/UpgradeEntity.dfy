/** The folder of the saved files as the object the upgrade works on, one operation after the other. */
module UpgradeEntity {
  import opened Wrappers
  import opened Directory
  import opened Upgrade
  import UpgradeRuns

  type Bytes = UpgradeRuns.Bytes
  type Job = UpgradeRuns.Job
  type Outcome = UpgradeRuns.Outcome

  // ---- an operation the system refuses for a moment ----

  const BUSY_RETRIES := 20

  datatype Io<T> = Done(value: T) | PermissionDenied | OtherError(code: int)

  /** The time waited before the retries up to this one, in milliseconds: two more before each. */
  function Waited(retries: nat): (w: nat)
    ensures w == retries * (retries + 1)
  {
    if retries == 0 then 0 else Waited(retries - 1) + 2 * retries
  }

  /**
   The calls of the operation say what each would give. It is called again only on Windows, only
   after a refusal, and at most twenty times, which is under half a second of waiting.
   */
  method RetryWhenBusy<T(0)>(op: nat -> Io<T>, windows: bool) returns (r: Io<T>, retries: nat, waited: nat)
    ensures retries <= BUSY_RETRIES && r == op(retries) && waited == Waited(retries) <= 420
    ensures forall i | 0 <= i < retries :: op(i).PermissionDenied? && windows
    ensures r.PermissionDenied? ==> !windows || retries == BUSY_RETRIES
  {
    retries, waited := 0, 0;
    while true
      invariant retries <= BUSY_RETRIES && waited == Waited(retries)
      invariant forall i | 0 <= i < retries :: op(i).PermissionDenied? && windows
      decreases BUSY_RETRIES - retries
    {
      r := op(retries);
      if windows && r.PermissionDenied? && retries < BUSY_RETRIES {
        retries := retries + 1;
        waited := waited + 2 * retries;
      } else {
        return;
      }
    }
  }

  // ---- the upgrade of one file ----

  class Folder {
    var files: UpgradeRuns.Files

    constructor (names: map<string, Bytes>)
      ensures files == Dir(names, map[])
    {
      files := Dir(names, map[]);
    }

    /** Whole or not at all; what it put there is flushed when it returns. */
    method AtomicWrite(path: string, bytes: Bytes, works: bool) returns (ok: bool)
      modifies this`files
      ensures ok == works
      ensures files == if works then Flushed(SetEntry(old(files), path, Some(bytes))) else old(files)
    {
      if !works {
        return false;
      }
      files := SetEntry(files, path, Some(bytes));
      files := Flushed(files);
      return true;
    }

    method Remove(path: string, works: bool) returns (ok: bool)
      modifies this`files
      ensures ok == works
      ensures files == if works then SetEntry(old(files), path, None) else old(files)
    {
      if works {
        files := SetEntry(files, path, None);
      }
      return works;
    }

    /** On success only the copy and the absence of the path are new; on failure the path still has its text. */
    method SetAsideNewer(path: string, found: nat, read: bool, writes: bool, removes: bool) returns (ok: bool)
      requires path in files.names
      modifies this`files
      ensures ok == (read && writes && removes)
      ensures ok ==> files.names == old(files.names)[UpgradeRuns.AsideOf(path, found) := old(files.names)[path]] - {path}
      ensures !ok ==> Entry(files.names, path) == old(Entry(files.names, path))
    {
      if !read {
        return false;
      }
      var kept := UpgradeRuns.AsideOf(path, found);
      var bytes := files.names[path];
      ok := AtomicWrite(kept, bytes, writes);
      if ok {
        ok := Remove(path, removes);
      }
    }

    /** A copy under the other name, unless one is there, and then the new text at the path. */
    method CopyAndReplace(path: string, copy: string, upgraded: Bytes, works: nat -> bool) returns (ok: bool)
      requires path in files.names && copy != path
      modifies this`files
      ensures works(0) && works(1) ==> ok
      ensures var names := old(files.names);
        ok ==> files.names == (if copy in names then names else names[copy := names[path]])[path := upgraded]
      ensures !ok ==> Entry(files.names, path) == old(Entry(files.names, path))
    {
      ok := true;
      if copy !in files.names {
        ok := AtomicWrite(copy, files.names[path], works(0));
      }
      if ok {
        ok := AtomicWrite(path, upgraded, works(1));
      }
    }

    /** read and works say of each read, and of each write and removal, whether the system lets it through. */
    method UpgradeDocument(job: Job, read: nat -> bool, works: nat -> bool) returns (outcome: Outcome)
      modifies this`files
      ensures outcome.Failed? ==> Entry(files.names, job.path) == old(Entry(files.names, job.path))
      ensures !outcome.Failed? ==> files.names == UpgradeRuns.Goal(job, old(files.names))
      ensures read(0) && read(1) && works(0) && works(1) && outcome.Failed? ==>
                UpgradeRuns.Decide(job, old(Entry(files.names, job.path))).Refused?
      ensures outcome.Failed? || UpgradeRuns.LeadsTo(job, UpgradeRuns.Decide(job, old(Entry(files.names, job.path))), outcome)
      ensures outcome.Migrated? ==>
                UpgradeRuns.Decide(job, Entry(files.names, job.path)).UpToDate? || !UpgradeRuns.Faithful(job.toml)
                || job.plan.current >= U32_END
    {
      if !read(0) {
        return UpgradeRuns.Failed;
      }
      if job.path !in files.names {
        return UpgradeRuns.Absent;
      }
      var text := files.names[job.path];
      var parsed := job.toml.parse(text);
      if parsed.None? {
        return UpgradeRuns.Failed;
      }
      var upgraded := UpgradeTable(parsed.value, job.plan);
      if upgraded.Err? {
        return UpgradeRuns.Failed;
      }
      var (table, found) := upgraded.value;
      match found
      case Current => return UpgradeRuns.AlreadyCurrent;
      case Newer(version) =>
        var moved := SetAsideNewer(job.path, version, read(1), works(0), works(1));
        return if moved then UpgradeRuns.KeptAside(version) else UpgradeRuns.Failed;
      case Upgraded(from) =>
        var written := job.toml.write(table);
        if written.None? {
          return UpgradeRuns.Failed;
        }
        var ok := CopyAndReplace(job.path, UpgradeRuns.BackupOf(job.path, from), written.value, works);
        if !ok {
          return UpgradeRuns.Failed;
        }
        if UpgradeRuns.Faithful(job.toml) && job.plan.current < U32_END {
          UpgradeRuns.UpgradedIsUpToDate(job, text);
        }
        return UpgradeRuns.Migrated(from, job.plan.current);
    }
  }
}
