/** What the atomic write promises, over every run of calls, failures and crashes. */
module DiskTheorems {
  import opened Wrappers
  import opened Directory
  import opened Disk
  import opened DiskInvariant

  /** What a reader that opens the path now will read. */
  function ReadAt(s: State, p: string): Option<Bytes> {
    if Real(p) in s.dir.names && s.dir.names[Real(p)] in s.inodes then
      Some(s.inodes[s.dir.names[Real(p)]].data)
    else
      None
  }

  /** A disk at rest with these files. */
  ghost predicate Start(s: State, files: map<string, Bytes>) {
    && Inv(s) && s.calls == map[] && s.dir.earlier == map[]
    && s.past.settled.Keys == files.Keys
    && (forall p | p in files :: ReadAt(s, p) == Some(files[p]))
    && (forall p, b | (p, b) in s.past.asked :: p in files && files[p] == b)
  }

  /** One more file that no call wrote in this run, whole on the disk and settled. */
  function WithFile(s: State, p: string, b: Bytes): State {
    var i := |s.renames|;
    State(Dir(s.dir.names[Real(p) := i], map[]), s.inodes[i := Inode(b, true, Some(i))], map[], s.renames + [(p, b)],
          Past(s.past.asked + {(p, b)}, s.past.randoms, s.past.settled[p := i]))
  }

  lemma WithFileRests(s: State, files: map<string, Bytes>, p: string, b: Bytes)
    requires Start(s, files) && p !in files && forall i | i in s.inodes :: i < |s.renames|
    ensures Start(WithFile(s, p, b), files[p := b])
    ensures forall i | i in WithFile(s, p, b).inodes :: i < |WithFile(s, p, b).renames|
  {
    var after := WithFile(s, p, b);
    forall q, v | MaySurvive(after.dir, Real(q), v) ensures Whole(after.inodes, after.renames, after.past.settled, q, v) {
      assert q != p ==> MaySurvive(s.dir, Real(q), v);
    }
    forall q | q in files[p := b] ensures ReadAt(after, q) == Some(files[p := b][q]) {
      if q != p {
        assert MaySurvive(s.dir, Real(q), Entry(s.dir.names, Real(q)));
      }
    }
  }

  /** Any files at all may be what a run starts with. */
  lemma {:induction false} AnyFilesAtRest(files: map<string, Bytes>) returns (s: State)
    ensures Start(s, files) && forall i | i in s.inodes :: i < |s.renames|
    decreases |files|
  {
    if files == map[] {
      s := State(Dir(map[], map[]), map[], map[], [], Past({}, {}, map[]));
    } else {
      var p :| p in files;
      var rest := files - {p};
      assert rest.Keys == files.Keys - {p};
      var before := AnyFilesAtRest(rest);
      WithFileRests(before, rest, p, files[p]);
      s := WithFile(before, p, files[p]);
      assert rest[p := files[p]] == files;
    }
  }

  ghost predicate AskedFor(steps: seq<Step>, p: string, b: Bytes) {
    exists i :: 0 <= i < |steps| && steps[i].Ask? && steps[i].path == p && steps[i].bytes == b
  }

  lemma AskedForMore(step: Step, rest: seq<Step>, p: string, b: Bytes)
    requires AskedFor(rest, p, b) || (step.Ask? && step.path == p && step.bytes == b)
    ensures AskedFor([step] + rest, p, b)
  {
    if AskedFor(rest, p, b) {
      var i :| 0 <= i < |rest| && rest[i].Ask? && rest[i].path == p && rest[i].bytes == b;
      assert ([step] + rest)[i + 1] == rest[i];
    } else {
      assert ([step] + rest)[0] == step;
    }
  }

  lemma {:induction false} AskedComesFrom(s: State, steps: seq<Step>, p: string, b: Bytes)
    requires CanRun(s, steps) && (p, b) in Run(s, steps).past.asked
    ensures (p, b) in s.past.asked || AskedFor(steps, p, b)
    decreases |steps|
  {
    if steps != [] {
      AskedComesFrom(Next(s, steps[0]), steps[1..], p, b);
      if (p, b) !in s.past.asked {
        AskedForMore(steps[0], steps[1..], p, b);
        assert [steps[0]] + steps[1..] == steps;
      }
    }
  }

  lemma SettledGrows(s: State, step: Step, p: string)
    requires Inv(s) && Enabled(s, step) && p in s.past.settled
    ensures p in Next(s, step).past.settled && s.past.settled[p] <= Next(s, step).past.settled[p]
  {
    if step.FlushDir? && step.works {
      assert MaySurvive(s.dir, Real(p), Entry(s.dir.names, Real(p)));
      assert p in PathsOf(s.dir.names) by {
        assert Real(p).path == p && Real(p) in s.dir.names;
      }
    }
  }

  lemma {:induction false} SettledStays(s: State, steps: seq<Step>, p: string)
    requires Inv(s) && CanRun(s, steps) && p in s.past.settled
    ensures p in Run(s, steps).past.settled && s.past.settled[p] <= Run(s, steps).past.settled[p]
    decreases |steps|
  {
    if steps != [] {
      SettledGrows(s, steps[0], p);
      Keeps(s, steps[0]);
      SettledStays(Next(s, steps[0]), steps[1..], p);
    }
  }

  /**
   Whatever the calls, their failures and the crashes: a reader finds what the file held at first or
   all of what one call was asked to write there, and a file that was there is never missing.
   */
  lemma ReadersSeeAWhole(s: State, files: map<string, Bytes>, steps: seq<Step>, p: string)
    requires Start(s, files) && CanRun(s, steps)
    ensures var found := ReadAt(Run(s, steps), p);
      && (found.Some? ==> (p in files && found.value == files[p]) || AskedFor(steps, p, found.value))
      && (p in files ==> found.Some?)
  {
    EveryRunKeeps(s, steps);
    var after := Run(s, steps);
    var entry := Entry(after.dir.names, Real(p));
    assert MaySurvive(after.dir, Real(p), entry);
    assert Whole(after.inodes, after.renames, after.past.settled, p, entry);
    if entry.Some? {
      AskedComesFrom(s, steps, p, after.inodes[entry.value].data);
    }
    if p in files {
      SettledStays(s, steps, p);
    }
  }

  lemma LinkedStays(s: State, step: Step, i: nat)
    requires Inv(s) && Enabled(s, step) && i in s.inodes && s.inodes[i].rank.Some? && s.inodes[i].flushed
    ensures i in Next(s, step).inodes && Next(s, step).inodes[i].data == s.inodes[i].data
    ensures Next(s, step).inodes[i].rank.Some? && Next(s, step).inodes[i].flushed
  {
    if step.Append? {
      assert Private(s.calls[step.k], s.dir.names, s.inodes);
    }
  }

  /** A file that was opened before it was replaced goes on reading the same, whole, text. */
  lemma {:induction false} OpenedStaysTheSame(s: State, steps: seq<Step>, i: nat)
    requires Inv(s) && CanRun(s, steps) && i in s.inodes && s.inodes[i].rank.Some? && s.inodes[i].flushed
    ensures i in Run(s, steps).inodes && Run(s, steps).inodes[i].data == s.inodes[i].data
    decreases |steps|
  {
    if steps != [] {
      LinkedStays(s, steps[0], i);
      Keeps(s, steps[0]);
      OpenedStaysTheSame(Next(s, steps[0]), steps[1..], i);
    }
  }

  predicate IsPrefix(a: Renames, b: Renames) {
    |a| <= |b| && a == b[..|a|]
  }

  lemma {:induction false} RenamesGrow(s: State, steps: seq<Step>)
    requires CanRun(s, steps)
    ensures IsPrefix(s.renames, Run(s, steps).renames)
    decreases |steps|
  {
    if steps != [] {
      var next := Next(s, steps[0]);
      assert IsPrefix(s.renames, next.renames);
      RenamesGrow(next, steps[1..]);
      var end := Run(s, steps).renames;
      assert end[..|s.renames|] == end[..|next.renames|][..|s.renames|];
    }
  }

  /**
   Once a call has returned and its directory was flushed, no crash undoes it: the path holds what
   it wrote, or what a call that renamed after it wrote.
   */
  lemma ReturnedIsDurable(s: State, k: nat, steps: seq<Step>)
    requires Inv(s) && Enabled(s, FlushDir(k, true)) && CanRun(Next(s, FlushDir(k, true)), steps)
    ensures var c, after := s.calls[k], Run(Next(s, FlushDir(k, true)), steps);
      exists r :: c.phase.rank <= r < |after.renames| && after.renames[c.phase.rank] == (c.path, c.bytes)
        && after.renames[r].0 == c.path && ReadAt(after, c.path) == Some(after.renames[r].1)
  {
    var c, next := s.calls[k], Next(s, FlushDir(k, true));
    var after := Run(next, steps);
    assert InPlace(c, s.dir.names, s.inodes, s.renames);
    assert c.path in PathsOf(s.dir.names) by {
      assert Real(c.path) in s.dir.names && Real(c.path).path == c.path;
    }
    Keeps(s, FlushDir(k, true));
    EveryRunKeeps(next, steps);
    SettledStays(next, steps, c.path);
    RenamesGrow(next, steps);
    var entry := Entry(after.dir.names, Real(c.path));
    assert MaySurvive(after.dir, Real(c.path), entry);
    assert Whole(after.inodes, after.renames, after.past.settled, c.path, entry);
    var r := after.inodes[entry.value].rank.value;
    assert after.renames[c.phase.rank] == next.renames[c.phase.rank];
    assert after.renames[r].0 == c.path;
  }

  /** A write that fails, at whatever step, changes no file: only the rename puts anything at a path. */
  lemma OnlyTheRenameReplaces(s: State, step: Step, p: string)
    requires Inv(s) && Enabled(s, step) && !step.Crash?
    requires !(step.Rename? && s.calls[step.k].path == p)
    ensures ReadAt(Next(s, step), p) == ReadAt(s, p)
  {
    assert MaySurvive(s.dir, Real(p), Entry(s.dir.names, Real(p)));
    if step.Append? {
      assert Private(s.calls[step.k], s.dir.names, s.inodes);
    }
    if step.Rename? {
      assert Private(s.calls[step.k], s.dir.names, s.inodes);
    }
  }

  // ---- the temporary files ----

  ghost predicate Cares(s: State, p: string, r: nat) {
    exists k :: k in s.calls && s.calls[k].path == p && s.calls[k].random == r
      && (Writing(s.calls[k]) || s.calls[k].phase.Failing?)
  }

  ghost predicate TempsOwned(s: State) {
    forall p, r | Temp(p, r) in s.dir.names :: Cares(s, p, r)
  }

  lemma TempsOwnedNext(s: State, step: Step)
    requires Inv(s) && TempsOwned(s) && Enabled(s, step) && !step.Crash? && (step.RemoveTemp? ==> step.works)
    ensures TempsOwned(Next(s, step))
  {
    var after := Next(s, step);
    forall p, r | Temp(p, r) in after.dir.names ensures Cares(after, p, r) {
      if Temp(p, r) in s.dir.names {
        var k :| k in s.calls && s.calls[k].path == p && s.calls[k].random == r
          && (Writing(s.calls[k]) || s.calls[k].phase.Failing?);
        assert k in after.calls && after.calls[k].path == p && after.calls[k].random == r;
      } else {
        assert step.Create?;
        assert after.calls[step.k].path == p && after.calls[step.k].random == r;
      }
    }
  }

  ghost predicate Calm(steps: seq<Step>) {
    forall i | 0 <= i < |steps| :: !steps[i].Crash? && (steps[i].RemoveTemp? ==> steps[i].works)
  }

  predicate AllReturned(s: State) {
    forall k | k in s.calls :: s.calls[k].phase.Returned?
  }

  /** Without a crash, and when the failed calls can remove theirs, no temporary file is left behind. */
  lemma {:induction false} NoTemporaryFileStays(s: State, steps: seq<Step>)
    requires Inv(s) && TempsOwned(s) && CanRun(s, steps) && Calm(steps)
    requires AllReturned(Run(s, steps))
    ensures forall p, r :: Temp(p, r) !in Run(s, steps).dir.names
    decreases |steps|
  {
    if steps == [] {
      forall p, r ensures Temp(p, r) !in s.dir.names {
        assert AllReturned(s) && !Cares(s, p, r);
      }
    } else {
      TempsOwnedNext(s, steps[0]);
      Keeps(s, steps[0]);
      assert forall i | 0 <= i < |steps[1..]| :: steps[1..][i] == steps[i + 1];
      assert Run(s, steps) == Run(Next(s, steps[0]), steps[1..]);
      NoTemporaryFileStays(Next(s, steps[0]), steps[1..]);
    }
  }

  // ---- why the contents are flushed before the rename ----

  /** Were a full file renamed before it was flushed, a crash could leave anything at the path. */
  lemma WithoutTheFlushAnythingMayBeLeft(s: State, k: nat, torn: Bytes)
    requires Inv(s) && Enabled(s, Fsync(k))
    ensures var unflushed := InPhase(s, k, Synced(s.calls[k].phase.inode));
      && Enabled(unflushed, Rename(k))
      && var renamed := Next(unflushed, Rename(k));
      exists names, inodes :: Enabled(renamed, Crash(names, inodes))
        && ReadAt(Next(renamed, Crash(names, inodes)), s.calls[k].path) == Some(torn)
  {
    var c := s.calls[k];
    assert Private(c, s.dir.names, s.inodes);
    var renamed := Next(InPhase(s, k, Synced(c.phase.inode)), Rename(k));
    var inodes := map i | i in renamed.inodes ::
      if i == c.phase.inode then renamed.inodes[i].(data := torn, flushed := true)
      else renamed.inodes[i].(flushed := true);
    assert Enabled(renamed, Crash(renamed.dir.names, inodes));
  }
}
