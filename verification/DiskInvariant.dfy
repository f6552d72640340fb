/** What every step of every atomic write keeps, and what a crash leaves of it. */
module DiskInvariant {
  import opened Wrappers
  import opened Directory
  import opened Disk

  type Renames = seq<(string, Bytes)>

  /** What may be at the path of a file is the whole of something that was renamed there, no older than what was settled. */
  predicate Whole(inodes: map<nat, Inode>, renames: Renames, settled: map<string, nat>, p: string, v: Option<nat>) {
    match v
    case None => p !in settled
    case Some(i) =>
      && i in inodes && inodes[i].flushed && inodes[i].rank.Some?
      && inodes[i].rank.value < |renames| && renames[inodes[i].rank.value] == (p, inodes[i].data)
      && (p in settled ==> settled[p] <= inodes[i].rank.value)
  }

  ghost predicate AllWhole(s: State) {
    forall p, v | MaySurvive(s.dir, Real(p), v) :: Whole(s.inodes, s.renames, s.past.settled, p, v)
  }

  predicate Writing(c: Call) {
    c.phase.Filling? || c.phase.Synced?
  }

  /** The inode of a call that is writing is its own: it is under its temporary name and nowhere else. */
  predicate Private(c: Call, names: map<Name, nat>, inodes: map<nat, Inode>) {
    Writing(c) ==>
      var i := c.phase.inode;
      && i in inodes && inodes[i].rank.None? && inodes[i].data <= c.bytes
      && TempOf(c) in names && names[TempOf(c)] == i
      && (c.phase.Filling? <==> !inodes[i].flushed) && (c.phase.Synced? ==> inodes[i].data == c.bytes)
  }

  /** A call that renamed is at its path, or a later one is. */
  predicate InPlace(c: Call, names: map<Name, nat>, inodes: map<nat, Inode>, renames: Renames) {
    && (c.phase.Renamed? || (c.phase.Returned? && c.phase.ok) ==>
          c.phase.rank < |renames| && renames[c.phase.rank] == (c.path, c.bytes))
    && (c.phase.Renamed? ==>
          && Real(c.path) in names && names[Real(c.path)] in inodes
          && inodes[names[Real(c.path)]].rank.Some? && c.phase.rank <= inodes[names[Real(c.path)]].rank.value)
  }

  ghost predicate CallsOk(s: State) {
    forall k | k in s.calls ::
      && Private(s.calls[k], s.dir.names, s.inodes)
      && InPlace(s.calls[k], s.dir.names, s.inodes, s.renames)
      && s.calls[k].random in s.past.randoms && (s.calls[k].path, s.calls[k].bytes) in s.past.asked
  }

  ghost predicate Apart(calls: map<nat, Call>) {
    forall j, k | j in calls && k in calls && j != k ::
      calls[j].random != calls[k].random
      && (Writing(calls[j]) && Writing(calls[k]) ==> calls[j].phase.inode != calls[k].phase.inode)
  }

  ghost predicate AllAsked(s: State) {
    forall r | 0 <= r < |s.renames| :: s.renames[r] in s.past.asked
  }

  ghost predicate Inv(s: State) {
    AllWhole(s) && CallsOk(s) && Apart(s.calls) && AllAsked(s)
  }

  lemma Keeps(s: State, step: Step)
    requires Inv(s) && Enabled(s, step)
    ensures Inv(Next(s, step))
  {
    match step
    case Ask(k, path, bytes, random) => KeepsAsk(s, k, path, bytes, random);
    case Create(k, i) => KeepsCreate(s, k, i);
    case Append(k, count) => KeepsAppend(s, k, count);
    case Fsync(k) => KeepsFsync(s, k);
    case Rename(k) => KeepsRename(s, k);
    case FlushDir(k, works) => KeepsFlushDir(s, k, works);
    case Fail(k) => KeepsEnd(s, k, Failing);
    case RemoveTemp(k, works) => KeepsRemove(s, k, works);
    case Crash(names, inodes) => KeepsCrash(s, names, inodes);
  }

  lemma KeepsCreate(s: State, k: nat, i: nat)
    requires Inv(s) && Enabled(s, Create(k, i))
    ensures Inv(Next(s, Create(k, i)))
  {
    var after := Next(s, Create(k, i));
    forall p, v | MaySurvive(after.dir, Real(p), v) ensures Whole(after.inodes, after.renames, after.past.settled, p, v) {
      assert MaySurvive(s.dir, Real(p), v);
    }
  }

  lemma KeepsAppend(s: State, k: nat, count: nat)
    requires Inv(s) && Enabled(s, Append(k, count))
    ensures Inv(Next(s, Append(k, count)))
  {
    var after := Next(s, Append(k, count));
    forall p, v | MaySurvive(after.dir, Real(p), v) ensures Whole(after.inodes, after.renames, after.past.settled, p, v) {
      assert MaySurvive(s.dir, Real(p), v);
    }
  }

  lemma KeepsFsync(s: State, k: nat)
    requires Inv(s) && Enabled(s, Fsync(k))
    ensures Inv(Next(s, Fsync(k)))
  {
    var after := Next(s, Fsync(k));
    forall p, v | MaySurvive(after.dir, Real(p), v) ensures Whole(after.inodes, after.renames, after.past.settled, p, v) {
      assert MaySurvive(s.dir, Real(p), v);
    }
  }

  lemma KeepsRename(s: State, k: nat)
    requires Inv(s) && Enabled(s, Rename(k))
    ensures Inv(Next(s, Rename(k)))
  {
    var c, after := s.calls[k], Next(s, Rename(k));
    assert Private(c, s.dir.names, s.inodes);
    forall p, v | MaySurvive(after.dir, Real(p), v) ensures Whole(after.inodes, after.renames, after.past.settled, p, v) {
      RenamedIsWhole(s, k, p, v);
    }
    RenamedCalls(s, k);
  }

  lemma RenamedIsWhole(s: State, k: nat, p: string, v: Option<nat>)
    requires AllWhole(s) && Enabled(s, Rename(k)) && Private(s.calls[k], s.dir.names, s.inodes)
    requires MaySurvive(Renaming(s, k).dir, Real(p), v)
    ensures Whole(Renaming(s, k).inodes, Renaming(s, k).renames, s.past.settled, p, v)
  {
    var c, after := s.calls[k], Renaming(s, k);
    if p == c.path && v == Some(c.phase.inode) {
      assert MaySurvive(s.dir, Real(p), Entry(s.dir.names, Real(p)));
    } else {
      assert MaySurvive(s.dir, Real(p), v);
      assert Whole(s.inodes, s.renames, s.past.settled, p, v);
    }
  }

  lemma RenamedCalls(s: State, k: nat)
    requires CallsOk(s) && Apart(s.calls) && Enabled(s, Rename(k))
    ensures CallsOk(Renaming(s, k)) && Apart(Renaming(s, k).calls)
  {
    var c, after := s.calls[k], Renaming(s, k);
    forall j | j in after.calls
      ensures Private(after.calls[j], after.dir.names, after.inodes)
      ensures InPlace(after.calls[j], after.dir.names, after.inodes, after.renames)
    {
      assert Private(s.calls[j], s.dir.names, s.inodes);
      assert InPlace(s.calls[j], s.dir.names, s.inodes, s.renames);
    }
  }

  lemma KeepsAsk(s: State, k: nat, path: string, bytes: Bytes, random: nat)
    requires Inv(s) && Enabled(s, Ask(k, path, bytes, random))
    ensures Inv(Next(s, Ask(k, path, bytes, random)))
  {
  }

  /** A call that ends, or is about to, has nothing of its own any more. */
  lemma KeepsEnd(s: State, k: nat, phase: Phase)
    requires Inv(s) && k in s.calls
    requires phase.Failing? || (phase.Returned? && (phase.ok ==> s.calls[k].phase.Renamed? && phase.rank == s.calls[k].phase.rank))
    ensures Inv(InPhase(s, k, phase))
  {
  }

  lemma KeepsRemove(s: State, k: nat, works: bool)
    requires Inv(s) && Enabled(s, RemoveTemp(k, works))
    ensures Inv(Next(s, RemoveTemp(k, works)))
  {
    KeepsEnd(s, k, Returned(false, 0));
    var after := Next(s, RemoveTemp(k, works));
    forall p, v | MaySurvive(after.dir, Real(p), v) ensures Whole(after.inodes, after.renames, after.past.settled, p, v) {
      assert MaySurvive(s.dir, Real(p), v);
    }
  }

  lemma KeepsFlushDir(s: State, k: nat, works: bool)
    requires Inv(s) && Enabled(s, FlushDir(k, works))
    ensures Inv(Next(s, FlushDir(k, works)))
  {
    var done := InPhase(s, k, Returned(true, s.calls[k].phase.rank));
    KeepsEnd(s, k, Returned(true, s.calls[k].phase.rank));
    var after := done.(dir := Flushed(s.dir), past := s.past.(settled := SettledNow(s)));
    forall p, v | MaySurvive(after.dir, Real(p), v) ensures Whole(after.inodes, after.renames, after.past.settled, p, v) {
      SettledIsNow(s, p);
    }
  }

  /** What is settled for a path when the directory is flushed is the rank of what is there. */
  lemma SettledIsNow(s: State, p: string)
    requires AllWhole(s)
    ensures var entry := Entry(s.dir.names, Real(p));
      if entry.None? then p !in SettledNow(s)
      else entry.value in s.inodes && Whole(s.inodes, s.renames, SettledNow(s), p, entry)
  {
    assert MaySurvive(s.dir, Real(p), Entry(s.dir.names, Real(p)));
    if Real(p) in s.dir.names {
      assert Real(p).path in PathsOf(s.dir.names);
    }
  }

  lemma KeepsCrash(s: State, names: map<Name, nat>, inodes: map<nat, Inode>)
    requires Inv(s) && Enabled(s, Crash(names, inodes))
    ensures Inv(Next(s, Crash(names, inodes)))
  {
    var after := Next(s, Crash(names, inodes));
    forall p, v | MaySurvive(after.dir, Real(p), v) ensures Whole(after.inodes, after.renames, after.past.settled, p, v) {
      assert v == Entry(names, Real(p));
      assert MaySurvive(s.dir, Real(p), Entry(names, Real(p)));
    }
  }

  lemma {:induction false} EveryRunKeeps(s: State, steps: seq<Step>)
    requires Inv(s) && CanRun(s, steps)
    ensures Inv(Run(s, steps)) && s.past.asked <= Run(s, steps).past.asked
    decreases |steps|
  {
    if steps != [] {
      Keeps(s, steps[0]);
      EveryRunKeeps(Next(s, steps[0]), steps[1..]);
    }
  }
}
