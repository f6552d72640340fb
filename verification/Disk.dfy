/**
 A directory on a disk with a cache. What programs see is in `names`; `earlier` holds, for each
 name changed since the directory was last flushed, what a crash may bring back.
 */
module Directory {
  import opened Wrappers

  datatype Dir<K(==), V(==)> = Dir(names: map<K, V>, earlier: map<K, set<Option<V>>>)

  function Entry<K, V>(names: map<K, V>, name: K): Option<V> {
    if name in names then Some(names[name]) else None
  }

  /** Whether a crash may leave this at the name. */
  predicate MaySurvive<K, V(==)>(d: Dir<K, V>, name: K, v: Option<V>) {
    v == Entry(d.names, name) || (name in d.earlier && v in d.earlier[name])
  }

  function SetEntry<K, V>(d: Dir<K, V>, name: K, v: Option<V>): Dir<K, V> {
    var was := (if name in d.earlier then d.earlier[name] else {}) + {Entry(d.names, name)};
    Dir(if v.Some? then d.names[name := v.value] else d.names - {name}, d.earlier[name := was])
  }

  function Flushed<K, V>(d: Dir<K, V>): Dir<K, V> {
    d.(earlier := map[])
  }

  /** A crash: every name keeps one of the things it may have, each on its own. */
  ghost predicate CrashTo<K(!new), V>(d: Dir<K, V>, names: map<K, V>) {
    forall name :: MaySurvive(d, name, Entry(names, name))
  }
}

/**
 The atomic write, as the steps it takes on such a disk. Any number of calls run at once, on any
 files of the directory; each step may fail, and the power may go at any moment.
 */
module Disk {
  import opened Wrappers
  import opened Directory

  type Bytes = seq<bv8>

  /** The name of a file, or of the temporary one a call makes beside it. */
  datatype Name = Real(path: string) | Temp(path: string, random: nat)

  /** What a file holds, whether all of it is on the disk, and its place among the renames, once it has one. */
  datatype Inode = Inode(data: Bytes, flushed: bool, rank: Option<nat>)

  datatype Phase =
    | Starting
    | Filling(inode: nat)
    | Synced(inode: nat)
    | Renamed(rank: nat)
    | Failing
    | Returned(ok: bool, rank: nat)

  datatype Call = Call(path: string, bytes: Bytes, random: nat, phase: Phase)

  /** History of the run: what was asked to be where, the random names used, and the flushed renames. */
  datatype Past = Past(asked: set<(string, Bytes)>, randoms: set<nat>, settled: map<string, nat>)

  datatype State = State(
    dir: Dir<Name, nat>,
    inodes: map<nat, Inode>,
    calls: map<nat, Call>,
    renames: seq<(string, Bytes)>,
    past: Past)

  datatype Step =
    | Ask(k: nat, path: string, bytes: Bytes, random: nat)
    | Create(k: nat, inode: nat)
    | Append(k: nat, count: nat)
    | Fsync(k: nat)
    | Rename(k: nat)
    | FlushDir(k: nat, works: bool)
    | Fail(k: nat)
    | RemoveTemp(k: nat, works: bool)
    | Crash(names: map<Name, nat>, inodes: map<nat, Inode>)

  predicate Full(s: State, c: Call) {
    c.phase.Filling? && c.phase.inode in s.inodes && s.inodes[c.phase.inode].data == c.bytes
  }

  /** What a crash may leave of the files: all of one that was flushed, anything of another. */
  ghost predicate Left(before: map<nat, Inode>, after: map<nat, Inode>) {
    && before.Keys == after.Keys
    && (forall i | i in before ::
          after[i].flushed && after[i].rank == before[i].rank && (before[i].flushed ==> after[i].data == before[i].data))
  }

  ghost predicate Enabled(s: State, step: Step) {
    match step
    case Ask(k, path, bytes, random) => k !in s.calls && random !in s.past.randoms
    case Create(k, i) => k in s.calls && s.calls[k].phase.Starting? && i !in s.inodes
    case Append(k, count) =>
      k in s.calls && s.calls[k].phase.Filling? && s.calls[k].phase.inode in s.inodes
      && |s.inodes[s.calls[k].phase.inode].data| + count <= |s.calls[k].bytes|
    case Fsync(k) => k in s.calls && Full(s, s.calls[k])
    case Rename(k) => k in s.calls && s.calls[k].phase.Synced? && TempOf(s.calls[k]) in s.dir.names
    case FlushDir(k, works) => k in s.calls && s.calls[k].phase.Renamed?
    case Fail(k) => k in s.calls && (s.calls[k].phase.Starting? || s.calls[k].phase.Filling? || s.calls[k].phase.Synced?)
    case RemoveTemp(k, works) => k in s.calls && s.calls[k].phase.Failing?
    case Crash(names, inodes) => CrashTo(s.dir, names) && Left(s.inodes, inodes)
  }

  function TempOf(c: Call): Name {
    Temp(c.path, c.random)
  }

  function InPhase(s: State, k: nat, phase: Phase): State
    requires k in s.calls
  {
    s.(calls := s.calls[k := s.calls[k].(phase := phase)])
  }

  function Renaming(s: State, k: nat): State
    requires k in s.calls && s.calls[k].phase.Synced? && TempOf(s.calls[k]) in s.dir.names
  {
    var c := s.calls[k];
    var i := s.dir.names[TempOf(c)];
    var moved := SetEntry(SetEntry(s.dir, Real(c.path), Some(i)), TempOf(c), None);
    var ranked := if i in s.inodes then s.inodes[i := s.inodes[i].(rank := Some(|s.renames|))] else s.inodes;
    InPhase(s, k, Renamed(|s.renames|)).(dir := moved, inodes := ranked, renames := s.renames + [(c.path, c.bytes)])
  }

  /** The rank of what is at the path now: what the flush of the directory makes sure of. */
  function SettledNow(s: State): map<string, nat> {
    map p | p in PathsOf(s.dir.names) && s.dir.names[Real(p)] in s.inodes
            && s.inodes[s.dir.names[Real(p)]].rank.Some?
      :: s.inodes[s.dir.names[Real(p)]].rank.value
  }

  function PathsOf(names: map<Name, nat>): set<string> {
    set n | n in names && n.Real? :: n.path
  }

  function Next(s: State, step: Step): State
    requires Enabled(s, step)
  {
    match step
    case Ask(k, path, bytes, random) =>
      s.(calls := s.calls[k := Call(path, bytes, random, Starting)],
         past := s.past.(asked := s.past.asked + {(path, bytes)}, randoms := s.past.randoms + {random}))
    case Create(k, i) =>
      InPhase(s, k, Filling(i)).(
        dir := SetEntry(s.dir, TempOf(s.calls[k]), Some(i)),
        inodes := s.inodes[i := Inode([], false, None)])
    case Append(k, count) =>
      var c := s.calls[k];
      var have := |s.inodes[c.phase.inode].data|;
      s.(inodes := s.inodes[c.phase.inode := Inode(c.bytes[..have + count], false, None)])
    case Fsync(k) =>
      var i := s.calls[k].phase.inode;
      InPhase(s, k, Synced(i)).(inodes := s.inodes[i := s.inodes[i].(flushed := true)])
    case Rename(k) => Renaming(s, k)
    case FlushDir(k, works) =>
      var done := InPhase(s, k, Returned(true, s.calls[k].phase.rank));
      if works then done.(dir := Flushed(s.dir), past := s.past.(settled := SettledNow(s))) else done
    case Fail(k) => InPhase(s, k, Failing)
    case RemoveTemp(k, works) =>
      var done := InPhase(s, k, Returned(false, 0));
      if works && TempOf(s.calls[k]) in s.dir.names then
        done.(dir := SetEntry(s.dir, TempOf(s.calls[k]), None))
      else done
    case Crash(names, inodes) => s.(dir := Dir(names, map[]), inodes := inodes, calls := map[])
  }

  ghost predicate CanRun(s: State, steps: seq<Step>)
    decreases |steps|
  {
    steps == [] || (Enabled(s, steps[0]) && CanRun(Next(s, steps[0]), steps[1..]))
  }

  ghost function Run(s: State, steps: seq<Step>): State
    requires CanRun(s, steps)
    decreases |steps|
  {
    if steps == [] then s else Run(Next(s, steps[0]), steps[1..])
  }
}
