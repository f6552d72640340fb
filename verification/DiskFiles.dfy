/**
 The atomic writes seen from outside: a directory whose files change whole, in one step. What goes
 on with inodes, temporary names and flushes refines it.
 */
module DiskFiles {
  import opened Wrappers
  import opened Directory
  import opened Disk
  import opened DiskInvariant

  type Files = Dir<string, Bytes>

  function Content(inodes: map<nat, Inode>, v: Option<nat>): Option<Bytes> {
    if v.Some? && v.value in inodes then Some(inodes[v.value].data) else None
  }

  function Contents(inodes: map<nat, Inode>, vs: set<Option<nat>>): set<Option<Bytes>> {
    set v | v in vs :: Content(inodes, v)
  }

  function NamesOf(dir: Dir<Name, nat>, inodes: map<nat, Inode>): map<string, Bytes> {
    map p | p in PathsOf(dir.names) && Content(inodes, Entry(dir.names, Real(p))).Some?
      :: Content(inodes, Entry(dir.names, Real(p))).value
  }

  function EarlierPaths(dir: Dir<Name, nat>): set<string> {
    set n | n in dir.earlier && n.Real? :: n.path
  }

  function EarlierOf(dir: Dir<Name, nat>, inodes: map<nat, Inode>): map<string, set<Option<Bytes>>> {
    map p | p in EarlierPaths(dir) && Real(p) in dir.earlier :: Contents(inodes, dir.earlier[Real(p)])
  }

  function FilesOf(dir: Dir<Name, nat>, inodes: map<nat, Inode>): Files {
    Dir(NamesOf(dir, inodes), EarlierOf(dir, inodes))
  }

  lemma EntryOf(dir: Dir<Name, nat>, inodes: map<nat, Inode>, p: string)
    ensures Entry(NamesOf(dir, inodes), p) == Content(inodes, Entry(dir.names, Real(p)))
  {
    if Real(p) in dir.names {
      assert Real(p).path in PathsOf(dir.names);
    }
  }

  lemma EarlierAt(dir: Dir<Name, nat>, inodes: map<nat, Inode>, p: string)
    ensures p in EarlierOf(dir, inodes) <==> Real(p) in dir.earlier
    ensures Real(p) in dir.earlier ==> EarlierOf(dir, inodes)[p] == Contents(inodes, dir.earlier[Real(p)])
  {
    if Real(p) in dir.earlier {
      assert Real(p).path in EarlierPaths(dir);
    }
  }

  ghost predicate SameEntries(a: Dir<Name, nat>, b: Dir<Name, nat>) {
    && (forall p :: Entry(a.names, Real(p)) == Entry(b.names, Real(p)))
    && (forall p :: Entry(a.earlier, Real(p)) == Entry(b.earlier, Real(p)))
  }

  ghost predicate SameContent(a: Dir<Name, nat>, i: map<nat, Inode>, j: map<nat, Inode>) {
    forall p, v :: MaySurvive(a, Real(p), v) ==> Content(i, v) == Content(j, v)
  }

  /** Two directories whose files may be left alike look the same. */
  lemma SameFiles(a: Dir<Name, nat>, i: map<nat, Inode>, b: Dir<Name, nat>, j: map<nat, Inode>)
    requires SameEntries(a, b) && SameContent(a, i, j)
    ensures FilesOf(a, i) == FilesOf(b, j)
  {
    forall p ensures Entry(NamesOf(a, i), p) == Entry(NamesOf(b, j), p) {
      EntryOf(a, i, p);
      EntryOf(b, j, p);
      assert MaySurvive(a, Real(p), Entry(a.names, Real(p)));
    }
    EntriesMakeTheMap(NamesOf(a, i), NamesOf(b, j));
    forall p ensures Entry(EarlierOf(a, i), p) == Entry(EarlierOf(b, j), p) {
      SameEarlierAt(a, i, b, j, p);
    }
    EntriesMakeTheMap(EarlierOf(a, i), EarlierOf(b, j));
  }

  lemma SameEarlierAt(a: Dir<Name, nat>, i: map<nat, Inode>, b: Dir<Name, nat>, j: map<nat, Inode>, p: string)
    requires Entry(a.earlier, Real(p)) == Entry(b.earlier, Real(p)) && SameContent(a, i, j)
    ensures Entry(EarlierOf(a, i), p) == Entry(EarlierOf(b, j), p)
  {
    EarlierAt(a, i, p);
    EarlierAt(b, j, p);
    if Real(p) in a.earlier {
      assert Entry(b.earlier, Real(p)) == Some(a.earlier[Real(p)]);
      forall v | v in a.earlier[Real(p)] ensures Content(i, v) == Content(j, v) {
        assert MaySurvive(a, Real(p), v);
      }
      SameContents(i, j, a.earlier[Real(p)]);
    }
  }

  lemma EntriesMakeTheMap<V>(f: map<string, V>, g: map<string, V>)
    requires forall p :: Entry(f, p) == Entry(g, p)
    ensures f == g
  {
    forall p ensures p in f <==> p in g
      ensures p in f ==> f[p] == g[p]
    {
      assert Entry(f, p) == Entry(g, p);
    }
  }

  lemma SameContents(i: map<nat, Inode>, j: map<nat, Inode>, vs: set<Option<nat>>)
    requires forall v | v in vs :: Content(i, v) == Content(j, v)
    ensures Contents(i, vs) == Contents(j, vs)
  {
    forall c ensures c in Contents(i, vs) <==> c in Contents(j, vs) {
      if c in Contents(i, vs) {
        var v :| v in vs && Content(i, v) == c;
        assert Content(j, v) == c;
      }
      if c in Contents(j, vs) {
        var v :| v in vs && Content(j, v) == c;
        assert Content(i, v) == c;
      }
    }
  }

  function Seen(s: State): Files {
    FilesOf(s.dir, s.inodes)
  }

  /** What a step is, seen from outside. */
  ghost predicate SeenStep(before: Files, step: Step, s: State, after: Files)
    requires Enabled(s, step)
  {
    match step
    case Rename(k) => after == SetEntry(before, s.calls[k].path, Some(s.calls[k].bytes))
    case FlushDir(k, works) => after == if works then Flushed(before) else before
    case Crash(_, _) => CrashTo(before, after.names) && after.earlier == map[]
    case _ => after == before
  }

  /** Every step of the atomic writes is one whole step on the files, or none. */
  lemma Refines(s: State, step: Step)
    requires Inv(s) && Enabled(s, step)
    ensures SeenStep(Seen(s), step, s, Seen(Next(s, step)))
  {
    match step
    case Rename(k) => RenameRefines(s, k);
    case FlushDir(k, works) =>
      if works {
        FlushRefines(s, k);
      }
    case Crash(names, inodes) => CrashRefines(s, names, inodes);
    case _ => QuietRefines(s, step);
  }

  lemma QuietRefines(s: State, step: Step)
    requires Inv(s) && Enabled(s, step) && !step.Rename? && !step.FlushDir? && !step.Crash?
    ensures Seen(Next(s, step)) == Seen(s)
  {
    var after := Next(s, step);
    forall p, v | MaySurvive(s.dir, Real(p), v) ensures Content(s.inodes, v) == Content(after.inodes, v) {
      assert Whole(s.inodes, s.renames, s.past.settled, p, v);
      if step.Append? {
        assert Private(s.calls[step.k], s.dir.names, s.inodes);
      }
    }
    assert SameEntries(s.dir, after.dir);
    SameFiles(s.dir, s.inodes, after.dir, after.inodes);
  }

  lemma FlushRefines(s: State, k: nat)
    requires Enabled(s, FlushDir(k, true))
    ensures Seen(Next(s, FlushDir(k, true))) == Flushed(Seen(s))
  {
    assert EarlierOf(Flushed(s.dir), s.inodes) == map[];
  }

  lemma CrashRefines(s: State, names: map<Name, nat>, inodes: map<nat, Inode>)
    requires Inv(s) && Enabled(s, Crash(names, inodes))
    ensures CrashTo(Seen(s), Seen(Next(s, Crash(names, inodes))).names)
    ensures Seen(Next(s, Crash(names, inodes))).earlier == map[]
  {
    var after := Next(s, Crash(names, inodes));
    forall p ensures MaySurvive(Seen(s), p, Entry(Seen(after).names, p)) {
      var v := Entry(names, Real(p));
      assert MaySurvive(s.dir, Real(p), v);
      assert Whole(s.inodes, s.renames, s.past.settled, p, v);
      EntryOf(after.dir, inodes, p);
      EntryOf(s.dir, s.inodes, p);
      EarlierAt(s.dir, s.inodes, p);
      assert Content(inodes, v) == Content(s.inodes, v);
      if v != Entry(s.dir.names, Real(p)) {
        assert v in s.dir.earlier[Real(p)];
        assert Content(s.inodes, v) in Contents(s.inodes, s.dir.earlier[Real(p)]);
      }
    }
  }

  lemma RenameRefines(s: State, k: nat)
    requires Inv(s) && Enabled(s, Rename(k))
    ensures Seen(Next(s, Rename(k))) == SetEntry(Seen(s), s.calls[k].path, Some(s.calls[k].bytes))
  {
    var c, after := s.calls[k], Next(s, Rename(k));
    assert Private(c, s.dir.names, s.inodes);
    var placed := SetEntry(s.dir, Real(c.path), Some(c.phase.inode));
    assert after.dir == SetEntry(placed, TempOf(c), None);
    assert forall v :: Content(after.inodes, v) == Content(s.inodes, v);
    SameFiles(after.dir, after.inodes, placed, s.inodes);
    PlacedAt(s.dir, s.inodes, c.path, Some(c.phase.inode));
  }

  /** Changing what is at a path changes that one file, and nothing else. */
  lemma PlacedAt(dir: Dir<Name, nat>, inodes: map<nat, Inode>, path: string, v: Option<nat>)
    ensures FilesOf(SetEntry(dir, Real(path), v), inodes) == SetEntry(FilesOf(dir, inodes), path, Content(inodes, v))
  {
    var placed := SetEntry(dir, Real(path), v);
    var want := SetEntry(FilesOf(dir, inodes), path, Content(inodes, v));
    forall p ensures Entry(NamesOf(placed, inodes), p) == Entry(want.names, p) {
      PlacedEntry(dir, inodes, path, v, p);
    }
    EntriesMakeTheMap(NamesOf(placed, inodes), want.names);
    forall p ensures Entry(EarlierOf(placed, inodes), p) == Entry(want.earlier, p) {
      PlacedEarlier(dir, inodes, path, v, p);
    }
    EntriesMakeTheMap(EarlierOf(placed, inodes), want.earlier);
  }

  lemma PlacedEntry(dir: Dir<Name, nat>, inodes: map<nat, Inode>, path: string, v: Option<nat>, p: string)
    ensures Entry(NamesOf(SetEntry(dir, Real(path), v), inodes), p)
         == Entry(SetEntry(FilesOf(dir, inodes), path, Content(inodes, v)).names, p)
  {
    EntryOf(SetEntry(dir, Real(path), v), inodes, p);
    EntryOf(dir, inodes, p);
  }

  lemma PlacedEarlier(dir: Dir<Name, nat>, inodes: map<nat, Inode>, path: string, v: Option<nat>, p: string)
    ensures Entry(EarlierOf(SetEntry(dir, Real(path), v), inodes), p)
         == Entry(SetEntry(FilesOf(dir, inodes), path, Content(inodes, v)).earlier, p)
  {
    var placed := SetEntry(dir, Real(path), v);
    EarlierAt(placed, inodes, p);
    EarlierAt(dir, inodes, p);
    if p == path {
      EntryOf(dir, inodes, p);
      var was := if Real(p) in dir.earlier then dir.earlier[Real(p)] else {};
      ContentsOfOneMore(inodes, was, Entry(dir.names, Real(p)));
      assert Contents(inodes, {}) == {};
    }
  }

  lemma ContentsOfOneMore(i: map<nat, Inode>, vs: set<Option<nat>>, v: Option<nat>)
    ensures Contents(i, vs + {v}) == Contents(i, vs) + {Content(i, v)}
  {
  }
}
