/** The clones of a client: a counter of them, and the last one to go closes the connection. */
module ConnectionClones {
  /** The live clones, the counter that stands for them, and whether the task was asked to close. */
  datatype Clones = Clones(live: set<nat>, handles: int, shutdown: bool)

  datatype CloneStep = CloneOf(parent: nat, child: nat) | DropOf(client: nat) | CloseBy(client: nat, isClosed: bool)

  predicate CanClone(c: Clones, step: CloneStep) {
    match step
    case CloneOf(parent, child) => parent in c.live && child !in c.live
    case DropOf(client) => client in c.live
    case CloseBy(client, isClosed) => client in c.live
  }

  function CloneNext(c: Clones, step: CloneStep): Clones
    requires CanClone(c, step)
  {
    match step
    case CloneOf(parent, child) => c.(live := c.live + {child}, handles := c.handles + 1)
    case DropOf(client) =>
      c.(live := c.live - {client}, handles := c.handles - 1, shutdown := c.shutdown || c.handles == 1)
    case CloseBy(client, isClosed) => if isClosed then c else c.(shutdown := true)
  }

  predicate CanCloneAll(c: Clones, steps: seq<CloneStep>)
    decreases |steps|
  {
    steps == [] || (CanClone(c, steps[0]) && CanCloneAll(CloneNext(c, steps[0]), steps[1..]))
  }

  function CloneAll(c: Clones, steps: seq<CloneStep>): Clones
    requires CanCloneAll(c, steps)
    decreases |steps|
  {
    if steps == [] then c else CloneAll(CloneNext(c, steps[0]), steps[1..])
  }

  predicate AskedToClose(step: CloneStep) {
    step.CloseBy? && !step.isClosed
  }

  /**
     The counter is the number of live clones, and the connection is asked to close exactly by a close or
     by the last drop.
  */
  lemma {:induction false} TheLastCloneCloses(c: Clones, steps: seq<CloneStep>)
    requires c.handles == |c.live| && CanCloneAll(c, steps) && (c.live == {} ==> c.shutdown)
    ensures var after := CloneAll(c, steps);
      && after.handles == |after.live|
      && (after.shutdown <==> c.shutdown || after.live == {} || exists i :: 0 <= i < |steps| && AskedToClose(steps[i]))
    decreases |steps|
  {
    if steps == [] {
    } else {
      var step, rest := steps[0], steps[1..];
      var next := CloneNext(c, step);
      if step.DropOf? {
        assert c.live == next.live + {step.client};
      }
      TheLastCloneCloses(next, rest);
      assert forall i | 0 <= i < |rest| :: rest[i] == steps[i + 1];
      if AskedToClose(step) {
        assert AskedToClose(steps[0]);
      }
      if exists i :: 0 <= i < |steps| && AskedToClose(steps[i]) {
        var i :| 0 <= i < |steps| && AskedToClose(steps[i]);
        assert i > 0 ==> AskedToClose(rest[i - 1]);
      }
    }
  }
}
