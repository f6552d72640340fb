/**
 The object behind all the clones: its fields, and one method for each operation that reaches the
 map of waiters or the closed flag.
 */
module ConnectionEntity {
  import opened Wrappers
  import opened Connection
  import opened ConnectionInvariant
  import opened ConnectionTheorems
  import opened ConnectionClones

  lemma FinishedIsInv(s: State, reason: Reason)
    requires Inv(s) && s.task.Idle? && !s.closed
    ensures Inv(Finished(s, reason))
  {
    var steps := FinishingAtOnce(s, reason);
    EveryRunKeeps(s, steps);
  }

  class Shared {
    var exchanges: seq<Exchange>
    var pending: map<Id, nat>
    var closed: bool
    var task: Task
    var outgoing: Outgoing
    var events: seq<Event>
    var handles: int
    var shutdown: bool
    ghost var live: set<nat>

    ghost function Model(): State
      reads this
    {
      State(exchanges, pending, closed, task, outgoing, events)
    }

    /** Between the steps of others: the invariants hold, and the task of the socket holds no waiter. */
    ghost predicate Valid()
      reads this
    {
      Inv(Model()) && (task.Idle? || task.Ended?)
    }

    ghost function Clients(): Clones
      reads this
    {
      Clones(live, handles, shutdown)
    }

    constructor ()
      ensures Model() == INITIAL && Clients() == Clones({0}, 1, false) && Valid()
    {
      handles, shutdown, live := 1, false, {0};
      exchanges, pending, closed, task, outgoing, events := [], map[], false, Idle, Outgoing([], 0), [];
    }

    /** The first look at the flag. */
    method Start() returns (n: nat)
      requires Valid()
      modifies this`exchanges
      ensures Model() == Next(old(Model()), Begin) && n == |old(exchanges)| && Valid()
    {
      Keeps(Model(), Begin);
      n := |exchanges|;
      var phase := if closed then Done(Returned(Err(Closed))) else Acquiring;
      exchanges := exchanges + [Exchange(None, phase, Empty)];
    }

    /** Puts the waiter in the map, unless the request could not be written as text. */
    method Enter(n: nat, id: Id, fits: bool)
      requires Valid() && Enabled(Model(), Register(n, id, fits))
      modifies this`exchanges, this`pending
      ensures Model() == Next(old(Model()), Register(n, id, fits)) && Valid()
    {
      Keeps(Model(), Register(n, id, fits));
      if !fits {
        SetPhase(n, Done(Returned(Err(Protocol))));
        return;
      }
      exchanges := exchanges[n := Exchange(Some(id), Registered, Empty)];
      pending := pending[id := n];
    }

    method SetPhase(n: nat, phase: Phase)
      requires n < |exchanges|
      modifies this`exchanges
      ensures Model() == Moved(old(Model()), n, phase)
    {
      exchanges := exchanges[n := exchanges[n].(phase := phase)];
    }

    /** The second look at the flag, once the waiter is in the map. */
    method LookAgain(n: nat)
      requires Valid() && In(Model(), n, Registered)
      modifies this`exchanges
      ensures Model() == Next(old(Model()), Look(n)) && Valid()
    {
      Keeps(Model(), Look(n));
      if closed {
        SetPhase(n, Leaving(Returned(Err(Closed))));
      } else {
        SetPhase(n, Sending);
      }
    }

    /** The drop guard, which also runs when the exchange is cancelled. */
    method Guard(n: nat)
      requires Valid() && Enabled(Model(), Unregister(n))
      modifies this`exchanges, this`pending
      ensures Model() == Next(old(Model()), Unregister(n)) && Valid()
    {
      Keeps(Model(), Unregister(n));
      pending := pending - {exchanges[n].id.value};
      SetPhase(n, Done(exchanges[n].phase.end));
    }

    method Send(n: nat, result: Result<Envelope, Error>)
      modifies this`exchanges
      ensures Model() == Resolved(old(Model()), n, result)
    {
      if n < |exchanges| && exchanges[n].Listens() {
        exchanges := exchanges[n := exchanges[n].(cell := Holds(result))];
      }
    }

    /** At most one channel is filled, and then no event is told; a heartbeat does neither. */
    method Route(envelope: Envelope)
      requires Valid() && task.Idle?
      modifies this`exchanges, this`pending, this`events
      ensures var taken := Next(old(Model()), Arrive(envelope));
        Model() == if taken.task.Routing? then Next(taken, Hand) else taken
      ensures Valid()
    {
      ghost var taken := Next(Model(), Arrive(envelope));
      Keeps(Model(), Arrive(envelope));
      if taken.task.Routing? {
        Keeps(taken, Hand);
      }
      if envelope.kind == HEARTBEAT_EVENT {
        return;
      }
      if envelope.id.Some? && envelope.id.value in pending {
        var waiter := pending[envelope.id.value];
        pending := pending - {envelope.id.value};
        Send(waiter, Ok(envelope));
        return;
      }
      if envelope.heard {
        events := events + [Heard(envelope)];
      }
    }

    /** The first call empties the map into refusals and tells the end; any later one changes nothing. */
    method Finish(reason: Reason)
      requires Valid()
      modifies this`exchanges, this`pending, this`closed, this`task, this`events
      ensures Model() == Finished(old(Model()), reason) && Valid()
    {
      if closed {
        return;
      }
      FinishedIsInv(Model(), reason);
      closed := true;
      var waiters := pending.Values;
      pending := map[];
      RefuseAll(waiters);
      task := Ended;
      events := events + [Disconnected(reason)];
    }

    /** The drained waiters, in any order. */
    method RefuseAll(waiters: set<nat>)
      modifies this`exchanges
      ensures exchanges == Swept(old(exchanges), waiters)
    {
      var left := waiters;
      while left != {}
        modifies this`exchanges
        invariant left <= waiters && Swept(exchanges, left) == Swept(old(exchanges), waiters)
        decreases |left|
      {
        var n :| n in left;
        ghost var last := exchanges;
        Send(n, Err(Closed));
        assert Swept(exchanges, left - {n}) == Swept(last, left);
        left := left - {n};
      }
      assert Swept(exchanges, {}) == exchanges;
    }

    method CloneClient(ghost parent: nat, ghost child: nat)
      requires CanClone(Clients(), CloneOf(parent, child))
      modifies this`handles, this`live
      ensures Clients() == CloneNext(old(Clients()), CloneOf(parent, child))
    {
      handles := handles + 1;
      live := live + {child};
    }

    method DropClient(ghost client: nat)
      requires CanClone(Clients(), DropOf(client))
      modifies this`handles, this`live, this`shutdown
      ensures Clients() == CloneNext(old(Clients()), DropOf(client))
    {
      var before := handles;
      handles := handles - 1;
      live := live - {client};
      if before == 1 {
        shutdown := true;
      }
    }

    method Close(ghost client: nat)
      requires client in live
      modifies this`shutdown
      ensures Clients() == CloneNext(old(Clients()), CloseBy(client, closed))
    {
      if closed {
        return;
      }
      shutdown := true;
    }
  }

  // ---- retries of a call ----

  datatype Settings = Settings(
    acceptable: bool,
    standardRate: nat, historicalRate: nat,
    connectTimeout: nat, requestTimeout: nat,
    maxRetryWait: nat, retries: nat,
    heartbeat: nat, silence: nat,
    eventCapacity: nat)

  /** Whether the settings can be used. Times are in milliseconds. */
  predicate Usable(c: Settings) {
    && c.acceptable
    && c.standardRate != 0 && c.historicalRate != 0
    && c.connectTimeout != 0 && c.requestTimeout != 0
    && c.maxRetryWait >= 250
    && c.heartbeat != 0 && c.heartbeat < 10_000
    && (c.silence == 0 || c.silence >= c.heartbeat * 2)
    && c.eventCapacity != 0
  }

  /** How one attempt ended; a refusal for the rate may say how many seconds to wait. */
  datatype Attempt = Answer(body: int) | RateLimited(seconds: Option<nat>) | Other(error: int)

  /** The limits of a clamp must be in order: settings that can be used make them so. */
  function Wait(seconds: Option<nat>, longest: nat): (w: nat)
    requires longest >= 250
    ensures 350 <= w <= longest + 100
    ensures seconds.Some? && 250 <= 1000 * seconds.value <= longest ==> w == 1000 * seconds.value + 100
    ensures seconds.None? ==> w == 100 + if longest < 1000 then longest else 1000
    ensures seconds.Some? && 1000 * seconds.value > longest ==> w == longest + 100
    ensures seconds.Some? && 1000 * seconds.value < 250 ==> w == 350
  {
    var asked := 1000 * (if seconds.Some? then seconds.value else 1);
    (if asked < 250 then 250 else if asked > longest then longest else asked) + 100
  }

  /**
   The argument says how each attempt would end. All those before the one returned were refused for
   their rate, each followed by its wait; the one returned was not, unless no retry was left.
   */
  method Call(attempt: nat -> Attempt, c: Settings) returns (result: Attempt, waits: seq<nat>)
    requires Usable(c)
    ensures |waits| <= c.retries && result == attempt(|waits|)
    ensures forall i | 0 <= i < |waits| :: attempt(i).RateLimited? && waits[i] == Wait(attempt(i).seconds, c.maxRetryWait)
    ensures result.RateLimited? ==> |waits| == c.retries
  {
    var retries := 0;
    waits := [];
    while true
      invariant retries == |waits| <= c.retries
      invariant forall i | 0 <= i < |waits| :: attempt(i).RateLimited? && waits[i] == Wait(attempt(i).seconds, c.maxRetryWait)
      decreases c.retries - retries
    {
      result := attempt(retries);
      if result.RateLimited? && retries < c.retries {
        retries := retries + 1;
        waits := waits + [Wait(result.seconds, c.maxRetryWait)];
      } else {
        return;
      }
    }
  }
}
