/** What every step on a connection keeps, whoever takes it. */
module ConnectionInvariant {
  import opened Wrappers
  import opened Connection

  type Exchanges = seq<Exchange>

  predicate InMap(exchanges: Exchanges, pending: map<Id, nat>, n: nat) {
    n < |exchanges| && exchanges[n].id.Some? && exchanges[n].id.value in pending
    && pending[exchanges[n].id.value] == n
  }

  predicate InHand(task: Task, n: nat) {
    (task.Routing? && task.waiter == n) || (task.Draining? && n in task.waiters)
  }

  predicate Shut(task: Task) {
    task.Swapped? || task.Draining? || task.Ended?
  }

  predicate Drained(task: Task) {
    task.Draining? || task.Ended?
  }

  /** No two exchanges share an identifier, and one has it from registering on. */
  ghost predicate Named(exchanges: Exchanges) {
    && (forall m, n | 0 <= m < n < |exchanges| && exchanges[m].id.Some? :: exchanges[m].id != exchanges[n].id)
    && (forall n | 0 <= n < |exchanges| :: WellNamed(exchanges[n]))
  }

  predicate WellNamed(e: Exchange) {
    && (e.phase.Acquiring? ==> e.id.None?)
    && (e.Listens() || e.phase.Leaving? ==> e.id.Some?)
    && (e.id.None? ==> e.cell.Empty?)
  }

  predicate Unfinished(e: Exchange) {
    !e.phase.Done?
  }

  /** Every waiter of the map belongs to an unfinished exchange that has had no answer. */
  ghost predicate Owned(exchanges: Exchanges, pending: map<Id, nat>) {
    forall id | id in pending ::
      && pending[id] < |exchanges|
      && exchanges[pending[id]].id == Some(id)
      && Unfinished(exchanges[pending[id]])
      && exchanges[pending[id]].cell.Empty?
  }

  /** What the task holds is out of the map and was not resolved; it routes an answer by its own identifier. */
  ghost predicate Held(exchanges: Exchanges, pending: map<Id, nat>, task: Task) {
    && (forall n: nat | InHand(task, n) ::
          n < |exchanges| && exchanges[n].id.Some? && exchanges[n].id.value !in pending && exchanges[n].cell.Empty?)
    && (task.Routing? && task.waiter < |exchanges| ==> exchanges[task.waiter].id == task.envelope.id)
  }

  /** The sending end of an exchange that still listens is never lost. */
  ghost predicate Reachable(exchanges: Exchanges, pending: map<Id, nat>, task: Task) {
    forall n | 0 <= n < |exchanges| && exchanges[n].Listens() && exchanges[n].cell.Empty? ::
      InMap(exchanges, pending, n) || InHand(task, n)
  }

  predicate RightAnswer(result: Result<Envelope, Error>, id: Option<Id>) {
    result.Ok? ==> id.Some? && result.value.id == id
  }

  predicate Truthful(e: Exchange, closed: bool) {
    && (e.cell.Holds? ==> RightAnswer(e.cell.result, e.id) && (e.cell.result.Err? ==> closed && e.cell.result.error.Closed?))
    && (e.phase.Leaving? && e.phase.end.Returned? ==> RightAnswer(e.phase.end.result, e.id))
    && (e.phase.Done? && e.phase.end.Returned? ==> RightAnswer(e.phase.end.result, e.id))
  }

  /** Every answer carries the identifier of the exchange it was given to. */
  ghost predicate Answers(exchanges: Exchanges, closed: bool) {
    forall n | 0 <= n < |exchanges| :: Truthful(exchanges[n], closed)
  }

  /** After the drain only exchanges about to look again, or on their way out, are in the map. */
  ghost predicate Late(exchanges: Exchanges, pending: map<Id, nat>, task: Task) {
    Drained(task) ==>
      forall id | id in pending ::
        pending[id] < |exchanges| && (exchanges[pending[id]].phase.Registered? || exchanges[pending[id]].phase.Leaving?)
  }

  predicate Past(phase: Phase) {
    phase.Awaiting? || phase.Leaving? || phase.Done?
  }

  /** Each request is queued at most once, and never after it gave up. */
  ghost predicate Queued(exchanges: Exchanges, outgoing: Outgoing) {
    && outgoing.taken <= |outgoing.queued| <= outgoing.taken + OUTGOING_QUEUE
    && (forall i | 0 <= i < |outgoing.queued| ::
          outgoing.queued[i] < |exchanges| && Past(exchanges[outgoing.queued[i]].phase))
    && (forall i, j | 0 <= i < j < |outgoing.queued| :: outgoing.queued[i] != outgoing.queued[j])
  }

  /** The disconnection is told once, at the very end. */
  ghost predicate Told(events: seq<Event>, task: Task) {
    && (task.Ended? ==> events != [] && events[|events| - 1].Disconnected?)
    && (forall i | 0 <= i < |events| && events[i].Disconnected? :: task.Ended? && i == |events| - 1)
  }

  ghost predicate Inv(s: State) {
    && Named(s.exchanges)
    && Owned(s.exchanges, s.pending)
    && Held(s.exchanges, s.pending, s.task)
    && Reachable(s.exchanges, s.pending, s.task)
    && Answers(s.exchanges, s.closed)
    && Late(s.exchanges, s.pending, s.task)
    && Queued(s.exchanges, s.outgoing)
    && Told(s.events, s.task)
    && (s.closed <==> Shut(s.task))
  }

  lemma Keeps(s: State, step: Step)
    requires Inv(s) && Enabled(s, step)
    ensures Inv(Next(s, step))
  {
    match step
    case Begin => KeepsBegin(s);
    case Register(n, id, fits) => KeepsRegister(s, n, id, fits);
    case Look(n) => KeepsMoved(s, n, if s.closed then Leaving(Returned(Err(Closed))) else Sending);
    case Queue(n) => KeepsQueue(s, n);
    case FindNoTask(n) => KeepsMoved(s, n, Leaving(Returned(Err(Closed))));
    case Expire(n) => KeepsMoved(s, n, Leaving(Returned(Err(Timeout))));
    case Collect(n) => KeepsMoved(s, n, Leaving(Returned(s.exchanges[n].cell.result)));
    case Cancel(n) => KeepsMoved(s, n, if In(s, n, Acquiring) then Done(Cancelled) else Leaving(Cancelled));
    case Unregister(n) => KeepsUnregister(s, n);
    case Take =>
    case Arrive(envelope) => KeepsArrive(s, envelope);
    case Hand => KeepsResolved(s, s.task.waiter, Ok(s.task.envelope), Idle);
    case Swap(reason) =>
    case Drain => KeepsDrain(s);
    case Refuse(n) => KeepsResolved(s, n, Err(Closed), s.task.(waiters := s.task.waiters - {n}));
    case Publish =>
  }

  lemma KeepsBegin(s: State)
    requires Inv(s)
    ensures Inv(Next(s, Begin))
  {
  }

  lemma KeepsRegister(s: State, n: nat, id: Id, fits: bool)
    requires Inv(s) && Enabled(s, Register(n, id, fits))
    ensures Inv(Next(s, Register(n, id, fits)))
  {
    if fits {
      EnteredIsNamed(s, n, id);
      EnteredIsOwned(s, n, id);
      EnteredIsHeld(s, n, id);
    } else {
      KeepsUnwritten(s, n);
    }
  }

  lemma KeepsUnwritten(s: State, n: nat)
    requires Inv(s) && In(s, n, Acquiring)
    ensures Inv(Moved(s, n, Done(Returned(Err(Protocol)))))
  {
  }

  lemma EnteredIsNamed(s: State, n: nat, id: Id)
    requires Named(s.exchanges) && In(s, n, Acquiring) && Fresh(s, id)
    ensures Named(s.exchanges[n := Exchange(Some(id), Registered, Empty)])
  {
  }

  lemma EnteredIsOwned(s: State, n: nat, id: Id)
    requires Named(s.exchanges) && Owned(s.exchanges, s.pending) && In(s, n, Acquiring) && Fresh(s, id)
    ensures Owned(s.exchanges[n := Exchange(Some(id), Registered, Empty)], s.pending[id := n])
  {
  }

  lemma EnteredIsHeld(s: State, n: nat, id: Id)
    requires Named(s.exchanges) && Owned(s.exchanges, s.pending) && Held(s.exchanges, s.pending, s.task)
    requires Reachable(s.exchanges, s.pending, s.task) && In(s, n, Acquiring) && Fresh(s, id)
    ensures Held(s.exchanges[n := Exchange(Some(id), Registered, Empty)], s.pending[id := n], s.task)
    ensures Reachable(s.exchanges[n := Exchange(Some(id), Registered, Empty)], s.pending[id := n], s.task)
  {
    var after := s.exchanges[n := Exchange(Some(id), Registered, Empty)];
    forall m: nat | m < |after| && after[m].Listens() && after[m].cell.Empty?
      ensures InMap(after, s.pending[id := n], m) || InHand(s.task, m)
    {
      if m != n {
        assert InMap(s.exchanges, s.pending, m) || InHand(s.task, m);
      }
    }
  }

  lemma KeepsMoved(s: State, n: nat, phase: Phase)
    requires Inv(s) && n < |s.exchanges|
    requires (In(s, n, Acquiring) && phase == Done(Cancelled))
          || (In(s, n, Registered) && phase == (if s.closed then Leaving(Returned(Err(Closed))) else Sending))
          || ((In(s, n, Sending) || In(s, n, Awaiting)) && phase.Leaving?)
    requires phase.Leaving? && phase.end.Returned? ==> RightAnswer(phase.end.result, s.exchanges[n].id)
    ensures Inv(Moved(s, n, phase))
  {
  }

  lemma KeepsQueue(s: State, n: nat)
    requires Inv(s) && Enabled(s, Queue(n))
    ensures Inv(Next(s, Queue(n)))
  {
    MovedKeepsNames(s.exchanges, n, Awaiting);
    QueuedOneMore(s.exchanges, s.outgoing, n);
    MovedIsHeld(s, n, Awaiting, s.pending);
  }

  lemma QueuedOneMore(exchanges: Exchanges, outgoing: Outgoing, n: nat)
    requires Queued(exchanges, outgoing) && n < |exchanges| && exchanges[n].phase.Sending?
    requires |outgoing.queued| < outgoing.taken + OUTGOING_QUEUE
    ensures Queued(exchanges[n := exchanges[n].(phase := Awaiting)], outgoing.(queued := outgoing.queued + [n]))
  {
  }

  lemma KeepsUnregister(s: State, n: nat)
    requires Inv(s) && Enabled(s, Unregister(n))
    ensures Inv(Next(s, Unregister(n)))
  {
    MovedKeepsNames(s.exchanges, n, Done(s.exchanges[n].phase.end));
    UnregisteredIsOwned(s, n);
    MovedIsHeld(s, n, Done(s.exchanges[n].phase.end), s.pending - {s.exchanges[n].id.value});
  }

  /** The exchange goes on; its waiter may leave the map once it no longer listens. */
  lemma MovedIsHeld(s: State, n: nat, phase: Phase, pending: map<Id, nat>)
    requires Named(s.exchanges) && Held(s.exchanges, s.pending, s.task) && Reachable(s.exchanges, s.pending, s.task)
    requires n < |s.exchanges| && s.exchanges[n].id.Some?
    requires (pending == s.pending && s.exchanges[n].Listens())
          || (phase.Done? && pending == s.pending - {s.exchanges[n].id.value})
    ensures Held(Moved(s, n, phase).exchanges, pending, s.task)
    ensures Reachable(Moved(s, n, phase).exchanges, pending, s.task)
  {
    var after := Moved(s, n, phase).exchanges;
    forall m: nat | m < |after| && after[m].Listens() && after[m].cell.Empty?
      ensures InMap(after, pending, m) || InHand(s.task, m)
    {
      assert InMap(s.exchanges, s.pending, m) || InHand(s.task, m);
    }
  }

  lemma MovedKeepsNames(exchanges: Exchanges, n: nat, phase: Phase)
    requires Named(exchanges) && n < |exchanges| && exchanges[n].id.Some?
    requires !phase.Acquiring?
    ensures Named(exchanges[n := exchanges[n].(phase := phase)])
  {
  }

  lemma UnregisteredIsOwned(s: State, n: nat)
    requires Named(s.exchanges) && Owned(s.exchanges, s.pending) && Enabled(s, Unregister(n))
    ensures Owned(Next(s, Unregister(n)).exchanges, Next(s, Unregister(n)).pending)
  {
    var after := Next(s, Unregister(n));
    forall id | id in after.pending ensures after.pending[id] != n {
      assert s.pending[id] == after.pending[id];
    }
  }

  lemma KeepsArrive(s: State, envelope: Envelope)
    requires Inv(s) && s.task.Idle?
    ensures Inv(Arrived(s, envelope))
  {
  }

  lemma KeepsResolved(s: State, n: nat, result: Result<Envelope, Error>, task: Task)
    requires Inv(s) && InHand(s.task, n)
    requires (s.task.Routing? && task.Idle? && result == Ok(s.task.envelope))
          || (s.task.Draining? && task == s.task.(waiters := s.task.waiters - {n}) && result == Err(Closed))
    ensures Inv(Resolved(s, n, result).(task := task))
  {
    ResolvedIsNamed(s, n, result);
    ResolvedIsHeld(s, n, result, task);
  }

  predicate Rest(before: Task, n: nat, after: Task) {
    (before.Routing? && after.Idle?) || (before.Draining? && after == before.(waiters := before.waiters - {n}))
  }

  lemma ResolvedIsHeld(s: State, n: nat, result: Result<Envelope, Error>, task: Task)
    requires Held(s.exchanges, s.pending, s.task) && Reachable(s.exchanges, s.pending, s.task)
    requires InHand(s.task, n) && Rest(s.task, n, task)
    ensures Held(Resolved(s, n, result).exchanges, s.pending, task)
    ensures Reachable(Resolved(s, n, result).exchanges, s.pending, task)
  {
    var after := Resolved(s, n, result).exchanges;
    assert forall m: nat | InHand(task, m) :: InHand(s.task, m) && m != n;
    forall m: nat | m < |after| && after[m].Listens() && after[m].cell.Empty?
      ensures InMap(after, s.pending, m) || InHand(task, m)
    {
      assert s.exchanges[m] == after[m];
      assert InMap(s.exchanges, s.pending, m) || InHand(s.task, m);
    }
  }

  lemma ResolvedIsNamed(s: State, n: nat, result: Result<Envelope, Error>)
    requires Named(s.exchanges) && n < |s.exchanges| && s.exchanges[n].id.Some?
    ensures Named(Resolved(s, n, result).exchanges)
  {
  }

  lemma KeepsDrain(s: State)
    requires Inv(s) && s.task.Swapped?
    ensures Inv(Next(s, Drain))
  {
  }

  lemma {:induction false} EveryRunKeeps(s: State, steps: seq<Step>)
    requires Inv(s) && CanRun(s, steps)
    ensures Inv(Run(s, steps))
    decreases |steps|
  {
    if steps != [] {
      Keeps(s, steps[0]);
      EveryRunKeeps(Next(s, steps[0]), steps[1..]);
    }
  }
}
