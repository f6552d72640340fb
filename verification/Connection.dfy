/**
 Requests and answers on one connection. Exchanges, their drop guards and the socket task
 act on the same map of waiters and the same closed flag; each step below is one
 access to them, so the steps of any number of exchanges may come in any order between each other.
 */
module Connection {
  import opened Wrappers

  type Id = string

  const HEARTBEAT_EVENT := 51
  const OUTGOING_QUEUE := 256

  /** A message from the server; heard says whether it reads as an event of the library. */
  datatype Envelope = Envelope(kind: nat, id: Option<Id>, heard: bool, body: int)

  datatype Reason = ClosedByClient | ClosedByServer | Announced | Failed

  datatype Error = Closed | Timeout | Protocol

  /** What an exchange ends with. A cancelled one is dropped by its caller and returns nothing. */
  datatype Outcome = Returned(result: Result<Envelope, Error>) | Cancelled

  /** The one-shot channel between whoever resolves the waiter and the exchange that waits. */
  datatype Cell = Empty | Holds(result: Result<Envelope, Error>)

  datatype Phase =
    | Acquiring               // the first look at the flag is done, the rate limiter is not
    | Registered              // the waiter is in the map, the second look is still to come
    | Sending                 // waiting for room among the outgoing messages
    | Awaiting                // waiting for the answer
    | Leaving(end: Outcome)   // decided, the drop guard has still to run
    | Done(end: Outcome)

  datatype Exchange = Exchange(id: Option<Id>, phase: Phase, cell: Cell) {
    /** Whether the receiving end is still there to be written to. */
    predicate Listens() {
      phase.Registered? || phase.Sending? || phase.Awaiting?
    }
  }

  /** Where the task of the socket is. A waiter it holds is in the map no more. */
  datatype Task =
    | Idle
    | Routing(waiter: nat, envelope: Envelope)
    | Swapped(reason: Reason)
    | Draining(waiters: set<nat>, reason: Reason)
    | Ended

  datatype Event = Heard(envelope: Envelope) | Disconnected(reason: Reason)

  /** The outgoing messages ever queued, and how many of them the task has taken. */
  datatype Outgoing = Outgoing(queued: seq<nat>, taken: nat)

  datatype State = State(
    exchanges: seq<Exchange>,
    pending: map<Id, nat>,
    closed: bool,
    task: Task,
    outgoing: Outgoing,
    events: seq<Event>)

  const INITIAL := State([], map[], false, Idle, Outgoing([], 0), [])

  // ---- the steps ----

  datatype Step =
    | Begin
    | Register(n: nat, id: Id, fits: bool)
    | Look(n: nat)
    | Queue(n: nat)
    | FindNoTask(n: nat)
    | Expire(n: nat)
    | Collect(n: nat)
    | Cancel(n: nat)
    | Unregister(n: nat)
    | Take
    | Arrive(envelope: Envelope)
    | Hand
    | Swap(reason: Reason)
    | Drain
    | Refuse(n: nat)
    | Publish

  predicate In(s: State, n: nat, phase: Phase) {
    n < |s.exchanges| && s.exchanges[n].phase == phase
  }

  /** The identifiers are unique: one just made is nobody's. */
  ghost predicate Fresh(s: State, id: Id) {
    forall n | 0 <= n < |s.exchanges| :: s.exchanges[n].id != Some(id)
  }

  ghost predicate Enabled(s: State, step: Step) {
    match step
    case Begin => true
    case Register(n, id, fits) => In(s, n, Acquiring) && Fresh(s, id)
    case Look(n) => In(s, n, Registered)
    case Queue(n) => In(s, n, Sending) && !s.task.Ended? && |s.outgoing.queued| < s.outgoing.taken + OUTGOING_QUEUE
    case FindNoTask(n) => In(s, n, Sending) && s.task.Ended?
    // A timer is looked at only when what it limits is not there yet.
    case Expire(n) => In(s, n, Sending) || (In(s, n, Awaiting) && s.exchanges[n].cell.Empty?)
    case Collect(n) => In(s, n, Awaiting) && s.exchanges[n].cell.Holds?
    case Cancel(n) => In(s, n, Acquiring) || In(s, n, Sending) || In(s, n, Awaiting)
    case Unregister(n) => n < |s.exchanges| && s.exchanges[n].phase.Leaving? && s.exchanges[n].id.Some?
    case Take => s.task.Idle? && s.outgoing.taken < |s.outgoing.queued|
    case Arrive(envelope) => s.task.Idle?
    case Hand => s.task.Routing?
    case Swap(reason) => s.task.Idle?
    case Drain => s.task.Swapped?
    case Refuse(n) => s.task.Draining? && n in s.task.waiters
    case Publish => s.task.Draining? && s.task.waiters == {}
  }

  function Moved(s: State, n: nat, phase: Phase): State
    requires n < |s.exchanges|
  {
    s.(exchanges := s.exchanges[n := s.exchanges[n].(phase := phase)])
  }

  function Left(s: State, n: nat, error: Error): State
    requires n < |s.exchanges|
  {
    Moved(s, n, Leaving(Returned(Err(error))))
  }

  /** Sends into a waiter's channel: nothing happens when its exchange gave up before. */
  function Resolved(s: State, n: nat, result: Result<Envelope, Error>): State {
    if n < |s.exchanges| && s.exchanges[n].Listens() then
      s.(exchanges := s.exchanges[n := s.exchanges[n].(cell := Holds(result))])
    else
      s
  }

  function Announce(s: State, envelope: Envelope): State {
    if envelope.heard then s.(events := s.events + [Heard(envelope)]) else s
  }

  function Arrived(s: State, envelope: Envelope): State {
    if envelope.kind == HEARTBEAT_EVENT then s
    else if envelope.id.Some? && envelope.id.value in s.pending then
      var id := envelope.id.value;
      s.(pending := s.pending - {id}, task := Routing(s.pending[id], envelope))
    else Announce(s, envelope)
  }

  function Registering(s: State, n: nat, id: Id, fits: bool): State
    requires In(s, n, Acquiring)
  {
    if fits then
      s.(exchanges := s.exchanges[n := Exchange(Some(id), Registered, Empty)], pending := s.pending[id := n])
    else
      Moved(s, n, Done(Returned(Err(Protocol))))
  }

  ghost function Next(s: State, step: Step): State
    requires Enabled(s, step)
  {
    match step
    case Begin =>
      var phase := if s.closed then Done(Returned(Err(Closed))) else Acquiring;
      s.(exchanges := s.exchanges + [Exchange(None, phase, Empty)])
    case Register(n, id, fits) => Registering(s, n, id, fits)
    case Look(n) => if s.closed then Left(s, n, Closed) else Moved(s, n, Sending)
    case Queue(n) => Moved(s, n, Awaiting).(outgoing := s.outgoing.(queued := s.outgoing.queued + [n]))
    case FindNoTask(n) => Left(s, n, Closed)
    case Expire(n) => Left(s, n, Timeout)
    case Collect(n) => Moved(s, n, Leaving(Returned(s.exchanges[n].cell.result)))
    case Cancel(n) => Moved(s, n, if In(s, n, Acquiring) then Done(Cancelled) else Leaving(Cancelled))
    case Unregister(n) =>
      Moved(s, n, Done(s.exchanges[n].phase.end)).(pending := s.pending - {s.exchanges[n].id.value})
    case Take => s.(outgoing := s.outgoing.(taken := s.outgoing.taken + 1))
    case Arrive(envelope) => Arrived(s, envelope)
    case Hand => Resolved(s, s.task.waiter, Ok(s.task.envelope)).(task := Idle)
    case Swap(reason) => s.(closed := true, task := Swapped(reason))
    case Drain => s.(pending := map[], task := Draining(s.pending.Values, s.task.reason))
    case Refuse(n) => Resolved(s, n, Err(Closed)).(task := s.task.(waiters := s.task.waiters - {n}))
    case Publish => s.(task := Ended, events := s.events + [Disconnected(s.task.reason)])
  }

  ghost predicate CanRun(s: State, steps: seq<Step>)
    decreases |steps|
  {
    steps == [] || (Enabled(s, steps[0]) && CanRun(Next(s, steps[0]), steps[1..]))
  }

  ghost function Run(s: State, steps: seq<Step>): State
    requires CanRun(s, steps)
    decreases |steps|
  {
    if steps == [] then s else Run(Next(s, steps[0]), steps[1..])
  }
}
