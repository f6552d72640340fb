/** What the tracker releases, read off the raw events that reached it. */
module ReversalTheorems {
  import opened Wrappers
  import opened Reversals

  datatype Event =
    | Start(id: int, order: ReverseOrder, now: int)
    | Ack(id: int, kind: Option<ExecKind>, orderId: Option<int>)
    | Shut(id: int)
    | Cancel(position: Option<int>, orderId: Option<int>)
    | Forget(id: int)

  function Apply(m: Tracked, e: Event): (Tracked, Option<ReverseOrder>) {
    match e
    case Start(id, order, now) => (Started(m, id, order, now), None)
    case Ack(id, kind, orderId) => Acknowledged(m, id, kind, orderId)
    case Shut(id) => Closed(m, id)
    case Cancel(position, orderId) => (CancelRelated(m, position, orderId), None)
    case Forget(id) => (m - {id}, None)
  }

  function After(events: seq<Event>): Tracked {
    if events == [] then map[]
    else Apply(After(events[..|events| - 1]), events[|events| - 1]).0
  }

  predicate AcceptsAt(events: seq<Event>, id: int, j: nat)
    requires j < |events|
  {
    events[j].Ack? && events[j].id == id && Accepts(events[j].kind)
  }

  /** An accepting answer for `id` came after event `start`. */
  predicate AckSince(events: seq<Event>, id: int, start: nat) {
    exists j :: start < j < |events| && AcceptsAt(events, id, j)
  }

  predicate ShutSince(events: seq<Event>, id: int, start: nat) {
    exists j :: start < j < |events| && events[j] == Shut(id)
  }

  /** The order id the latest accepting answer since `start` gave the close. */
  function CloseOrderSince(events: seq<Event>, id: int, start: nat): Option<int> {
    if |events| <= start + 1 then None
    else if AcceptsAt(events, id, |events| - 1) then events[|events| - 1].orderId
    else CloseOrderSince(events[..|events| - 1], id, start)
  }

  predicate About(e: Event, id: int) {
    (e.Ack? && e.id == id && Accepts(e.kind)) || e == Shut(id)
  }

  /** Whether the last event ends the start at `start`: refused, cancelled, given up, or released. */
  predicate Ends(events: seq<Event>, id: int, start: nat)
    requires events != []
  {
    var e := events[|events| - 1];
    || (e.Ack? && e.id == id && !Accepts(e.kind))
    || (e.Cancel? && Concerns(id, CloseOrderSince(events[..|events| - 1], id, start), e.position, e.orderId))
    || e == Forget(id)
    || (About(e, id) && AckSince(events, id, start) && ShutSince(events, id, start))
  }

  /** The start of `id` that is still waiting after `events`: none, or the index of its event. */
  function Waiting(events: seq<Event>, id: int): Option<nat> {
    if events == [] then None
    else
      var e := events[|events| - 1];
      match Waiting(events[..|events| - 1], id)
      case None => if e.Start? && e.id == id then Some(|events| - 1) else None
      case Some(start) => if Ends(events, id, start) then None else Some(start)
  }

  ghost predicate Agrees(events: seq<Event>, id: int) {
    var m := After(events);
    match Waiting(events, id)
    case None => id !in m
    case Some(start) =>
      && id in m && start < |events|
      && events[start].Start? && events[start].id == id
      && m[id].order == events[start].order
      && m[id].acknowledged == AckSince(events, id, start)
      && m[id].closed == ShutSince(events, id, start)
      && m[id].closeOrderId == CloseOrderSince(events, id, start)
      && !(m[id].acknowledged && m[id].closed)
  }

  lemma SinceGrows(events: seq<Event>, id: int, start: nat)
    requires start < |events| - 1
    ensures AckSince(events, id, start)
      == (AckSince(events[..|events| - 1], id, start) || AcceptsAt(events, id, |events| - 1))
    ensures ShutSince(events, id, start)
      == (ShutSince(events[..|events| - 1], id, start) || events[|events| - 1] == Shut(id))
  {
    var past := events[..|events| - 1];
    if j :| start < j < |events| && AcceptsAt(events, id, j) && j < |events| - 1 {
      assert AcceptsAt(past, id, j);
    }
    if j :| start < j < |past| && AcceptsAt(past, id, j) {
      assert AcceptsAt(events, id, j);
    }
    if j :| start < j < |past| && past[j] == Shut(id) {
      assert events[j] == Shut(id);
    }
    if j :| start < j < |events| && events[j] == Shut(id) && j < |events| - 1 {
      assert past[j] == Shut(id);
    }
  }

  /** The flags of the tracker are the events since the start, for every history. */
  lemma {:induction false} TrackerAgrees(events: seq<Event>, id: int)
    ensures Agrees(events, id)
  {
    if events != [] {
      var past := events[..|events| - 1];
      TrackerAgrees(past, id);
      match Waiting(past, id)
      case None =>
      case Some(start) => SinceGrows(events, id, start);
    }
  }

  /**
   An event releases the opposite order exactly when some start waits and, this event included, an
   accepting answer and a closure both came since it, in either order. What is released is the order
   of that start, which waits no more: there is no second release for it.
   */
  lemma ReleasedExactly(past: seq<Event>, e: Event, id: int)
    requires About(e, id)
    ensures var released := Apply(After(past), e).1;
      var now := past + [e];
      match Waiting(past, id)
      case None => released == None
      case Some(start) =>
        && start < |past| && past[start].Start?
        && (released.Some? <==> AckSince(now, id, start) && ShutSince(now, id, start))
        && (released.Some? ==> released == Some(past[start].order) && Waiting(now, id) == None)
  {
    var now := past + [e];
    assert now[..|now| - 1] == past;
    TrackerAgrees(past, id);
    match Waiting(past, id)
    case None =>
    case Some(start) =>
      assert now[start] == past[start];
      SinceGrows(now, id, start);
      TrackerAgrees(now, id);
  }

  /** No other event releases anything. */
  lemma OthersReleaseNothing(past: seq<Event>, e: Event, id: int)
    requires e.Start? || e.Cancel? || e.Forget? || (e.Ack? && !Accepts(e.kind))
    ensures Apply(After(past), e).1 == None
    ensures e.Ack? && e.id == id ==> id !in After(past + [e])
  {
    assert (past + [e])[..|past|] == past;
  }

  /** The two orders of answer and closure release the same order and leave the same tracker. */
  lemma EitherOrder(m: Tracked, id: int, kind: Option<ExecKind>, orderId: Option<int>)
    requires id in m && !m[id].acknowledged && !m[id].closed && Accepts(kind)
    ensures Apply(m, Ack(id, kind, orderId)).1 == None && Apply(m, Shut(id)).1 == None
    ensures Apply(Apply(m, Ack(id, kind, orderId)).0, Shut(id)) == (m - {id}, Some(m[id].order))
    ensures Apply(Apply(m, Shut(id)).0, Ack(id, kind, orderId)) == (m - {id}, Some(m[id].order))
  {
    var done := m[id].(acknowledged := true, closeOrderId := orderId, closed := true);
    assert m[id := m[id].(acknowledged := true, closeOrderId := orderId)][id := done] - {id} == m - {id};
    assert m[id := m[id].(closed := true)][id := done] - {id} == m - {id};
  }
}
