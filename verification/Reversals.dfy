/**
 The tracker of pending reversals (crates/wyck-app/src/account/reverse.rs): the opposite order is held
 until its close was both acknowledged and seen.

 The tracker is a map updated entry by entry, so it is a class here; its methods are tied to
 functions on the map, which ReversalTheorems ties to what the raw events since a start say.
 */
module Reversals {
  import opened Wrappers

  /** What an execution event reports. Other stands for the types no branch looks at. */
  datatype ExecKind = Accepted | PartialFill | Filled | Rejected | Cancelled | Expired | Other

  datatype ReverseOrder = ReverseOrder(symbol: int, buy: bool, volume: int)

  datatype Pending = Pending(
    order: ReverseOrder,
    started: int,
    closeOrderId: Option<int>,
    acknowledged: bool,
    closed: bool)

  type Tracked = map<int, Pending>

  predicate Accepts(kind: Option<ExecKind>) {
    kind == Some(Accepted) || kind == Some(PartialFill) || kind == Some(Filled)
  }

  function Started(m: Tracked, id: int, order: ReverseOrder, now: int): Tracked {
    if id in m then m else m[id := Pending(order, now, None, false, false)]
  }

  predicate Ready(m: Tracked, id: int) {
    id in m && m[id].acknowledged && m[id].closed
  }

  /** The map without the entry, and the order it waited with, once both sides were seen. */
  function TakeReady(m: Tracked, id: int): (Tracked, Option<ReverseOrder>) {
    if Ready(m, id) then (m - {id}, Some(m[id].order)) else (m, None)
  }

  function Acknowledged(m: Tracked, id: int, kind: Option<ExecKind>, closeOrderId: Option<int>)
    : (Tracked, Option<ReverseOrder>)
  {
    if !Accepts(kind) then (m - {id}, None)
    else
      var noted := if id in m then m[id := m[id].(acknowledged := true, closeOrderId := closeOrderId)] else m;
      TakeReady(noted, id)
  }

  function Closed(m: Tracked, id: int): (Tracked, Option<ReverseOrder>) {
    var noted := if id in m then m[id := m[id].(closed := true)] else m;
    TakeReady(noted, id)
  }

  /** Whether a cancellation that names `positionId` and `orderId` is about this entry. */
  predicate Concerns(id: int, closeOrderId: Option<int>, positionId: Option<int>, orderId: Option<int>) {
    || (positionId.None? && orderId.None?)
    || positionId == Some(id)
    || (orderId.Some? && closeOrderId == orderId)
  }

  function CancelRelated(m: Tracked, positionId: Option<int>, orderId: Option<int>): Tracked {
    map id | id in m && !Concerns(id, m[id].closeOrderId, positionId, orderId) :: m[id]
  }

  class ReverseTracker {
    var pending: map<int, Pending>

    constructor ()
      ensures pending == map[]
    {
      pending := map[];
    }

    method Start(id: int, order: ReverseOrder, now: int) returns (started: bool)
      modifies this
      ensures started == (id !in old(pending))
      ensures pending == Started(old(pending), id, order, now)
    {
      if id in pending {
        return false;
      }
      pending := pending[id := Pending(order, now, None, false, false)];
      return true;
    }

    method Acknowledge(id: int, kind: Option<ExecKind>, closeOrderId: Option<int>)
      returns (order: Option<ReverseOrder>)
      modifies this
      ensures (pending, order) == Acknowledged(old(pending), id, kind, closeOrderId)
    {
      if !(kind == Some(Accepted) || kind == Some(PartialFill) || kind == Some(Filled)) {
        pending := pending - {id};
        return None;
      }
      if id in pending {
        pending := pending[id := pending[id].(acknowledged := true, closeOrderId := closeOrderId)];
      }
      order := Take(id);
    }

    method Cancel(positionId: Option<int>, orderId: Option<int>)
      modifies this
      ensures pending == CancelRelated(old(pending), positionId, orderId)
    {
      if positionId.None? && orderId.None? {
        pending := map[];
        return;
      }
      pending := map id | id in pending
        && Some(id) != positionId
        && !(orderId.Some? && pending[id].closeOrderId == orderId) :: pending[id];
    }

    method Close(id: int) returns (order: Option<ReverseOrder>)
      modifies this
      ensures (pending, order) == Closed(old(pending), id)
    {
      if id in pending {
        pending := pending[id := pending[id].(closed := true)];
      }
      order := Take(id);
    }

    method Take(id: int) returns (order: Option<ReverseOrder>)
      modifies this
      ensures (pending, order) == TakeReady(old(pending), id)
    {
      if id in pending && pending[id].acknowledged && pending[id].closed {
        order := Some(pending[id].order);
        pending := pending - {id};
      } else {
        order := None;
      }
    }

    /** What a failed close call or a watch that ran out does. */
    method Forget(id: int)
      modifies this
      ensures pending == old(pending) - {id}
    {
      pending := pending - {id};
    }
  }
}
