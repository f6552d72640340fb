/**
 What the account entity holds and what each of its atomic updates does to it
 (crates/wyck-app/src/account.rs, account/orders.rs, account/sync.rs, account/reverse.rs,
 account/actions.rs), as functions on a value.

 Every closure handed to the executor is one step. The executor's detached tasks are part of the
 state: calls on the way to the server, give-up timers, account reads and reversal watches. Two
 fields only record what happened, for the properties, and are read by no branch: log and
 closeCalls; so are the plan and place marks of a queued order.
 */
module AccountState {
  import opened Wrappers
  import opened Reversals

  datatype Busy = Placing | Closing(id: int) | Cancelling(id: int) | Amending(id: int)

  /** The id an order is recognized by: one this run made, told apart by its count, or one it came with. */
  datatype ClientId = Ours(at: int, count: nat) | Given(text: string)

  datatype Fingerprint = Fingerprint(symbol: int, buy: bool, volume: int, kind: int, price: int)

  const BUY := 1
  const SELL := 2
  const MARKET := 1

  /** A new order; wellFormed is what checking its prices and texts found. */
  datatype NewOrder = NewOrder(
    symbol: int, side: int, kind: int, volume: int, price: int,
    wellFormed: bool, clientId: Option<ClientId>)
  {
    function Imprint(): Fingerprint { Fingerprint(symbol, side == BUY, volume, kind, price) }

    predicate Validates() { symbol > 0 && volume > 0 && wellFormed }
  }

  /** The token a cleared order carries: it is good for one fingerprint only. */
  datatype Cleared = Cleared(order: Fingerprint)

  datatype InDoubt = InDoubt(clientId: ClientId, symbol: int, buy: bool, volume: int, sentAt: int)

  datatype Origin = Single | OfPlan(plan: nat, place: nat)

  datatype Queued = Queued(order: NewOrder, proof: Cleared, plan: nat, place: nat)

  datatype Outgoing = Outgoing(order: NewOrder, proof: Cleared, from: Origin, at: int)

  datatype Flight = Flight(busy: Busy, out: Option<Outgoing>)

  datatype Watch = Watch(id: int, started: int, rechecked: bool)

  datatype Position = Position(symbol: int, buy: bool, volume: int)

  datatype Status = Loading | Ready | Failed

  datatype PositionStatus = IsOpen | IsClosed | IsOther

  datatype OrderNews = OrderNews(orderId: int, clientId: Option<ClientId>, positionId: Option<int>)

  datatype PositionNews = PositionNews(id: int, status: PositionStatus, sideKnown: bool, position: Position)

  datatype Execution = Execution(kind: Option<ExecKind>, order: Option<OrderNews>, position: Option<PositionNews>)

  datatype News = News(execution: Execution) | Refused(positionId: Option<int>, orderId: Option<int>)

  /** What a call came back with; unknown says the failure left its outcome open. */
  datatype Answer = Done(event: Execution) | Broke(unknown: bool)

  datatype ReadAnswer = Found(positions: map<int, Position>) | Unread

  datatype LogEntry =
    | Planned(orders: seq<NewOrder>)
    | Sent(call: nat, order: NewOrder, proof: Cleared, from: Origin)
    | Answered(call: nat, busy: Busy, ok: bool)
    | GaveUp(call: nat, busy: Busy)
    | Doubted
    | ReadAsked(epoch: nat)
    | ReadApplied(epoch: nat)
    | Replay(on: bool)

  /**
   What a step takes from outside: the clock and its day, what the limits of the safety settings
   say about an order (asked after so many calls), the calls a plan's rules make, and the order in
   which the closed positions are listed.
   */
  datatype Env = Env(now: int, day: int, allows: (nat, NewOrder) -> bool, moves: seq<Busy>, listing: seq<int>)

  /** The calls: what is busy, the current call of each, and the answers and timers still to come. */
  datatype Desk = Desk(busy: set<Busy>, calls: map<Busy, nat>, callSeq: nat,
                       flights: map<nat, Flight>, timers: map<nat, Busy>)

  /** The new orders: those of a plan still waiting, and what tells one sent twice. */
  datatype Outbox = Outbox(queue: seq<Queued>, ordersSent: nat, sentToday: (int, nat),
                           last: Option<(Fingerprint, int)>)

  /** The doubts, the flag of an unsure account, and the reads that are out to clear both. */
  datatype Reading = Reading(uncertain: bool, placing: Option<InDoubt>, inDoubt: seq<InDoubt>,
                             epoch: nat, loads: set<nat>, status: Status, traderKnown: bool)

  datatype Reversing = Reversing(pending: Tracked, watches: map<nat, Watch>, watchSeq: nat,
                                 closeCalls: map<int, nat>)

  datatype State = State(desk: Desk, outbox: Outbox, reading: Reading, reversing: Reversing,
                         positions: map<int, Position>, replay: bool, log: seq<LogEntry>)

  const INITIAL := State(
    Desk({}, map[], 0, map[], map[]), Outbox([], 0, (0, 0), None),
    Reading(false, None, [], 0, {}, Loading, false), Reversing(map[], map[], 0, map[]),
    map[], false, [])

  function Note(s: State, e: LogEntry): State { s.(log := s.log + [e]) }

  // ---- calls ----

  /** Starts a call: its answer and its give-up timer are now outstanding. */
  function Opened(d: Desk, busy: Busy, out: Option<Outgoing>): Desk {
    var call := d.callSeq + 1;
    Desk(d.busy + {busy}, d.calls[busy := call], call, d.flights[call := Flight(busy, out)], d.timers[call := busy])
  }

  function Trade(s: State, busy: Busy, out: Option<Outgoing>): State {
    if busy in s.desk.busy then s
    else
      var started := s.(desk := Opened(s.desk, busy, out));
      if out.None? then started
      else Note(started, Sent(started.desk.callSeq, out.value.order, out.value.proof, out.value.from))
  }

  function Doubt(order: NewOrder, now: int): Option<InDoubt> {
    if order.clientId.None? then None
    else Some(InDoubt(order.clientId.value, order.symbol, order.side == BUY, order.volume, now))
  }

  function Send(s: State, order: NewOrder, proof: Cleared, from: Origin, now: int): State {
    Trade(s.(reading := s.reading.(placing := Doubt(order, now))), Placing, Some(Outgoing(order, proof, from, now)))
  }

  function SendNext(s: State, env: Env): State {
    if Placing in s.desk.busy || s.outbox.queue == [] then s
    else
      var next := s.outbox.queue[0];
      Send(s.(outbox := s.outbox.(queue := s.outbox.queue[1..])),
           next.order, next.proof, OfPlan(next.plan, next.place), env.now)
  }

  /** Cleared or not: no during a replay, and otherwise whatever the parameter answers. */
  predicate Clears(s: State, order: NewOrder, env: Env) {
    !s.replay && env.allows(s.desk.callSeq, order)
  }

  const DUPLICATE_WINDOW := 2_000

  predicate Repeats(o: Outbox, fp: Fingerprint, now: int) {
    o.last.Some? && o.last.value.0 == fp && now - o.last.value.1 < DUPLICATE_WINDOW
  }

  /** One more order of today, now the last one sent. */
  function Counted(o: Outbox, fp: Fingerprint, env: Env): Outbox {
    o.(last := Some((fp, env.now)),
       sentToday := (env.day, (if o.sentToday.0 == env.day then o.sentToday.1 else 0) + 1))
  }

  function Identified(order: NewOrder, now: int, ordersSent: nat): (NewOrder, nat) {
    if order.clientId.Some? then (order, ordersSent)
    else (order.(clientId := Some(Ours(now, ordersSent + 1))), ordersSent + 1)
  }

  predicate Refuses(s: State, order: NewOrder, env: Env) {
    || !order.Validates() || !Clears(s, order, env)
    || Placing in s.desk.busy || Repeats(s.outbox, order.Imprint(), env.now)
  }

  function PlaceWith(s: State, order: NewOrder, env: Env): State {
    if Refuses(s, order, env) then s
    else
      var (named, count) := Identified(order, env.now, s.outbox.ordersSent);
      Send(s.(outbox := Counted(s.outbox, order.Imprint(), env).(ordersSent := count)),
           named, Cleared(order.Imprint()), Single, env.now)
  }

  function MarketOrder(o: ReverseOrder): NewOrder {
    NewOrder(o.symbol, if o.buy then BUY else SELL, MARKET, o.volume, 0, true, None)
  }

  function Market(s: State, o: Option<ReverseOrder>, env: Env): State {
    if o.None? then s else PlaceWith(s, MarketOrder(o.value), env)
  }

  // ---- plans ----

  function IdentifiedAll(orders: seq<NewOrder>, now: int, ordersSent: nat): (seq<NewOrder>, nat) {
    if orders == [] then ([], ordersSent)
    else
      var (before, count) := IdentifiedAll(orders[..|orders| - 1], now, ordersSent);
      var (named, next) := Identified(orders[|orders| - 1], now, count);
      (before + [named], next)
  }

  function QueueOf(named: seq<NewOrder>, plan: nat): seq<Queued> {
    seq(|named|, i requires 0 <= i < |named| => Queued(named[i], Cleared(named[i].Imprint()), plan, i))
  }

  /** The volume one side sends over the orders. */
  function SideVolume(orders: seq<NewOrder>, side: int): int {
    if orders == [] then 0
    else
      var last := orders[|orders| - 1];
      SideVolume(orders[..|orders| - 1], side) + (if last.side == side then last.volume else 0)
  }

  /**
     A probe stands for a plan: the earliest order of the heaviest side met last, carrying the volume of
     that whole side.
  */
  predicate Probes(orders: seq<NewOrder>, probe: NewOrder) {
    exists i :: 0 <= i < |orders|
      && (forall j :: 0 <= j < i ==> orders[j].side != orders[i].side)
      && probe == orders[i].(volume := SideVolume(orders, orders[i].side))
      && (forall j :: 0 <= j < |orders| ==> SideVolume(orders, orders[j].side) <= probe.volume)
      && (forall j :: i < j < |orders| && NewSide(orders, j) ==> SideVolume(orders, orders[j].side) < probe.volume)
  }

  /** No order before this one has its side. */
  predicate NewSide(orders: seq<NewOrder>, j: nat)
    requires j < |orders|
  {
    forall h | 0 <= h < j :: orders[h].side != orders[j].side
  }

  predicate RefusesBatch(s: State, orders: seq<NewOrder>, probe: NewOrder, env: Env)
    requires orders != []
  {
    || (exists i :: 0 <= i < |orders| && !orders[i].Validates()) || !Clears(s, probe, env)
    || Placing in s.desk.busy || s.outbox.queue != [] || Repeats(s.outbox, orders[0].Imprint(), env.now)
  }

  function Queueing(s: State, orders: seq<NewOrder>, env: Env): State
    requires orders != []
  {
    var (named, count) := IdentifiedAll(orders, env.now, s.outbox.ordersSent);
    Note(s, Planned(named)).(outbox :=
      Counted(s.outbox, orders[0].Imprint(), env).(ordersSent := count, queue := QueueOf(named, |s.log|)))
  }

  function PlaceBatch(s: State, orders: seq<NewOrder>, probe: NewOrder, env: Env): State {
    if orders == [] then s
    else if |orders| == 1 then PlaceWith(s, orders[0], env)
    else if RefusesBatch(s, orders, probe, env) then s
    else SendNext(Queueing(s, orders, env), env)
  }

  // ---- account reads ----

  function Asking(r: Reading): Reading {
    r.(epoch := r.epoch + 1, status := if r.traderKnown then r.status else Loading, loads := r.loads + {r.epoch + 1})
  }

  function OnReady(s: State): State {
    Note(s.(reading := Asking(s.reading)), ReadAsked(s.reading.epoch + 1))
  }

  /** Calls made for the rules of a plan: cancelling the other side, moving a stop. */
  function Moves(s: State, moves: seq<Busy>): State {
    if moves == [] then s
    else
      var before := Moves(s, moves[..|moves| - 1]);
      if moves[|moves| - 1].Placing? then before else Trade(before, moves[|moves| - 1], None)
  }

  /** Every position a reversal waits on that is not open any more, each once. */
  predicate Lists(listing: seq<int>, pending: Tracked, positions: map<int, Position>) {
    && (forall i, j :: 0 <= i < j < |listing| ==> listing[i] != listing[j])
    && (forall id | id in listing :: id in pending && id !in positions)
    && (forall id | id in pending && id !in positions :: id in listing)
  }

  /** Marks the listed positions closed and gives the orders that can go now. */
  function CloseAll(m: Tracked, listing: seq<int>): (Tracked, seq<ReverseOrder>) {
    if listing == [] then (m, [])
    else
      var (before, orders) := CloseAll(m, listing[..|listing| - 1]);
      var (after, order) := Closed(before, listing[|listing| - 1]);
      (after, if order.Some? then orders + [order.value] else orders)
  }

  function MarketAll(s: State, orders: seq<ReverseOrder>, env: Env): State {
    if orders == [] then s
    else Market(MarketAll(s, orders[..|orders| - 1], env), Some(orders[|orders| - 1]), env)
  }

  function Known(r: Reading): Reading {
    r.(traderKnown := true, status := Ready, uncertain := false, inDoubt := [])
  }

  function Taken(s: State, e: nat): State { s.(reading := s.reading.(loads := s.reading.loads - {e})) }

  /** Replaces the positions, empties the doubts and completes the reversals whose position is gone. */
  function ReadApplies(s: State, e: nat, positions: map<int, Position>, left: Tracked): State {
    Note(s.(positions := positions, reversing := s.reversing.(pending := left), reading := Known(s.reading)),
         ReadApplied(e))
  }

  function ReadDone(s: State, e: nat, answer: ReadAnswer, env: Env): State {
    var over := Taken(s, e);
    if e != s.reading.epoch then over
    else match answer
      case Unread => over.(reading := over.reading.(status := Failed))
      case Found(positions) =>
        var (left, orders) := CloseAll(s.reversing.pending, env.listing);
        MarketAll(Moves(ReadApplies(over, e, positions, left), env.moves), orders, env)
  }

  // ---- events ----

  function NotNamed(doubts: seq<InDoubt>, id: ClientId): seq<InDoubt> {
    if doubts == [] then []
    else
      var before := NotNamed(doubts[..|doubts| - 1], id);
      if doubts[|doubts| - 1].clientId == id then before else before + [doubts[|doubts| - 1]]
  }

  function Applied(positions: map<int, Position>, news: Option<PositionNews>): map<int, Position> {
    if news.None? then positions
    else if news.value.status == IsOpen then
      if news.value.sideKnown then positions[news.value.id := news.value.position] else positions
    else positions - {news.value.id}
  }

  predicate Drops(kind: Option<ExecKind>) {
    kind == Some(Rejected) || kind == Some(Cancelled) || kind == Some(Expired)
  }

  function PositionNamed(e: Execution): Option<int> {
    if e.position.Some? then Some(e.position.value.id)
    else if e.order.Some? then e.order.value.positionId
    else None
  }

  function OrderNamed(e: Execution): Option<int> {
    if e.order.Some? then Some(e.order.value.orderId) else None
  }

  /** An execution drops the doubts under the client id it carries, and no others. */
  function Doubting(r: Reading, e: Execution): Reading {
    if e.order.Some? && e.order.value.clientId.Some?
    then r.(inDoubt := NotNamed(r.inDoubt, e.order.value.clientId.value)) else r
  }

  function Tracking(s: State, pending: Tracked): State { s.(reversing := s.reversing.(pending := pending)) }

  /** What an execution settles before anything is sent because of it. */
  function Heard(s: State, e: Execution): State {
    Tracking(s, if Drops(e.kind) then CancelRelated(s.reversing.pending, PositionNamed(e), OrderNamed(e))
                else s.reversing.pending)
      .(reading := Doubting(s.reading, e), positions := Applied(s.positions, e.position))
  }

  function ClosedBy(m: Tracked, e: Execution): (Tracked, Option<ReverseOrder>) {
    if e.kind == Some(Filled) && e.position.Some? && e.position.value.status == IsClosed
    then Closed(m, e.position.value.id) else (m, None)
  }

  function OnExecution(s: State, e: Execution, env: Env): State {
    var heard := Heard(s, e);
    var managed := if e.kind == Some(Filled) then Moves(heard, env.moves) else heard;
    var (left, order) := ClosedBy(managed.reversing.pending, e);
    Market(Tracking(managed, left), order, env)
  }

  function OnEvent(s: State, news: News, env: Env): State {
    match news
    case News(e) => OnExecution(s, e, env)
    case Refused(positionId, orderId) => Tracking(s, CancelRelated(s.reversing.pending, positionId, orderId))
  }

  // ---- what becomes of a call ----

  /** The call is over; it frees its button only while it is the current one. */
  function Released(d: Desk, call: nat, busy: Busy): Desk {
    if busy in d.calls && d.calls[busy] == call
    then d.(calls := d.calls - {busy}, busy := d.busy - {busy}) else d
  }

  function DoubtPlacing(r: Reading): Reading {
    if r.placing.None? then r else r.(placing := None, inDoubt := r.inDoubt + [r.placing.value])
  }

  function NoQueue(s: State): State { s.(outbox := s.outbox.(queue := [])) }

  /** The timer of the current call: it frees the button, drops the plan, and asks a read while unsure. */
  function GivenUp(s: State, call: nat, busy: Busy): State {
    var unsure := s.reading.(uncertain := true);
    Note(Note(NoQueue(s.(desk := Released(s.desk, call, busy),
                         reading := if busy.Placing? then DoubtPlacing(unsure) else unsure)),
              GaveUp(call, busy)), Doubted)
  }

  function TimerDone(s: State, call: nat): State
    requires call in s.desk.timers
  {
    var busy := s.desk.timers[call];
    var over := s.(desk := s.desk.(timers := s.desk.timers - {call}));
    if busy in s.desk.calls && s.desk.calls[busy] == call then OnReady(GivenUp(over, call, busy)) else over
  }

  function Arrived(d: Desk, call: nat, busy: Busy): Desk {
    Released(d.(flights := d.flights - {call}), call, busy)
  }

  function Landed(s: State, call: nat, busy: Busy): State {
    Note(s.(desk := Arrived(s.desk, call, busy),
            reading := if busy.Placing? then s.reading.(placing := None) else s.reading),
         Answered(call, busy, true))
  }

  function Watched(r: Reversing, id: int): Reversing {
    if id !in r.pending then r
    else r.(watches := r.watches[r.watchSeq := Watch(id, r.pending[id].started, false)], watchSeq := r.watchSeq + 1)
  }

  function AckedBy(m: Tracked, busy: Busy, e: Execution): (Tracked, Option<ReverseOrder>) {
    if busy.Closing? then Acknowledged(m, busy.id, e.kind, OrderNamed(e)) else (m, None)
  }

  function AnswerOk(s: State, call: nat, busy: Busy, e: Execution, env: Env): State {
    var landed := Landed(s, call, busy);
    var (left, order) := AckedBy(landed.reversing.pending, busy, e);
    var reversed := Market(OnExecution(Tracking(landed, left), e, env), order, env);
    if busy.Closing? then reversed.(reversing := Watched(reversed.reversing, busy.id))
    else if busy.Placing? then SendNext(reversed, env)
    else reversed
  }

  function Lost(s: State, call: nat, busy: Busy, unknown: bool): State {
    var free := Note(s.(desk := Arrived(s.desk, call, busy)), Answered(call, busy, false));
    match busy
    case Closing(id) => Tracking(free, free.reversing.pending - {id})
    case Placing =>
      var dropped := NoQueue(free);
      if unknown then Note(dropped.(reading := DoubtPlacing(dropped.reading.(uncertain := true))), Doubted)
      else dropped.(reading := dropped.reading.(placing := None))
    case _ => free
  }

  function AnswerDone(s: State, call: nat, answer: Answer, env: Env): State
    requires call in s.desk.flights
  {
    var busy := s.desk.flights[call].busy;
    match answer
    case Done(e) => AnswerOk(s, call, busy, e, env)
    case Broke(unknown) => OnReady(Lost(s, call, busy, unknown))
  }

  // ---- reversals ----

  function ClosePosition(s: State, id: int): State {
    if id in s.positions then Trade(s, Closing(id), None) else s
  }

  function ReversePosition(s: State, id: int, stamp: int, env: Env): State {
    if Closing(id) in s.desk.busy || id !in s.positions then s
    else
      var p := s.positions[id];
      var order := ReverseOrder(p.symbol, !p.buy, p.volume);
      if !Clears(s, MarketOrder(order), env) || id in s.reversing.pending then s
      else
        var begun := s.reversing.(pending := Reversals.Started(s.reversing.pending, id, order, stamp),
                                  closeCalls := s.reversing.closeCalls[id := s.desk.callSeq + 1]);
        ClosePosition(s.(reversing := begun), id)
  }

  predicate Matches(r: Reversing, w: Watch) {
    w.id in r.pending && r.pending[w.id].started == w.started
  }

  function Rechecked(s: State, w: nat): State
    requires w in s.reversing.watches
  {
    var r := s.reversing;
    var noted := s.(reversing := r.(watches := r.watches[w := r.watches[w].(rechecked := true)]));
    if Matches(r, r.watches[w]) then OnReady(noted) else noted
  }

  function WatchOver(s: State, w: nat): State
    requires w in s.reversing.watches
  {
    var r := s.reversing;
    var over := r.(watches := r.watches - {w});
    s.(reversing := if Matches(r, r.watches[w]) then over.(pending := r.pending - {r.watches[w].id}) else over)
  }

  // ---- the lock of a replay ----

  function SetReplay(s: State, on: bool): State {
    if on && (Placing in s.desk.busy || s.outbox.queue != []) then s
    else if s.replay != on then Note(s.(replay := on), Replay(on))
    else s
  }

  function Amend(s: State, id: int, byUser: bool): State {
    if byUser && s.replay then s else Trade(s, Amending(id), None)
  }

  // ---- every step of a run ----

  datatype Step =
    | DoPlace(order: NewOrder, env: Env)
    | DoBatch(orders: seq<NewOrder>, probe: NewOrder, env: Env)
    | DoClose(id: int)
    | DoCancel(id: int)
    | DoAmend(id: int, byUser: bool)
    | DoReverse(id: int, stamp: int, env: Env)
    | DoReplay(on: bool)
    | Refresh
    | TimerFires(call: nat)
    | CallAnswers(call: nat, answer: Answer, env: Env)
    | NewsComes(news: News, env: Env)
    | ReadAnswers(epoch: nat, found: ReadAnswer, env: Env)
    | WatchRechecks(watch: nat)
    | WatchEnds(watch: nat)

  /** An order from outside has no id or one of its own: only Identified makes the others. */
  predicate Foreign(order: NewOrder) { order.clientId.Some? ==> order.clientId.value.Given? }

  predicate Enabled(s: State, step: Step) {
    match step
    case DoPlace(order, _) => Foreign(order)
    case DoBatch(orders, probe, _) =>
      (forall i :: 0 <= i < |orders| ==> Foreign(orders[i])) && (|orders| > 1 ==> Probes(orders, probe))
    case TimerFires(call) => call in s.desk.timers
    case CallAnswers(call, _, _) => call in s.desk.flights
    case ReadAnswers(epoch, found, env) =>
      epoch in s.reading.loads && (found.Found? ==> Lists(env.listing, s.reversing.pending, found.positions))
    case WatchRechecks(w) => w in s.reversing.watches && !s.reversing.watches[w].rechecked
    case WatchEnds(w) => w in s.reversing.watches && s.reversing.watches[w].rechecked
    case _ => true
  }

  function Next(s: State, step: Step): State
    requires Enabled(s, step)
  {
    match step
    case DoPlace(order, env) => PlaceWith(s, order, env)
    case DoBatch(orders, probe, env) => PlaceBatch(s, orders, probe, env)
    case DoClose(id) => ClosePosition(s, id)
    case DoCancel(id) => Trade(s, Cancelling(id), None)
    case DoAmend(id, byUser) => Amend(s, id, byUser)
    case DoReverse(id, stamp, env) => ReversePosition(s, id, stamp, env)
    case DoReplay(on) => SetReplay(s, on)
    case Refresh => OnReady(s)
    case TimerFires(call) => TimerDone(s, call)
    case CallAnswers(call, answer, env) => AnswerDone(s, call, answer, env)
    case NewsComes(news, env) => OnEvent(s, news, env)
    case ReadAnswers(epoch, found, env) => ReadDone(s, epoch, found, env)
    case WatchRechecks(w) => Rechecked(s, w)
    case WatchEnds(w) => WatchOver(s, w)
  }

  ghost predicate CanRun(steps: seq<Step>)
    decreases |steps|, 0
  {
    steps == [] ||
    (CanRun(steps[..|steps| - 1])
     && Enabled(Run(steps[..|steps| - 1]), steps[|steps| - 1]))
  }

  ghost function Run(steps: seq<Step>): State
    requires CanRun(steps)
    decreases |steps|, 1
  {
    if steps == [] then INITIAL
    else Next(Run(steps[..|steps| - 1]), steps[|steps| - 1])
  }

  lemma RunOne(steps: seq<Step>, step: Step)
    requires CanRun(steps) && Enabled(Run(steps), step)
    ensures CanRun(steps + [step]) && Run(steps + [step]) == Next(Run(steps), step)
  {
    assert (steps + [step])[..|steps|] == steps;
  }
}
