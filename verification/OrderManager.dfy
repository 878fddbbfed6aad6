// The dispatch state machine: one handler per event, run by a single thread.
// What the gateway answered and which store statements worked is part of each event.
module Manager {
  import opened Base
  import opened IdMapper
  import opened OrderTable
  import opened Positions
  import opened Risk
  import Ids = IdGenerator

  datatype Manager = Manager(
    table: Table,
    ids: IdMap,
    book: Book,
    openCount: int,
    nextId: nat,
    limits: RiskLimits)

  function Start(limits: RiskLimits): Manager {
    Manager(map[], EMPTY_MAP, map[], 0, 0, limits)
  }

  datatype Signal = Signal(symbol: Symbol, side: Side, quantity: real)

  datatype Event =
    | Execution(report: Report, readIo: bool, writeIo: bool)
    | Submit(signal: Signal, clock: int, reply: Option<BrokerId>, storeIo: bool, rejectIo: bool, statusIo: bool, brokerIo: bool)
    | Cancel(id: LocalId, accepted: bool, cancelIo: bool)
    | Replace(oldId: LocalId, newSignal: Signal, newClock: int, newReply: Option<BrokerId>, replacedIo: bool, insertIo: bool)
    | CancelAll(snapshot: seq<LocalId>, refused: set<LocalId>, failed: set<LocalId>)
    | MarketData

  const PREFIX := "ORD"

  function NewId(m: Manager, clock: int): LocalId { Ids.NthId(PREFIX, clock, m.nextId) }

  function OrderFrom(id: LocalId, signal: Signal): Order {
    Order(id, signal.symbol, signal.side, signal.quantity)
  }

  /** A handler up to its gateway call: either answered already, or waiting for the gateway. */
  datatype Begun =
    | Answered(m: Manager, error: Error)
    | Calling(m: Manager, order: Order)

  datatype Handled<+T> = Handled(m: Manager, answer: Outcome<T>)

  // Submit ------------------------------------------------------------------

  ghost function BeginSubmit(m: Manager, signal: Signal, clock: int, storeIo: bool, rejectIo: bool): Begun {
    var id := NewId(m, clock);
    var order := OrderFrom(id, signal);
    var row := Row(order, PendingSubmission, None, 0.0, 0.0);
    var stored := m.(nextId := m.nextId + 1, table := Insert(m.table, id, row, storeIo));
    if !InsertAccepted(m.table, id, row, storeIo) then Answered(stored, StoreFailure) else
    var check := Check(m.limits, signal.quantity, ToSizeT(m.openCount), TotalPnl(m.book));
    if check.Err? then Answered(stored.(table := WithStatus(stored.table, id, Rejected, rejectIo)), check.error)
    else Calling(stored, order)
  }

  ghost function FinishSubmit(m: Manager, id: LocalId, reply: Option<BrokerId>, rejectIo: bool, statusIo: bool, brokerIo: bool): Handled<LocalId> {
    if reply.None? then Handled(m.(table := WithStatus(m.table, id, Rejected, rejectIo)), Err(GatewayRefused))
    else if !statusIo then Handled(m, Err(StoreFailure))
    else Handled(
      m.(table := WithBroker(WithStatus(m.table, id, Submitted, true), id, reply.value, brokerIo),
         ids := Add(m.ids, id, reply.value),
         openCount := m.openCount + 1),
      Ok(id))
  }

  ghost function DoSubmit(m: Manager, e: Event): Handled<LocalId>
    requires e.Submit?
  {
    match BeginSubmit(m, e.signal, e.clock, e.storeIo, e.rejectIo)
    case Answered(n, error) => Handled(n, Err(error))
    case Calling(n, order) => FinishSubmit(n, order.id, e.reply, e.rejectIo, e.statusIo, e.brokerIo)
  }

  // Cancel ------------------------------------------------------------------

  function DoCancel(m: Manager, l: LocalId, accepted: bool, io: bool): Handled<()> {
    if l !in m.ids.toBroker then Handled(m, Err(UnknownOrder))
    else if !accepted then Handled(m, Err(GatewayRefused))
    else
      var n := m.(ids := Remove(m.ids, l), table := WithStatus(m.table, l, Cancelled, io));
      if !io then Handled(n, Err(StoreFailure)) else Handled(n.(openCount := n.openCount - 1), Ok(()))
  }

  // Replace -----------------------------------------------------------------

  function BeginReplace(m: Manager, oldId: LocalId, signal: Signal, clock: int): Begun {
    if oldId !in m.ids.toBroker then Answered(m, UnknownOrder)
    else Calling(m.(nextId := m.nextId + 1), OrderFrom(NewId(m, clock), signal))
  }

  /** The old order is gone; a stray fill for its broker id no longer finds it. */
  function Detach(m: Manager, l: LocalId, io: bool): Manager {
    m.(ids := Remove(m.ids, l), table := WithStatus(m.table, l, Replaced, io))
  }

  function Attach(m: Manager, order: Order, b: BrokerId): Manager {
    m.(table := m.table[order.id := Row(order, Submitted, Some(b), 0.0, 0.0)], ids := Add(m.ids, order.id, b))
  }

  ghost function FinishReplace(m: Manager, oldId: LocalId, order: Order, reply: Option<BrokerId>, replacedIo: bool, insertIo: bool): Handled<LocalId> {
    if reply.None? then Handled(m, Err(GatewayRefused)) else
    var n := Detach(m, oldId, replacedIo);
    if !replacedIo || !InsertAccepted(n.table, order.id, Row(order, Submitted, reply, 0.0, 0.0), insertIo) then Handled(n, Err(StoreFailure))
    else Handled(Attach(n, order, reply.value), Ok(order.id))
  }

  ghost function DoReplace(m: Manager, e: Event): Handled<LocalId>
    requires e.Replace?
  {
    match BeginReplace(m, e.oldId, e.newSignal, e.newClock)
    case Answered(n, error) => Handled(n, Err(error))
    case Calling(n, order) => FinishReplace(n, e.oldId, order, e.newReply, e.replacedIo, e.insertIo)
  }

  // Kill switch -------------------------------------------------------------

  function CancelOne(m: Manager, l: LocalId, refused: set<LocalId>, failed: set<LocalId>): Manager {
    if l !in m.table || m.table[l].broker.None? || l in refused || l in failed then m
    else m.(table := WithStatus(m.table, l, Cancelled, true), ids := Remove(m.ids, l))
  }

  function CancelEach(m: Manager, ls: seq<LocalId>, refused: set<LocalId>, failed: set<LocalId>): Manager {
    if ls == [] then m
    else CancelOne(CancelEach(m, ls[..|ls| - 1], refused, failed), ls[|ls| - 1], refused, failed)
  }

  // Execution reports -------------------------------------------------------

  predicate EndsOrder(s: ReportStatus) { s == RejectedReport || s == CancelledReport }

  function TradeOf(r: Report): Trade { Trade(r.side, r.quantity, r.price) }

  function FullyFilled(row: Row, r: Report): bool { row.filled + r.quantity >= row.order.quantity }

  function DoExecution(m: Manager, r: Report, readIo: bool, writeIo: bool): Manager {
    if r.broker !in m.ids.toLocal then m else
    var l := m.ids.toLocal[r.broker];
    if EndsOrder(r.status) then
      m.(table := WithStatus(m.table, l, if r.status == RejectedReport then Rejected else Cancelled, writeIo),
         ids := Remove(m.ids, l))
    else if !readIo || l !in m.table then m
    else
      var full := FullyFilled(m.table[l], r);
      m.(table := WithFill(m.table, l, r.quantity, r.price, if full then Filled else PartiallyFilled, writeIo),
         book := BookFill(m.book, r.symbol, TradeOf(r)),
         ids := if full then Remove(m.ids, l) else m.ids,
         openCount := if full then m.openCount - 1 else m.openCount)
  }

  // Runs --------------------------------------------------------------------

  ghost function Handle(m: Manager, e: Event): Manager {
    match e
    case Execution(r, readIo, writeIo) => DoExecution(m, r, readIo, writeIo)
    case Submit(_, _, _, _, _, _, _) => DoSubmit(m, e).m
    case Cancel(l, accepted, io) => DoCancel(m, l, accepted, io).m
    case Replace(_, _, _, _, _, _) => DoReplace(m, e).m
    case CancelAll(ls, refused, failed) => if Snapshot(m.table, ls) then CancelEach(m, ls, refused, failed) else m
    case MarketData => m
  }

  ghost function Run(m: Manager, es: seq<Event>): Manager {
    if es == [] then m else Handle(Run(m, es[..|es| - 1]), es[|es| - 1])
  }

  lemma {:induction false} RunSplit(m: Manager, es: seq<Event>, fs: seq<Event>)
    ensures Run(m, es + fs) == Run(Run(m, es), fs)
  {
    if fs == [] {
      assert es + fs == es;
    } else {
      assert (es + fs)[..|es + fs| - 1] == es + fs[..|fs| - 1];
      RunSplit(m, es, fs[..|fs| - 1]);
    }
  }
}
