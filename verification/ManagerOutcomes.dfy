// What each command answers, and what each answer means for the records.
module ManagerOutcomes {
  import opened Base
  import opened IdMapper
  import opened OrderTable
  import opened Positions
  import opened Risk
  import opened Manager
  import opened ManagerSafety
  import opened ManagerLimit

  // Cancel ------------------------------------------------------------------------------

  /** Each answer of a cancel has its own cause. */
  lemma CancelAnswer(m: Manager, l: LocalId, accepted: bool, io: bool)
    ensures var answer := DoCancel(m, l, accepted, io).answer;
            && (answer == Ok(()) <==> l in m.ids.toBroker && accepted && io)
            && (answer == Err(UnknownOrder) <==> l !in m.ids.toBroker)
            && (answer == Err(GatewayRefused) <==> l in m.ids.toBroker && !accepted)
            && (answer == Err(StoreFailure) <==> l in m.ids.toBroker && accepted && !io)
  {
  }

  /** Success means cancelled, unmapped and no longer counted; a refusal means that nothing happened; a failed write means
      unmapped but still stored as open and still counted. */
  lemma CancelMeans(m: Manager, l: LocalId, accepted: bool, io: bool)
    requires Safe(m)
    ensures var n, answer := DoCancel(m, l, accepted, io).m, DoCancel(m, l, accepted, io).answer;
            && n.book == m.book && n.nextId == m.nextId && n.limits == m.limits
            && (answer.Ok? ==>
                  && l in m.table && n.table == m.table[l := m.table[l].(status := Cancelled)]
                  && l !in n.ids.toBroker && n.openCount == m.openCount - 1)
            && (answer == Err(UnknownOrder) || answer == Err(GatewayRefused) ==> n == m)
            && (answer == Err(StoreFailure) ==> l !in n.ids.toBroker && n.table == m.table && n.openCount == m.openCount)
            && (forall k :: k != l ==> (k in n.ids.toBroker <==> k in m.ids.toBroker))
  {
  }

  // Submit ------------------------------------------------------------------------------

  predicate QuantityPasses(m: Manager, quantity: real) { m.limits.maxQuantity == 0.0 || quantity <= m.limits.maxQuantity }

  predicate CountPasses(m: Manager) { m.limits.maxOpenOrders == 0 || m.openCount <= m.limits.maxOpenOrders }

  ghost predicate LossPasses(m: Manager) { m.limits.dailyLoss == 0.0 || TotalPnl(m.book) + m.limits.dailyLoss >= 0.0 }

  ghost predicate ChecksPass(m: Manager, quantity: real) { QuantityPasses(m, quantity) && CountPasses(m) && LossPasses(m) }

  /** Each answer of a submit has its own cause; the risk checks come in the order quantity, open orders, loss. */
  lemma SubmitAnswer(m: Manager, e: Event)
    requires Safe(m) && e.Submit?
    ensures var answer, q := DoSubmit(m, e).answer, e.signal.quantity;
            && (answer == Err(QuantityLimit) <==> Inserted(m, e) && !QuantityPasses(m, q))
            && (answer == Err(OpenOrderLimit) <==> Inserted(m, e) && QuantityPasses(m, q) && !CountPasses(m))
            && (answer == Err(DailyLossLimit) <==> Inserted(m, e) && QuantityPasses(m, q) && CountPasses(m) && !LossPasses(m))
            && (answer == Err(GatewayRefused) <==> Inserted(m, e) && ChecksPass(m, q) && e.reply.None?)
            && (answer == Err(StoreFailure) <==> !Inserted(m, e) || (ChecksPass(m, q) && e.reply.Some? && !e.statusIo))
            && (answer == Ok(NewId(m, e.clock)) <==> Inserted(m, e) && ChecksPass(m, q) && e.reply.Some? && e.statusIo)
            && (answer.Ok? ==> answer.value == NewId(m, e.clock))
  {
    hide TotalPnl, BrokerFree, NewId, Sound, MappedWorks, IdsCounted;
  }

  /** Refused by a check or by the gateway: the order is stored with its signal's symbol, side and quantity, as rejected if
      that could be written, and nothing else changes. Accepted: it is stored as submitted, mapped and counted. */
  lemma SubmitMeans(m: Manager, e: Event)
    requires Safe(m) && e.Submit? && Inserted(m, e)
    ensures var n, answer, l := DoSubmit(m, e).m, DoSubmit(m, e).answer, NewId(m, e.clock);
            && n.book == m.book && l !in m.table && n.table.Keys == m.table.Keys + {l}
            && (forall k :: k in m.table ==> n.table[k] == m.table[k])
            && n.table[l].order.id == l && n.table[l].order.symbol == e.signal.symbol
            && n.table[l].order.side == e.signal.side && n.table[l].order.quantity == e.signal.quantity
            && n.table[l].filled == 0.0 && n.table[l].average == 0.0
            && (answer.Err? ==> n.ids == m.ids && n.openCount == m.openCount && n.table[l].broker == None)
            && (answer.Err? && answer.error != StoreFailure ==>
                  n.table[l].status == if e.rejectIo then Rejected else PendingSubmission)
            && (answer == Err(StoreFailure) ==> n.table[l].status == PendingSubmission)
            && (answer.Ok? ==>
                  && n.table[l].status == Submitted && n.openCount == m.openCount + 1
                  && l in n.ids.toBroker && n.ids.toBroker[l] == e.reply.value
                  && (n.table[l].broker.None? || n.table[l].broker == e.reply))
  {
    hide TotalPnl, BrokerFree, NewId, IdsCounted, CountBounds, Check;
    BeginInserted(m, e);
    hide BeginSubmit;
  }

  lemma BeginInserted(m: Manager, e: Event)
    requires e.Submit? && Inserted(m, e)
    ensures var begun, l := BeginSubmit(m, e.signal, e.clock, e.storeIo, e.rejectIo), NewId(m, e.clock);
            && l !in m.table && begun.m.ids == m.ids && begun.m.book == m.book && begun.m.openCount == m.openCount
            && begun.m.table == m.table[l := Row(Order(l, e.signal.symbol, e.signal.side, e.signal.quantity),
                                                 if begun.Answered? && e.rejectIo then Rejected else PendingSubmission, None, 0.0, 0.0)]
            && (begun.Calling? ==> begun.order.id == l)
            && (begun.Answered? ==> begun.error == QuantityLimit || begun.error == OpenOrderLimit || begun.error == DailyLossLimit)
  {
    hide TotalPnl, BrokerFree, NewId;
  }

  /** The loss gate at work: when priced fills have left every symbol flat with a net loss beyond the limit, a submit that
      passes the other checks is refused, stored as rejected, and never reaches the gateway's answer. */
  lemma LossBlocksSubmit(m: Manager, e: Event, ts: seq<SymbolTrade>)
    requires Safe(m) && e.Submit? && Inserted(m, e) && e.rejectIo
    requires m.book == BookAfter(ts) && AllFlat(m.book) && forall i :: 0 <= i < |ts| ==> ts[i].trade.price > 0.0
    requires m.limits.dailyLoss != 0.0 && CashIn(ts) < -m.limits.dailyLoss
    requires QuantityPasses(m, e.signal.quantity) && CountPasses(m)
    ensures DoSubmit(m, e).answer == Err(DailyLossLimit)
    ensures var n, l := DoSubmit(m, e).m, NewId(m, e.clock);
            l in n.table && n.table[l].status == Rejected && n.ids == m.ids && n.openCount == m.openCount
  {
    hide Safe, DoSubmit, Inserted, BookAfter, TotalPnl, AllFlat, CashIn;
    FlatBookPnl(ts);
    SubmitAnswer(m, e);
    SubmitMeans(m, e);
  }

  // Replace -----------------------------------------------------------------------------

  ghost predicate ReplacementInserted(m: Manager, e: Event)
    requires e.Replace?
  {
    var id := NewId(m, e.newClock);
    InsertAccepted(m.table, id, Row(OrderFrom(id, e.newSignal), Submitted, e.newReply, 0.0, 0.0), e.insertIo)
  }

  lemma ReplaceAnswer(m: Manager, e: Event)
    requires Safe(m) && e.Replace?
    ensures var answer, mapped := DoReplace(m, e).answer, e.oldId in m.ids.toBroker;
            && (answer == Err(UnknownOrder) <==> !mapped)
            && (answer == Err(GatewayRefused) <==> mapped && e.newReply.None?)
            && (answer == Err(StoreFailure) <==> mapped && e.newReply.Some? && !(e.replacedIo && ReplacementInserted(m, e)))
            && (answer == Ok(NewId(m, e.newClock)) <==> mapped && e.newReply.Some? && e.replacedIo && ReplacementInserted(m, e))
            && (answer.Ok? ==> answer.value == NewId(m, e.newClock))
  {
    DetachKeepsBrokers(m, e.oldId, e.replacedIo);
    hide NewId, Detach, Attach;
  }

  lemma DetachKeepsBrokers(m: Manager, l: LocalId, io: bool)
    ensures Detach(m, l, io).table.Keys == m.table.Keys
    ensures forall k :: k in m.table ==> Detach(m, l, io).table[k].broker == m.table[k].broker
  {
  }

  /** A refused replace leaves all records alone; one that fails afterwards has given up the old order; a successful one
      has stored the old order as replaced and the new one as submitted and mapped, without touching the counter. */
  lemma ReplaceMeans(m: Manager, e: Event)
    requires Safe(m) && e.Replace?
    ensures var n, answer, l := DoReplace(m, e).m, DoReplace(m, e).answer, NewId(m, e.newClock);
            && n.book == m.book && n.openCount == m.openCount
            && (answer == Err(UnknownOrder) || answer == Err(GatewayRefused) ==> n.table == m.table && n.ids == m.ids)
            && (answer == Err(StoreFailure) ==>
                  && e.oldId !in n.ids.toBroker && e.oldId in m.table
                  && n.table == if e.replacedIo then m.table[e.oldId := m.table[e.oldId].(status := Replaced)] else m.table)
            && (answer.Ok? ==>
                  && e.oldId in m.table && l !in m.table
                  && n.table == m.table[e.oldId := m.table[e.oldId].(status := Replaced)]
                                       [l := Row(Order(l, e.newSignal.symbol, e.newSignal.side, e.newSignal.quantity),
                                                 Submitted, e.newReply, 0.0, 0.0)]
                  && l in n.ids.toBroker && Some(n.ids.toBroker[l]) == e.newReply && e.oldId !in n.ids.toBroker)
  {
    hide NewId, BrokerFree, IdsCounted, CountBounds;
  }

  // Execution reports ---------------------------------------------------------------------

  /** A rejection and a cancellation are stored as what they are, if they can be written; either way the order is no longer
      mapped, and neither position nor counter moves. */
  lemma TerminalReportMeans(m: Manager, r: Report, readIo: bool, writeIo: bool)
    requires Safe(m) && r.broker in m.ids.toLocal && (r.status == RejectedReport || r.status == CancelledReport)
    ensures var n, l := DoExecution(m, r, readIo, writeIo), m.ids.toLocal[r.broker];
            && l in m.table && n.book == m.book && n.openCount == m.openCount
            && l !in n.ids.toBroker && r.broker !in n.ids.toLocal
            && (!writeIo ==> n.table == m.table)
            && (writeIo && r.status == RejectedReport ==> n.table == m.table[l := m.table[l].(status := Rejected)])
            && (writeIo && r.status == CancelledReport ==> n.table == m.table[l := m.table[l].(status := Cancelled)])
  {
  }

  /** A fill is added to the stored quantity and stored as filled exactly when it completes the order, which is also when
      the mapping goes and the counter drops; the position moves in the direction of the report's side. */
  lemma FillMeans(m: Manager, r: Report, writeIo: bool)
    requires Safe(m) && r.broker in m.ids.toLocal && r.status != RejectedReport && r.status != CancelledReport
    ensures var n, l := DoExecution(m, r, true, writeIo), m.ids.toLocal[r.broker];
            && l in m.table && l in n.table
            && var full := m.table[l].filled + r.quantity >= m.table[l].order.quantity;
               && (!writeIo ==> n.table == m.table)
               && (writeIo ==>
                     && n.table == m.table[l := n.table[l]] && n.table[l].order == m.table[l].order && n.table[l].broker == m.table[l].broker
                     && n.table[l].filled == m.table[l].filled + r.quantity
                     && n.table[l].status == if full then Filled else PartiallyFilled)
               && (l in n.ids.toBroker <==> !full)
               && n.openCount == (if full then m.openCount - 1 else m.openCount)
               && At(n.book, r.symbol).quantity == At(m.book, r.symbol).quantity
                  + (if r.quantity <= 0.0 then 0.0 else if r.side == Buy then r.quantity else -r.quantity)
               && (forall s :: s != r.symbol ==> At(n.book, s) == At(m.book, s))
  {
    hide OnFill, BlendedAverage, IdsCounted, CountBounds;
    FillDirection(At(m.book, r.symbol), TradeOf(r));
    BookMoves(m.book, r.symbol, TradeOf(r));
  }

  lemma BookMoves(book: Book, symbol: Symbol, t: Trade)
    ensures At(BookFill(book, symbol, t), symbol) == if t.quantity <= 0.0 then At(book, symbol) else OnFill(At(book, symbol), t)
    ensures forall s :: s != symbol ==> At(BookFill(book, symbol, t), s) == At(book, s)
  {
    hide OnFill;
  }

  /** A report whose broker id is unknown, or whose order cannot be read, changes nothing. */
  lemma UnreadReportIgnored(m: Manager, r: Report, readIo: bool, writeIo: bool)
    requires r.broker !in m.ids.toLocal || (!readIo && r.status != RejectedReport && r.status != CancelledReport)
    ensures DoExecution(m, r, readIo, writeIo) == m
  {
  }
}
