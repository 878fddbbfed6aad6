// The order manager as an object: its handlers change the store, the mapper, the position keeper and the
// counter step by step, and each leaves exactly the state that the handler functions describe.
module Dispatcher {
  import opened Base
  import opened IdMapper
  import opened OrderTable
  import opened Positions
  import opened Risk
  import opened Manager
  import Ids = IdGenerator

  /** An entry of the event queue. The list of a kill switch is made when it is handled; `rows` says how far the query for
      open orders then gets. */
  datatype Queued = Queued(event: Event, rows: nat)

  /** The event that handling a queue entry amounts to, for the orders stored at that moment. */
  ghost predicate Serves(q: Queued, e: Event, t: Table) {
    if q.event.CancelAll? then
      && e.CancelAll? && e.refused == q.event.refused && e.failed == q.event.failed
      && Snapshot(t, e.snapshot) && (q.rows >= |t| ==> FullSnapshot(t, e.snapshot))
    else e == q.event
  }

  class OrderManager {
    const store: OrderStore
    const mapper: OrderIdMapper
    const keeper: PositionKeeper
    const idGenerator: Ids.OrderIdGenerator
    const limits: RiskLimits
    var openOrderCount: int

    ghost predicate Valid()
      reads this, idGenerator
    {
      idGenerator.Valid() && idGenerator.prefix == PREFIX
    }

    ghost function View(): Manager
      reads this, store, mapper, keeper, idGenerator
    {
      Manager(store.rows, mapper.View(), keeper.positions, openOrderCount, idGenerator.calls, limits)
    }

    constructor (limits: RiskLimits)
      ensures Valid() && View() == Start(limits)
      ensures fresh(store) && fresh(mapper) && fresh(keeper) && fresh(idGenerator)
    {
      store := new OrderStore();
      mapper := new OrderIdMapper();
      keeper := new PositionKeeper();
      idGenerator := new Ids.OrderIdGenerator(PREFIX);
      this.limits := limits;
      openOrderCount := 0;
    }

    /** Up to the gateway call: the new order, or the answer if there is nothing to send. If the creation time cannot be
        formatted nothing is stored, just as when the insert fails. */
    method PrepareSubmit(signal: Signal, clock: int, timeIo: bool, storeIo: bool, rejectIo: bool) returns (order: Order, r: Outcome<()>)
      requires Valid()
      modifies this, store, idGenerator
      ensures Valid()
      ensures View() == BeginSubmit(old(View()), signal, clock, timeIo && storeIo, rejectIo).m
      ensures match BeginSubmit(old(View()), signal, clock, timeIo && storeIo, rejectIo)
              case Answered(_, error) => r == Err(error)
              case Calling(_, o) => r.Ok? && order == o
    {
      hide Ids.NthId, BrokerFree, Check, TotalPnl;
      var id := idGenerator.Generate(clock);
      order := OrderFrom(id, signal);
      if !timeIo { return order, Err(StoreFailure); }
      var ok := store.StoreOrder(id, Row(order, PendingSubmission, None, 0.0, 0.0), storeIo);
      if !ok { return order, Err(StoreFailure); }
      var pnl := keeper.GetTotalPnl();
      r := Check(limits, signal.quantity, ToSizeT(openOrderCount), pnl);
      if r.Err? {
        var _ := store.UpdateOrderStatus(id, Rejected, rejectIo);
      }
    }

    method HandleSubmitCommand(signal: Signal, clock: int, reply: Option<BrokerId>, timeIo: bool, storeIo: bool, rejectIo: bool,
                               statusIo: bool, brokerIo: bool)
      returns (r: Outcome<LocalId>)
      requires Valid()
      modifies this, store, mapper, idGenerator
      ensures Valid()
      ensures var done := DoSubmit(old(View()), Submit(signal, clock, reply, timeIo && storeIo, rejectIo, statusIo, brokerIo));
              View() == done.m && r == done.answer
    {
      hide BeginSubmit, BrokerFree;
      var order, begun := PrepareSubmit(signal, clock, timeIo, storeIo, rejectIo);
      if begun.Err? { return Err(begun.error); }
      if reply.None? {
        var _ := store.UpdateOrderStatus(order.id, Rejected, rejectIo);
        return Err(GatewayRefused);
      }
      var ok := store.UpdateOrderStatus(order.id, Submitted, statusIo);
      if !ok { return Err(StoreFailure); }
      mapper.AddMapping(order.id, reply.value);
      openOrderCount := openOrderCount + 1;
      var _ := store.UpdateBrokerId(order.id, reply.value, brokerIo);
      r := Ok(order.id);
    }

    method HandleCancelCommand(l: LocalId, accepted: bool, io: bool) returns (r: Outcome<()>)
      requires Valid()
      modifies this, store, mapper
      ensures Valid()
      ensures View() == DoCancel(old(View()), l, accepted, io).m && r == DoCancel(old(View()), l, accepted, io).answer
    {
      var b := mapper.GetBrokerId(l);
      if b.None? { return Err(UnknownOrder); }
      if !accepted { return Err(GatewayRefused); }
      mapper.RemoveMapping(l);
      var ok := store.UpdateOrderStatus(l, Cancelled, io);
      if !ok { return Err(StoreFailure); }
      openOrderCount := openOrderCount - 1;
      r := Ok(());
    }

    method HandleReplaceCommand(oldId: LocalId, signal: Signal, clock: int, reply: Option<BrokerId>, replacedIo: bool, timeIo: bool, insertIo: bool)
      returns (r: Outcome<LocalId>)
      requires Valid()
      modifies this, store, mapper, idGenerator
      ensures Valid()
      ensures var done := DoReplace(old(View()), Replace(oldId, signal, clock, reply, replacedIo, timeIo && insertIo));
              View() == done.m && r == done.answer
    {
      hide Ids.NthId, BrokerFree;
      var oldBroker := mapper.GetBrokerId(oldId);
      if oldBroker.None? { return Err(UnknownOrder); }
      var id := idGenerator.Generate(clock);
      if reply.None? { return Err(GatewayRefused); }
      mapper.RemoveMapping(oldId);
      var ok := store.UpdateOrderStatus(oldId, OrderStatus.Replaced, replacedIo);
      if !ok { return Err(StoreFailure); }
      if !timeIo { return Err(StoreFailure); }
      ok := store.StoreOrder(id, Row(OrderFrom(id, signal), Submitted, reply, 0.0, 0.0), insertIo);
      if !ok { return Err(StoreFailure); }
      mapper.AddMapping(id, reply.value);
      r := Ok(id);
    }

    /** The loop of the kill switch over the open orders that the store reported. */
    method CancelOpenOrders(ls: seq<LocalId>, refused: set<LocalId>, failed: set<LocalId>)
      requires Valid() && Snapshot(store.rows, ls)
      modifies store, mapper
      ensures Valid() && View() == CancelEach(old(View()), ls, refused, failed)
    {
      ghost var m := View();
      for i := 0 to |ls|
        invariant Valid() && View() == CancelEach(m, ls[..i], refused, failed)
      {
        hide CancelEach;
        CancelNext(m, ls, i, refused, failed);
        var row := store.GetOrder(ls[i], true);
        if row.Some? && row.value.broker.Some? && ls[i] !in refused && ls[i] !in failed {
          var _ := store.UpdateOrderStatus(ls[i], Cancelled, true);
          mapper.RemoveMapping(ls[i]);
        }
      }
      assert ls[..|ls|] == ls;
    }

    /** The kill switch: `steps` tells how far the query got, which is all the way unless the store failed. */
    method HandleCancelAllCommand(steps: nat, refused: set<LocalId>, failed: set<LocalId>) returns (ls: seq<LocalId>)
      requires Valid()
      modifies store, mapper
      ensures Snapshot(old(store.rows), ls) && (steps >= |old(store.rows)| ==> FullSnapshot(old(store.rows), ls))
      ensures Valid() && View() == Handle(old(View()), CancelAll(ls, refused, failed))
    {
      ls := store.GetOpenOrders(steps);
      CancelOpenOrders(ls, refused, failed);
    }

    method HandleFill(report: Report, readIo: bool, writeIo: bool)
      requires Valid()
      modifies this, store, mapper, keeper
      ensures Valid() && View() == DoExecution(old(View()), report, readIo, writeIo)
    {
      hide BlendedAverage, OnFill;
      var found := mapper.GetLocalId(report.broker);
      if found.None? { return; }
      var l := found.value;
      if report.status == RejectedReport || report.status == CancelledReport {
        var _ := store.UpdateOrderStatus(l, if report.status == RejectedReport then Rejected else Cancelled, writeIo);
        mapper.RemoveMapping(l);
        return;
      }
      var stored := store.GetOrder(l, readIo);
      if stored.None? { return; }
      var full := stored.value.filled + report.quantity >= stored.value.order.quantity;
      var _ := store.ApplyFill(l, report.quantity, report.price, if full then Filled else PartiallyFilled, writeIo);
      keeper.OnFillReport(report.symbol, report.quantity, report.price, report.side);
      if full {
        mapper.RemoveMapping(l);
        openOrderCount := openOrderCount - 1;
      }
    }

    /** In an event a creation time that cannot be formatted counts as a failed insert. */
    method HandleEvent(q: Queued) returns (ghost handled: Event)
      requires Valid()
      modifies this, store, mapper, keeper, idGenerator
      ensures Serves(q, handled, old(store.rows))
      ensures Valid() && View() == Handle(old(View()), handled)
    {
      hide DoExecution, DoSubmit, DoCancel, DoReplace, CancelEach, Snapshot, FullSnapshot;
      handled := q.event;
      match q.event
      case Execution(r, readIo, writeIo) => HandleFill(r, readIo, writeIo);
      case Submit(signal, clock, reply, storeIo, rejectIo, statusIo, brokerIo) =>
        var _ := HandleSubmitCommand(signal, clock, reply, true, storeIo, rejectIo, statusIo, brokerIo);
      case Cancel(l, accepted, io) =>
        var _ := HandleCancelCommand(l, accepted, io);
      case Replace(oldId, signal, clock, reply, replacedIo, insertIo) =>
        var _ := HandleReplaceCommand(oldId, signal, clock, reply, replacedIo, true, insertIo);
      case CancelAll(_, refused, failed) =>
        var ls := HandleCancelAllCommand(q.rows, refused, failed);
        handled := CancelAll(ls, refused, failed);
      case MarketData =>
    }

    /** The dispatch loop pops events one at a time and handles each to the end before the next. */
    method RunDispatchLoop(events: seq<Queued>) returns (ghost handled: seq<Event>)
      requires Valid()
      modifies this, store, mapper, keeper, idGenerator
      ensures |handled| == |events|
      ensures forall i :: 0 <= i < |events| ==> Serves(events[i], handled[i], Run(old(View()), handled[..i]).table)
      ensures Valid() && View() == Run(old(View()), handled)
    {
      hide Serves, Handle;
      ghost var m := View();
      var queue := events;
      handled := [];
      while queue != []
        invariant |handled| + |queue| == |events| && events[|handled|..] == queue
        invariant forall i :: 0 <= i < |handled| ==> Serves(events[i], handled[i], Run(m, handled[..i]).table)
        invariant Valid() && View() == Run(m, handled)
        decreases |queue|
      {
        var q := queue[0];
        queue := queue[1..];
        ghost var e := HandleEvent(q);
        RunExtends(m, handled, e);
        ghost var before := handled;
        handled := handled + [e];
        assert forall i :: 0 <= i <= |before| ==> handled[..i] == before[..i];
        assert before[..|before|] == before;
      }
    }
  }

  lemma CancelNext(m: Manager, ls: seq<LocalId>, i: nat, refused: set<LocalId>, failed: set<LocalId>)
    requires i < |ls|
    ensures CancelEach(m, ls[..i + 1], refused, failed) == CancelOne(CancelEach(m, ls[..i], refused, failed), ls[i], refused, failed)
  {
    assert ls[..i + 1][..i] == ls[..i];
  }

  lemma RunExtends(m: Manager, es: seq<Event>, e: Event)
    ensures Run(m, es + [e]) == Handle(Run(m, es), e)
  {
    assert (es + [e])[..|es + [e]| - 1] == es;
  }
}
