// How the manager's records and the gateway's records of one run fit together when the store works.
module SystemLinks {
  import opened Base
  import opened IdMapper
  import opened OrderTable
  import opened Manager
  import opened TradingSystem
  import opened GatewayLedger
  import Paper

  /** The row of an accepted order. */
  ghost predicate Owns(t: Table, order: Order, b: BrokerId) {
    order.id in t && t[order.id].broker == Some(b) && t[order.id].order == order
  }

  /** Every accepted order has its row, except the one whose handler is still running. */
  ghost predicate OrdersStored(t: Table, log: Log, busy: Option<BrokerId>) {
    forall b :: b in log.accepted && busy != Some(b) ==> Owns(t, log.accepted[b], b)
  }

  ghost predicate RowsAccepted(t: Table, log: Log, busy: Option<BrokerId>) {
    forall l :: l in t && t[l].broker.Some? ==>
      var b := t[l].broker.value;
      b in log.accepted && log.accepted[b].id == l && busy != Some(b)
  }

  ghost predicate MapFits(t: Table, ids: IdMap) {
    Inverse(ids) && forall l :: l in ids.toBroker ==> l in t && t[l].broker == Some(ids.toBroker[l])
  }

  /** A mapped order has filled exactly what was handled for it. */
  ghost predicate FilledMatches(t: Table, ids: IdMap, log: Log) {
    forall l :: l in ids.toBroker && l in t ==> t[l].filled == Amount(OfOrder(ids.toBroker[l]), log.handled)
  }

  predicate Withdrawn(s: OrderStatus) { s == Cancelled || s == Replaced }

  /** An order that is no longer mapped was withdrawn, or its last report has been handled. */
  ghost predicate ClosedWell(t: Table, ids: IdMap, log: Log) {
    forall l :: l in t && t[l].broker.Some? && l !in ids.toBroker ==>
      || Withdrawn(t[l].status)
      || (t[l].status == Filled && Amount(OfOrder(t[l].broker.value), log.handled) >= t[l].order.quantity)
  }

  /** Dropped reports belong to withdrawn orders. */
  ghost predicate DroppedWell(t: Table, log: Log) {
    forall i :: 0 <= i < |log.dropped| ==>
      var b := log.dropped[i].broker;
      b in log.accepted && Owns(t, log.accepted[b], b) && Withdrawn(t[log.accepted[b].id].status)
  }

  ghost predicate PendingKnown(ids: IdMap, gw: Paper.Gateway, busy: Option<BrokerId>) {
    forall b :: b in gw.pending ==> busy == Some(b) || b in ids.toLocal
  }

  /** A mapped order is pending, or everything it asked for has been emitted. */
  ghost predicate MappedPending(t: Table, ids: IdMap, gw: Paper.Gateway, log: Log, leaving: Option<LocalId>) {
    forall l :: l in ids.toBroker && l in t && leaving != Some(l) ==>
      ids.toBroker[l] in gw.pending || Amount(OfOrder(ids.toBroker[l]), log.emitted) >= t[l].order.quantity
  }

  ghost predicate LeavingGone(ids: IdMap, gw: Paper.Gateway, leaving: Option<LocalId>) {
    leaving.Some? ==> leaving.value in ids.toBroker && ids.toBroker[leaving.value] !in gw.pending
  }

  /** The order whose handler is running has no handled report yet, even if fills are already queued. */
  ghost predicate BusyWell(ids: IdMap, gw: Paper.Gateway, log: Log, busy: Option<BrokerId>) {
    busy.Some? ==>
      var b := busy.value;
      && b in log.accepted && b !in ids.toLocal
      && Amount(OfOrder(b), log.handled) == 0.0
      && (b in gw.pending || Amount(OfOrder(b), log.emitted) >= log.accepted[b].quantity)
  }

  /** The manager's own records, against what was accepted and handled. */
  ghost predicate RecordsLinked(t: Table, ids: IdMap, log: Log, busy: Option<BrokerId>) {
    && OrdersStored(t, log, busy) && RowsAccepted(t, log, busy) && MapFits(t, ids)
    && FilledMatches(t, ids, log) && ClosedWell(t, ids, log) && DroppedWell(t, log)
  }

  /** The manager's records against the gateway's table. */
  ghost predicate PendingLinked(t: Table, ids: IdMap, gw: Paper.Gateway, log: Log, busy: Option<BrokerId>, leaving: Option<LocalId>) {
    && PendingKnown(ids, gw, busy) && MappedPending(t, ids, gw, log, leaving)
    && LeavingGone(ids, gw, leaving) && BusyWell(ids, gw, log, busy)
  }

  ghost predicate Linked(t: Table, ids: IdMap, gw: Paper.Gateway, log: Log, busy: Option<BrokerId>, leaving: Option<LocalId>) {
    RecordsLinked(t, ids, log, busy) && PendingLinked(t, ids, gw, log, busy, leaving)
  }

  // One lemma per kind of change ------------------------------------------------------------

  lemma FillOneOrder(gw: Paper.Gateway, b: BrokerId, d: Paper.Dice)
    requires b in gw.pending && d != Paper.Skip
    ensures var gw', p := Paper.FillOne(gw, b, d), Paper.AfterFill(gw.pending[b], d);
            && p.order == gw.pending[b].order
            && (forall c :: c in gw'.pending ==> c in gw.pending)
            && (forall c :: c in gw.pending && c != b ==> c in gw'.pending)
            && (b in gw'.pending || p.filled >= p.order.quantity)
  {
  }

  lemma FillKeepsPending(t: Table, ids: IdMap, gw: Paper.Gateway, log: Log, busy: Option<BrokerId>, leaving: Option<LocalId>,
                         b: BrokerId, d: Paper.Dice, price: real)
    requires MapFits(t, ids) && RowsAccepted(t, log, busy) && OrdersStored(t, log, busy)
    requires PendingLinked(t, ids, gw, log, busy, leaving) && PendingMatches(gw, log) && b in gw.pending && d != Paper.Skip
    ensures PendingLinked(t, ids, Paper.FillOne(gw, b, d), FillLog(gw, log, b, d, price), busy, leaving)
  {
    hide Amount, Paper.AfterFill, Paper.ReportFor, Paper.FillOne, Inverse;
    var log', gw' := FillLog(gw, log, b, d, price), Paper.FillOne(gw, b, d);
    FillOneOrder(gw, b, d);
    forall c | c in log.accepted && (c in gw.pending || Amount(OfOrder(c), log.emitted) >= log.accepted[c].quantity)
      ensures c in gw'.pending || Amount(OfOrder(c), log'.emitted) >= log.accepted[c].quantity
    {
      FillAmount(gw, log, b, d, price, c);
    }
    forall l | l in ids.toBroker && l in t ensures ids.toBroker[l] in log.accepted && t[l].order == log.accepted[ids.toBroker[l]] {
      assert busy != Some(ids.toBroker[l]);
    }
  }

  /** The gateway fills part of a pending order. */
  lemma FillKeepsLinks(t: Table, ids: IdMap, gw: Paper.Gateway, log: Log, busy: Option<BrokerId>, leaving: Option<LocalId>,
                       b: BrokerId, d: Paper.Dice, price: real)
    requires Linked(t, ids, gw, log, busy, leaving) && PendingMatches(gw, log) && b in gw.pending && d != Paper.Skip
    ensures Linked(t, ids, Paper.FillOne(gw, b, d), FillLog(gw, log, b, d, price), busy, leaving)
  {
    hide PendingLinked, Amount, Paper.AfterFill, Paper.ReportFor, Paper.FillOne;
    FillKeepsPending(t, ids, gw, log, busy, leaving, b, d, price);
  }

  lemma WithdrawKeepsRecords(t: Table, ids: IdMap, log: Log, busy: Option<BrokerId>, l: LocalId, s: OrderStatus)
    requires RecordsLinked(t, ids, log, busy) && l in ids.toBroker && Withdrawn(s)
    ensures RecordsLinked(t[l := t[l].(status := s)], Remove(ids, l), log, busy)
  {
    hide Amount;
    RemoveKeepsInverse(ids, l);
  }

  lemma WithdrawKeepsPending(t: Table, ids: IdMap, gw: Paper.Gateway, log: Log, busy: Option<BrokerId>, leaving: Option<LocalId>,
                             l: LocalId, s: OrderStatus)
    requires MapFits(t, ids) && PendingLinked(t, ids, gw, log, busy, leaving) && l in ids.toBroker
    requires leaving == None || leaving == Some(l)
    ensures PendingLinked(t[l := t[l].(status := s)], Remove(ids, l), Paper.CancelOrder(gw, ids.toBroker[l]), log, busy, None)
  {
    hide Amount;
  }

  /** A mapped order is withdrawn: cancelled or replaced, in the gateway and in the manager. */
  lemma WithdrawKeepsLinks(t: Table, ids: IdMap, gw: Paper.Gateway, log: Log, busy: Option<BrokerId>, leaving: Option<LocalId>,
                           l: LocalId, s: OrderStatus)
    requires Linked(t, ids, gw, log, busy, leaving) && l in ids.toBroker && Withdrawn(s)
    requires leaving == None || leaving == Some(l)
    ensures l in t && Linked(t[l := t[l].(status := s)], Remove(ids, l), Paper.CancelOrder(gw, ids.toBroker[l]), log, busy, None)
  {
    WithdrawKeepsRecords(t, ids, log, busy, l, s);
    WithdrawKeepsPending(t, ids, gw, log, busy, leaving, l, s);
  }

  lemma RegisterKeepsRecords(t: Table, ids: IdMap, log: Log, b: BrokerId)
    requires RecordsLinked(t, ids, log, Some(b)) && b in log.accepted && b !in ids.toLocal
    requires Amount(OfOrder(b), log.handled) == 0.0
    requires log.accepted[b].id in t ==> t[log.accepted[b].id].broker == None
    ensures var order := log.accepted[b];
            RecordsLinked(t[order.id := Row(order, Submitted, Some(b), 0.0, 0.0)], Add(ids, order.id, b), log, None)
  {
    hide Amount;
    assert log.accepted[b].id !in ids.toBroker;
    AddKeepsInverse(ids, log.accepted[b].id, b);
  }

  lemma RegisterKeepsPending(t: Table, ids: IdMap, gw: Paper.Gateway, log: Log, b: BrokerId)
    requires PendingLinked(t, ids, gw, log, Some(b), None)
    requires MapFits(t, ids) && log.accepted[b].id !in ids.toBroker
    ensures var order := log.accepted[b];
            PendingLinked(t[order.id := Row(order, Submitted, Some(b), 0.0, 0.0)], Add(ids, order.id, b), gw, log, None, None)
  {
    hide Amount;
  }

  /** The handler has stored the accepted order and mapped it. */
  lemma RegisterKeepsLinks(t: Table, ids: IdMap, gw: Paper.Gateway, log: Log, b: BrokerId)
    requires Linked(t, ids, gw, log, Some(b), None)
    requires b in log.accepted && (log.accepted[b].id in t ==> t[log.accepted[b].id].broker == None)
    ensures var order := log.accepted[b];
            Linked(t[order.id := Row(order, Submitted, Some(b), 0.0, 0.0)], Add(ids, order.id, b), gw, log, None, None)
  {
    RegisterKeepsRecords(t, ids, log, b);
    RegisterKeepsPending(t, ids, gw, log, b);
  }

  /** A row that carries no broker id is written. */
  lemma PlainRowKeepsLinks(t: Table, ids: IdMap, gw: Paper.Gateway, log: Log, busy: Option<BrokerId>, leaving: Option<LocalId>, l: LocalId, row: Row)
    requires Linked(t, ids, gw, log, busy, leaving) && row.broker == None && (l in t ==> t[l].broker == None)
    ensures Linked(t[l := row], ids, gw, log, busy, leaving)
  {
    hide Amount, Inverse;
    assert l !in ids.toBroker;
  }

  lemma AcceptKeepsRecords(t: Table, ids: IdMap, log: Log, b: BrokerId, order: Order)
    requires RecordsLinked(t, ids, log, None) && b !in log.accepted
    ensures RecordsLinked(t, ids, log.(accepted := log.accepted[b := order]), Some(b)) && b !in ids.toLocal
  {
    hide Amount;
  }

  lemma SameBrokerId(gw: Paper.Gateway, c: BrokerId, clock: int)
    ensures Paper.NewBrokerId(Paper.CancelOrder(gw, c), clock) == Paper.NewBrokerId(gw, clock)
  {
  }

  /** The gateway accepts an order; if it replaces one, that one is withdrawn from the gateway. */
  lemma AcceptKeepsLinks(t: Table, ids: IdMap, gw: Paper.Gateway, log: Log, order: Order, clock: int, leaving: Option<LocalId>)
    requires Linked(t, ids, gw, log, None, None)
    requires leaving.Some? ==> leaving.value in ids.toBroker
    requires Paper.NewBrokerId(gw, clock) !in log.accepted && Amount(OfOrder(Paper.NewBrokerId(gw, clock)), log.handled) == 0.0
    ensures var b := Paper.NewBrokerId(gw, clock);
            var cancelled := if leaving.Some? then Paper.CancelOrder(gw, ids.toBroker[leaving.value]) else gw;
            Linked(t, ids, Paper.AcceptOrder(cancelled, order, clock), log.(accepted := log.accepted[b := order]), Some(b), leaving)
  {
    hide Amount, RecordsLinked, Paper.NewBrokerId;
    if leaving.Some? { SameBrokerId(gw, ids.toBroker[leaving.value], clock); }
    AcceptKeepsRecords(t, ids, log, Paper.NewBrokerId(gw, clock), order);
    KnownBrokers(t, ids, log);
  }

  lemma KnownBrokers(t: Table, ids: IdMap, log: Log)
    requires RecordsLinked(t, ids, log, None)
    ensures forall l :: l in ids.toBroker ==> ids.toBroker[l] in log.accepted && ids.toBroker[l] in ids.toLocal && ids.toLocal[ids.toBroker[l]] == l
  {
    hide Amount;
  }
}
