// What handling one report does to the links between the manager and the gateway.
module SystemReports {
  import opened Base
  import opened IdMapper
  import opened OrderTable
  import opened Manager
  import opened ManagerSafety
  import opened TradingSystem
  import opened GatewayLedger
  import opened SystemLinks
  import Paper

  /** r is the next report to be handled. */
  ghost predicate NextReport(log: Log, r: Report) {
    |log.handled| < |log.emitted| && log.handled == log.emitted[..|log.handled|] && r == log.emitted[|log.handled|]
  }

  function Applied(log: Log, r: Report): Log { log.(handled := log.handled + [r], applied := log.applied + [r]) }

  function Dropped(log: Log, r: Report): Log { log.(handled := log.handled + [r], dropped := log.dropped + [r]) }

  lemma AmountAfter(log: Log, r: Report)
    requires NextReport(log, r)
    ensures forall b :: Amount(OfOrder(b), log.handled + [r]) == Amount(OfOrder(b), log.handled) + Weight(OfOrder(b), r)
    ensures log.emitted[..|log.handled| + 1] == log.handled + [r]
  {
    forall b ensures Amount(OfOrder(b), log.handled + [r]) == Amount(OfOrder(b), log.handled) + Weight(OfOrder(b), r) {
      AmountSnoc(OfOrder(b), log.handled, r);
    }
  }

  /** The mapped order of a report is the order the gateway accepted under that broker id. */
  lemma MappedOrder(t: Table, ids: IdMap, log: Log, b: BrokerId)
    requires RecordsLinked(t, ids, log, None) && b in ids.toLocal
    ensures var l := ids.toLocal[b];
            l in ids.toBroker && ids.toBroker[l] == b && l in t && b in log.accepted && log.accepted[b].id == l && t[l].order == log.accepted[b]
  {
    hide Amount;
  }

  /** The manager completes an order on exactly the report that the gateway called final. */
  lemma CompletionAgrees(t: Table, ids: IdMap, gw: Paper.Gateway, log: Log, r: Report)
    requires RecordsLinked(t, ids, log, None) && GatewayBooks(gw, log) && NextReport(log, r) && r.broker in ids.toLocal
    ensures ids.toLocal[r.broker] in t
    ensures FullyFilled(t[ids.toLocal[r.broker]], r) <==> log.finals[|log.handled|]
  {
    hide Amount;
    MappedOrder(t, ids, log, r.broker);
    AmountAfter(log, r);
    assert Completes(log, |log.handled|) <==> log.finals[|log.handled|];
  }

  lemma ApplyKeepsRecords(t: Table, ids: IdMap, log: Log, r: Report, status: OrderStatus)
    requires RecordsLinked(t, ids, log, None) && NextReport(log, r) && r.broker in ids.toLocal
    requires ids.toLocal[r.broker] in t && !Withdrawn(t[ids.toLocal[r.broker]].status)
    ensures var l := ids.toLocal[r.broker];
            RecordsLinked(t[l := FilledRow(t[l], r.quantity, r.price, status)], ids, Applied(log, r), None)
  {
    hide Amount, BlendedAverage, Inverse;
    var l := ids.toLocal[r.broker];
    MappedOrder(t, ids, log, r.broker);
    AmountAfter(log, r);
    InverseMeans(ids);
    OtherBrokers(t, ids, log, l);
  }

  lemma InverseMeans(ids: IdMap)
    requires Inverse(ids)
    ensures forall l :: l in ids.toBroker ==> ids.toBroker[l] in ids.toLocal && ids.toLocal[ids.toBroker[l]] == l
    ensures forall b :: b in ids.toLocal ==> ids.toLocal[b] in ids.toBroker && ids.toBroker[ids.toLocal[b]] == b
  {
  }

  lemma OtherBrokers(t: Table, ids: IdMap, log: Log, l: LocalId)
    requires RowsAccepted(t, log, None) && l in t && t[l].broker.Some?
    ensures forall k :: k in t && k != l ==> t[k].broker != t[l].broker
  {
  }

  /** Dropping the mapping of an order whose last report has just been applied. */
  lemma CompleteKeepsRecords(t: Table, ids: IdMap, log: Log, l: LocalId)
    requires RecordsLinked(t, ids, log, None) && l in ids.toBroker && l in t
    requires t[l].status == Filled && t[l].filled >= t[l].order.quantity
    ensures RecordsLinked(t, Remove(ids, l), log, None)
  {
    hide Amount;
    RemoveKeepsInverse(ids, l);
  }

  lemma ApplyKeepsPending(t: Table, ids: IdMap, gw: Paper.Gateway, log: Log, r: Report, status: OrderStatus)
    requires PendingLinked(t, ids, gw, log, None, None) && r.broker in ids.toLocal && ids.toLocal[r.broker] in t
    ensures var l := ids.toLocal[r.broker];
            PendingLinked(t[l := FilledRow(t[l], r.quantity, r.price, status)], ids, gw, Applied(log, r), None, None)
  {
    hide Amount, BlendedAverage;
  }

  lemma CompleteKeepsPending(t: Table, ids: IdMap, gw: Paper.Gateway, log: Log, l: LocalId)
    requires PendingLinked(t, ids, gw, log, None, None) && l in ids.toBroker && ids.toBroker[l] !in gw.pending
    ensures PendingLinked(t, Remove(ids, l), gw, log, None, None)
  {
    hide Amount;
  }

  lemma ApplyKeepsLinks(m: Manager, gw: Paper.Gateway, log: Log, r: Report)
    requires Linked(m.table, m.ids, gw, log, None, None) && GatewayBooks(gw, log) && NextReport(log, r)
    requires MappedWorks(m) && r.broker in m.ids.toLocal && !EndsOrder(r.status)
    ensures var n := DoExecution(m, r, true, true); Linked(n.table, n.ids, gw, Applied(log, r), None, None)
  {
    hide GatewayBooks, RecordsLinked, PendingLinked, BlendedAverage;
    MappedOrder(m.table, m.ids, log, r.broker);
    var l := m.ids.toLocal[r.broker];
    var full := FullyFilled(m.table[l], r);
    var status := if full then Filled else PartiallyFilled;
    var t := m.table[l := FilledRow(m.table[l], r.quantity, r.price, status)];
    assert !Withdrawn(m.table[l].status);
    ApplyKeepsRecords(m.table, m.ids, log, r, status);
    ApplyKeepsPending(m.table, m.ids, gw, log, r, status);
    if full {
      CompletionAgrees(m.table, m.ids, gw, log, r);
      FinalNotPending(gw, log, r);
      CompleteKeepsRecords(t, m.ids, Applied(log, r), l);
      CompleteKeepsPending(t, m.ids, gw, Applied(log, r), l);
    }
  }

  lemma FinalNotPending(gw: Paper.Gateway, log: Log, r: Report)
    requires GatewayBooks(gw, log) && NextReport(log, r) && log.finals[|log.handled|]
    ensures r.broker !in gw.pending
  {
    hide Amount;
  }

  /** A report without a mapped order belongs to an order that was withdrawn, never to a filled or rejected one. */
  lemma UnmappedIsWithdrawn(t: Table, ids: IdMap, gw: Paper.Gateway, log: Log, r: Report)
    requires RecordsLinked(t, ids, log, None) && GatewayBooks(gw, log) && NextReport(log, r) && r.broker !in ids.toLocal
    ensures r.broker in log.accepted && Owns(t, log.accepted[r.broker], r.broker)
    ensures Withdrawn(t[log.accepted[r.broker].id].status)
  {
    hide Amount;
    var n := |log.handled|;
    assert FromOrder(log.emitted[n], log.accepted);
    var l := log.accepted[r.broker].id;
    assert Owns(t, log.accepted[r.broker], r.broker);
    assert l !in ids.toBroker by { InverseMeans(ids); }
    if !Withdrawn(t[l].status) {
      CompletedByFinal(log, r.broker, n);
      assert false;
    }
  }

  lemma DropKeepsLinks(t: Table, ids: IdMap, gw: Paper.Gateway, log: Log, r: Report)
    requires Linked(t, ids, gw, log, None, None) && GatewayBooks(gw, log) && NextReport(log, r) && r.broker !in ids.toLocal
    ensures Linked(t, ids, gw, Dropped(log, r), None, None)
  {
    hide Amount, GatewayBooks;
    UnmappedIsWithdrawn(t, ids, gw, log, r);
    AmountAfter(log, r);
    NextIsPositive(gw, log, r);
  }

  lemma NextIsPositive(gw: Paper.Gateway, log: Log, r: Report)
    requires GatewayBooks(gw, log) && NextReport(log, r)
    ensures FromOrder(r, log.accepted)
  {
  }
}
