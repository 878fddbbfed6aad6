// What the gateway's own table says about the reports it has emitted.
module GatewayLedger {
  import opened Base
  import opened Manager
  import opened TradingSystem
  import opened Paper
  import Ids = IdGenerator

  /** The broker ids handed out so far carry smaller counters than the next one. */
  ghost predicate KnownOrders(gw: Gateway, log: Log) {
    forall b :: b in log.accepted ==> Ids.CounterOf(b) < gw.nextId
  }

  predicate FromOrder(r: Report, accepted: map<BrokerId, Order>) {
    && r.broker in accepted
    && r.symbol == accepted[r.broker].symbol && r.side == accepted[r.broker].side
    && r.quantity > 0.0 && !EndsOrder(r.status)
  }

  ghost predicate KnownReports(log: Log) {
    forall i :: 0 <= i < |log.emitted| ==> FromOrder(log.emitted[i], log.accepted)
  }

  /** A pending order has exactly what its reports say, and something left. */
  ghost predicate PendingMatches(gw: Gateway, log: Log) {
    forall b :: b in gw.pending ==>
      && b in log.accepted
      && gw.pending[b].order == log.accepted[b]
      && gw.pending[b].filled == Amount(OfOrder(b), log.emitted) < log.accepted[b].quantity
  }

  ghost predicate NoOverfill(log: Log) {
    forall b :: b in log.accepted ==> log.accepted[b].quantity > 0.0 && Amount(OfOrder(b), log.emitted) <= log.accepted[b].quantity
  }

  /** Report i completes its order. */
  ghost predicate Completes(log: Log, i: int)
    requires 0 <= i < |log.emitted| && log.emitted[i].broker in log.accepted
  {
    Amount(OfOrder(log.emitted[i].broker), log.emitted[..i + 1]) >= log.accepted[log.emitted[i].broker].quantity
  }

  /** The gateway called a report final exactly when it completes its order. */
  ghost predicate FinalsComplete(log: Log)
    requires KnownReports(log)
  {
    |log.finals| == |log.emitted| && forall i :: 0 <= i < |log.emitted| ==> (log.finals[i] <==> Completes(log, i))
  }

  /** After its final report an order is neither pending nor reported again. */
  ghost predicate FinalsLast(gw: Gateway, log: Log) {
    && |log.finals| == |log.emitted|
    && (forall i :: 0 <= i < |log.emitted| && log.finals[i] ==> log.emitted[i].broker !in gw.pending)
    && (forall i, j :: 0 <= i < j < |log.emitted| && log.finals[i] ==> log.emitted[j].broker != log.emitted[i].broker)
  }

  ghost predicate GatewayBooks(gw: Gateway, log: Log) {
    && KnownOrders(gw, log) && KnownReports(log) && PendingMatches(gw, log) && NoOverfill(log)
    && FinalsComplete(log) && FinalsLast(gw, log)
  }

  // Steps ---------------------------------------------------------------------------

  lemma BooksIgnoreManager(gw: Gateway, log: Log, log': Log)
    requires GatewayBooks(gw, log)
    requires log'.emitted == log.emitted && log'.finals == log.finals && log'.accepted == log.accepted
    ensures GatewayBooks(gw, log')
  {
    forall i | 0 <= i < |log.emitted| ensures Completes(log', i) == Completes(log, i) {}
  }

  lemma CancelKeepsBooks(gw: Gateway, log: Log, b: BrokerId)
    requires GatewayBooks(gw, log)
    ensures GatewayBooks(CancelOrder(gw, b), log)
  {
  }

  lemma NewBrokerIdCounter(gw: Gateway, clock: int)
    requires gw.nextId < Ids.COUNTER_RANGE
    ensures Ids.CounterOf(NewBrokerId(gw, clock)) == gw.nextId
  {
    hide Ids.NthId, Ids.CounterOf;
    Ids.NthIdCounter(Paper.PREFIX, clock, gw.nextId);
  }

  lemma FreshBrokerId(gw: Gateway, log: Log, clock: int)
    requires KnownOrders(gw, log) && KnownReports(log) && gw.nextId < Ids.COUNTER_RANGE
    ensures var b := NewBrokerId(gw, clock);
            b !in log.accepted && b !in Brokers(log.emitted) && Amount(OfOrder(b), log.emitted) == 0.0
  {
    hide NewBrokerId;
    NewBrokerIdCounter(gw, clock);
    AmountOfStranger(NewBrokerId(gw, clock), log.emitted);
  }

  function Brokers(rs: seq<Report>): set<BrokerId> { set i | 0 <= i < |rs| :: rs[i].broker }

  lemma AcceptKeepsBooks(gw: Gateway, log: Log, order: Order, clock: int)
    requires GatewayBooks(gw, log) && gw.nextId < Ids.COUNTER_RANGE && order.quantity > 0.0
    ensures var b := NewBrokerId(gw, clock);
            GatewayBooks(AcceptOrder(gw, order, clock), log.(accepted := log.accepted[b := order]))
  {
    hide NewBrokerId, Amount;
    var b := NewBrokerId(gw, clock);
    NewBrokerIdCounter(gw, clock);
    FreshBrokerId(gw, log, clock);
    AcceptKeepsFinals(gw, log, order, b, AcceptOrder(gw, order, clock));
  }

  lemma AcceptKeepsFinals(gw: Gateway, log: Log, order: Order, b: BrokerId, gw': Gateway)
    requires KnownReports(log) && FinalsComplete(log) && FinalsLast(gw, log)
    requires b !in log.accepted && b !in Brokers(log.emitted)
    requires gw'.pending.Keys == gw.pending.Keys + {b}
    ensures var log' := log.(accepted := log.accepted[b := order]);
            KnownReports(log') && FinalsComplete(log') && FinalsLast(gw', log')
  {
    hide Amount;
    var log' := log.(accepted := log.accepted[b := order]);
    assert KnownReports(log');
    forall i | 0 <= i < |log.emitted| ensures Completes(log', i) == Completes(log, i) {}
  }

  /** The log after the gateway filled part of b. */
  function FillLog(gw: Gateway, log: Log, b: BrokerId, d: Dice, price: real): Log
    requires b in gw.pending
  {
    log.(emitted := log.emitted + [ReportFor(b, gw.pending[b], d, price)],
         finals := log.finals + [Done(AfterFill(gw.pending[b], d))])
  }

  lemma FillAmount(gw: Gateway, log: Log, b: BrokerId, d: Dice, price: real, c: BrokerId)
    requires b in gw.pending && d != Skip && PendingMatches(gw, log)
    ensures Amount(OfOrder(c), FillLog(gw, log, b, d, price).emitted)
         == if c == b then AfterFill(gw.pending[b], d).filled else Amount(OfOrder(c), log.emitted)
  {
    hide FillQuantity, Amount;
    AmountSnoc(OfOrder(c), log.emitted, ReportFor(b, gw.pending[b], d, price));
  }

  lemma FillFits(gw: Gateway, log: Log, b: BrokerId, d: Dice, price: real)
    requires b in gw.pending && d != Skip && PendingMatches(gw, log)
    ensures FromOrder(ReportFor(b, gw.pending[b], d, price), log.accepted)
    ensures AfterFill(gw.pending[b], d).filled <= log.accepted[b].quantity
  {
    hide FillQuantity, Amount;
    FillIsPositive(gw.pending[b].order.quantity - gw.pending[b].filled, d);
  }

  lemma SnocPrefix(rs: seq<Report>, r: Report, n: nat)
    requires n <= |rs|
    ensures (rs + [r])[..n] == rs[..n]
  {
  }

  lemma FillKeepsFinals(gw: Gateway, log: Log, b: BrokerId, d: Dice, price: real)
    requires GatewayBooks(gw, log) && b in gw.pending && d != Skip
    ensures var log' := FillLog(gw, log, b, d, price);
            KnownReports(log') && FinalsComplete(log') && FinalsLast(FillOne(gw, b, d), log')
  {
    hide FillQuantity, Amount;
    var log', n, r := FillLog(gw, log, b, d, price), |log.emitted|, ReportFor(b, gw.pending[b], d, price);
    FillFits(gw, log, b, d, price);
    FillAmount(gw, log, b, d, price, b);
    assert KnownReports(log');
    assert log'.emitted[..n + 1] == log'.emitted;
    assert Completes(log', n) == Done(AfterFill(gw.pending[b], d));
    forall i | 0 <= i < n ensures Completes(log', i) == Completes(log, i) {
      SnocPrefix(log.emitted, r, i + 1);
    }
  }

  lemma FillKeepsBooks(gw: Gateway, log: Log, b: BrokerId, d: Dice, price: real)
    requires GatewayBooks(gw, log) && b in gw.pending && d != Skip
    ensures GatewayBooks(FillOne(gw, b, d), FillLog(gw, log, b, d, price))
  {
    hide FillQuantity, Amount, FinalsComplete, FinalsLast;
    FillFits(gw, log, b, d, price);
    FillKeepsFinals(gw, log, b, d, price);
    forall c | c in log.accepted
      ensures Amount(OfOrder(c), FillLog(gw, log, b, d, price).emitted)
           == if c == b then AfterFill(gw.pending[b], d).filled else Amount(OfOrder(c), log.emitted)
    {
      FillAmount(gw, log, b, d, price, c);
    }
  }

  // Consequences ----------------------------------------------------------------------

  /** If the first n reports already complete an order, a final report is among them. */
  lemma {:induction false} CompletedByFinal(log: Log, b: BrokerId, n: nat)
    requires KnownReports(log) && FinalsComplete(log) && NoOverfill(log) && b in log.accepted && n <= |log.emitted|
    requires Amount(OfOrder(b), log.emitted[..n]) >= log.accepted[b].quantity
    ensures exists i :: 0 <= i < n && log.finals[i] && log.emitted[i].broker == b
  {
    if n > 0 {
      var i := n - 1;
      assert log.emitted[..n] == log.emitted[..i] + [log.emitted[i]];
      AmountSnoc(OfOrder(b), log.emitted[..i], log.emitted[i]);
      if log.emitted[i].broker == b {
        assert Completes(log, i);
      } else {
        CompletedByFinal(log, b, i);
      }
    }
  }
}
