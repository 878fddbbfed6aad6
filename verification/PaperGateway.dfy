// The paper gateway: a table of pending orders that a simulation thread fills at random.
module Paper {
  import opened Base
  import Ids = IdGenerator

  datatype Pending = Pending(order: Order, filled: real)

  datatype Gateway = Gateway(pending: map<BrokerId, Pending>, nextId: nat)

  const EMPTY_GATEWAY := Gateway(map[], 0)

  const PREFIX := "BROKER"

  function NewBrokerId(g: Gateway, clock: int): BrokerId { Ids.NthId(PREFIX, clock, g.nextId) }

  function AcceptOrder(g: Gateway, order: Order, clock: int): Gateway {
    Gateway(g.pending[NewBrokerId(g, clock) := Pending(order, 0.0)], g.nextId + 1)
  }

  function CancelOrder(g: Gateway, b: BrokerId): Gateway {
    g.(pending := g.pending - {b})
  }

  function ReplaceOrder(g: Gateway, b: BrokerId, order: Order, clock: int): Gateway {
    AcceptOrder(CancelOrder(g, b), order, clock)
  }

  /** What the dice decide for one order in one poll; any fraction at all is allowed. */
  datatype Dice = Skip | FillAll | FillPart(fraction: real)

  function Share(remaining: real, fraction: real): real { remaining * fraction }

  function FillQuantity(remaining: real, d: Dice): real {
    match d
    case Skip => 0.0
    case FillAll => remaining
    case FillPart(fraction) =>
      var part := Share(remaining, fraction).Floor as real;
      var atLeastOne := if part < 1.0 then 1.0 else part;
      if atLeastOne <= remaining then atLeastOne else remaining
  }

  function AfterFill(p: Pending, d: Dice): Pending {
    p.(filled := p.filled + FillQuantity(p.order.quantity - p.filled, d))
  }

  predicate Done(p: Pending) { p.filled >= p.order.quantity }

  function ReportFor(b: BrokerId, p: Pending, d: Dice, price: real): Report {
    Report(b, p.order.symbol, p.order.side, FillQuantity(p.order.quantity - p.filled, d), price, "", NewReport)
  }

  /** One order of one poll: the gateway afterwards. */
  function FillOne(g: Gateway, b: BrokerId, d: Dice): Gateway {
    if b !in g.pending || d == Skip then g else
    var p := AfterFill(g.pending[b], d);
    g.(pending := if Done(p) then g.pending - {b} else g.pending[b := p])
  }

  // The life of one order -------------------------------------------------------

  /** The reports that a sequence of dice produces for one order until it is done. */
  function Fills(p: Pending, ds: seq<Dice>): seq<real>
    decreases |ds|
  {
    if ds == [] then []
    else if ds[0] == Skip then Fills(p, ds[1..])
    else
      var q := AfterFill(p, ds[0]);
      [q.filled - p.filled] + if Done(q) then [] else Fills(q, ds[1..])
  }

  /** Whether the order has left the table by being filled. */
  predicate Completed(p: Pending, ds: seq<Dice>)
    decreases |ds|
  {
    ds != [] &&
    if ds[0] == Skip then Completed(p, ds[1..])
    else Done(AfterFill(p, ds[0])) || Completed(AfterFill(p, ds[0]), ds[1..])
  }

  function Sum(xs: seq<real>): real { if xs == [] then 0.0 else xs[0] + Sum(xs[1..]) }

  function Ceiling(x: real): int { -((-x).Floor) }

  lemma FillIsPositive(remaining: real, d: Dice)
    requires remaining > 0.0 && d != Skip
    ensures 0.0 < FillQuantity(remaining, d) <= remaining
    ensures FillQuantity(remaining, d) < remaining ==> FillQuantity(remaining, d) >= 1.0
  {
  }

  lemma FillFollowsShare(remaining: real, fraction: real, k: int)
    requires remaining > 0.0 && k as real <= Share(remaining, fraction) < k as real + 1.0
    ensures var q := FillQuantity(remaining, FillPart(fraction));
            && (remaining <= 1.0 ==> q == remaining)
            && (remaining > 1.0 && k <= 1 ==> q == 1.0)
            && (1 < k && k as real <= remaining ==> q == k as real)
            && (1 < k && remaining < k as real ==> q == remaining)
  {
    hide Share;
    assert Share(remaining, fraction).Floor == k;
  }

  /** A full fill takes all that is left; a partial one takes the fraction rounded down to whole shares, but at least one
      share, and never more than what is left. */
  lemma FillFollowsDice(remaining: real, fraction: real, k: int)
    requires remaining > 0.0 && k as real <= remaining * fraction < k as real + 1.0
    ensures FillQuantity(remaining, FillAll) == remaining && FillQuantity(remaining, Skip) == 0.0
    ensures var q := FillQuantity(remaining, FillPart(fraction));
            && (remaining <= 1.0 ==> q == remaining)
            && (remaining > 1.0 && k <= 1 ==> q == 1.0)
            && (1 < k && k as real <= remaining ==> q == k as real)
            && (1 < k && remaining < k as real ==> q == remaining)
  {
    FillFollowsShare(remaining, fraction, k);
  }

  /** Whatever the dice say, the fills of an order are positive, never exceed what was left, add up to it
      exactly when the order completes, and number at most the remaining quantity rounded up. */
  lemma {:induction false} NeverOverfills(p: Pending, ds: seq<Dice>)
    requires !Done(p)
    ensures forall i :: 0 <= i < |Fills(p, ds)| ==> Fills(p, ds)[i] > 0.0
    ensures Sum(Fills(p, ds)) <= p.order.quantity - p.filled
    ensures Completed(p, ds) <==> Sum(Fills(p, ds)) == p.order.quantity - p.filled
    ensures |Fills(p, ds)| <= Ceiling(p.order.quantity - p.filled)
    decreases |ds|
  {
    if ds == [] {
    } else if ds[0] == Skip {
      NeverOverfills(p, ds[1..]);
    } else {
      var q := AfterFill(p, ds[0]);
      FillIsPositive(p.order.quantity - p.filled, ds[0]);
      var rest := if Done(q) then [] else Fills(q, ds[1..]);
      assert Fills(p, ds)[1..] == rest;
      if !Done(q) {
        NeverOverfills(q, ds[1..]);
        assert Ceiling(q.order.quantity - q.filled) + 1 <= Ceiling(p.order.quantity - p.filled);
      }
    }
  }

  // Prices ------------------------------------------------------------------------

  datatype Quote = Quote(bid: real, ask: real)

  function Around(mid: real, halfSpread: real): Quote { Quote(mid - halfSpread, mid + halfSpread) }

  function Mid(q: Quote): real { (q.bid + q.ask) / 2.0 }

  const INITIAL_QUOTE := Around(100.0, 100.0 * 0.00025)

  /** One step of the random walk, for any move. */
  function Advance(q: Quote, move: real): Quote {
    var mid := if Mid(q) + move > 0.01 then Mid(q) + move else 0.01;
    Around(mid, mid * (5.0 / 20000.0))
  }

  /** Market fills pay five basis points of slippage. */
  function MarketPrice(q: Quote, side: Side): real {
    var slippage := Mid(q) * (5.0 / 10000.0);
    if side == Buy then q.ask + slippage else q.bid - slippage
  }

  function Walk(moves: seq<real>): Quote {
    if moves == [] then INITIAL_QUOTE else Advance(Walk(moves[..|moves| - 1]), moves[|moves| - 1])
  }

  lemma WalkCentred(moves: seq<real>)
    ensures var q := Walk(moves);
            Mid(q) > 0.0 && q.ask == 1.00025 * Mid(q) && q.bid == 0.99975 * Mid(q)
  {
  }

  /** A move shifts the middle of the market, which never falls below one cent. */
  lemma WalkMoves(moves: seq<real>, move: real)
    ensures var mid := Mid(Walk(moves)) + move;
            Mid(Walk(moves + [move])) == if mid > 0.01 then mid else 0.01
  {
    assert (moves + [move])[..|moves + [move]| - 1] == moves;
  }

  /** A market fill costs half the spread of five basis points, and five more of slippage: a buyer pays 7.5 basis points
      above the middle of the market, a seller gets as much less. */
  lemma MarketFillCost(moves: seq<real>, side: Side)
    ensures var mid := Mid(Walk(moves));
            MarketPrice(Walk(moves), side) == if side == Buy then mid * 1.00075 else mid * 0.99925
  {
    WalkCentred(moves);
    hide Walk;
  }

  /** However the walk goes, every market fill has a positive price. */
  lemma MarketPricePositive(moves: seq<real>, side: Side)
    ensures MarketPrice(Walk(moves), side) > 0.0
  {
  }

  // The class -----------------------------------------------------------------------

  ghost function FillEach(g: Gateway, bs: seq<BrokerId>, dice: map<BrokerId, Dice>): Gateway {
    if bs == [] then g
    else
      var b := bs[|bs| - 1];
      FillOne(FillEach(g, bs[..|bs| - 1], dice), b, if b in dice then dice[b] else Skip)
  }

  lemma FillNone(g: Gateway, dice: map<BrokerId, Dice>)
    ensures FillEach(g, [], dice) == g
  {
  }

  lemma FillEachSnoc(g: Gateway, bs: seq<BrokerId>, b: BrokerId, dice: map<BrokerId, Dice>)
    ensures FillEach(g, bs + [b], dice) == FillOne(FillEach(g, bs, dice), b, if b in dice then dice[b] else Skip)
  {
    assert (bs + [b])[..|bs + [b]| - 1] == bs;
  }

  lemma SkipStep(g: Gateway, b: BrokerId)
    ensures FillOne(g, b, Skip) == g
  {
  }

  /** Marking a completed order and erasing it later is erasing it at once. */
  lemma PollStep(table: map<BrokerId, Pending>, completed: set<BrokerId>, n: nat, b: BrokerId, d: Dice)
    requires b in table && b !in completed && d != Skip
    ensures var p := AfterFill(table[b], d);
            var erased := if Done(p) then completed + {b} else completed;
            FillOne(Gateway(table - completed, n), b, d) == Gateway(table[b := p] - erased, n)
  {
    hide FillQuantity;
    var p := AfterFill(table[b], d);
    var left := table - completed;
    if Done(p) {
      assert left - {b} == table[b := p] - (completed + {b});
    } else {
      assert left[b := p] == table[b := p] - completed;
    }
  }

  class PaperGateway {
    var pendingOrders: map<BrokerId, Pending>
    const idGenerator: Ids.OrderIdGenerator

    ghost predicate Valid()
      reads this, idGenerator
    {
      idGenerator.Valid() && idGenerator.prefix == PREFIX
    }

    ghost function View(): Gateway
      reads this, idGenerator
    {
      Gateway(pendingOrders, idGenerator.calls)
    }

    constructor ()
      ensures Valid() && fresh(idGenerator) && View() == EMPTY_GATEWAY
    {
      pendingOrders := map[];
      idGenerator := new Ids.OrderIdGenerator(PREFIX);
    }

    method SubmitOrder(order: Order, clock: int, rejected: bool) returns (r: Outcome<BrokerId>)
      requires Valid()
      modifies this, idGenerator
      ensures Valid()
      ensures r == if rejected then Err(GatewayRefused) else Ok(NewBrokerId(old(View()), clock))
      ensures View() == if rejected then old(View()) else AcceptOrder(old(View()), order, clock)
    {
      if rejected { return Err(GatewayRefused); }
      var b := idGenerator.Generate(clock);
      pendingOrders := pendingOrders[b := Pending(order, 0.0)];
      r := Ok(b);
    }

    method CancelPending(b: BrokerId)
      requires Valid()
      modifies this
      ensures Valid() && View() == CancelOrder(old(View()), b)
    {
      pendingOrders := pendingOrders - {b};
    }

    method Replace(b: BrokerId, order: Order, clock: int, rejected: bool) returns (r: Outcome<BrokerId>)
      requires Valid()
      modifies this, idGenerator
      ensures Valid()
      ensures r == if rejected then Err(GatewayRefused) else Ok(NewBrokerId(old(View()), clock))
      ensures View() == if rejected then old(View()) else ReplaceOrder(old(View()), b, order, clock)
    {
      if rejected { return Err(GatewayRefused); }
      var newBroker := idGenerator.Generate(clock);
      pendingOrders := pendingOrders - {b};
      pendingOrders := pendingOrders[newBroker := Pending(order, 0.0)];
      r := Ok(newBroker);
    }

    /** One poll over all pending orders, in any order; completed orders leave the table at the end. */
    method SimulateFills(dice: map<BrokerId, Dice>, prices: map<BrokerId, real>) returns (reports: seq<Report>, ghost visited: seq<BrokerId>)
      requires Valid()
      requires forall b :: b in pendingOrders ==> b in prices
      modifies this
      ensures Valid()
      ensures View() == FillEach(old(View()), visited, dice)
      ensures forall b :: b in visited <==> b in old(pendingOrders)
      ensures forall i, j :: 0 <= i < j < |visited| ==> visited[i] != visited[j]
      ensures reports == ReportsOf(old(pendingOrders), visited, dice, prices)
    {
      hide FillQuantity, AfterFill, ReportFor, Done, FillOne, FillEach, ReportsOf;
      ghost var start := pendingOrders;
      ghost var g0 := View();
      FillNone(g0, dice);
      assert start - {} == start;
      NoReports(start, dice, prices);
      var rest := pendingOrders.Keys;
      var table := pendingOrders;
      var completed: set<BrokerId> := {};
      reports, visited := [], [];
      while rest != {}
        invariant pendingOrders == start == old(pendingOrders) && forall b :: b in start.Keys ==> b in prices
        invariant rest <= pendingOrders.Keys && table.Keys == pendingOrders.Keys
        invariant completed <= pendingOrders.Keys - rest
        invariant forall b :: b in visited <==> b in start.Keys && b !in rest
        invariant forall i, j :: 0 <= i < j < |visited| ==> visited[i] != visited[j]
        invariant forall b :: b in rest ==> table[b] == pendingOrders[b]
        invariant Gateway(table - completed, View().nextId) == FillEach(g0, visited, dice)
        invariant View().nextId == g0.nextId
        invariant reports == ReportsOf(start, visited, dice, prices)
        decreases |rest|
      {
        var b :| b in rest;
        rest := rest - {b};
        var d := if b in dice then dice[b] else Skip;
        SkipStep(Gateway(table - completed, View().nextId), b);
        if d != Skip {
          PollStep(table, completed, View().nextId, b, d);
          var p := AfterFill(table[b], d);
          reports := reports + [ReportFor(b, table[b], d, prices[b])];
          table := table[b := p];
          if Done(p) { completed := completed + {b}; }
        }
        FillEachSnoc(g0, visited, b, dice);
        ReportsSnoc(start, visited, b, dice, prices);
        visited := visited + [b];
      }
      pendingOrders := table - completed;
    }
  }

  /** The reports of one poll, in visiting order. */
  function ReportsOf(table: map<BrokerId, Pending>, bs: seq<BrokerId>, dice: map<BrokerId, Dice>, prices: map<BrokerId, real>): seq<Report>
    requires forall b :: b in bs ==> b in table && b in prices
  {
    if bs == [] then [] else
    var b := bs[|bs| - 1];
    var before := ReportsOf(table, bs[..|bs| - 1], dice, prices);
    if b !in dice || dice[b] == Skip then before else before + [ReportFor(b, table[b], dice[b], prices[b])]
  }

  lemma NoReports(table: map<BrokerId, Pending>, dice: map<BrokerId, Dice>, prices: map<BrokerId, real>)
    ensures ReportsOf(table, [], dice, prices) == []
  {
  }

  lemma ReportsSnoc(table: map<BrokerId, Pending>, bs: seq<BrokerId>, b: BrokerId, dice: map<BrokerId, Dice>, prices: map<BrokerId, real>)
    requires (forall c :: c in bs ==> c in table && c in prices) && b in table && b in prices
    ensures ReportsOf(table, bs + [b], dice, prices)
         == ReportsOf(table, bs, dice, prices)
            + if b !in dice || dice[b] == Skip then [] else [ReportFor(b, table[b], dice[b], prices[b])]
  {
    assert (bs + [b])[..|bs + [b]| - 1] == bs;
  }

  /** What a poll reports: orders that were pending, with their symbol and side, at the price drawn for them, and for
      exactly what the poll added to their filled quantity. */
  lemma {:induction false} PollReports(table: map<BrokerId, Pending>, bs: seq<BrokerId>, dice: map<BrokerId, Dice>, prices: map<BrokerId, real>)
    requires forall b :: b in bs ==> b in table && b in prices
    ensures forall r :: r in ReportsOf(table, bs, dice, prices) ==>
              && r.broker in bs && r.broker in dice
              && r.symbol == table[r.broker].order.symbol && r.side == table[r.broker].order.side
              && r.price == prices[r.broker]
              && r.quantity == AfterFill(table[r.broker], dice[r.broker]).filled - table[r.broker].filled
              && r.status != RejectedReport && r.status != CancelledReport
    ensures forall b :: b in bs && b in dice && dice[b] != Skip ==> exists r :: r in ReportsOf(table, bs, dice, prices) && r.broker == b
  {
    hide FillQuantity;
    if bs != [] {
      var front, b := bs[..|bs| - 1], bs[|bs| - 1];
      PollReports(table, front, dice, prices);
      assert bs == front + [b];
      var before, all := ReportsOf(table, front, dice, prices), ReportsOf(table, bs, dice, prices);
      if b in dice && dice[b] != Skip {
        assert all == before + [ReportFor(b, table[b], dice[b], prices[b])];
        assert all[|before|].broker == b && all[|before|] in all;
      }
      forall c | c in bs && c in dice && dice[c] != Skip ensures exists r :: r in all && r.broker == c {
        if c in front {
          var r :| r in before && r.broker == c;
          assert r in all;
        }
      }
    }
  }
}
