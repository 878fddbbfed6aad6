// Average-cost position arithmetic.
module Positions {
  import opened Base
  import opened MapSums

  datatype Position = Position(quantity: real, average: real, realized: real)

  const FLAT := Position(0.0, 0.0, 0.0)

  /** One fill of a given side; the signed quantity is positive for a buy. */
  datatype Trade = Trade(side: Side, quantity: real, price: real)

  function Abs(x: real): real { if x < 0.0 then -x else x }

  function Min(x: real, y: real): real { if x <= y then x else y }

  predicate Opposite(x: real, y: real) { (x > 0.0 && y < 0.0) || (x < 0.0 && y > 0.0) }

  lemma ProductSign(x: real, y: real)
    ensures x * y < 0.0 <==> Opposite(x, y)
  {
    if x == 0.0 || y == 0.0 {
      assert x * y == 0.0;
    } else if (x > 0.0) == (y > 0.0) {
      assert x * y > 0.0;
    }
  }

  /** What closing part of a position at `price` earns. */
  function RealizedBy(p: Position, signed: real, price: real): real {
    if price > 0.0 && Opposite(p.quantity, signed) then
      var closed := Min(Abs(p.quantity), Abs(signed));
      if p.quantity > 0.0 then (price - p.average) * closed else (p.average - price) * closed
    else 0.0
  }

  /** The weighted average of a position and an addition to it. */
  function Blended(quantity: real, average: real, signed: real, price: real): real
    requires quantity + signed != 0.0
  {
    (quantity * average + signed * price) / (quantity + signed)
  }

  function AverageAfter(p: Position, signed: real, price: real): real {
    var newQuantity := p.quantity + signed;
    if price <= 0.0 then p.average
    else if newQuantity == 0.0 then 0.0
    else if p.quantity == 0.0 then price
    else if Opposite(p.quantity, newQuantity) then price
    else if (p.quantity > 0.0 && signed > 0.0) || (p.quantity < 0.0 && signed < 0.0) then
      Blended(p.quantity, p.average, signed, price)
    else p.average
  }

  /** The position after buying (or, if negative, selling) a signed quantity. */
  function Step(p: Position, signed: real, price: real): Position {
    Position(p.quantity + signed, AverageAfter(p, signed, price), p.realized + RealizedBy(p, signed, price))
  }

  /** The position after a fill. A fill without a positive quantity is ignored. */
  function OnFill(p: Position, t: Trade): Position {
    if t.quantity <= 0.0 then p else Step(p, Signed(t.side, t.quantity), t.price)
  }

  function AfterFills(p: Position, ts: seq<Trade>): Position {
    if ts == [] then p else OnFill(AfterFills(p, ts[..|ts| - 1]), ts[|ts| - 1])
  }

  // What one fill does -----------------------------------------------------

  /** Only a buy raises the quantity; a fill without a positive quantity changes nothing. */
  lemma FillDirection(p: Position, t: Trade)
    ensures t.quantity <= 0.0 ==> OnFill(p, t) == p
    ensures t.quantity > 0.0 && t.side == Buy ==> OnFill(p, t).quantity == p.quantity + t.quantity
    ensures t.quantity > 0.0 && t.side != Buy ==> OnFill(p, t).quantity == p.quantity - t.quantity
  {
  }

  /** The fill goes against the position held. */
  predicate Against(p: Position, t: Trade) {
    t.quantity > 0.0 && ((p.quantity > 0.0 && t.side != Buy) || (p.quantity < 0.0 && t.side == Buy))
  }

  /** A priced fill against the position realizes the price difference on what it closes: on its own quantity while some
      of the position is left, and on the whole position when it goes flat or crosses. The average stays, becomes zero, or
      becomes the price. */
  lemma ClosingFill(p: Position, t: Trade)
    requires Against(p, t) && t.price > 0.0
    ensures var n := OnFill(p, t);
            var held := if p.quantity > 0.0 then p.quantity else -p.quantity;
            var gain := if p.quantity > 0.0 then t.price - p.average else p.average - t.price;
            && (t.quantity < held ==> n.average == p.average && n.realized == p.realized + gain * t.quantity)
            && (t.quantity == held ==> n.average == 0.0 && n.realized == p.realized + gain * held)
            && (t.quantity > held ==> n.average == t.price && n.realized == p.realized + gain * held)
  {
    assert Opposite(p.quantity, Signed(t.side, t.quantity));
  }

  /** A priced fill that opens or adds realizes nothing; opening takes the price, adding the weighted average. */
  lemma OpeningFill(p: Position, t: Trade)
    requires t.quantity > 0.0 && !Against(p, t) && t.price > 0.0
    ensures var n := OnFill(p, t);
            && n.realized == p.realized
            && (p.quantity == 0.0 ==> n.average == t.price)
            && n.quantity != 0.0
            && n.average == (p.quantity * p.average + (if t.side == Buy then t.quantity else -t.quantity) * t.price) / n.quantity
  {
    var signed := Signed(t.side, t.quantity);
    assert !Opposite(p.quantity, signed);
    if p.quantity == 0.0 {
      assert p.quantity * p.average == 0.0;
      assert signed * t.price / signed == t.price;
    }
  }

  /** A fill without a price moves the quantity only. */
  lemma UnpricedFill(p: Position, t: Trade)
    requires t.price <= 0.0
    ensures OnFill(p, t).average == p.average && OnFill(p, t).realized == p.realized
  {
  }

  // Cash conservation -------------------------------------------------------

  /** Money tied up in the position and not yet earned back. */
  function Basis(p: Position): real { p.quantity * p.average - p.realized }

  lemma FlatBasis()
    ensures Basis(FLAT) == 0.0
  {
  }

  /** Signed quantity of a fill as the keeper counts it. */
  function Net(t: Trade): real { if t.quantity <= 0.0 then 0.0 else Signed(t.side, t.quantity) }

  /** Cash that a fill moves; one without a price counts at the average then held. */
  function Cash(p: Position, t: Trade): real {
    Net(t) * if t.price > 0.0 then t.price else p.average
  }

  lemma OnFillQuantity(p: Position, t: Trade)
    ensures OnFill(p, t).quantity == p.quantity + Net(t)
  {
    hide AverageAfter, RealizedBy;
  }

  function CashOf(p: Position, ts: seq<Trade>): real {
    if ts == [] then 0.0
    else var before := ts[..|ts| - 1]; CashOf(p, before) + Cash(AfterFills(p, before), ts[|ts| - 1])
  }

  function NetOf(ts: seq<Trade>): real {
    if ts == [] then 0.0 else NetOf(ts[..|ts| - 1]) + Net(ts[|ts| - 1])
  }

  function PricedCash(ts: seq<Trade>): real {
    if ts == [] then 0.0 else PricedCash(ts[..|ts| - 1]) + Net(ts[|ts| - 1]) * ts[|ts| - 1].price
  }

  lemma FillConservesCash(p: Position, t: Trade)
    ensures Basis(OnFill(p, t)) == Basis(p) + Cash(p, t)
  {
    if t.quantity > 0.0 && t.price > 0.0 {
      var signed := Signed(t.side, t.quantity);
      var q := p.quantity + signed;
      if Opposite(p.quantity, signed) {
        ReductionConservesCash(p, signed, t.price);
      } else if p.quantity != 0.0 {
        var n := p.quantity * p.average + signed * t.price;
        assert q != 0.0 && q * (n / q) == n;
      }
    }
  }

  lemma ReductionConservesCash(p: Position, signed: real, price: real)
    requires price > 0.0 && Opposite(p.quantity, signed)
    ensures (p.quantity + signed) * AverageAfter(p, signed, price) - RealizedBy(p, signed, price)
         == p.quantity * p.average + signed * price
  {
  }

  /** quantity x average - realized is the sum of all signed cash, through opens, adds, reductions and flips. */
  lemma {:induction false} FillsConserveCash(p: Position, ts: seq<Trade>)
    ensures Basis(AfterFills(p, ts)) == Basis(p) + CashOf(p, ts)
    ensures AfterFills(p, ts).quantity == p.quantity + NetOf(ts)
  {
    if ts != [] {
      var before := ts[..|ts| - 1];
      FillsConserveCash(p, before);
      FillConservesCash(AfterFills(p, before), ts[|ts| - 1]);
    }
  }

  lemma {:induction false} PricedFillsCash(p: Position, ts: seq<Trade>)
    requires forall t :: t in ts ==> t.price > 0.0
    ensures CashOf(p, ts) == PricedCash(ts)
  {
    if ts != [] { PricedFillsCash(p, ts[..|ts| - 1]); }
  }

  /** Round trips: whenever priced fills bring a fresh position back to flat, its profit is its cash flow. */
  lemma FlatProfitIsCashFlow(ts: seq<Trade>)
    requires forall t :: t in ts ==> t.price > 0.0
    requires NetOf(ts) == 0.0
    ensures AfterFills(FLAT, ts).realized == -PricedCash(ts)
  {
    FillsConserveCash(FLAT, ts);
    PricedFillsCash(FLAT, ts);
  }

  // Split invariance --------------------------------------------------------

  lemma TwoPieces(p: Position, side: Side, a: real, b: real, price: real)
    requires a > 0.0 && b > 0.0
    ensures OnFill(OnFill(p, Trade(side, a, price)), Trade(side, b, price)) == OnFill(p, Trade(side, a + b, price))
  {
    var s, t := Signed(side, a), Signed(side, b);
    if price > 0.0 { PiecesJoin(p, s, t, price); }
  }

  ghost predicate SameSign(x: real, y: real) { (x > 0.0 && y > 0.0) || (x < 0.0 && y < 0.0) }

  lemma BlendTwice(q: real, a: real, s: real, t: real, price: real)
    requires q + s != 0.0 && q + s + t != 0.0
    ensures Blended(q + s, Blended(q, a, s, price), t, price) == Blended(q, a, s + t, price)
  {
    var n := q * a + s * price;
    assert (q + s) * (n / (q + s)) == n;
    assert n + t * price == q * a + (s + t) * price;
  }

  lemma BlendSame(q: real, t: real, price: real)
    requires q + t != 0.0
    ensures Blended(q, price, t, price) == price
  {
    assert q * price + t * price == (q + t) * price;
  }

  lemma PiecesFromFlat(p: Position, s: real, t: real, price: real)
    requires price > 0.0 && p.quantity == 0.0 && SameSign(s, t)
    ensures Step(Step(p, s, price), t, price) == Step(p, s + t, price)
  {
    assert Step(p, s, price) == Position(s, price, p.realized);
    BlendSame(s, t, price);
  }

  lemma PiecesAdd(p: Position, s: real, t: real, price: real)
    requires price > 0.0 && SameSign(p.quantity, s) && SameSign(s, t)
    ensures Step(Step(p, s, price), t, price) == Step(p, s + t, price)
  {
    var mid := Position(p.quantity + s, Blended(p.quantity, p.average, s, price), p.realized);
    assert Step(p, s, price) == mid;
    assert Step(mid, t, price) == Position(mid.quantity + t, Blended(mid.quantity, mid.average, t, price), p.realized);
    BlendTwice(p.quantity, p.average, s, t, price);
  }

  lemma Distribute(d: real, x: real, y: real)
    ensures d * x + d * y == d * (x + y)
  {
  }

  /** The first piece leaves part of the old side: profits add up, the average stays. */
  lemma PieceReduces(p: Position, s: real, t: real, price: real)
    requires price > 0.0 && Opposite(p.quantity, s) && SameSign(s, t) && Abs(s) < Abs(p.quantity)
    ensures Step(Step(p, s, price), t, price) == Step(p, s + t, price)
  {
    var q := p.quantity + s;
    var closed := Min(Abs(q), Abs(t));
    var mid := Step(p, s, price);
    assert Opposite(q, t);
    assert mid.quantity == q && mid.average == p.average;
    assert Abs(s) + closed == Min(Abs(p.quantity), Abs(s + t));
    Distribute(price - p.average, Abs(s), closed);
    Distribute(p.average - price, Abs(s), closed);
    assert RealizedBy(p, s, price) + RealizedBy(mid, t, price) == RealizedBy(p, s + t, price);
  }

  /** The first piece goes exactly flat or crosses to the other side. */
  lemma PieceCrosses(p: Position, s: real, t: real, price: real)
    requires price > 0.0 && Opposite(p.quantity, s) && SameSign(s, t) && Abs(s) >= Abs(p.quantity)
    ensures Step(Step(p, s, price), t, price) == Step(p, s + t, price)
  {
    var q := p.quantity + s;
    var mid := Step(p, s, price);
    assert mid == Position(q, if q == 0.0 then 0.0 else price, p.realized + RealizedBy(p, s, price));
    assert RealizedBy(mid, t, price) == 0.0;
    assert RealizedBy(p, s, price) == RealizedBy(p, s + t, price);
    if q != 0.0 { BlendSame(q, t, price); }
  }

  lemma PiecesJoin(p: Position, s: real, t: real, price: real)
    requires price > 0.0 && SameSign(s, t)
    ensures Step(Step(p, s, price), t, price) == Step(p, s + t, price)
  {
    if p.quantity == 0.0 {
      PiecesFromFlat(p, s, t, price);
    } else if !Opposite(p.quantity, s) {
      PiecesAdd(p, s, t, price);
    } else if Abs(s) < Abs(p.quantity) {
      PieceReduces(p, s, t, price);
    } else {
      PieceCrosses(p, s, t, price);
    }
  }

  function Pieces(side: Side, quantities: seq<real>, price: real): seq<Trade> {
    seq(|quantities|, i requires 0 <= i < |quantities| => Trade(side, quantities[i], price))
  }

  function Sum(xs: seq<real>): real {
    if xs == [] then 0.0 else Sum(xs[..|xs| - 1]) + xs[|xs| - 1]
  }

  /** Splitting one fill into any list of positive pieces changes nothing, wherever the pieces cross flat. */
  lemma {:induction false} SplitInvariance(p: Position, side: Side, quantities: seq<real>, price: real)
    requires quantities != [] && forall i :: 0 <= i < |quantities| ==> quantities[i] > 0.0
    ensures Sum(quantities) > 0.0
    ensures AfterFills(p, Pieces(side, quantities, price)) == OnFill(p, Trade(side, Sum(quantities), price))
  {
    var front, last := quantities[..|quantities| - 1], quantities[|quantities| - 1];
    var ts := Pieces(side, quantities, price);
    assert ts[..|ts| - 1] == Pieces(side, front, price);
    if front == [] {
      assert Sum(front) == 0.0 && AfterFills(p, Pieces(side, front, price)) == p;
    } else {
      SplitInvariance(p, side, front, price);
      TwoPieces(p, side, Sum(front), last, price);
    }
  }

  // All symbols -------------------------------------------------------------

  type Book = map<Symbol, Position>

  function At(book: Book, s: Symbol): Position { if s in book then book[s] else FLAT }

  function BookFill(book: Book, s: Symbol, t: Trade): Book {
    if t.quantity <= 0.0 then book else book[s := OnFill(At(book, s), t)]
  }

  lemma BookFillAt(book: Book, s: Symbol, t: Trade, other: Symbol)
    ensures At(BookFill(book, s, t), other) == if other == s then OnFill(At(book, s), t) else At(book, other)
  {
  }

  ghost function TotalPnl(book: Book): real {
    Total(map s | s in book :: book[s].realized)
  }

  lemma NoPnl()
    ensures TotalPnl(map[]) == 0.0
  {
  }

  /** A fill changes the total profit by what it changes in its own symbol. */
  lemma FillMovesPnl(book: Book, s: Symbol, t: Trade)
    ensures TotalPnl(BookFill(book, s, t)) == TotalPnl(book) + OnFill(At(book, s), t).realized - At(book, s).realized
  {
    hide OnFill;
    FillDirection(At(book, s), t);
    if t.quantity > 0.0 {
      var profits := map k | k in book :: book[k].realized;
      var n := OnFill(At(book, s), t);
      var after := book[s := n];
      assert (map k | k in after :: after[k].realized) == profits[s := n.realized];
      TotalUpdate(profits, s, n.realized);
    }
  }

  /** A fill of a symbol. */
  datatype SymbolTrade = SymbolTrade(symbol: Symbol, trade: Trade)

  function BookAfter(ts: seq<SymbolTrade>): Book {
    if ts == [] then map[] else BookFill(BookAfter(ts[..|ts| - 1]), ts[|ts| - 1].symbol, ts[|ts| - 1].trade)
  }

  /** Cash received for sales less cash paid for purchases. */
  function CashIn(ts: seq<SymbolTrade>): real {
    if ts == [] then 0.0
    else
      var t := ts[|ts| - 1].trade;
      CashIn(ts[..|ts| - 1])
      + if t.quantity <= 0.0 then 0.0 else if t.side == Buy then -t.quantity * t.price else t.quantity * t.price
  }

  /** What the shares held have cost. */
  function CostHeld(p: Position): real { p.quantity * p.average }

  function Held(book: Book): map<Symbol, real> { map s | s in book :: CostHeld(book[s]) }

  ghost function TotalHeld(book: Book): real { Total(Held(book)) }

  lemma HeldUpdate(book: Book, s: Symbol, p: Position)
    ensures Held(book[s := p]) == Held(book)[s := CostHeld(p)]
  {
    hide CostHeld;
    var left, right := Held(book[s := p]), Held(book)[s := CostHeld(p)];
    assert left.Keys == right.Keys;
    assert forall k :: k in left ==> left[k] == right[k];
  }

  lemma HeldAt(book: Book, s: Symbol)
    ensures (if s in Held(book) then Held(book)[s] else 0.0) == CostHeld(At(book, s))
  {
    hide CostHeld;
    FlatCost();
  }

  lemma FlatCost()
    ensures CostHeld(FLAT) == 0.0
  {
  }

  lemma FillMovesHeld(book: Book, s: Symbol, t: Trade)
    ensures TotalHeld(BookFill(book, s, t)) == TotalHeld(book) + CostHeld(OnFill(At(book, s), t)) - CostHeld(At(book, s))
  {
    hide OnFill, CostHeld, Held, At;
    FillDirection(At(book, s), t);
    if t.quantity > 0.0 {
      var n := OnFill(At(book, s), t);
      HeldAt(book, s);
      HeldUpdate(book, s, n);
      TotalUpdate(Held(book), s, CostHeld(n));
    }
  }

  /** Over all symbols: total profit is the cost of what is held plus the net cash received. */
  lemma {:induction false} PnlIsCash(ts: seq<SymbolTrade>)
    requires forall i :: 0 <= i < |ts| ==> ts[i].trade.price > 0.0
    ensures TotalPnl(BookAfter(ts)) == TotalHeld(BookAfter(ts)) + CashIn(ts)
  {
    hide TotalPnl, TotalHeld, BookFill, OnFill;
    if ts == [] {
      NothingHeld();
    } else {
      var front, last := ts[..|ts| - 1], ts[|ts| - 1];
      PnlIsCash(front);
      FillMovesPnl(BookAfter(front), last.symbol, last.trade);
      FillMovesHeld(BookAfter(front), last.symbol, last.trade);
      FillConservesCash(At(BookAfter(front), last.symbol), last.trade);
    }
  }

  lemma NothingHeld()
    ensures TotalPnl(map[]) == 0.0 && TotalHeld(map[]) == 0.0
  {
  }

  lemma {:induction false} ZeroTotal(m: map<Symbol, real>)
    requires forall s :: s in m ==> m[s] == 0.0
    ensures Total(m) == 0.0
    decreases |m|
  {
    if m != map[] {
      var k :| k in m;
      TotalRemove(m, k);
      ZeroTotal(m - {k});
    }
  }

  predicate AllFlat(book: Book) { forall s :: s in book ==> book[s].quantity == 0.0 }

  /** When priced fills have left every symbol flat, the total profit is the cash they brought in. */
  lemma FlatBookPnl(ts: seq<SymbolTrade>)
    requires forall i :: 0 <= i < |ts| ==> ts[i].trade.price > 0.0
    requires AllFlat(BookAfter(ts))
    ensures TotalPnl(BookAfter(ts)) == CashIn(ts)
  {
    hide TotalPnl, CashIn, BookAfter;
    PnlIsCash(ts);
    var book := BookAfter(ts);
    assert forall s :: s in Held(book) ==> Held(book)[s] == 0.0;
    ZeroTotal(Held(book));
  }

  class PositionKeeper {
    var positions: Book

    constructor ()
      ensures positions == map[]
    {
      positions := map[];
    }

    method OnFillReport(symbol: Symbol, quantity: real, price: real, side: Side)
      modifies this
      ensures positions == BookFill(old(positions), symbol, Trade(side, quantity, price))
    {
      if quantity <= 0.0 { return; }
      var pos := if symbol in positions then positions[symbol] else FLAT;
      var signed := if side == Buy then quantity else -quantity;
      var oldQuantity := pos.quantity;
      var newQuantity := oldQuantity + signed;
      ghost var was := pos;
      ProductSign(oldQuantity, signed);
      if price > 0.0 && oldQuantity != 0.0 && oldQuantity * signed < 0.0 {
        var closed := Min(Abs(oldQuantity), Abs(signed));
        if oldQuantity > 0.0 {
          pos := pos.(realized := pos.realized + (price - pos.average) * closed);
        } else {
          pos := pos.(realized := pos.realized + (pos.average - price) * closed);
        }
      }
      assert pos.realized == was.realized + RealizedBy(was, signed, price);
      if price > 0.0 {
        if newQuantity == 0.0 {
          pos := pos.(average := 0.0);
        } else if oldQuantity == 0.0 {
          pos := pos.(average := price);
        } else if (oldQuantity > 0.0 && newQuantity < 0.0) || (oldQuantity < 0.0 && newQuantity > 0.0) {
          pos := pos.(average := price);
        } else if (oldQuantity > 0.0 && signed > 0.0) || (oldQuantity < 0.0 && signed < 0.0) {
          pos := pos.(average := (oldQuantity * pos.average + signed * price) / newQuantity);
        }
      }
      assert pos.average == AverageAfter(was, signed, price);
      pos := pos.(quantity := newQuantity);
      positions := positions[symbol := pos];
    }

    method GetPosition(symbol: Symbol) returns (r: Outcome<Position>)
      ensures r == if symbol in positions then Ok(At(positions, symbol)) else Err(PositionNotFound)
    {
      r := if symbol in positions then Ok(positions[symbol]) else Err(PositionNotFound);
    }

    method GetTotalPnl() returns (pnl: real)
      ensures pnl == TotalPnl(positions)
    {
      ghost var profits := map s | s in positions :: positions[s].realized;
      var rest := positions.Keys;
      pnl := 0.0;
      assert profits - (positions.Keys - rest) == profits;
      while rest != {}
        invariant rest <= positions.Keys
        invariant pnl + Total(profits - (positions.Keys - rest)) == Total(profits)
        decreases |rest|
      {
        var s :| s in rest;
        ghost var left := profits - (positions.Keys - rest);
        TotalRemove(left, s);
        assert left - {s} == profits - (positions.Keys - (rest - {s}));
        pnl := pnl + positions[s].realized;
        rest := rest - {s};
      }
      assert profits - (positions.Keys - {}) == map[];
    }
  }
}
