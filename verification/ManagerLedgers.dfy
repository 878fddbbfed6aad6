// Two independent records of the same fills: the rows of the order store and the positions.
module ManagerLedgers {
  import opened Base
  import opened MapSums
  import opened IdMapper
  import opened OrderTable
  import opened Positions
  import opened Risk
  import opened Manager
  import opened ManagerSafety
  import opened ManagerIndex

  /** The two columns that are reconciled: shares, and cash. */
  datatype Column = Shares | Cash

  /** What a stored order contributes to a symbol. */
  function Entry(row: Row, s: Symbol, c: Column): real {
    if row.order.symbol != s then 0.0
    else Signed(row.order.side, if c == Shares then row.filled else Paid(row))
  }

  ghost function Entries(t: Table, s: Symbol, c: Column): map<LocalId, real> {
    map l | l in t :: Entry(t[l], s, c)
  }

  /** The store's view of a symbol: the sum over all orders, live or closed. */
  ghost function StoreSide(t: Table, s: Symbol, c: Column): real { Total(Entries(t, s, c)) }

  /** The position keeper's view of the same symbol. */
  function BookSide(p: Position, c: Column): real { if c == Shares then p.quantity else Basis(p) }

  /** A clean step whose report, if it fills anything, carries the symbol and side of its order;
      the cash column also needs it to carry a price. */
  ghost predicate Faithful(m: Manager, e: Event, c: Column) {
    && Clean(m, e)
    && (e.Execution? && e.report.broker in m.ids.toLocal && !EndsOrder(e.report.status) ==>
          var r := e.report;
          var l := m.ids.toLocal[r.broker];
          && r.quantity >= 0.0
          && (c == Cash && r.quantity > 0.0 ==> r.price > 0.0)
          && (l in m.table ==> r.symbol == m.table[l].order.symbol && r.side == m.table[l].order.side))
  }

  ghost predicate FaithfulRun(m: Manager, es: seq<Event>, c: Column) {
    es == [] || (FaithfulRun(m, es[..|es| - 1], c) && Faithful(Run(m, es[..|es| - 1]), es[|es| - 1], c))
  }

  ghost predicate FilledNonNegative(t: Table) {
    forall l :: l in t ==> t[l].filled >= 0.0
  }

  ghost predicate Agree(m: Manager, s: Symbol, c: Column) {
    BookSide(At(m.book, s), c) == StoreSide(m.table, s, c)
  }

  // How table writes move the store side -----------------------------------------------

  lemma WriteMoves(t: Table, l: LocalId, row: Row, s: Symbol, c: Column)
    ensures StoreSide(t[l := row], s, c)
         == StoreSide(t, s, c) + Entry(row, s, c) - if l in t then Entry(t[l], s, c) else 0.0
  {
    assert Entries(t[l := row], s, c) == Entries(t, s, c)[l := Entry(row, s, c)];
    TotalUpdate(Entries(t, s, c), l, Entry(row, s, c));
  }

  ghost predicate SameFills(a: Row, b: Row) {
    a.order == b.order && a.filled == b.filled && a.average == b.average
  }

  lemma SameEntry(a: Row, b: Row, s: Symbol, c: Column)
    requires SameFills(a, b)
    ensures Entry(a, s, c) == Entry(b, s, c)
  {
  }

  lemma NoEntry(row: Row, s: Symbol, c: Column)
    requires row.filled == 0.0
    ensures Entry(row, s, c) == 0.0
  {
    assert Paid(row) == 0.0;
  }

  /** A change of status or broker id, or a new order without fills, moves nothing. */
  lemma StatusMovesNothing(t: Table, l: LocalId, row: Row, s: Symbol, c: Column)
    requires if l in t then SameFills(row, t[l]) else row.filled == 0.0
    ensures StoreSide(t[l := row], s, c) == StoreSide(t, s, c)
    ensures FilledNonNegative(t) ==> FilledNonNegative(t[l := row])
  {
    hide Entry;
    WriteMoves(t, l, row, s, c);
    if l in t { SameEntry(row, t[l], s, c); } else { NoEntry(row, s, c); }
  }

  lemma SameEntries(t: Table, u: Table, s: Symbol, c: Column)
    requires t.Keys == u.Keys
    requires forall l :: l in t ==> SameFills(u[l], t[l])
    ensures StoreSide(u, s, c) == StoreSide(t, s, c)
  {
    hide Entry;
    forall l | l in t ensures Entry(u[l], s, c) == Entry(t[l], s, c) { SameEntry(u[l], t[l], s, c); }
    assert Entries(u, s, c) == Entries(t, s, c);
  }

  lemma SignedPrice(side: Side, quantity: real, price: real)
    ensures Signed(side, quantity) * price == Signed(side, quantity * price)
  {
  }

  lemma FillMovesCash(p: Position, t: Trade)
    requires t.quantity >= 0.0 && (t.quantity > 0.0 ==> t.price > 0.0)
    ensures Basis(OnFill(p, t)) - Basis(p) == Signed(t.side, t.quantity * t.price)
  {
    FillConservesCash(p, t);
    SignedPrice(t.side, t.quantity, t.price);
    if t.quantity == 0.0 { assert t.quantity * t.price == 0.0; }
  }

  lemma FillMovesPaid(row: Row, r: Report, status: OrderStatus, p: Position)
    requires row.filled >= 0.0 && r.quantity >= 0.0 && r.side == row.order.side
    requires r.quantity > 0.0 ==> r.price > 0.0
    ensures Entry(FilledRow(row, r.quantity, r.price, status), row.order.symbol, Cash) - Entry(row, row.order.symbol, Cash)
         == BookSide(OnFill(p, TradeOf(r)), Cash) - BookSide(p, Cash)
  {
    hide Paid, Basis, BlendedAverage, OnFill;
    FillAddsCash(row, r.quantity, r.price, status);
    FillMovesCash(p, TradeOf(r));
  }

  /** One fill moves both sides by the same amount. */
  lemma FillMovesBoth(row: Row, r: Report, status: OrderStatus, p: Position, c: Column)
    requires row.filled >= 0.0 && r.quantity >= 0.0 && r.side == row.order.side
    requires c == Cash && r.quantity > 0.0 ==> r.price > 0.0
    ensures Entry(FilledRow(row, r.quantity, r.price, status), row.order.symbol, c) - Entry(row, row.order.symbol, c)
         == BookSide(OnFill(p, TradeOf(r)), c) - BookSide(p, c)
  {
    hide Paid, Basis, BlendedAverage, AverageAfter, RealizedBy;
    if c == Cash { FillMovesPaid(row, r, status, p); }
  }

  lemma FillAgrees(t: Table, book: Book, l: LocalId, r: Report, status: OrderStatus, s: Symbol, c: Column)
    requires l in t && t[l].filled >= 0.0 && r.quantity >= 0.0
    requires r.symbol == t[l].order.symbol && r.side == t[l].order.side
    requires c == Cash && r.quantity > 0.0 ==> r.price > 0.0
    requires BookSide(At(book, s), c) == StoreSide(t, s, c)
    ensures BookSide(At(BookFill(book, r.symbol, TradeOf(r)), s), c)
         == StoreSide(t[l := FilledRow(t[l], r.quantity, r.price, status)], s, c)
  {
    hide Paid, Basis, BlendedAverage, OnFill, BookFill;
    WriteMoves(t, l, FilledRow(t[l], r.quantity, r.price, status), s, c);
    BookFillAt(book, r.symbol, TradeOf(r), s);
    FillMovesBoth(t[l], r, status, At(book, r.symbol), c);
  }

  lemma ExecutionAgrees(m: Manager, r: Report, s: Symbol, c: Column)
    requires Safe(m) && FilledNonNegative(m.table) && Agree(m, s, c)
    requires Faithful(m, Execution(r, true, true), c)
    ensures var n := DoExecution(m, r, true, true); FilledNonNegative(n.table) && Agree(n, s, c)
  {
    hide StoreSide, BookSide, BookFill, BlendedAverage;
    if r.broker in m.ids.toLocal {
      var l, n := m.ids.toLocal[r.broker], DoExecution(m, r, true, true);
      if EndsOrder(r.status) {
        StatusMovesNothing(m.table, l, n.table[l], s, c);
      } else {
        FillAgrees(m.table, m.book, l, r, if FullyFilled(m.table[l], r) then Filled else PartiallyFilled, s, c);
      }
    }
  }

  lemma AcceptedReplaceAgrees(m: Manager, e: Event, s: Symbol, c: Column)
    requires Safe(m) && e.Replace? && Clean(m, e) && FilledNonNegative(m.table) && Agree(m, s, c)
    requires e.oldId in m.ids.toBroker && e.newReply.Some?
    ensures var n := DoReplace(m, e).m; FilledNonNegative(n.table) && Agree(n, s, c)
  {
    hide Safe, Clean, StoreSide, BookSide, DoReplace;
    ReplaceEffect(m, e);
    var id, row := NewId(m, e.newClock), m.table[e.oldId].(status := Replaced);
    StatusMovesNothing(m.table, e.oldId, row, s, c);
    StatusMovesNothing(m.table[e.oldId := row], id, DoReplace(m, e).m.table[id], s, c);
  }

  lemma ReplaceAgrees(m: Manager, e: Event, s: Symbol, c: Column)
    requires Safe(m) && e.Replace? && Clean(m, e) && FilledNonNegative(m.table) && Agree(m, s, c)
    ensures var n := DoReplace(m, e).m; FilledNonNegative(n.table) && Agree(n, s, c)
  {
    hide Safe, StoreSide, BookSide;
    if e.oldId in m.ids.toBroker && e.newReply.Some? { AcceptedReplaceAgrees(m, e, s, c); }
  }

  lemma SubmitAgrees(m: Manager, e: Event, s: Symbol, c: Column)
    requires Safe(m) && e.Submit? && Clean(m, e) && FilledNonNegative(m.table) && Agree(m, s, c)
    ensures var n := DoSubmit(m, e).m; FilledNonNegative(n.table) && Agree(n, s, c)
  {
    hide StoreSide, BookSide, DoSubmit;
    SubmitEffect(m, e);
    StatusMovesNothing(m.table, NewId(m, e.clock), DoSubmit(m, e).m.table[NewId(m, e.clock)], s, c);
  }

  lemma CancelAgrees(m: Manager, l: LocalId, accepted: bool, s: Symbol, c: Column)
    requires Safe(m) && FilledNonNegative(m.table) && Agree(m, s, c)
    ensures var n := DoCancel(m, l, accepted, true).m; FilledNonNegative(n.table) && Agree(n, s, c)
  {
    hide StoreSide, BookSide;
    if l in m.ids.toBroker && accepted { StatusMovesNothing(m.table, l, m.table[l].(status := Cancelled), s, c); }
  }

  lemma CancelEachAgrees(m: Manager, ls: seq<LocalId>, refused: set<LocalId>, failed: set<LocalId>, s: Symbol, c: Column)
    requires FilledNonNegative(m.table) && Agree(m, s, c)
    ensures var n := CancelEach(m, ls, refused, failed); FilledNonNegative(n.table) && Agree(n, s, c)
  {
    hide StoreSide, BookSide;
    CancelEachTable(m, ls, refused, failed);
    CancelEachFrame(m, ls, refused, failed);
    SameEntries(m.table, CancelEach(m, ls, refused, failed).table, s, c);
  }

  lemma HandleAgrees(m: Manager, e: Event, s: Symbol, c: Column)
    requires Safe(m) && FilledNonNegative(m.table) && Agree(m, s, c) && Faithful(m, e, c)
    ensures FilledNonNegative(Handle(m, e).table) && Agree(Handle(m, e), s, c)
  {
    hide Safe, Agree, StoreSide, DoExecution, DoSubmit, DoCancel, DoReplace, CancelEach;
    match e
    case Execution(r, _, _) => ExecutionAgrees(m, r, s, c);
    case Submit(_, _, _, _, _, _, _) => SubmitAgrees(m, e, s, c);
    case Cancel(l, accepted, _) => CancelAgrees(m, l, accepted, s, c);
    case Replace(_, _, _, _, _, _) => ReplaceAgrees(m, e, s, c);
    case CancelAll(ls, refused, failed) => CancelEachAgrees(m, ls, refused, failed, s, c);
    case MarketData =>
  }

  lemma {:induction false} FaithfulIsClean(m: Manager, es: seq<Event>, c: Column)
    requires FaithfulRun(m, es, c)
    ensures CleanRun(m, es)
  {
    if es != [] { FaithfulIsClean(m, es[..|es| - 1], c); }
  }

  lemma {:induction false} RunAgrees(m: Manager, es: seq<Event>, s: Symbol, c: Column)
    requires Indexed(m) && FilledNonNegative(m.table) && Agree(m, s, c) && FaithfulRun(m, es, c)
    ensures FilledNonNegative(Run(m, es).table) && Agree(Run(m, es), s, c)
  {
    if es != [] {
      var front := es[..|es| - 1];
      RunAgrees(m, front, s, c);
      FaithfulIsClean(m, front, c);
      RunIndexed(m, front);
      HandleAgrees(Run(m, front), es[|es| - 1], s, c);
    }
  }

  lemma StartAgrees(limits: RiskLimits, s: Symbol, c: Column)
    ensures var m := Start(limits); Indexed(m) && FilledNonNegative(m.table) && Agree(m, s, c)
  {
    hide Basis;
    assert Entries(map[], s, c) == map[];
    FlatBasis();
  }

  /** Every position is the signed sum of what its orders have filled. */
  lemma {:induction false} PositionsMatchOrders(limits: RiskLimits, es: seq<Event>, s: Symbol)
    requires FaithfulRun(Start(limits), es, Shares)
    ensures var m := Run(Start(limits), es);
            At(m.book, s).quantity == StoreSide(m.table, s, Shares)
  {
    hide StoreSide, Run, FaithfulRun, Indexed;
    StartAgrees(limits, s, Shares);
    RunAgrees(Start(limits), es, s, Shares);
  }

  /** The average prices of the store and the average price and profit of the keeper tell the same story:
      quantity x average - realized profit is the signed sum of filled x average fill price. */
  lemma CashMatchesOrders(limits: RiskLimits, es: seq<Event>, s: Symbol)
    requires FaithfulRun(Start(limits), es, Cash)
    ensures var m := Run(Start(limits), es);
            Basis(At(m.book, s)) == StoreSide(m.table, s, Cash)
  {
    hide StoreSide, Run, FaithfulRun, Indexed;
    StartAgrees(limits, s, Cash);
    RunAgrees(Start(limits), es, s, Cash);
  }
}
