// One position per symbol across all strategies: the two aggregation loops of the engine.
module Aggregation {
  import opened Base
  import opened Positions

  /** A strategy's (or the combined) holding of one symbol. */
  datatype Holding = Holding(quantity: real, average: real)

  function Quantity(hs: seq<Holding>): real {
    if hs == [] then 0.0 else Quantity(hs[..|hs| - 1]) + hs[|hs| - 1].quantity
  }

  function CostOf(h: Holding): real { h.quantity * h.average }

  function Cost(hs: seq<Holding>): real {
    if hs == [] then 0.0 else Cost(hs[..|hs| - 1]) + CostOf(hs[|hs| - 1])
  }

  function Mixed(a: Holding, h: Holding): real
    requires a.quantity + h.quantity != 0.0
  {
    (CostOf(a) + CostOf(h)) / (a.quantity + h.quantity)
  }

  /** One turn of the loop that answers a request for one symbol. */
  function Combine(a: Holding, h: Holding): Holding {
    var quantity := a.quantity + h.quantity;
    Holding(quantity,
            if quantity != 0.0 && a.quantity != 0.0 then Mixed(a, h)
            else if h.quantity != 0.0 then h.average
            else a.average)
  }

  function Single(hs: seq<Holding>): Holding {
    if hs == [] then Holding(0.0, 0.0) else Combine(Single(hs[..|hs| - 1]), hs[|hs| - 1])
  }

  /** One turn of the loop that lists all symbols. */
  function Merge(a: Option<Holding>, h: Holding): Holding {
    match a
    case None => h
    case Some(e) =>
      Holding(e.quantity + h.quantity, if e.quantity + h.quantity != 0.0 then Mixed(e, h) else e.average)
  }

  function Listed(hs: seq<Holding>): Option<Holding> {
    if hs == [] then None else Some(Merge(Listed(hs[..|hs| - 1]), hs[|hs| - 1]))
  }

  lemma MixedWithNothing(a: Holding, h: Holding)
    requires a.quantity == 0.0 && h.quantity != 0.0
    ensures Mixed(a, h) == h.average
  {
    assert CostOf(h) / h.quantity == h.average;
  }

  /** Over one manager order the two loops agree on the quantity, and on the average whenever there is a quantity. */
  lemma {:induction false} AggregationsAgree(hs: seq<Holding>)
    requires hs != []
    ensures Listed(hs).Some?
    ensures Single(hs).quantity == Listed(hs).value.quantity == Quantity(hs)
    ensures Quantity(hs) != 0.0 ==> Single(hs).average == Listed(hs).value.average
  {
    hide Mixed;
    var front, h := hs[..|hs| - 1], hs[|hs| - 1];
    if front != [] {
      AggregationsAgree(front);
      if Quantity(front) == 0.0 && h.quantity != 0.0 {
        MixedWithNothing(Listed(front).value, h);
      }
    }
  }

  /** When the sum is zero the loops may differ: one shows the last average it met among non-empty holdings, the other the
      average from before the sum became zero. */
  lemma AverageWhenFlat(hs: seq<Holding>, h: Holding)
    requires Quantity(hs) + h.quantity == 0.0 && hs != []
    ensures Listed(hs).Some? && Listed(hs + [h]).Some?
    ensures Single(hs + [h]).average == if h.quantity != 0.0 then h.average else Single(hs).average
    ensures Listed(hs + [h]).value.average == Listed(hs).value.average
  {
    hide Mixed;
    AggregationsAgree(hs);
    assert (hs + [h])[..|hs + [h]| - 1] == hs;
  }

  // What the average means ---------------------------------------------------------------------

  /** The last point of the loop at which the combined quantity was zero. */
  function LastFlat(hs: seq<Holding>): (k: nat)
    ensures k <= |hs|
  {
    if hs == [] || Quantity(hs) == 0.0 then |hs| else LastFlat(hs[..|hs| - 1])
  }

  lemma MixedCost(a: Holding, h: Holding)
    requires a.quantity + h.quantity != 0.0
    ensures (a.quantity + h.quantity) * Mixed(a, h) == CostOf(a) + CostOf(h)
  {
    var n, d := CostOf(a) + CostOf(h), a.quantity + h.quantity;
    assert d * (n / d) == n;
  }

  /** quantity x average is the cost of the holdings seen since the combined quantity was last zero. */
  lemma {:induction false} CostSinceFlat(hs: seq<Holding>)
    ensures Single(hs).quantity == Quantity(hs)
    ensures Quantity(hs) != 0.0 ==> CostOf(Single(hs)) == Cost(hs[LastFlat(hs)..])
  {
    hide Mixed;
    if hs != [] {
      var front, h := hs[..|hs| - 1], hs[|hs| - 1];
      CostSinceFlat(front);
      if Quantity(hs) != 0.0 {
        var k := LastFlat(front);
        assert hs[k..][..|hs[k..]| - 1] == front[k..];
        var a := Single(front);
        if a.quantity != 0.0 { MixedCost(a, h); } else { assert Cost(front[k..]) == 0.0; }
        assert CostOf(Single(hs)) == Cost(front[k..]) + CostOf(h);
      }
    }
  }

  lemma {:induction false} CostSplit(hs: seq<Holding>, k: nat)
    requires k <= |hs|
    ensures Cost(hs) == Cost(hs[..k]) + Cost(hs[k..])
  {
    if k == |hs| {
      assert hs[..k] == hs && hs[k..] == [];
    } else {
      var front := hs[..|hs| - 1];
      CostSplit(front, k);
      assert front[..k] == hs[..k] && hs[k..][..|hs[k..]| - 1] == front[k..];
    }
  }

  /** The reported average accounts for the whole cost exactly when the holdings up to the last flat point cost nothing. */
  lemma AverageExplainsCost(hs: seq<Holding>)
    requires Quantity(hs) != 0.0
    ensures CostOf(Single(hs)) == Cost(hs) <==> Cost(hs[..LastFlat(hs)]) == 0.0
  {
    hide Cost, Single, Quantity, LastFlat;
    CostSinceFlat(hs);
    CostSplit(hs, LastFlat(hs));
  }

  /** All strategies are on the same side (or flat). */
  predicate OneSided(hs: seq<Holding>) {
    || (forall h :: h in hs ==> h.quantity >= 0.0)
    || (forall h :: h in hs ==> h.quantity <= 0.0)
  }

  lemma {:induction false} FlatOneSided(hs: seq<Holding>)
    requires OneSided(hs) && Quantity(hs) == 0.0
    ensures Cost(hs) == 0.0
  {
    if hs != [] {
      var front, h := hs[..|hs| - 1], hs[|hs| - 1];
      OneSidedSign(front, h);
      FlatOneSided(front);
    }
  }

  lemma {:induction false} SumSign(hs: seq<Holding>)
    ensures (forall h :: h in hs ==> h.quantity >= 0.0) ==> Quantity(hs) >= 0.0
    ensures (forall h :: h in hs ==> h.quantity <= 0.0) ==> Quantity(hs) <= 0.0
  {
    if hs != [] {
      SumSign(hs[..|hs| - 1]);
    }
  }

  lemma OneSidedSign(front: seq<Holding>, h: Holding)
    requires OneSided(front + [h]) && Quantity(front) + h.quantity == 0.0
    ensures OneSided(front) && Quantity(front) == 0.0 && h.quantity == 0.0
  {
    SumSign(front);
    assert forall x :: x in front ==> x in front + [h];
    assert h in front + [h];
  }

  lemma OneSidedCost(hs: seq<Holding>)
    requires OneSided(hs) && Quantity(hs) != 0.0
    ensures CostOf(Single(hs)) == Cost(hs)
  {
    hide Cost, Single;
    var k := LastFlat(hs);
    AverageExplainsCost(hs);
    LastFlatIsFlat(hs);
    assert forall h :: h in hs[..k] ==> h in hs;
    FlatOneSided(hs[..k]);
  }

  lemma {:induction false} LastFlatIsFlat(hs: seq<Holding>)
    ensures Quantity(hs[..LastFlat(hs)]) == 0.0
  {
    if Quantity(hs) == 0.0 {
      assert hs[..|hs|] == hs;
    } else {
      var front := hs[..|hs| - 1];
      LastFlatIsFlat(front);
      assert hs[..LastFlat(hs)] == front[..LastFlat(front)];
    }
  }

  // Manager order --------------------------------------------------------------------------------

  lemma {:induction false} SumWithout(hs: seq<Holding>, i: nat)
    requires i < |hs|
    ensures var rest := hs[..i] + hs[i + 1..];
            Quantity(hs) == Quantity(rest) + hs[i].quantity && Cost(hs) == Cost(rest) + CostOf(hs[i])
  {
    hide CostOf;
    var front := hs[..|hs| - 1];
    if i == |hs| - 1 {
      assert hs[..i] + hs[i + 1..] == front;
    } else {
      SumWithout(front, i);
      assert (hs[..i] + hs[i + 1..])[..|hs| - 2] == front[..i] + front[i + 1..];
    }
  }

  lemma Without(hs: seq<Holding>, i: nat)
    requires i < |hs|
    ensures multiset(hs[..i] + hs[i + 1..]) == multiset(hs) - multiset{hs[i]}
  {
    assert hs == hs[..i] + [hs[i]] + hs[i + 1..];
  }

  lemma {:induction false} SumsIgnoreOrder(a: seq<Holding>, b: seq<Holding>)
    requires multiset(a) == multiset(b)
    ensures Quantity(a) == Quantity(b) && Cost(a) == Cost(b)
  {
    if a == [] {
      assert |b| == |multiset(b)| == 0;
    } else {
      var h, front := a[|a| - 1], a[..|a| - 1];
      assert a == front + [h];
      assert h in multiset(b);
      var i :| 0 <= i < |b| && b[i] == h;
      var rest := b[..i] + b[i + 1..];
      Without(b, i);
      SumsIgnoreOrder(front, rest);
      SumWithout(b, i);
    }
  }

  /** With all strategies on one side the answer does not depend on the order in which managers are visited. */
  lemma OneSidedIgnoresOrder(a: seq<Holding>, b: seq<Holding>)
    requires multiset(a) == multiset(b) && OneSided(a)
    ensures Single(a).quantity == Single(b).quantity
    ensures Quantity(a) != 0.0 ==> Single(a).average == Single(b).average
  {
    hide Quantity, Cost, Single;
    SumsIgnoreOrder(a, b);
    CostSinceFlat(a);
    CostSinceFlat(b);
    if Quantity(a) != 0.0 {
      assert forall h :: h in b ==> h in multiset(a);
      OneSidedCost(a);
      OneSidedCost(b);
      SameCost(Single(a), Single(b));
    }
  }

  lemma SameCost(a: Holding, b: Holding)
    requires a.quantity == b.quantity != 0.0 && CostOf(a) == CostOf(b)
    ensures a.average == b.average
  {
    assert a.quantity * (a.average - b.average) == 0.0;
  }

  lemma SameProduct(a: Holding, b: Holding)
    requires a.quantity == b.quantity && a.average == b.average
    ensures CostOf(a) == CostOf(b)
  {
  }

  /** No order of the managers changes the reported average. */
  ghost predicate OrderFree(hs: seq<Holding>) {
    forall p :: multiset(p) == multiset(hs) ==> Single(p).average == Single(hs).average
  }

  /** Holdings that cancel out in quantity also cancel out in cost. */
  ghost predicate FlatPartsFree(hs: seq<Holding>) {
    forall s, r :: multiset(s + r) == multiset(hs) && Quantity(s) == 0.0 ==> Cost(s) == 0.0
  }

  lemma FreePartsExplain(hs: seq<Holding>, p: seq<Holding>)
    requires FlatPartsFree(hs) && multiset(p) == multiset(hs) && Quantity(p) != 0.0
    ensures CostOf(Single(p)) == Cost(p)
  {
    hide Cost, Single, Quantity, LastFlat;
    var k := LastFlat(p);
    AverageExplainsCost(p);
    LastFlatIsFlat(p);
    assert p[..k] + p[k..] == p;
  }

  lemma FreePartsOrderFree(hs: seq<Holding>)
    requires Quantity(hs) != 0.0 && FlatPartsFree(hs)
    ensures OrderFree(hs)
  {
    hide Cost, Single, Quantity, FlatPartsFree;
    forall p | multiset(p) == multiset(hs) ensures Single(p).average == Single(hs).average {
      SumsIgnoreOrder(p, hs);
      CostSinceFlat(p);
      CostSinceFlat(hs);
      FreePartsExplain(hs, p);
      FreePartsExplain(hs, hs);
      SameCost(Single(p), Single(hs));
    }
  }

  // An order without flat points: first the holdings on the net side, then the others.

  predicate Toward(h: Holding, up: bool) { if up then h.quantity > 0.0 else h.quantity < 0.0 }

  function Side(hs: seq<Holding>, up: bool): seq<Holding> {
    if hs == [] then []
    else Side(hs[..|hs| - 1], up) + if Toward(hs[|hs| - 1], up) then [hs[|hs| - 1]] else []
  }

  function Rest(hs: seq<Holding>, up: bool): seq<Holding> {
    if hs == [] then []
    else Rest(hs[..|hs| - 1], up) + if Toward(hs[|hs| - 1], up) then [] else [hs[|hs| - 1]]
  }

  lemma {:induction false} Sides(hs: seq<Holding>, up: bool)
    ensures forall h :: h in Side(hs, up) ==> Toward(h, up)
    ensures forall h :: h in Rest(hs, up) ==> !Toward(h, up)
  {
    hide Toward;
    if hs != [] { Sides(hs[..|hs| - 1], up); }
  }

  lemma NoSides(up: bool)
    ensures Side([], up) == [] && Rest([], up) == []
  {
  }

  lemma SidesSnoc(hs: seq<Holding>, h: Holding, up: bool)
    ensures Side(hs + [h], up) == if Toward(h, up) then Side(hs, up) + [h] else Side(hs, up)
    ensures Rest(hs + [h], up) == if Toward(h, up) then Rest(hs, up) else Rest(hs, up) + [h]
  {
    assert (hs + [h])[..|hs|] == hs;
  }

  lemma {:induction false} SidesComplete(hs: seq<Holding>, up: bool)
    ensures multiset(Side(hs, up)) + multiset(Rest(hs, up)) == multiset(hs)
  {
    hide Toward, Side, Rest;
    if hs == [] {
      NoSides(up);
    } else {
      var front, h := hs[..|hs| - 1], hs[|hs| - 1];
      SidesComplete(front, up);
      assert hs == front + [h];
      SidesSnoc(front, h, up);
    }
  }

  lemma {:induction false} QuantitySplit(hs: seq<Holding>, k: nat)
    requires k <= |hs|
    ensures Quantity(hs) == Quantity(hs[..k]) + Quantity(hs[k..])
  {
    if k == |hs| {
      assert hs[..k] == hs && hs[k..] == [];
    } else {
      var front := hs[..|hs| - 1];
      QuantitySplit(front, k);
      assert front[..k] == hs[..k] && hs[k..][..|hs[k..]| - 1] == front[k..];
    }
  }

  lemma {:induction false} TowardSum(hs: seq<Holding>, up: bool)
    requires hs != [] && forall h :: h in hs ==> Toward(h, up)
    ensures if up then Quantity(hs) > 0.0 else Quantity(hs) < 0.0
  {
    var front := hs[..|hs| - 1];
    assert hs[|hs| - 1] in hs;
    if front != [] { TowardSum(front, up); }
  }

  /** On the net side first, no prefix is flat. */
  lemma NetSideFirst(x: seq<Holding>, y: seq<Holding>, up: bool, k: nat)
    requires (forall h :: h in x ==> Toward(h, up)) && (forall h :: h in y ==> !Toward(h, up))
    requires if up then Quantity(x + y) > 0.0 else Quantity(x + y) < 0.0
    requires 0 < k <= |x + y|
    ensures Quantity((x + y)[..k]) != 0.0
  {
    hide Quantity;
    if k <= |x| {
      assert (x + y)[..k] == x[..k];
      TowardSum(x[..k], up);
    } else {
      QuantitySplit(x + y, k);
      var tail := y[k - |x|..];
      assert (x + y)[k..] == tail;
      assert forall h :: h in tail ==> h in y && !Toward(h, up);
      SumSign(tail);
    }
  }

  /** The last flat point of `s` followed by holdings that never let the sum return to zero. */
  lemma {:induction false} LastFlatAt(s: seq<Holding>, t: seq<Holding>)
    requires Quantity(s) == 0.0
    requires forall k :: 0 < k <= |t| ==> Quantity(t[..k]) != 0.0
    ensures LastFlat(s + t) == |s|
  {
    var all := s + t;
    if t == [] {
      assert all == s;
    } else {
      var front := t[..|t| - 1];
      assert forall k :: 0 < k <= |front| ==> front[..k] == t[..k];
      LastFlatAt(s, front);
      QuantitySplit(all, |s|);
      assert all[..|s|] == s && all[|s|..] == t && t[..|t|] == t;
      assert all[..|all| - 1] == s + front;
    }
  }

  /** Putting a flat part first and the rest in an order without flat points makes the average forget the flat part. */
  lemma FlatPartForgotten(s: seq<Holding>, r: seq<Holding>) returns (p: seq<Holding>)
    requires Quantity(s) == 0.0 && Quantity(s + r) != 0.0
    ensures multiset(p) == multiset(s + r) && CostOf(Single(p)) == Cost(r)
  {
    hide Quantity, Cost, Single, Side, Rest, LastFlat;
    var up := Quantity(s + r) > 0.0;
    QuantitySplit(s + r, |s|);
    assert (s + r)[..|s|] == s && (s + r)[|s|..] == r;
    Sides(r, up);
    SidesComplete(r, up);
    var x, y := Side(r, up), Rest(r, up);
    var t := x + y;
    SumsIgnoreOrder(t, r);
    forall k | 0 < k <= |t| ensures Quantity(t[..k]) != 0.0 { NetSideFirst(x, y, up, k); }
    LastFlatAt(s, t);
    p := s + t;
    assert multiset(p) == multiset(s) + multiset(t) && multiset(s + r) == multiset(s) + multiset(r);
    SumsIgnoreOrder(p, s + r);
    CostSinceFlat(p);
    assert p[|s|..] == t;
  }

  lemma OrderFreeForcesParts(hs: seq<Holding>, s: seq<Holding>, r: seq<Holding>)
    requires Quantity(hs) != 0.0 && OrderFree(hs)
    requires multiset(s + r) == multiset(hs) && Quantity(s) == 0.0
    ensures Cost(s) == 0.0
  {
    NothingHeld();
    hide Quantity, Cost, Single;
    SumsIgnoreOrder(s + r, hs);
    var p := FlatPartForgotten(s, r);
    assert [] + (s + r) == s + r;
    var q := FlatPartForgotten([], s + r);
    SumsIgnoreOrder(p, q);
    CostSinceFlat(p);
    CostSinceFlat(q);
    SameProduct(Single(p), Single(q));
    CostSplit(s + r, |s|);
    assert (s + r)[..|s|] == s && (s + r)[|s|..] == r;
  }

  lemma NothingHeld()
    ensures Quantity([]) == 0.0
  {
  }

  /** Exactly when the average does not depend on the order of the managers: no part of the holdings that cancels out
      in quantity leaves a cost behind. */
  lemma OrderFreeExactly(hs: seq<Holding>)
    requires Quantity(hs) != 0.0
    ensures OrderFree(hs) <==> FlatPartsFree(hs)
  {
    hide Quantity, Cost, Single;
    if OrderFree(hs) {
      forall s, r | multiset(s + r) == multiset(hs) && Quantity(s) == 0.0 ensures Cost(s) == 0.0 {
        OrderFreeForcesParts(hs, s, r);
      }
    }
    if FlatPartsFree(hs) { FreePartsOrderFree(hs); }
  }

  /** A long and a short of one size at different prices, beside a third holding: two orders, two averages. */
  lemma MixedSidesDependOnOrder()
    ensures var a, b, c := Holding(1.0, 10.0), Holding(-1.0, 20.0), Holding(1.0, 30.0);
            Single([a, b, c]) == Holding(1.0, 30.0) && Single([a, c, b]) == Holding(1.0, 20.0)
  {
    var a, b, c := Holding(1.0, 10.0), Holding(-1.0, 20.0), Holding(1.0, 30.0);
    assert [a, b, c][..2] == [a, b] && [a, c, b][..2] == [a, c] && [a, b][..1] == [a] && [a, c][..1] == [a] && [a][..0] == [];
    assert Single([a]) == a;
    assert Single([a, b]).quantity == 0.0 && Single([a, c]) == Holding(2.0, 20.0);
  }

  // The engine -----------------------------------------------------------------------------------

  function HoldingOf(p: Position): Holding { Holding(p.quantity, p.average) }

  /** What the managers, in the order visited, hold of a symbol. */
  function Holdings(books: seq<Book>, s: Symbol): seq<Holding> {
    if books == [] then []
    else
      var last := books[|books| - 1];
      Holdings(books[..|books| - 1], s) + if s in last then [HoldingOf(last[s])] else []
  }

  lemma HoldingsSnoc(books: seq<Book>, book: Book, s: Symbol)
    ensures Holdings(books + [book], s) == Holdings(books, s) + if s in book then [HoldingOf(book[s])] else []
  {
    assert (books + [book])[..|books + [book]| - 1] == books;
  }

  lemma ListedSnoc(hs: seq<Holding>, h: Holding)
    ensures Listed(hs + [h]) == Some(Merge(Listed(hs), h)) && Single(hs + [h]) == Combine(Single(hs), h)
  {
    assert (hs + [h])[..|hs + [h]| - 1] == hs;
  }

  /** The shares of a symbol that all managers hold together. */
  function SharesHeld(books: seq<Book>, s: Symbol): real {
    if books == [] then 0.0
    else
      var last := books[|books| - 1];
      SharesHeld(books[..|books| - 1], s) + if s in last then last[s].quantity else 0.0
  }

  /** What those shares have cost. */
  function CostPaid(books: seq<Book>, s: Symbol): real {
    if books == [] then 0.0
    else
      var last := books[|books| - 1];
      CostPaid(books[..|books| - 1], s) + if s in last then last[s].quantity * last[s].average else 0.0
  }

  predicate HeldBySome(books: seq<Book>, s: Symbol) { exists i :: 0 <= i < |books| && s in books[i] }

  lemma CostPaidSnoc(books: seq<Book>, s: Symbol)
    requires books != []
    ensures var front, last := books[..|books| - 1], books[|books| - 1];
            CostPaid(books, s) == CostPaid(front, s) + if s in last then CostOf(HoldingOf(last[s])) else 0.0
  {
  }

  /** The list that the loops run over is the managers' positions. */
  lemma {:induction false} HoldingsAddUp(books: seq<Book>, s: Symbol)
    ensures Quantity(Holdings(books, s)) == SharesHeld(books, s)
    ensures Cost(Holdings(books, s)) == CostPaid(books, s)
    ensures Holdings(books, s) != [] <==> HeldBySome(books, s)
  {
    hide Quantity, Cost, CostOf, CostPaid, HeldBySome;
    if books == [] {
      NothingAddsUp(s);
    } else {
      var front, last := books[..|books| - 1], books[|books| - 1];
      HoldingsAddUp(front, s);
      HeldSnoc(front, last, s);
      CostPaidSnoc(books, s);
      assert books == front + [last];
      if s in last {
        QuantitySnoc(Holdings(front, s), HoldingOf(last[s]));
      } else {
        assert Holdings(front, s) + [] == Holdings(front, s);
      }
    }
  }

  lemma NothingAddsUp(s: Symbol)
    ensures Quantity([]) == 0.0 && Cost([]) == 0.0 && CostPaid([], s) == 0.0 && !HeldBySome([], s)
  {
  }

  lemma HeldSnoc(books: seq<Book>, book: Book, s: Symbol)
    ensures HeldBySome(books + [book], s) <==> HeldBySome(books, s) || s in book
  {
    var all := books + [book];
    assert all[|books|] == book;
    if HeldBySome(books, s) {
      var i :| 0 <= i < |books| && s in books[i];
      assert s in all[i];
    }
  }

  lemma QuantitySnoc(hs: seq<Holding>, h: Holding)
    ensures Quantity(hs + [h]) == Quantity(hs) + h.quantity && Cost(hs + [h]) == Cost(hs) + CostOf(h)
  {
    assert (hs + [h])[..|hs + [h]| - 1] == hs;
  }

  /** Manager i is the only one with shares of the symbol. */
  ghost predicate SoleHolder(books: seq<Book>, s: Symbol, i: int) {
    && 0 <= i < |books| && s in books[i] && books[i][s].quantity != 0.0
    && forall j :: 0 <= j < |books| && j != i && s in books[j] ==> books[j][s].quantity == 0.0
  }

  predicate NoShares(hs: seq<Holding>) { forall h :: h in hs ==> h.quantity == 0.0 }

  lemma {:induction false} NoSharesHeld(books: seq<Book>, s: Symbol)
    requires forall j :: 0 <= j < |books| && s in books[j] ==> books[j][s].quantity == 0.0
    ensures NoShares(Holdings(books, s))
  {
    if books != [] { NoSharesHeld(books[..|books| - 1], s); }
  }

  lemma {:induction false} NoSharesSum(hs: seq<Holding>)
    requires NoShares(hs)
    ensures Quantity(hs) == 0.0 && Single(hs).quantity == 0.0
    ensures hs != [] ==> Listed(hs).value.quantity == 0.0
  {
    hide Mixed;
    if hs != [] { NoSharesSum(hs[..|hs| - 1]); }
  }

  lemma MixedWithZero(a: Holding, h: Holding)
    requires a.quantity != 0.0 && h.quantity == 0.0
    ensures Mixed(a, h) == a.average
  {
    assert CostOf(a) / a.quantity == a.average;
  }

  /** With one holder of shares both loops give exactly its position, wherever it stands among the managers. */
  lemma {:induction false} SoleHolderAlone(books: seq<Book>, s: Symbol, i: int)
    requires SoleHolder(books, s, i)
    ensures var p, hs := books[i][s], Holdings(books, s);
            hs != [] && Single(hs) == Holding(p.quantity, p.average) && Listed(hs) == Some(Holding(p.quantity, p.average))
  {
    hide Mixed;
    var front, last := books[..|books| - 1], books[|books| - 1];
    var hs := Holdings(front, s);
    if i == |front| {
      NoSharesHeld(front, s);
      NoSharesSum(hs);
      var h := HoldingOf(last[s]);
      ListedSnoc(hs, h);
      if hs != [] { MixedWithNothing(Listed(hs).value, h); }
    } else {
      SoleHolderAlone(front, s, i);
      if s in last {
        ListedSnoc(hs, HoldingOf(last[s]));
        MixedWithZero(Single(hs), HoldingOf(last[s]));
      } else {
        assert hs + [] == hs;
      }
    }
  }

  lemma SoleHolders(books: seq<Book>, s: Symbol)
    ensures forall i :: SoleHolder(books, s, i) ==>
              var p, hs := books[i][s], Holdings(books, s);
              hs != [] && Single(hs) == Holding(p.quantity, p.average) && Listed(hs) == Some(Holding(p.quantity, p.average))
  {
    forall i | SoleHolder(books, s, i)
      ensures var p, hs := books[i][s], Holdings(books, s);
              hs != [] && Single(hs) == Holding(p.quantity, p.average) && Listed(hs) == Some(Holding(p.quantity, p.average))
    {
      SoleHolderAlone(books, s, i);
    }
  }

  /** What a list entry says about its symbol. */
  ghost predicate Reported(books: seq<Book>, s: Symbol, h: Option<Holding>) {
    && (h.Some? <==> HeldBySome(books, s))
    && (h.Some? ==> h.value.quantity == SharesHeld(books, s))
    && (forall i :: SoleHolder(books, s, i) ==> h == Some(Holding(books[i][s].quantity, books[i][s].average)))
  }

  lemma AnswersReport(books: seq<Book>, s: Symbol)
    ensures var hs := Holdings(books, s);
            Reported(books, s, Listed(hs)) && Reported(books, s, if hs == [] then None else Some(Single(hs)))
  {
    hide Mixed, Quantity, Cost, Single, Listed, SharesHeld, CostPaid, SoleHolder;
    HoldingsAddUp(books, s);
    SoleHolders(books, s);
    if Holdings(books, s) != [] { AggregationsAgree(Holdings(books, s)); } else { NothingListed(); }
  }

  lemma NothingListed()
    ensures Listed([]) == None
  {
  }

  class TradingEngine {
    var managers: seq<Book>

    constructor (managers: seq<Book>)
      ensures this.managers == managers
    {
      this.managers := managers;
    }

    method GetPosition(symbol: Symbol) returns (r: Outcome<Holding>)
      ensures var hs := Holdings(managers, symbol);
              r == if hs == [] then Err(PositionNotFound) else Ok(Single(hs))
      ensures Reported(managers, symbol, if r.Ok? then Some(r.value) else None)
    {
      hide Mixed, Reported;
      AnswersReport(managers, symbol);
      var combined := Holding(0.0, 0.0);
      var found := false;
      for i := 0 to |managers|
        invariant found <==> Holdings(managers[..i], symbol) != []
        invariant combined == Single(Holdings(managers[..i], symbol))
      {
        assert managers[..i + 1] == managers[..i] + [managers[i]];
        HoldingsSnoc(managers[..i], managers[i], symbol);
        if symbol in managers[i] {
          var h := HoldingOf(managers[i][symbol]);
          ListedSnoc(Holdings(managers[..i], symbol), h);
          found := true;
          var quantity := combined.quantity + h.quantity;
          if quantity != 0.0 && combined.quantity != 0.0 {
            combined := combined.(average := Mixed(combined, h));
          } else if h.quantity != 0.0 {
            combined := combined.(average := h.average);
          }
          combined := combined.(quantity := quantity);
        } else {
          assert Holdings(managers[..i], symbol) + [] == Holdings(managers[..i], symbol);
        }
      }
      assert managers[..|managers|] == managers;
      r := if found then Ok(combined) else Err(PositionNotFound);
    }

    method MergeInto(existing: Holding, h: Holding) returns (e: Holding)
      ensures e == Merge(Some(existing), h)
    {
      hide Mixed;
      e := existing;
      var quantity := e.quantity + h.quantity;
      if quantity != 0.0 {
        e := e.(average := Mixed(e, h));
      }
      e := e.(quantity := quantity);
    }

    /** Folds one manager's list of positions into the combined map. */
    method AddBook(combined: map<Symbol, Holding>, book: Book) returns (r: map<Symbol, Holding>)
      ensures forall s :: Lookup(r, s) == AfterBook(combined, book, s)
    {
      hide Merge, HoldingOf;
      FirstMerge();
      r := combined;
      var rest := book.Keys;
      while rest != {}
        invariant rest <= book.Keys
        invariant forall s :: Lookup(r, s) == if s in rest then Lookup(combined, s) else AfterBook(combined, book, s)
        decreases |rest|
      {
        var s :| s in rest;
        var h := HoldingOf(book[s]);
        assert Lookup(r, s) == Lookup(combined, s);
        if s !in r {
          r := r[s := h];
        } else {
          var e := MergeInto(r[s], h);
          r := r[s := e];
        }
        assert Lookup(r, s) == AfterBook(combined, book, s);
        rest := rest - {s};
      }
    }

    method GetAllPositions() returns (combined: map<Symbol, Holding>)
      ensures forall s :: Lookup(combined, s) == Listed(Holdings(managers, s))
      ensures forall s :: Reported(managers, s, Lookup(combined, s))
    {
      hide Merge, Reported;
      forall s ensures Reported(managers, s, Listed(Holdings(managers, s))) { AnswersReport(managers, s); }
      combined := map[];
      for i := 0 to |managers|
        invariant forall s :: Lookup(combined, s) == Listed(Holdings(managers[..i], s))
      {
        ghost var before := combined;
        combined := AddBook(combined, managers[i]);
        forall s ensures Lookup(combined, s) == Listed(Holdings(managers[..i + 1], s)) {
          assert managers[..i + 1] == managers[..i] + [managers[i]];
          HoldingsSnoc(managers[..i], managers[i], s);
          if s in managers[i] {
            ListedSnoc(Holdings(managers[..i], s), HoldingOf(managers[i][s]));
          } else {
            assert Holdings(managers[..i], s) + [] == Holdings(managers[..i], s);
          }
          assert Lookup(before, s) == Listed(Holdings(managers[..i], s));
        }
      }
      assert managers[..|managers|] == managers;
    }
  }

  /** The combined entry of a symbol after one more manager's list. */
  function AfterBook(combined: map<Symbol, Holding>, book: Book, s: Symbol): Option<Holding> {
    if s in book then Some(Merge(Lookup(combined, s), HoldingOf(book[s]))) else Lookup(combined, s)
  }

  lemma FirstMerge()
    ensures forall h :: Merge(None, h) == h
  {
  }

  function Lookup(m: map<Symbol, Holding>, s: Symbol): Option<Holding> {
    if s in m then Some(m[s]) else None
  }
}
