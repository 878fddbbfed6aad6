// The orders table: a map from the primary key to a row, with fallible atomic statements.
// The flag `io` of each operation says whether the database itself worked.
module OrderTable {
  import opened Base

  datatype Row = Row(order: Order, status: OrderStatus, broker: Option<BrokerId>, filled: real, average: real)

  type Table = map<LocalId, Row>

  /** UNIQUE constraint on broker_id; NULLs never collide. */
  ghost predicate BrokerFree(t: Table, l: LocalId, b: Option<BrokerId>) {
    b.Some? ==> forall k :: k in t && k != l ==> t[k].broker != b
  }

  ghost predicate InsertAccepted(t: Table, l: LocalId, row: Row, io: bool) {
    io && l !in t && BrokerFree(t, l, row.broker)
  }

  ghost function Insert(t: Table, l: LocalId, row: Row, io: bool): Table {
    if InsertAccepted(t, l, row, io) then t[l := row] else t
  }

  /** An UPDATE that matches no row succeeds and changes nothing. */
  function WithStatus(t: Table, l: LocalId, s: OrderStatus, io: bool): Table {
    if io && l in t then t[l := t[l].(status := s)] else t
  }

  ghost predicate BrokerAccepted(t: Table, l: LocalId, b: BrokerId, io: bool) {
    io && (l in t ==> BrokerFree(t, l, Some(b)))
  }

  ghost function WithBroker(t: Table, l: LocalId, b: BrokerId, io: bool): Table {
    if BrokerAccepted(t, l, b, io) && l in t then t[l := t[l].(broker := Some(b))] else t
  }

  /** The weighted average of the UPDATE; a division by zero stores NULL, which reads back as 0. */
  function BlendedAverage(filled: real, average: real, quantity: real, price: real): real {
    if filled == 0.0 then price
    else if filled + quantity == 0.0 then 0.0
    else (average * filled + price * quantity) / (filled + quantity)
  }

  function FilledRow(row: Row, quantity: real, price: real, s: OrderStatus): Row {
    row.(average := BlendedAverage(row.filled, row.average, quantity, price),
         filled := row.filled + quantity,
         status := s)
  }

  function WithFill(t: Table, l: LocalId, quantity: real, price: real, s: OrderStatus, io: bool): Table {
    if io && l in t then t[l := FilledRow(t[l], quantity, price, s)] else t
  }

  /** A duplicate-free list of open orders; a query that breaks off returns only some of them. */
  ghost predicate Snapshot(t: Table, ls: seq<LocalId>) {
    && (forall i :: 0 <= i < |ls| ==> ls[i] in t && IsOpen(t[ls[i]].status))
    && (forall i, j :: 0 <= i < j < |ls| ==> ls[i] != ls[j])
  }

  /** A complete list of open orders. */
  ghost predicate FullSnapshot(t: Table, ls: seq<LocalId>) {
    Snapshot(t, ls) && forall l :: l in t && IsOpen(t[l].status) ==> l in ls
  }

  /** The query leaves out exactly the statuses that end an order. */
  lemma OpenOrEnded(s: OrderStatus)
    ensures IsOpen(s) <==> !(s.Filled? || s.Cancelled? || s.Replaced? || s.Rejected? || s.Expired?)
  {
  }

  /** The cash paid for an order so far. */
  function Paid(row: Row): real { row.filled * row.average }

  /** The UPDATE adds exactly quantity x price to the cash paid. */
  lemma FillAddsCash(row: Row, quantity: real, price: real, s: OrderStatus)
    requires row.filled == 0.0 || row.filled + quantity != 0.0
    ensures Paid(FilledRow(row, quantity, price, s)) == Paid(row) + quantity * price
  {
    if row.filled != 0.0 {
      var d := row.filled + quantity;
      var n := row.average * row.filled + price * quantity;
      assert d * (n / d) == n;
    }
  }

  class OrderStore {
    var rows: Table

    constructor ()
      ensures rows == map[]
    {
      rows := map[];
    }

    method BrokerTaken(l: LocalId, b: BrokerId) returns (taken: bool)
      ensures taken == !BrokerFree(rows, l, Some(b))
    {
      var rest := rows.Keys;
      taken := false;
      while rest != {}
        invariant rest <= rows.Keys
        invariant taken <==> exists k :: k in rows && k !in rest && k != l && rows[k].broker == Some(b)
        decreases |rest|
      {
        var k :| k in rest;
        taken := taken || (k != l && rows[k].broker == Some(b));
        rest := rest - {k};
      }
    }

    method StoreOrder(l: LocalId, row: Row, io: bool) returns (ok: bool)
      modifies this
      ensures ok <==> InsertAccepted(old(rows), l, row, io)
      ensures rows == Insert(old(rows), l, row, io)
    {
      var taken := false;
      if row.broker.Some? {
        taken := BrokerTaken(l, row.broker.value);
      }
      ok := io && l !in rows && !taken;
      if ok {
        rows := rows[l := row];
      }
    }

    method UpdateOrderStatus(l: LocalId, s: OrderStatus, io: bool) returns (ok: bool)
      modifies this
      ensures ok == io && rows == WithStatus(old(rows), l, s, io)
    {
      ok := io;
      if io && l in rows {
        rows := rows[l := rows[l].(status := s)];
      }
    }

    method UpdateBrokerId(l: LocalId, b: BrokerId, io: bool) returns (ok: bool)
      modifies this
      ensures ok <==> BrokerAccepted(old(rows), l, b, io)
      ensures rows == WithBroker(old(rows), l, b, io)
    {
      var taken := BrokerTaken(l, b);
      ok := io && (l in rows ==> !taken);
      if ok && l in rows {
        rows := rows[l := rows[l].(broker := Some(b))];
      }
    }

    method ApplyFill(l: LocalId, quantity: real, price: real, s: OrderStatus, io: bool) returns (ok: bool)
      modifies this
      ensures ok == io && rows == WithFill(old(rows), l, quantity, price, s, io)
    {
      ok := io;
      if io && l in rows {
        rows := rows[l := FilledRow(rows[l], quantity, price, s)];
      }
    }

    method GetOrder(l: LocalId, io: bool) returns (row: Option<Row>)
      ensures row == if io && l in rows then Some(rows[l]) else None
    {
      row := if io && l in rows then Some(rows[l]) else None;
    }

    /** Collects open orders until the cursor is exhausted or fails after `steps` rows. */
    method GetOpenOrders(steps: nat) returns (ls: seq<LocalId>)
      ensures Snapshot(rows, ls)
      ensures steps >= |rows| ==> FullSnapshot(rows, ls)
    {
      var rest := rows.Keys;
      var count := 0;
      ls := [];
      while rest != {} && count < steps
        invariant rest <= rows.Keys && count + |rest| == |rows.Keys|
        invariant forall l :: l in ls <==> l in rows && l !in rest && IsOpen(rows[l].status)
        invariant forall i, j :: 0 <= i < j < |ls| ==> ls[i] != ls[j]
        decreases |rest|
      {
        var l :| l in rest;
        if IsOpen(rows[l].status) { ls := ls + [l]; }
        rest := rest - {l};
        count := count + 1;
      }
    }
  }
}
