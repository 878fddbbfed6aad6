// Vocabulary shared by every component of the engine model.
module Base {

  datatype Option<+T> = None | Some(value: T)

  /** Why an operation was refused; messages are not modelled. A row that cannot be stored because its creation time
      cannot be formatted is a store failure too. */
  datatype Error =
    | UnknownOrder
    | StoreFailure
    | GatewayRefused
    | QuantityLimit
    | OpenOrderLimit
    | DailyLossLimit
    | PositionNotFound

  datatype Outcome<+T> = Ok(value: T) | Err(error: Error)

  type LocalId = string
  type BrokerId = string
  type Symbol = string

  datatype Side = UnknownSide | Buy | Sell

  /** The status column of the order store. */
  datatype OrderStatus =
    | PendingSubmission
    | Submitted
    | Accepted
    | PartiallyFilled
    | Filled
    | Cancelled
    | Replaced
    | Rejected
    | Expired

  /** The statuses that the open-orders query selects. */
  predicate IsOpen(s: OrderStatus) {
    s == PendingSubmission || s == Submitted || s == Accepted || s == PartiallyFilled
  }

  /** The part of an order that the execution core reads. */
  datatype Order = Order(id: LocalId, symbol: Symbol, side: Side, quantity: real)

  /** The status field of an execution report, as the wire format numbers it. */
  datatype ReportStatus = NewReport | SubmittedReport | PartialFillReport | FilledReport | CancelledReport | RejectedReport

  /** An execution report sent by a gateway. */
  datatype Report = Report(
    broker: BrokerId,
    symbol: Symbol,
    side: Side,
    quantity: real,
    price: real,
    executionId: string,
    status: ReportStatus)

  /** Quantity with the sign the position keeper gives it: everything but a buy is a sell. */
  function Signed(side: Side, quantity: real): real {
    if side == Buy then quantity else -quantity
  }
}

// Sums over the values of a finite map, independent of the order of visiting.
module MapSums {

  ghost function Total<K(!new)>(m: map<K, real>): real
    decreases |m|
  {
    if m == map[] then 0.0 else
      var k :| k in m;
      m[k] + Total(m - {k})
  }

  lemma {:induction false} TotalRemove<K(!new)>(m: map<K, real>, k: K)
    requires k in m
    ensures Total(m) == m[k] + Total(m - {k})
    decreases |m|
  {
    var j :| j in m && Total(m) == m[j] + Total(m - {j});
    if j != k {
      TotalRemove(m - {j}, k);
      TotalRemove(m - {k}, j);
      assert m - {j} - {k} == m - {k} - {j};
    }
  }

  lemma TotalUpdate<K(!new)>(m: map<K, real>, k: K, v: real)
    ensures Total(m[k := v]) == Total(m) - (if k in m then m[k] else 0.0) + v
  {
    TotalRemove(m[k := v], k);
    assert m[k := v] - {k} == m - {k};
    if k in m {
      TotalRemove(m, k);
    } else {
      assert m - {k} == m;
    }
  }
}
