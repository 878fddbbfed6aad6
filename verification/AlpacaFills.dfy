// A broker that reports cumulative fills: turning each update into the increment the engine expects,
// and what the order store makes of those increments.
module AlpacaFills {
  import opened Base
  import opened OrderTable

  datatype UpdateEvent =
    | FillEvent
    | PartialFillEvent
    | CanceledEvent
    | ExpiredEvent
    | ReplacedEvent
    | RejectedEvent
    | OtherEvent

  /** A trade update: quantity filled so far and the average price of all of it. */
  datatype Update = Update(event: UpdateEvent, broker: BrokerId, symbol: Symbol, side: Side, quantity: real, average: real)

  datatype Decoder = Decoder(quantities: map<BrokerId, real>, costs: map<BrokerId, real>)

  const NEW_DECODER := Decoder(map[], map[])

  predicate IsFill(u: Update) { u.event == FillEvent || u.event == PartialFillEvent }

  /** The events after which the gateway forgets the order. */
  predicate Forgets(u: Update) {
    u.event == FillEvent || u.event == CanceledEvent || u.event == ExpiredEvent || u.event == ReplacedEvent
  }

  function Known(m: map<BrokerId, real>, b: BrokerId): real { if b in m then m[b] else 0.0 }

  function Cost(u: Update): real { u.quantity * u.average }

  function Increment(d: Decoder, u: Update): Report {
    var quantity := u.quantity - Known(d.quantities, u.broker);
    var price := if quantity > 0.0 then (Cost(u) - Known(d.costs, u.broker)) / quantity else u.average;
    Report(u.broker, u.symbol, u.side, quantity, price, "", NewReport)
  }

  function Advance(d: Decoder, u: Update): Decoder {
    if Forgets(u) then Decoder(d.quantities - {u.broker}, d.costs - {u.broker})
    else if u.event == PartialFillEvent then
      Decoder(d.quantities[u.broker := u.quantity], d.costs[u.broker := Cost(u)])
    else d
  }

  function DecoderAfter(us: seq<Update>): Decoder {
    if us == [] then NEW_DECODER else Advance(DecoderAfter(us[..|us| - 1]), us[|us| - 1])
  }

  /** The broker's last word on an order: cumulative quantity and average price. */
  function Latest(b: BrokerId, us: seq<Update>): (real, real) {
    if us == [] then (0.0, 0.0)
    else
      var u := us[|us| - 1];
      if u.broker == b && IsFill(u) then (u.quantity, u.average) else Latest(b, us[..|us| - 1])
  }

  /** The order's row after every report decoded from the updates has been applied to it. */
  function RowAfter(b: BrokerId, us: seq<Update>, row: Row): Row {
    if us == [] then row
    else
      var before := us[..|us| - 1];
      var u := us[|us| - 1];
      if u.broker == b && IsFill(u) then
        var r := Increment(DecoderAfter(before), u);
        FilledRow(RowAfter(b, before, row), r.quantity, r.price, row.status)
      else RowAfter(b, before, row)
  }

  predicate Matches(row: Row, latest: (real, real)) { row.filled == latest.0 && row.average == latest.1 }

  /** After every single update the store agrees with the broker. */
  predicate Tracks(b: BrokerId, us: seq<Update>, row: Row) {
    forall k :: 0 <= k <= |us| ==> Matches(RowAfter(b, us[..k], row), Latest(b, us[..k]))
  }

  predicate Positive(b: BrokerId, us: seq<Update>) {
    forall i :: 0 <= i < |us| && us[i].broker == b && IsFill(us[i]) ==> us[i].quantity > 0.0
  }

  /** The last fill or end of the order made the gateway forget it. */
  predicate Forgotten(b: BrokerId, us: seq<Update>) {
    us != [] &&
    var u := us[|us| - 1];
    if u.broker == b && (IsFill(u) || Forgets(u)) then Forgets(u) else Forgotten(b, us[..|us| - 1])
  }

  /** An update either adds quantity or leaves the average alone. */
  predicate Adds(u: Update, before: (real, real)) { u.quantity > before.0 || u.average == before.1 }

  /** A fill the decoder gets right: it adds to what the gateway remembers, or nothing was filled before. */
  predicate Decodable(b: BrokerId, before: seq<Update>, u: Update) {
    if Forgotten(b, before) then Latest(b, before).0 == 0.0 else Adds(u, Latest(b, before))
  }

  predicate AllDecodable(b: BrokerId, us: seq<Update>) {
    forall i :: 0 <= i < |us| && us[i].broker == b && IsFill(us[i]) ==> Decodable(b, us[..i], us[i])
  }

  /** What the decoder knows of an order: the broker's last word, or nothing once it is forgotten. */
  lemma {:induction false} DecoderKnows(b: BrokerId, us: seq<Update>)
    ensures var d, latest := DecoderAfter(us), if Forgotten(b, us) then (0.0, 0.0) else Latest(b, us);
            Known(d.quantities, b) == latest.0 && Known(d.costs, b) == latest.0 * latest.1
  {
    if us != [] { DecoderKnows(b, us[..|us| - 1]); }
  }

  lemma BlendGrows(q0: real, a0: real, q1: real, a1: real, quantity: real, price: real)
    requires 0.0 <= q0 < q1 && quantity == q1 - q0 && price * quantity == q1 * a1 - q0 * a0
    ensures BlendedAverage(q0, a0, quantity, price) == a1
  {
    if q0 != 0.0 {
      assert a0 * q0 + price * quantity == q1 * a1;
      Quotient(q1, a1);
    } else {
      assert q1 * (price - a1) == 0.0;
    }
  }

  lemma BlendRepeats(q0: real, a0: real, q1: real, a1: real)
    requires 0.0 < q1 <= q0
    ensures BlendedAverage(q0, a0, q1 - q0, a1) == a1 <==> a0 == a1
  {
    var n := a0 * q0 + a1 * (q1 - q0);
    assert n == q1 * a1 + q0 * (a0 - a1);
    Cancels(q1, n);
    Quotient(q1, a1);
    assert a0 != a1 ==> q0 * (a0 - a1) != 0.0;
  }

  lemma Cancels(d: real, n: real)
    requires d != 0.0
    ensures d * (n / d) == n && (n / d) * d == n
  {
  }

  lemma Quotient(d: real, x: real)
    requires d != 0.0
    ensures d * x / d == x
  {
  }

  /** Exactly when the increment of one update brings the row from one cumulative state to the next. */
  lemma OneUpdate(row: Row, q0: real, a0: real, d: Decoder, u: Update)
    requires Matches(row, (q0, a0)) && q0 >= 0.0 && u.quantity > 0.0
    requires Known(d.quantities, u.broker) == q0 && Known(d.costs, u.broker) == q0 * a0
    ensures var r := Increment(d, u);
            Matches(FilledRow(row, r.quantity, r.price, row.status), (u.quantity, u.average)) <==> Adds(u, (q0, a0))
  {
    hide BlendedAverage;
    var r := Increment(d, u);
    if u.quantity > q0 {
      Cancels(r.quantity, Cost(u) - Known(d.costs, u.broker));
      BlendGrows(q0, a0, u.quantity, u.average, r.quantity, r.price);
    } else {
      BlendRepeats(q0, a0, u.quantity, u.average);
    }
  }

  lemma LateUpdate(row: Row, q0: real, a0: real, d: Decoder, u: Update)
    requires Matches(row, (q0, a0)) && q0 >= 0.0 && u.quantity > 0.0
    requires Known(d.quantities, u.broker) == 0.0 && Known(d.costs, u.broker) == 0.0
    ensures var r := Increment(d, u);
            && r.quantity == u.quantity
            && (Matches(FilledRow(row, r.quantity, r.price, row.status), (u.quantity, u.average)) <==> q0 == 0.0)
  {
    Quotient(u.quantity, u.average);
  }

  lemma {:induction false} LatestNonNegative(b: BrokerId, us: seq<Update>)
    requires Positive(b, us)
    ensures Latest(b, us).0 >= 0.0
  {
    if us != [] { LatestNonNegative(b, us[..|us| - 1]); }
  }

  lemma {:induction false} TracksSnoc(b: BrokerId, us: seq<Update>, row: Row)
    requires us != []
    ensures Tracks(b, us, row) <==> Tracks(b, us[..|us| - 1], row) && Matches(RowAfter(b, us, row), Latest(b, us))
  {
    hide RowAfter, Latest, Matches;
    var front := us[..|us| - 1];
    assert us[..|us|] == us;
    assert forall k :: 0 <= k <= |front| ==> front[..k] == us[..k];
    if Tracks(b, us, row) {
      forall k | 0 <= k <= |front| ensures Matches(RowAfter(b, front[..k], row), Latest(b, front[..k])) {
        assert Matches(RowAfter(b, us[..k], row), Latest(b, us[..k]));
      }
    }
    if Tracks(b, front, row) && Matches(RowAfter(b, us, row), Latest(b, us)) {
      forall k | 0 <= k <= |us| ensures Matches(RowAfter(b, us[..k], row), Latest(b, us[..k])) {
        if k < |us| { assert Matches(RowAfter(b, front[..k], row), Latest(b, front[..k])); }
      }
    }
  }

  lemma DecodableSnoc(b: BrokerId, us: seq<Update>)
    requires us != []
    ensures var front, u := us[..|us| - 1], us[|us| - 1];
            AllDecodable(b, us) <==> AllDecodable(b, front) && (u.broker == b && IsFill(u) ==> Decodable(b, front, u))
  {
    hide Decodable, IsFill;
    var front := us[..|us| - 1];
    assert forall i :: 0 <= i < |front| ==> front[..i] == us[..i] && front[i] == us[i];
  }

  /** Decoding to increments and blending them back is the identity after every update exactly when each fill either
      adds quantity or repeats the average while the gateway remembers the order, or is the first fill after the gateway
      forgot it; whatever other orders do in between. */
  lemma {:induction false} RoundTrip(b: BrokerId, us: seq<Update>, row: Row)
    requires row.filled == 0.0 && row.average == 0.0 && Positive(b, us)
    ensures Tracks(b, us, row) <==> AllDecodable(b, us)
  {
    hide Positive, Decodable, Tracks, AllDecodable, Matches, FilledRow, Increment, Forgotten;
    if us == [] {
      NothingYet(b, us, row);
    } else {
      var front, u := us[..|us| - 1], us[|us| - 1];
      PositiveFront(b, us);
      RoundTrip(b, front, row);
      TracksSnoc(b, us, row);
      DecodableSnoc(b, us);
      if Tracks(b, front, row) {
        TracksNow(b, front, row);
        if u.broker == b && IsFill(u) { LastUpdate(b, us, row); }
      }
    }
  }

  lemma NothingYet(b: BrokerId, us: seq<Update>, row: Row)
    requires us == [] && row.filled == 0.0 && row.average == 0.0
    ensures Tracks(b, us, row) && AllDecodable(b, us)
  {
  }

  lemma TracksNow(b: BrokerId, us: seq<Update>, row: Row)
    requires Tracks(b, us, row)
    ensures Matches(RowAfter(b, us, row), Latest(b, us))
  {
    hide RowAfter, Latest, Matches;
    assert us[..|us|] == us;
  }

  lemma PositiveFront(b: BrokerId, us: seq<Update>)
    requires us != [] && Positive(b, us)
    ensures Positive(b, us[..|us| - 1])
    ensures us[|us| - 1].broker == b && IsFill(us[|us| - 1]) ==> us[|us| - 1].quantity > 0.0
  {
    hide IsFill;
  }

  lemma LastUpdate(b: BrokerId, us: seq<Update>, row: Row)
    requires us != [] && Positive(b, us) && us[|us| - 1].broker == b && IsFill(us[|us| - 1])
    requires var front := us[..|us| - 1]; Matches(RowAfter(b, front, row), Latest(b, front))
    ensures Matches(RowAfter(b, us, row), Latest(b, us)) <==> Decodable(b, us[..|us| - 1], us[|us| - 1])
  {
    hide Positive, Adds, FilledRow, Increment, Forgotten;
    var front, u := us[..|us| - 1], us[|us| - 1];
    PositiveFront(b, us);
    DecoderKnows(b, front);
    LatestNonNegative(b, front);
    var at, latest := RowAfter(b, front, row), Latest(b, front);
    if Forgotten(b, front) {
      LateUpdate(at, latest.0, latest.1, DecoderAfter(front), u);
    } else {
      OneUpdate(at, latest.0, latest.1, DecoderAfter(front), u);
    }
    StatusIrrelevant(at, Increment(DecoderAfter(front), u), row.status, Latest(b, us));
  }

  lemma StatusIrrelevant(row: Row, r: Report, s: OrderStatus, latest: (real, real))
    ensures Matches(FilledRow(row, r.quantity, r.price, row.status), latest) <==> Matches(FilledRow(row, r.quantity, r.price, s), latest)
  {
    hide BlendedAverage;
  }

  /** The broker's promise: quantities never shrink, a repeated quantity repeats its average, and no fill follows the
      end of an order that has fills. */
  predicate NonDecreasing(b: BrokerId, us: seq<Update>) {
    forall i :: 0 <= i < |us| && us[i].broker == b && IsFill(us[i]) ==>
      var before := Latest(b, us[..i]);
      && us[i].quantity >= before.0 && (us[i].quantity == before.0 ==> us[i].average == before.1)
      && (Forgotten(b, us[..i]) ==> before.0 == 0.0)
  }

  lemma {:induction false} NonDecreasingRoundTrip(b: BrokerId, us: seq<Update>, row: Row)
    requires row.filled == 0.0 && row.average == 0.0 && Positive(b, us) && NonDecreasing(b, us)
    ensures Matches(RowAfter(b, us, row), Latest(b, us))
  {
    hide Positive, Tracks, RowAfter, Latest, Matches, Forgotten;
    RoundTrip(b, us, row);
    TracksNow(b, us, row);
  }

  /** Any fill for an order the gateway has forgotten, a repeated final fill as well as a late one after a cancel, is
      decoded in full: it is stored on top of everything stored before. */
  lemma {:induction false} LateFillAddsInFull(b: BrokerId, us: seq<Update>, row: Row, u: Update)
    requires Forgotten(b, us) && u.broker == b && IsFill(u) && u.quantity > 0.0
    requires Matches(RowAfter(b, us, row), Latest(b, us)) && Latest(b, us).0 >= 0.0
    ensures var all := us + [u];
            && RowAfter(b, all, row).filled == Latest(b, us).0 + Latest(b, all).0
            && (Matches(RowAfter(b, all, row), Latest(b, all)) <==> Latest(b, us).0 == 0.0)
  {
    hide Forgotten, Increment, BlendedAverage;
    var all := us + [u];
    assert all[..|all| - 1] == us;
    DecoderKnows(b, us);
    var at, r := RowAfter(b, us, row), Increment(DecoderAfter(us), u);
    LateUpdate(at, Latest(b, us).0, Latest(b, us).1, DecoderAfter(us), u);
    StatusIrrelevant(at, r, row.status, Latest(b, all));
  }

  /** The reports that the updates have produced. */
  function Decoded(us: seq<Update>): seq<Report> {
    if us == [] then []
    else
      var front, u := us[..|us| - 1], us[|us| - 1];
      Decoded(front) + if IsFill(u) then [Increment(DecoderAfter(front), u)] else []
  }

  /** A report names the order, symbol and side of its update, and never ends an order by itself. */
  predicate Carries(r: Report, u: Update) {
    r.broker == u.broker && r.symbol == u.symbol && r.side == u.side && r.status != RejectedReport && r.status != CancelledReport
  }

  lemma IncrementCarries(d: Decoder, u: Update)
    ensures Carries(Increment(d, u), u)
  {
  }

  /** The fills among the updates, in order. */
  function FillsOf(us: seq<Update>): seq<Update> {
    if us == [] then [] else FillsOf(us[..|us| - 1]) + if IsFill(us[|us| - 1]) then [us[|us| - 1]] else []
  }

  /** One report for each fill, in order, carrying its particulars. */
  lemma {:induction false} DecodedCarries(us: seq<Update>)
    ensures |Decoded(us)| == |FillsOf(us)|
    ensures forall i :: 0 <= i < |Decoded(us)| ==> Carries(Decoded(us)[i], FillsOf(us)[i])
  {
    hide Carries, IsFill, Increment;
    if us != [] {
      DecodedCarries(us[..|us| - 1]);
      IncrementCarries(DecoderAfter(us[..|us| - 1]), us[|us| - 1]);
    }
  }

  class AlpacaGateway {
    var quantities: map<BrokerId, real>
    var costs: map<BrokerId, real>
    var reports: seq<Report>
    ghost var updates: seq<Update>

    ghost predicate Valid()
      reads this
    {
      Decoder(quantities, costs) == DecoderAfter(updates) && reports == Decoded(updates)
    }

    constructor ()
      ensures Valid() && updates == [] && reports == []
    {
      quantities, costs, reports, updates := map[], map[], [], [];
    }

    method OnUpdate(u: Update)
      requires Valid()
      modifies this
      ensures Valid() && updates == old(updates) + [u]
      ensures reports == old(reports) + if IsFill(u) then [Increment(DecoderAfter(old(updates)), u)] else []
      ensures IsFill(u) ==> Carries(reports[|reports| - 1], u)
    {
      ghost var d := Decoder(quantities, costs);
      var b := u.broker;
      if u.event == FillEvent || u.event == PartialFillEvent {
        var cost := Cost(u);
        var knownQuantity := if b in quantities then quantities[b] else 0.0;
        var knownCost := if b in costs then costs[b] else 0.0;
        var quantity := u.quantity - knownQuantity;
        var price := if quantity > 0.0 then (cost - knownCost) / quantity else u.average;
        if u.event == FillEvent {
          quantities, costs := quantities - {b}, costs - {b};
        } else {
          quantities, costs := quantities[b := u.quantity], costs[b := cost];
        }
        var report := Report(b, u.symbol, u.side, quantity, price, "", NewReport);
        assert report == Increment(d, u);
        reports := reports + [report];
      } else if u.event == CanceledEvent || u.event == ExpiredEvent || u.event == ReplacedEvent {
        quantities, costs := quantities - {b}, costs - {b};
      }
      assert Decoder(quantities, costs) == Advance(d, u);
      updates := updates + [u];
      assert updates[..|updates| - 1] == old(updates);
    }
  }
}
