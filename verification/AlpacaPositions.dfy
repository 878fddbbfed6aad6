// From the broker's cumulative updates to the engine's records: what the manager stores and holds once it has handled the
// reports that the gateway decoded, while other orders trade other symbols.
module AlpacaPositions {
  import opened Base
  import opened IdMapper
  import opened OrderTable
  import opened Positions
  import opened Manager
  import opened AlpacaFills

  /** The reports of the updates as the manager's events, with a store that works. */
  function Events(us: seq<Update>): seq<Event> {
    seq(|Decoded(us)|, i requires 0 <= i < |Decoded(us)| => Execution(Decoded(us)[i], true, true))
  }

  ghost function After(m: Manager, us: seq<Update>): Manager { Run(m, Events(us)) }

  lemma AfterSnoc(m: Manager, us: seq<Update>, u: Update)
    ensures After(m, us + [u]) == if IsFill(u) then DoExecution(After(m, us), Increment(DecoderAfter(us), u), true, true) else After(m, us)
  {
    hide DoExecution, Increment, IsFill;
    var all := us + [u];
    assert all[..|all| - 1] == us;
    if IsFill(u) {
      var e := Execution(Increment(DecoderAfter(us), u), true, true);
      assert Events(all) == Events(us) + [e];
      assert (Events(us) + [e])[..|Events(us) + [e]| - 1] == Events(us);
    } else {
      assert Decoded(us) + [] == Decoded(us);
    }
  }

  /** The updates of order b carry its symbol and side; no other order trades that symbol. */
  predicate Alone(b: BrokerId, symbol: Symbol, side: Side, us: seq<Update>) {
    forall u :: u in us ==> if u.broker == b then u.symbol == symbol && u.side == side else u.symbol != symbol
  }

  /** Broker id b leads to l, which is stored. */
  predicate Maps(m: Manager, b: BrokerId, l: LocalId) {
    b in m.ids.toLocal && m.ids.toLocal[b] == l && l in m.table
  }

  lemma OtherReport(m: Manager, r: Report, b: BrokerId, l: LocalId, symbol: Symbol)
    requires Sound(m.ids) && l in m.table && r.broker != b && r.symbol != symbol
    requires b in m.ids.toLocal ==> m.ids.toLocal[b] == l
    requires r.broker in m.ids.toLocal ==> m.ids.toLocal[r.broker] != l
    ensures var n := DoExecution(m, r, true, true);
            && Sound(n.ids) && l in n.table && n.table[l] == m.table[l] && At(n.book, symbol) == At(m.book, symbol)
            && (Maps(m, b, l) ==> Maps(n, b, l)) && (b in n.ids.toLocal ==> b in m.ids.toLocal)
  {
    hide BlendedAverage, OnFill;
  }

  /** Only b leads to l. */
  lemma OnlyOne(m: Manager, b: BrokerId, l: LocalId, c: BrokerId)
    requires Sound(m.ids) && Maps(m, b, l) && c in m.ids.toLocal && c != b
    ensures m.ids.toLocal[c] != l
  {
  }

  /** A positive increment moves the position in the direction of the side; any increment is stored. */
  lemma OwnReport(m: Manager, r: Report, b: BrokerId, l: LocalId)
    requires Sound(m.ids) && Maps(m, b, l) && r.broker == b && r.status != RejectedReport && r.status != CancelledReport
    ensures var n, row := DoExecution(m, r, true, true), m.table[l];
            && Sound(n.ids) && l in n.table && n.table[l].order == row.order
            && n.table[l].filled == row.filled + r.quantity
            && n.table[l].average == BlendedAverage(row.filled, row.average, r.quantity, r.price)
            && (row.filled + r.quantity < row.order.quantity ==> Maps(n, b, l))
            && At(n.book, r.symbol).quantity == At(m.book, r.symbol).quantity
               + (if r.quantity <= 0.0 then 0.0 else if r.side == Buy then r.quantity else -r.quantity)
  {
    hide BlendedAverage, OnFill;
    FillDirection(At(m.book, r.symbol), TradeOf(r));
  }

  // The order's own numbers ----------------------------------------------------------------

  /** What an update adds to what the gateway remembers of the order. */
  function Added(b: BrokerId, before: seq<Update>, u: Update): real {
    u.quantity - if Forgotten(b, before) then 0.0 else Latest(b, before).0
  }

  /** The sum of everything that was added, leaving out what was taken back. */
  function Moved(b: BrokerId, us: seq<Update>): real {
    if us == [] then 0.0
    else
      var front, u := us[..|us| - 1], us[|us| - 1];
      Moved(b, front) + if u.broker == b && IsFill(u) && Added(b, front, u) > 0.0 then Added(b, front, u) else 0.0
  }

  predicate NeverShrinks(b: BrokerId, us: seq<Update>) {
    forall i :: 0 <= i < |us| && us[i].broker == b && IsFill(us[i]) ==> us[i].quantity >= Latest(b, us[..i]).0
  }

  lemma NeverShrinksSnoc(b: BrokerId, us: seq<Update>)
    requires us != []
    ensures var front, u := us[..|us| - 1], us[|us| - 1];
            NeverShrinks(b, us) <==> NeverShrinks(b, front) && (u.broker == b && IsFill(u) ==> u.quantity >= Latest(b, front).0)
  {
    hide Latest, IsFill;
    var front := us[..|us| - 1];
    assert forall i :: 0 <= i < |front| ==> front[..i] == us[..i] && front[i] == us[i];
  }

  lemma {:induction false} MovedBounds(b: BrokerId, us: seq<Update>)
    requires Positive(b, us) && AllDecodable(b, us)
    ensures Moved(b, us) >= Latest(b, us).0
    ensures Moved(b, us) == Latest(b, us).0 <==> NeverShrinks(b, us)
  {
    hide Forgotten, Positive, AllDecodable, NeverShrinks, IsFill;
    if us == [] {
      NoUpdates(b);
    } else {
      var front, u := us[..|us| - 1], us[|us| - 1];
      PositiveFront(b, us);
      DecodableSnoc(b, us);
      NeverShrinksSnoc(b, us);
      MovedBounds(b, front);
    }
  }

  lemma NoUpdates(b: BrokerId)
    ensures NeverShrinks(b, [])
  {
  }

  // The whole stream --------------------------------------------------------------------------

  /** Where the manager is, after the reports of `us`, with order l of broker id b. */
  ghost predicate Follows(m: Manager, n: Manager, b: BrokerId, l: LocalId, symbol: Symbol, side: Side, us: seq<Update>)
    requires l in m.table
  {
    && Sound(n.ids) && l in n.table && n.table[l].order == m.table[l].order
    && n.table[l].filled == RowAfter(b, us, m.table[l]).filled && n.table[l].average == RowAfter(b, us, m.table[l]).average
    && (RowAfter(b, us, m.table[l]).filled < m.table[l].order.quantity ==> Maps(n, b, l))
    && At(n.book, symbol).quantity == At(m.book, symbol).quantity + if side == Buy then Moved(b, us) else -Moved(b, us)
  }

  /** The order was not complete before the last update. */
  predicate Room(b: BrokerId, us: seq<Update>, row: Row) {
    forall k :: 0 <= k < |us| ==> RowAfter(b, us[..k], row).filled < row.order.quantity
  }

  lemma RoomFront(b: BrokerId, us: seq<Update>, row: Row)
    requires us != [] && Room(b, us, row)
    ensures var front := us[..|us| - 1]; Room(b, front, row) && RowAfter(b, front, row).filled < row.order.quantity
  {
    hide RowAfter;
    var front := us[..|us| - 1];
    assert forall k :: 0 <= k < |front| ==> front[..k] == us[..k];
  }

  lemma FollowOwn(m: Manager, n: Manager, b: BrokerId, l: LocalId, symbol: Symbol, side: Side, us: seq<Update>, u: Update)
    requires l in m.table && Follows(m, n, b, l, symbol, side, us) && Maps(n, b, l)
    requires u.broker == b && IsFill(u) && u.symbol == symbol && u.side == side
    ensures Follows(m, DoExecution(n, Increment(DecoderAfter(us), u), true, true), b, l, symbol, side, us + [u])
  {
    hide DoExecution, BlendedAverage, Forgotten, Latest, Sound;
    var all := us + [u];
    assert all[..|all| - 1] == us;
    OwnReport(n, Increment(DecoderAfter(us), u), b, l);
    DecoderKnows(b, us);
  }

  lemma FollowOther(m: Manager, n: Manager, b: BrokerId, l: LocalId, symbol: Symbol, side: Side, us: seq<Update>, u: Update)
    requires l in m.table && Follows(m, n, b, l, symbol, side, us) && Maps(n, b, l)
    requires u.broker != b && IsFill(u) && u.symbol != symbol
    ensures Follows(m, DoExecution(n, Increment(DecoderAfter(us), u), true, true), b, l, symbol, side, us + [u])
  {
    hide DoExecution, Sound, FilledRow;
    var all := us + [u];
    assert all[..|all| - 1] == us;
    var r := Increment(DecoderAfter(us), u);
    if r.broker in n.ids.toLocal { OnlyOne(n, b, l, r.broker); }
    OtherReport(n, r, b, l, symbol);
  }

  lemma FollowNone(m: Manager, n: Manager, b: BrokerId, l: LocalId, symbol: Symbol, side: Side, us: seq<Update>, u: Update)
    requires l in m.table && Follows(m, n, b, l, symbol, side, us) && !IsFill(u)
    ensures Follows(m, n, b, l, symbol, side, us + [u])
  {
    hide Sound, FilledRow, Increment;
    var all := us + [u];
    assert all[..|all| - 1] == us;
  }

  lemma {:induction false} ManagerFollows(m: Manager, b: BrokerId, l: LocalId, symbol: Symbol, side: Side, us: seq<Update>)
    requires Sound(m.ids) && Maps(m, b, l) && Alone(b, symbol, side, us) && Room(b, us, m.table[l])
    ensures Follows(m, After(m, us), b, l, symbol, side, us)
  {
    hide After, Room, RowAfter, Moved, Sound, IsFill, DoExecution, Increment;
    if us == [] {
      NothingFollowed(m, b, l, symbol, side);
    } else {
      var front, u := us[..|us| - 1], us[|us| - 1];
      assert us == front + [u] && u in us;
      assert forall x :: x in front ==> x in us;
      RoomFront(b, us, m.table[l]);
      ManagerFollows(m, b, l, symbol, side, front);
      AfterSnoc(m, front, u);
      if !IsFill(u) {
        FollowNone(m, After(m, front), b, l, symbol, side, front, u);
      } else if u.broker == b {
        FollowOwn(m, After(m, front), b, l, symbol, side, front, u);
      } else {
        FollowOther(m, After(m, front), b, l, symbol, side, front, u);
      }
    }
  }

  lemma NothingFollowed(m: Manager, b: BrokerId, l: LocalId, symbol: Symbol, side: Side)
    requires Sound(m.ids) && Maps(m, b, l)
    ensures Follows(m, After(m, []), b, l, symbol, side, [])
  {
  }

  /** The broker had not yet reported the whole order before the last update. */
  predicate Unfinished(b: BrokerId, us: seq<Update>, quantity: real) {
    forall k :: 0 <= k < |us| ==> Latest(b, us[..k]).0 < quantity
  }

  lemma UnfinishedRoom(b: BrokerId, us: seq<Update>, row: Row)
    requires Tracks(b, us, row) && Unfinished(b, us, row.order.quantity)
    ensures Room(b, us, row)
  {
    hide RowAfter, Latest;
    forall k | 0 <= k < |us| ensures RowAfter(b, us[..k], row).filled < row.order.quantity {
      assert Matches(RowAfter(b, us[..k], row), Latest(b, us[..k]));
    }
  }

  /** End to end, up to and including the update that completes the order: the stored order equals the broker's cumulative
      quantity and average price, and the position has moved by that quantity, up for a buy and down otherwise, exactly
      when the broker never took a quantity back. */
  lemma {:induction false} BrokerToPosition(m: Manager, b: BrokerId, l: LocalId, symbol: Symbol, side: Side, us: seq<Update>)
    requires Sound(m.ids) && Maps(m, b, l) && m.table[l].filled == 0.0 && m.table[l].average == 0.0
    requires Alone(b, symbol, side, us) && Positive(b, us) && AllDecodable(b, us)
    requires Unfinished(b, us, m.table[l].order.quantity)
    ensures var n, q := After(m, us), Latest(b, us).0;
            && l in n.table && n.table[l].filled == q && n.table[l].average == Latest(b, us).1
            && (At(n.book, symbol).quantity == At(m.book, symbol).quantity + (if side == Buy then q else -q) <==> NeverShrinks(b, us))
  {
    hide After, Alone, Positive, AllDecodable, Unfinished, NeverShrinks, Latest, RowAfter, Moved, Tracks, Sound;
    RoundTrip(b, us, m.table[l]);
    TracksNow(b, us, m.table[l]);
    UnfinishedRoom(b, us, m.table[l]);
    ManagerFollows(m, b, l, symbol, side, us);
    MovedBounds(b, us);
  }

  /** Ten shares at 5, then eight at 5: the store follows the broker down to eight, the position stays at ten. */
  lemma TakenBack(b: BrokerId, symbol: Symbol, side: Side)
    ensures var us := [Update(PartialFillEvent, b, symbol, side, 10.0, 5.0), Update(PartialFillEvent, b, symbol, side, 8.0, 5.0)];
            && Positive(b, us) && AllDecodable(b, us) && !NeverShrinks(b, us)
            && Latest(b, us).0 == 8.0 && Moved(b, us) == 10.0
  {
    var us := [Update(PartialFillEvent, b, symbol, side, 10.0, 5.0), Update(PartialFillEvent, b, symbol, side, 8.0, 5.0)];
    assert us[..1] == [us[0]] && us[..1][..0] == [] && us[..0] == [];
    assert Latest(b, us[..1]) == (10.0, 5.0) && !Forgotten(b, us[..1]) && Moved(b, us[..1]) == 10.0;
    assert us[1].quantity < Latest(b, us[..1]).0;
  }
}
