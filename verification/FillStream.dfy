// The fill stream of a remote adapter: reports the adapter sends again after a reconnect are filtered out by a
// bounded window of recently delivered execution ids.
module FillStream {
  import opened Base

  const MAX_SEEN_IDS: nat := 10000

  /** The non-empty execution ids of a list of reports, in order. */
  function Ids(rs: seq<Report>): seq<string> {
    if rs == [] then []
    else
      var front := Ids(rs[..|rs| - 1]);
      var id := rs[|rs| - 1].executionId;
      if id == "" then front else front + [id]
  }

  function LastOf(ids: seq<string>, n: nat): seq<string> {
    if |ids| <= n then ids else ids[|ids| - n..]
  }

  function Window(rs: seq<Report>): seq<string> { LastOf(Ids(rs), MAX_SEEN_IDS) }

  predicate Duplicate(delivered: seq<Report>, r: Report) { r.executionId != "" && r.executionId in Window(delivered) }

  /** What the handler has received once `r` has been read. */
  function Deliver(delivered: seq<Report>, r: Report): seq<Report> {
    if Duplicate(delivered, r) then delivered else delivered + [r]
  }

  function DeliverAll(delivered: seq<Report>, rs: seq<Report>): seq<Report> {
    if rs == [] then delivered else Deliver(DeliverAll(delivered, rs[..|rs| - 1]), rs[|rs| - 1])
  }

  lemma IdsSnoc(rs: seq<Report>, r: Report)
    ensures Ids(rs + [r]) == if r.executionId == "" then Ids(rs) else Ids(rs) + [r.executionId]
  {
    assert (rs + [r])[..|rs + [r]| - 1] == rs;
  }

  lemma DeliverAllSnoc(delivered: seq<Report>, rs: seq<Report>, r: Report)
    ensures DeliverAll(delivered, rs + [r]) == Deliver(DeliverAll(delivered, rs), r)
  {
    assert (rs + [r])[..|rs + [r]| - 1] == rs;
  }

  lemma {:induction false} DeliverAllSplit(delivered: seq<Report>, rs: seq<Report>, more: seq<Report>)
    ensures DeliverAll(delivered, rs + more) == DeliverAll(DeliverAll(delivered, rs), more)
  {
    if more == [] {
      assert rs + more == rs;
    } else {
      assert (rs + more)[..|rs + more| - 1] == rs + more[..|more| - 1];
      DeliverAllSplit(delivered, rs, more[..|more| - 1]);
    }
  }

  // How far apart two deliveries of one id are ----------------------------------------------

  /** Between two occurrences of one id there are at least n others. */
  predicate Spaced(ids: seq<string>, n: nat) {
    forall i, j :: 0 <= i < j < |ids| && ids[i] == ids[j] ==> j - i > n
  }

  lemma {:induction false} DeliveriesSpaced(rs: seq<Report>)
    ensures Spaced(Ids(DeliverAll([], rs)), MAX_SEEN_IDS)
  {
    if rs != [] {
      var before, r := DeliverAll([], rs[..|rs| - 1]), rs[|rs| - 1];
      DeliveriesSpaced(rs[..|rs| - 1]);
      IdsSnoc(before, r);
      if !Duplicate(before, r) && r.executionId != "" {
        NotInWindow(Ids(before), r.executionId, MAX_SEEN_IDS);
      }
    }
  }

  lemma NotInWindow(ids: seq<string>, id: string, n: nat)
    requires Spaced(ids, n) && id !in LastOf(ids, n)
    ensures Spaced(ids + [id], n)
  {
    LastHolds(ids, n);
  }

  lemma LastHolds(ids: seq<string>, n: nat)
    ensures forall i :: 0 <= i < |ids| && |ids| - i <= n ==> ids[i] in LastOf(ids, n)
  {
    forall i | 0 <= i < |ids| && |ids| - i <= n ensures ids[i] in LastOf(ids, n) {
      assert ids[i] == LastOf(ids, n)[if |ids| <= n then i else i - (|ids| - n)];
    }
  }

  // What is delivered -----------------------------------------------------------------------

  /** `part` is `whole` with some elements left out. */
  predicate InOrder(part: seq<Report>, whole: seq<Report>) {
    part == [] || (whole != [] && (
      || (part[|part| - 1] == whole[|whole| - 1] && InOrder(part[..|part| - 1], whole[..|whole| - 1]))
      || InOrder(part, whole[..|whole| - 1])))
  }

  /** The reports that carry no execution id. */
  function Anonymous(rs: seq<Report>): seq<Report> {
    if rs == [] then []
    else Anonymous(rs[..|rs| - 1]) + if rs[|rs| - 1].executionId == "" then [rs[|rs| - 1]] else []
  }

  predicate Reaches(r: Report, delivered: seq<Report>) {
    if r.executionId == "" then r in delivered else r.executionId in Ids(delivered)
  }

  /** Order is kept, reports without an id are never filtered, and every id that was sent is delivered. */
  lemma {:induction false} DeliveredFaithfully(rs: seq<Report>)
    ensures InOrder(DeliverAll([], rs), rs)
    ensures Anonymous(DeliverAll([], rs)) == Anonymous(rs)
    ensures forall r :: r in rs ==> Reaches(r, DeliverAll([], rs))
  {
    if rs != [] {
      var front, r := rs[..|rs| - 1], rs[|rs| - 1];
      var before := DeliverAll([], front);
      DeliveredFaithfully(front);
      IdsSnoc(before, r);
      assert (before + [r])[..|before + [r]| - 1] == before;
      assert Reaches(r, Deliver(before, r));
      forall x | x in rs ensures Reaches(x, Deliver(before, r)) {
        assert x == r || x in front;
      }
    }
  }

  predicate Distinct(ids: seq<string>) {
    forall i, j :: 0 <= i < j < |ids| ==> ids[i] != ids[j]
  }

  lemma {:induction false} DistinctCount(ids: seq<string>, universe: set<string>)
    requires Distinct(ids) && forall id :: id in ids ==> id in universe
    ensures |ids| <= |universe|
  {
    if ids != [] {
      DistinctCount(ids[..|ids| - 1], universe - {ids[|ids| - 1]});
    }
  }

  /** Whenever an id that was delivered is sent again, it is still in the window. */
  predicate RepeatsInWindow(rs: seq<Report>) {
    forall k :: 0 <= k < |rs| && rs[k].executionId in Ids(DeliverAll([], rs[..k])) ==> rs[k].executionId in Window(DeliverAll([], rs[..k]))
  }

  lemma RepeatsSnoc(rs: seq<Report>)
    requires rs != []
    ensures var front, id := rs[..|rs| - 1], rs[|rs| - 1].executionId;
            RepeatsInWindow(rs)
            <==> RepeatsInWindow(front) && (id in Ids(DeliverAll([], front)) ==> id in Window(DeliverAll([], front)))
  {
    hide Ids, DeliverAll, Window;
    var front := rs[..|rs| - 1];
    assert forall k :: 0 <= k < |front| ==> front[..k] == rs[..k] && front[k] == rs[k];
  }

  lemma {:induction false} IdsNotEmpty(rs: seq<Report>)
    ensures "" !in Ids(rs)
  {
    if rs != [] { IdsNotEmpty(rs[..|rs| - 1]); }
  }

  lemma DistinctSnoc(ids: seq<string>, id: string)
    ensures Distinct(ids + [id]) <==> Distinct(ids) && id !in ids
  {
    if Distinct(ids + [id]) { DistinctFront(ids, id); }
  }

  /** Every id that is sent is delivered exactly once if and only if no id is sent again after it has left the window. */
  lemma {:induction false} OnceExactly(rs: seq<Report>)
    ensures (Distinct(Ids(DeliverAll([], rs))) && forall r :: r in rs && r.executionId != "" ==> r.executionId in Ids(DeliverAll([], rs)))
       <==> RepeatsInWindow(rs)
  {
    DistinctIffInWindow(rs);
    DeliveredFaithfully(rs);
    hide Ids, DeliverAll, Distinct, RepeatsInWindow;
    assert forall r :: r in rs ==> Reaches(r, DeliverAll([], rs));
  }

  lemma {:induction false} DistinctIffInWindow(rs: seq<Report>)
    ensures Distinct(Ids(DeliverAll([], rs))) <==> RepeatsInWindow(rs)
  {
    if rs == [] {
    } else {
      var before, r := DeliverAll([], rs[..|rs| - 1]), rs[|rs| - 1];
      hide Ids, Distinct, RepeatsInWindow, Window;
      DistinctIffInWindow(rs[..|rs| - 1]);
      RepeatsSnoc(rs);
      IdsSnoc(before, r);
      IdsNotEmpty(before);
      DistinctSnoc(Ids(before), r.executionId);
      WindowHoldsDelivered(before);
    }
  }

  lemma WindowHoldsDelivered(delivered: seq<Report>)
    ensures forall id :: id in Window(delivered) ==> id in Ids(delivered)
  {
    hide Ids;
  }

  /** As long as no more than a window of different ids is in use, every id that is sent is delivered exactly once. */
  lemma {:induction false} ExactlyOnce(rs: seq<Report>, universe: set<string>)
    requires |universe| <= MAX_SEEN_IDS
    requires forall r :: r in rs ==> r.executionId == "" || r.executionId in universe
    ensures Distinct(Ids(DeliverAll([], rs)))
    ensures forall r :: r in rs && r.executionId != "" ==> r.executionId in Ids(DeliverAll([], rs))
  {
    FewIdsDistinct(rs, universe);
    DeliveredFaithfully(rs);
    hide Ids, DeliverAll, Distinct;
    assert forall r :: r in rs ==> Reaches(r, DeliverAll([], rs));
  }

  lemma {:induction false} FewIdsDistinct(rs: seq<Report>, universe: set<string>)
    requires |universe| <= MAX_SEEN_IDS
    requires forall r :: r in rs ==> r.executionId == "" || r.executionId in universe
    ensures Distinct(Ids(DeliverAll([], rs)))
    ensures forall id :: id in Ids(DeliverAll([], rs)) ==> id in universe
  {
    if rs != [] {
      var before, r := DeliverAll([], rs[..|rs| - 1]), rs[|rs| - 1];
      FewIdsDistinct(rs[..|rs| - 1], universe);
      IdsSnoc(before, r);
      DistinctCount(Ids(before), universe);
      assert Window(before) == Ids(before);
      assert r in rs;
    }
  }

  /** The bound is tight: an id sent again after a full window of others is delivered a second time. */
  lemma WindowForgets(rs: seq<Report>, again: Report)
    requires again in rs && again.executionId != "" && again.executionId !in Window(DeliverAll([], rs))
    ensures DeliverAll([], rs + [again]) == DeliverAll([], rs) + [again]
    ensures var ids := Ids(DeliverAll([], rs + [again]));
            exists i, j :: 0 <= i < j < |ids| && ids[i] == ids[j] == again.executionId
  {
    DeliveredFaithfully(rs);
    DeliverAllSnoc([], rs, again);
    var before := Ids(DeliverAll([], rs));
    IdsSnoc(DeliverAll([], rs), again);
    assert Reaches(again, DeliverAll([], rs));
    var i :| 0 <= i < |before| && before[i] == again.executionId;
    assert (before + [again.executionId])[i] == (before + [again.executionId])[|before|];
  }

  lemma FreshIsDelivered(delivered: seq<Report>, r: Report)
    requires r.executionId !in Ids(delivered)
    ensures Deliver(delivered, r) == delivered + [r]
  {
    hide Ids;
  }

  /** Reports whose ids are all new are delivered as they come. */
  lemma {:induction false} FreshIdsAreDelivered(delivered: seq<Report>, rs: seq<Report>)
    requires Distinct(Ids(delivered) + Ids(rs)) && |Ids(rs)| == |rs|
    ensures DeliverAll(delivered, rs) == delivered + rs
  {
    hide Ids, Deliver, Distinct;
    if rs != [] {
      var front, r := rs[..|rs| - 1], rs[|rs| - 1];
      assert front + [r] == rs;
      IdsSnoc(front, r);
      IdsLength(front);
      assert Ids(delivered) + Ids(rs) == Ids(delivered) + Ids(front) + [r.executionId];
      DistinctFront(Ids(delivered) + Ids(front), r.executionId);
      FreshIdsAreDelivered(delivered, front);
      IdsConcat(delivered, front);
      FreshIsDelivered(delivered + front, r);
    }
  }

  lemma DistinctFront(ids: seq<string>, id: string)
    requires Distinct(ids + [id])
    ensures Distinct(ids) && id !in ids
  {
    var all := ids + [id];
    assert forall i :: 0 <= i < |ids| ==> all[i] == ids[i] && all[i] != all[|ids|];
  }

  lemma {:induction false} IdsLength(rs: seq<Report>)
    ensures |Ids(rs)| <= |rs|
  {
    if rs != [] { IdsLength(rs[..|rs| - 1]); }
  }

  lemma NoIds()
    ensures Ids([]) == []
  {
  }

  lemma {:induction false} IdsConcat(a: seq<Report>, b: seq<Report>)
    ensures Ids(a + b) == Ids(a) + Ids(b)
  {
    hide Ids;
    if b == [] {
      NoIds();
      assert a + b == a;
    } else {
      IdsSnoc(b[..|b| - 1], b[|b| - 1]);
      assert b[..|b| - 1] + [b[|b| - 1]] == b;
      IdsConcat(a, b[..|b| - 1]);
      IdsSnoc(a + b[..|b| - 1], b[|b| - 1]);
      assert a + b[..|b| - 1] + [b[|b| - 1]] == a + b;
    }
  }

  lemma WindowIsTight(r: Report, others: seq<Report>)
    requires r.executionId != "" && |others| == |Ids(others)| == MAX_SEEN_IDS && Distinct([r.executionId] + Ids(others))
    ensures DeliverAll([], [r] + others + [r]) == [r] + others + [r]
  {
    hide Ids, DeliverAll;
    var rs := [r] + others;
    NoIds();
    IdsSnoc([], r);
    assert [] + [r] == [r];
    IdsConcat([r], others);
    assert Ids(rs) == [r.executionId] + Ids(others) && Ids([]) + Ids(rs) == Ids(rs);
    FreshIdsAreDelivered([], rs);
    assert [] + rs == rs;
    assert LastOf(Ids(rs), MAX_SEEN_IDS) == Ids(others);
    assert forall k :: 0 <= k < |others| ==> Ids(others)[k] == Ids(rs)[k + 1] != Ids(rs)[0];
    DeliverAllSnoc([], rs, r);
  }

  // The gateway -----------------------------------------------------------------------------

  /** The window after one more identified delivery. */
  lemma WindowSlides(delivered: seq<Report>, r: Report)
    requires r.executionId != "" && !Duplicate(delivered, r) && Distinct(Window(delivered))
    ensures var w := Window(delivered);
            var kept := if |w| >= MAX_SEEN_IDS then w[1..] else w;
            Window(delivered + [r]) == kept + [r.executionId] && Distinct(kept + [r.executionId])
  {
    hide Ids;
    IdsSnoc(delivered, r);
  }

  lemma SameWindow(a: seq<Report>, b: seq<Report>)
    requires Ids(a) == Ids(b)
    ensures Window(a) == Window(b)
  {
  }

  lemma DropOldest(ids: seq<string>)
    requires ids != [] && Distinct(ids)
    ensures (set id | id in ids[1..]) == (set id | id in ids) - {ids[0]}
  {
  }

  class GrpcGateway {
    var seenExecutionIds: set<string>
    var seenIdOrder: seq<string>
    var delivered: seq<Report>

    ghost predicate Valid()
      reads this
    {
      && seenIdOrder == Window(delivered)
      && seenExecutionIds == (set id | id in seenIdOrder)
      && |seenExecutionIds| == |seenIdOrder| <= MAX_SEEN_IDS
      && Distinct(seenIdOrder)
    }

    constructor ()
      ensures Valid() && delivered == []
    {
      seenExecutionIds, seenIdOrder, delivered := {}, [], [];
    }

    method OnRead(report: Report)
      requires Valid()
      modifies this
      ensures Valid() && delivered == Deliver(old(delivered), report)
    {
      hide Window, Distinct, Ids;
      var id := report.executionId;
      if id != "" {
        if id in seenExecutionIds { return; }
        WindowSlides(delivered, report);
        if |seenExecutionIds| >= MAX_SEEN_IDS {
          DropOldest(seenIdOrder);
          seenExecutionIds := seenExecutionIds - {seenIdOrder[0]};
          seenIdOrder := seenIdOrder[1..];
        }
        seenExecutionIds := seenExecutionIds + {id};
        seenIdOrder := seenIdOrder + [id];
      } else {
        IdsSnoc(delivered, report);
        SameWindow(delivered, delivered + [report]);
      }
      delivered := delivered + [report];
    }

    /** One connection, until the stream breaks. */
    method ReadAll(reader: seq<Report>)
      requires Valid()
      modifies this
      ensures Valid() && delivered == DeliverAll(old(delivered), reader)
    {
      hide Deliver, Window, Distinct;
      for k := 0 to |reader|
        invariant Valid() && delivered == DeliverAll(old(delivered), reader[..k])
      {
        assert reader[..k + 1] == reader[..k] + [reader[k]];
        DeliverAllSnoc(old(delivered), reader[..k], reader[k]);
        OnRead(reader[k]);
      }
      assert reader[..|reader|] == reader;
    }

    /** One connection after another; the window outlives each of them. */
    method RunFillStream(connections: seq<seq<Report>>)
      requires Valid()
      modifies this
      ensures Valid() && delivered == DeliverAll(old(delivered), Flatten(connections))
    {
      hide DeliverAll, Window, Distinct;
      NothingRead(delivered);
      for i := 0 to |connections|
        invariant Valid() && delivered == DeliverAll(old(delivered), Flatten(connections[..i]))
      {
        assert connections[..i + 1][..i] == connections[..i];
        DeliverAllSplit(old(delivered), Flatten(connections[..i]), connections[i]);
        ReadAll(connections[i]);
      }
      assert connections[..|connections|] == connections;
    }
  }

  lemma NothingRead(delivered: seq<Report>)
    ensures DeliverAll(delivered, []) == delivered
  {
  }

  function Flatten(connections: seq<seq<Report>>): seq<Report> {
    if connections == [] then [] else Flatten(connections[..|connections| - 1]) + connections[|connections| - 1]
  }

  function TotalLength(connections: seq<seq<Report>>): nat {
    if connections == [] then 0 else TotalLength(connections[..|connections| - 1]) + |connections[|connections| - 1]|
  }

  lemma {:induction false} FlattenLength(connections: seq<seq<Report>>)
    ensures |Flatten(connections)| == TotalLength(connections)
  {
    if connections != [] { FlattenLength(connections[..|connections| - 1]); }
  }

  /** The concatenated stream holds every report of every connection, one connection after the other. */
  lemma {:induction false} FlattenAt(connections: seq<seq<Report>>, i: nat, k: nat)
    requires i < |connections| && k < |connections[i]|
    ensures |Flatten(connections)| == TotalLength(connections)
    ensures var at := TotalLength(connections[..i]) + k;
            at < |Flatten(connections)| && Flatten(connections)[at] == connections[i][k]
  {
    FlattenLength(connections);
    var front := connections[..|connections| - 1];
    FlattenLength(front);
    if i == |front| {
      assert connections[..i] == front;
    } else {
      FlattenAt(front, i, k);
      assert front[..i] == connections[..i];
    }
  }
}
