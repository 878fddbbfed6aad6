// Runs in which the store works and the gateway never reuses a broker id:
// the mapper is an exact index of the open orders in the store.
module ManagerIndex {
  import opened Base
  import opened IdMapper
  import opened OrderTable
  import opened Positions
  import opened Risk
  import opened Manager
  import opened ManagerSafety
  import Ids = IdGenerator

  ghost predicate FreshBroker(m: Manager, b: BrokerId) {
    b !in m.ids.toLocal && forall l :: l in m.table ==> m.table[l].broker != Some(b)
  }

  ghost predicate FreshReply(m: Manager, reply: Option<BrokerId>) {
    reply.Some? ==> FreshBroker(m, reply.value)
  }

  ghost predicate Clean(m: Manager, e: Event) {
    match e
    case Execution(_, readIo, writeIo) => readIo && writeIo
    case Submit(_, _, reply, storeIo, rejectIo, statusIo, brokerIo) =>
      storeIo && rejectIo && statusIo && brokerIo && m.nextId < Ids.COUNTER_RANGE && FreshReply(m, reply)
    case Cancel(_, _, io) => io
    case Replace(_, _, _, reply, replacedIo, insertIo) =>
      replacedIo && insertIo && m.nextId < Ids.COUNTER_RANGE && FreshReply(m, reply)
    case CancelAll(ls, _, failed) => FullSnapshot(m.table, ls) && failed == {}
    case MarketData => true
  }

  ghost predicate CleanRun(m: Manager, es: seq<Event>) {
    es == [] || (CleanRun(m, es[..|es| - 1]) && Clean(Run(m, es[..|es| - 1]), es[|es| - 1]))
  }

  ghost predicate MappedIffOpen(ids: IdMap, t: Table) {
    forall l :: l in ids.toBroker <==> l in t && IsOpen(t[l].status)
  }

  ghost predicate MappedBroker(ids: IdMap, t: Table) {
    forall l :: l in ids.toBroker && l in t ==> t[l].broker == Some(ids.toBroker[l])
  }

  /** The broker id of a closed order leads nowhere. */
  ghost predicate ClosedUnmapped(ids: IdMap, t: Table) {
    forall l :: l in t && !IsOpen(t[l].status) && t[l].broker.Some? ==> t[l].broker.value !in ids.toLocal
  }

  ghost predicate Index(ids: IdMap, t: Table) {
    Inverse(ids) && MappedIffOpen(ids, t) && MappedBroker(ids, t) && ClosedUnmapped(ids, t)
  }

  ghost predicate Indexed(m: Manager) {
    Safe(m) && Index(m.ids, m.table)
  }

  // Retiring and registering -----------------------------------------------------

  /** Closing a mapped order and dropping its mapping keeps the index exact. */
  lemma RetireIndex(ids: IdMap, t: Table, l: LocalId, row: Row)
    requires Index(ids, t) && l in ids.toBroker && !IsOpen(row.status) && l in t && row.broker == t[l].broker
    ensures Index(Remove(ids, l), t[l := row])
  {
    RemoveKeepsInverse(ids, l);
  }

  /** Storing a new open order under a fresh broker id and mapping it keeps the index exact. */
  lemma RegisterIndex(ids: IdMap, t: Table, l: LocalId, row: Row, b: BrokerId)
    requires Index(ids, t) && l !in t && b !in ids.toLocal && IsOpen(row.status) && row.broker == Some(b)
    requires forall k :: k in t ==> t[k].broker != Some(b)
    ensures Index(Add(ids, l, b), t[l := row])
  {
    AddKeepsInverse(ids, l, b);
  }

  /** A row that stays closed, or stays open under its broker id, is all the same to the index. */
  lemma RewriteIndex(ids: IdMap, t: Table, l: LocalId, row: Row)
    requires Index(ids, t)
    requires IsOpen(row.status) <==> l in t && IsOpen(t[l].status)
    requires row.broker == if l in t then t[l].broker else None
    ensures Index(ids, t[l := row])
  {
  }

  lemma BeginSubmitEffect(m: Manager, signal: Signal, clock: int)
    requires IdsCounted(m) && m.nextId < Ids.COUNTER_RANGE
    ensures var order, begun := OrderFrom(NewId(m, clock), signal), BeginSubmit(m, signal, clock, true, true);
            && order.id !in m.table
            && begun.m == m.(nextId := m.nextId + 1, table := begun.m.table)
            && begun.m.table == m.table[order.id := Row(order, if begun.Calling? then PendingSubmission else Rejected, None, 0.0, 0.0)]
            && (begun.Calling? ==> begun.order == order)
  {
    hide Check, TotalPnl;
    NewIdCounter(m, clock);
  }

  lemma FinishSubmitEffect(m: Manager, order: Order, reply: Option<BrokerId>)
    requires order.id in m.table && m.table[order.id] == Row(order, PendingSubmission, None, 0.0, 0.0)
    requires FreshReply(m, reply)
    ensures var done := FinishSubmit(m, order.id, reply, true, true, true);
            && done.m.table == m.table[order.id := Row(order, if reply.Some? then Submitted else Rejected, reply, 0.0, 0.0)]
            && done.m == m.(table := done.m.table,
                            ids := if reply.Some? then Add(m.ids, order.id, reply.value) else m.ids,
                            openCount := if reply.Some? then m.openCount + 1 else m.openCount)
            && done.answer == if reply.Some? then Ok(order.id) else Err(GatewayRefused)
  {
  }

  /** What a clean submit leaves in the table and the mapper. */
  lemma SubmitEffect(m: Manager, e: Event)
    requires IdsCounted(m) && e.Submit? && Clean(m, e)
    ensures var id, n := NewId(m, e.clock), DoSubmit(m, e).m;
            && id !in m.table && n.nextId == m.nextId + 1 && n.book == m.book
            && if DoSubmit(m, e).answer.Ok? then
                 e.reply.Some? && n.ids == Add(m.ids, id, e.reply.value) && n.openCount == m.openCount + 1
                 && n.table == m.table[id := Row(OrderFrom(id, e.signal), Submitted, e.reply, 0.0, 0.0)]
               else
                 n.ids == m.ids && n.openCount == m.openCount
                 && n.table == m.table[id := Row(OrderFrom(id, e.signal), Rejected, None, 0.0, 0.0)]
  {
    hide BeginSubmit, FinishSubmit;
    BeginSubmitEffect(m, e.signal, e.clock);
    var begun := BeginSubmit(m, e.signal, e.clock, true, true);
    if begun.Calling? { FinishSubmitEffect(begun.m, begun.order, e.reply); }
  }

  lemma SubmitIndexed(m: Manager, e: Event)
    requires Indexed(m) && e.Submit? && Clean(m, e)
    ensures Index(DoSubmit(m, e).m.ids, DoSubmit(m, e).m.table)
  {
    SubmitEffect(m, e);
    var id, n := NewId(m, e.clock), DoSubmit(m, e).m;
    if DoSubmit(m, e).answer.Ok? {
      RegisterIndex(m.ids, m.table, id, n.table[id], e.reply.value);
    } else {
      RewriteIndex(m.ids, m.table, id, n.table[id]);
    }
  }

  /** What a clean and accepted replace leaves in the table and the mapper. */
  lemma ReplaceEffect(m: Manager, e: Event)
    requires Safe(m) && e.Replace? && Clean(m, e) && e.oldId in m.ids.toBroker && e.newReply.Some?
    ensures var id, n := NewId(m, e.newClock), DoReplace(m, e).m;
            && e.oldId in m.table && id !in m.table
            && n.nextId == m.nextId + 1 && n.openCount == m.openCount && n.book == m.book
            && DoReplace(m, e).answer == Ok(id)
            && n.ids == Add(Remove(m.ids, e.oldId), id, e.newReply.value)
            && n.table == m.table[e.oldId := m.table[e.oldId].(status := Replaced)]
                                 [id := Row(OrderFrom(id, e.newSignal), Submitted, e.newReply, 0.0, 0.0)]
  {
    NewIdCounter(m, e.newClock);
  }

  lemma ReplaceRefused(m: Manager, e: Event)
    requires e.Replace? && (e.oldId !in m.ids.toBroker || e.newReply.None?)
    ensures DoReplace(m, e).m.ids == m.ids && DoReplace(m, e).m.table == m.table
  {
  }

  lemma ReplaceIndexed(m: Manager, e: Event)
    requires Indexed(m) && e.Replace? && Clean(m, e)
    ensures Index(DoReplace(m, e).m.ids, DoReplace(m, e).m.table)
  {
    hide DoReplace;
    if e.oldId !in m.ids.toBroker || e.newReply.None? {
      ReplaceRefused(m, e);
    } else {
      ReplaceEffect(m, e);
      var id, row := NewId(m, e.newClock), m.table[e.oldId].(status := Replaced);
      RetireIndex(m.ids, m.table, e.oldId, row);
      var t := m.table[e.oldId := row];
      var added := DoReplace(m, e).m.table[id];
      RegisterIndex(Remove(m.ids, e.oldId), t, id, added, e.newReply.value);
    }
  }

  lemma ExecutionIndexed(m: Manager, r: Report)
    requires Indexed(m)
    ensures var n := DoExecution(m, r, true, true); Index(n.ids, n.table)
  {
    hide BlendedAverage, BookFill, Index;
    if r.broker in m.ids.toLocal {
      var l, n := m.ids.toLocal[r.broker], DoExecution(m, r, true, true);
      assert n.table == m.table[l := n.table[l]];
      if EndsOrder(r.status) || FullyFilled(m.table[l], r) {
        RetireIndex(m.ids, m.table, l, n.table[l]);
      } else {
        RewriteIndex(m.ids, m.table, l, n.table[l]);
      }
    }
  }

  lemma CancelOneIndexed(m: Manager, l: LocalId, refused: set<LocalId>)
    requires Index(m.ids, m.table) && l in m.table && IsOpen(m.table[l].status)
    ensures var n := CancelOne(m, l, refused, {}); Index(n.ids, n.table)
  {
    if l !in refused { RetireIndex(m.ids, m.table, l, m.table[l].(status := Cancelled)); }
  }

  lemma {:induction false} CancelEachIndexed(m: Manager, ls: seq<LocalId>, refused: set<LocalId>)
    requires Index(m.ids, m.table) && Snapshot(m.table, ls)
    ensures var n := CancelEach(m, ls, refused, {}); Index(n.ids, n.table)
  {
    hide Index, CancelOne;
    if ls != [] {
      var front, l := ls[..|ls| - 1], ls[|ls| - 1];
      CancelEachIndexed(m, front, refused);
      CancelEachTable(m, front, refused, {});
      assert l !in front;
      CancelOneIndexed(CancelEach(m, front, refused, {}), l, refused);
    }
  }

  lemma CancelIndexed(m: Manager, l: LocalId, accepted: bool)
    requires Indexed(m)
    ensures var n := DoCancel(m, l, accepted, true).m; Index(n.ids, n.table)
  {
    if l in m.ids.toBroker && accepted { RetireIndex(m.ids, m.table, l, m.table[l].(status := Cancelled)); }
  }

  lemma HandleIndexed(m: Manager, e: Event)
    requires Indexed(m) && Clean(m, e)
    ensures Indexed(Handle(m, e))
  {
    hide Safe, Index, DoExecution, DoSubmit, DoCancel, DoReplace, CancelEach;
    HandleSafe(m, e);
    match e
    case Execution(r, _, _) => ExecutionIndexed(m, r);
    case Submit(_, _, _, _, _, _, _) => SubmitIndexed(m, e);
    case Cancel(l, accepted, io) => CancelIndexed(m, l, accepted);
    case Replace(_, _, _, _, _, _) => ReplaceIndexed(m, e);
    case CancelAll(ls, refused, failed) => CancelEachIndexed(m, ls, refused);
    case MarketData =>
  }

  lemma {:induction false} RunIndexed(m: Manager, es: seq<Event>)
    requires Indexed(m) && CleanRun(m, es)
    ensures Indexed(Run(m, es))
  {
    if es != [] {
      RunIndexed(m, es[..|es| - 1]);
      HandleIndexed(Run(m, es[..|es| - 1]), es[|es| - 1]);
    }
  }

  /** Local id l maps to broker id b iff the store holds l open under b, and the two maps are inverses. */
  lemma MapperIsExactIndex(limits: RiskLimits, es: seq<Event>, l: LocalId, b: BrokerId)
    requires CleanRun(Start(limits), es)
    ensures var m := Run(Start(limits), es);
            && ((l in m.ids.toBroker && m.ids.toBroker[l] == b)
                <==> (l in m.table && m.table[l].broker == Some(b) && IsOpen(m.table[l].status)))
            && ((l in m.ids.toBroker && m.ids.toBroker[l] == b)
                <==> (b in m.ids.toLocal && m.ids.toLocal[b] == l))
  {
    RunIndexed(Start(limits), es);
  }

  // Stray reports -----------------------------------------------------------------

  /** A report for an order that is already closed changes nothing at all. */
  lemma StrayReportIgnored(m: Manager, l: LocalId, r: Report, readIo: bool, writeIo: bool)
    requires Indexed(m)
    requires l in m.table && !IsOpen(m.table[l].status) && m.table[l].broker == Some(r.broker)
    ensures DoExecution(m, r, readIo, writeIo) == m
  {
  }

  /** Once an order is closed, however it was closed, no report for it ever has an effect again. */
  lemma ClosedOrderIsDead(m: Manager, fs: seq<Event>, l: LocalId, r: Report, readIo: bool, writeIo: bool)
    requires Indexed(m) && CleanRun(m, fs)
    requires l in m.table && !IsOpen(m.table[l].status) && m.table[l].broker == Some(r.broker)
    ensures Handle(Run(m, fs), Execution(r, readIo, writeIo)) == Run(m, fs)
  {
    RunIndexed(m, fs);
    RunSettles(m, fs);
    StrayReportIgnored(Run(m, fs), l, r, readIo, writeIo);
  }

  // Kill switch -------------------------------------------------------------------

  lemma KillSwitchRow(m: Manager, ls: seq<LocalId>, refused: set<LocalId>, l: LocalId)
    requires FullSnapshot(m.table, ls) && l in m.table
    requires IsOpen(m.table[l].status) ==> m.table[l].broker.Some?
    ensures var n := CancelEach(m, ls, refused, {});
            && n.table.Keys == m.table.Keys
            && n.table[l] == if IsOpen(m.table[l].status) && l !in refused
                             then m.table[l].(status := Cancelled) else m.table[l]
  {
    CancelEachTable(m, ls, refused, {});
  }

  /** Exactly the orders whose cancel was refused stay open and mapped; the others are cancelled. */
  lemma {:induction false} KillSwitch(m: Manager, ls: seq<LocalId>, refused: set<LocalId>, l: LocalId)
    requires Index(m.ids, m.table) && FullSnapshot(m.table, ls) && l in m.table
    ensures Handle(m, CancelAll(ls, refused, {})) == CancelEach(m, ls, refused, {})
    ensures var n := CancelEach(m, ls, refused, {});
            && n.book == m.book && n.openCount == m.openCount
            && n.table.Keys == m.table.Keys
            && (l in n.ids.toBroker <==> IsOpen(m.table[l].status) && l in refused)
            && n.table[l] == if IsOpen(m.table[l].status) && l !in refused
                             then m.table[l].(status := Cancelled) else m.table[l]
  {
    hide CancelEach, Inverse, ClosedUnmapped;
    KillSwitchRow(m, ls, refused, l);
    CancelEachFrame(m, ls, refused, {});
    CancelEachIndexed(m, ls, refused);
  }

  /** Whatever fails and whatever the query returned: a mapped order survives the kill switch exactly when the query
      missed it, the gateway refused, its status write failed, or its broker id was never stored. */
  lemma {:induction false} KillSwitchReach(m: Manager, ls: seq<LocalId>, refused: set<LocalId>, failed: set<LocalId>, l: LocalId)
    requires MappedWorks(m) && l in m.ids.toBroker
    ensures var n := CancelEach(m, ls, refused, failed);
            && n.book == m.book && n.openCount == m.openCount
            && (l in n.ids.toBroker <==> l !in ls || l in refused || l in failed || m.table[l].broker.None?)
            && l in m.table && l in n.table
            && n.table[l] == if l in n.ids.toBroker then m.table[l] else m.table[l].(status := Cancelled)
  {
    hide MappedWorks;
    assert l in m.table by { MappedIsStored(m, l); }
    CancelEachFrame(m, ls, refused, failed);
    CancelEachTable(m, ls, refused, failed);
    CancelEachReach(m, ls, refused, failed, l);
  }

  lemma MappedIsStored(m: Manager, l: LocalId)
    requires MappedWorks(m) && l in m.ids.toBroker
    ensures l in m.table
  {
  }

  lemma {:induction false} CancelEachReach(m: Manager, ls: seq<LocalId>, refused: set<LocalId>, failed: set<LocalId>, l: LocalId)
    requires l in m.table && l in m.ids.toBroker
    ensures l in CancelEach(m, ls, refused, failed).ids.toBroker
       <==> l !in ls || l in refused || l in failed || m.table[l].broker.None?
  {
    if ls != [] {
      var front := ls[..|ls| - 1];
      CancelEachReach(m, front, refused, failed, l);
      CancelEachTable(m, front, refused, failed);
      assert l in ls <==> l in front || l == ls[|ls| - 1];
    }
  }

  /** That last case arises: a submit whose broker-id write fails leaves an order that is live and mapped, and that no
      later kill switch can reach. */
  lemma BrokerlessOrderSurvives(m: Manager, e: Event, ls: seq<LocalId>, refused: set<LocalId>, failed: set<LocalId>)
    requires Safe(m) && e.Submit? && e.reply.Some? && e.statusIo && !e.brokerIo
    requires BeginSubmit(m, e.signal, e.clock, e.storeIo, e.rejectIo).Calling?
    ensures var n, l := DoSubmit(m, e).m, NewId(m, e.clock);
            && l in n.ids.toBroker && l in n.table && n.table[l].status == Submitted && n.table[l].broker.None?
            && l in CancelEach(n, ls, refused, failed).ids.toBroker
            && l in CancelEach(n, ls, refused, failed).table && CancelEach(n, ls, refused, failed).table[l] == n.table[l]
  {
    var begun := BeginSubmit(m, e.signal, e.clock, e.storeIo, e.rejectIo);
    var n, l := DoSubmit(m, e).m, NewId(m, e.clock);
    assert begun.order.id == l;
    BeginSubmitSafe(m, e.signal, e.clock, e.storeIo, e.rejectIo);
    assert l in n.ids.toBroker && l in n.table && n.table[l].status == Submitted && n.table[l].broker.None?;
    hide DoSubmit, BeginSubmit, NewId, Safe;
    CancelEachReach(n, ls, refused, failed, l);
    CancelEachTable(n, ls, refused, failed);
  }

  /** After the kill switch, no report for an order it cancelled ever has an effect again. */
  lemma KillSwitchIsFinal(m: Manager, ls: seq<LocalId>, refused: set<LocalId>, l: LocalId, fs: seq<Event>, r: Report, readIo: bool, writeIo: bool)
    requires Indexed(m) && FullSnapshot(m.table, ls)
    requires l in m.table && IsOpen(m.table[l].status) && l !in refused && m.table[l].broker == Some(r.broker)
    requires CleanRun(Handle(m, CancelAll(ls, refused, {})), fs)
    ensures var later := Run(Handle(m, CancelAll(ls, refused, {})), fs);
            Handle(later, Execution(r, readIo, writeIo)) == later
  {
    hide Safe, Index, CleanRun, Run, CancelEach, DoExecution;
    KillSwitch(m, ls, refused, l);
    HandleIndexed(m, CancelAll(ls, refused, {}));
    ClosedOrderIsDead(CancelEach(m, ls, refused, {}), fs, l, r, readIo, writeIo);
  }
}
