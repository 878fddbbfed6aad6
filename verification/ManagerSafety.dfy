// What every run of the manager keeps, whatever the gateway answers, whatever reports it sends
// and whichever store statements fail.
module ManagerSafety {
  import opened Base
  import opened IdMapper
  import opened OrderTable
  import opened Positions
  import opened Risk
  import opened Manager
  import Ids = IdGenerator

  /** The row of an order that may still trade. An order that was never filled may have any quantity. */
  predicate Working(row: Row) {
    && (row.status == Submitted || row.status == PartiallyFilled)
    && (row.filled < row.order.quantity || (row.filled == 0.0 && row.status == Submitted))
  }

  ghost predicate MappedWorks(m: Manager) {
    forall l :: l in m.ids.toBroker ==> l in m.table && Working(m.table[l])
  }

  predicate CountBounds(m: Manager) {
    && |m.ids.toBroker| <= m.openCount
    && (m.limits.maxOpenOrders != 0 ==> m.openCount <= m.limits.maxOpenOrders + 1)
  }

  ghost predicate IdsCounted(m: Manager) {
    forall l :: l in m.table ==> Ids.CounterOf(l) < m.nextId
  }

  ghost predicate Safe(m: Manager) {
    Sound(m.ids) && MappedWorks(m) && CountBounds(m) && IdsCounted(m)
  }

  // How the pieces react to registering and retiring an order ------------------

  lemma AddCounts(ids: IdMap, l: LocalId, b: BrokerId)
    requires l !in ids.toBroker
    ensures |Add(ids, l, b).toBroker| == |ids.toBroker| + 1
  {
    assert Add(ids, l, b).toBroker.Keys == ids.toBroker.Keys + {l};
  }

  lemma RemoveCounts(ids: IdMap, l: LocalId)
    ensures |Remove(ids, l).toBroker| == |ids.toBroker| - if l in ids.toBroker then 1 else 0
  {
    if l in ids.toBroker {
      var rest := ids.toBroker - {l};
      assert rest[l := ids.toBroker[l]] == ids.toBroker;
      AddCounts(IdMap(rest, map[]), l, ids.toBroker[l]);
    }
  }

  /** Retiring an order: its row may change in any way, its mapping goes, the counter drops by at most one. */
  lemma RetireSafe(m: Manager, n: Manager, l: LocalId)
    requires Safe(m)
    requires n.ids == Remove(m.ids, l) && n.limits == m.limits && n.nextId == m.nextId
    requires n.table.Keys == m.table.Keys && forall k :: k in m.table && k != l ==> n.table[k] == m.table[k]
    requires n.openCount == m.openCount || (n.openCount == m.openCount - 1 && l in m.ids.toBroker)
    ensures Safe(n)
  {
    RemoveCounts(m.ids, l);
    RemoveKeepsInverse(m.ids, l);
  }

  /** Registering an order under a local id that was not mapped, with room left for it in the counter. */
  lemma RegisterSafe(m: Manager, n: Manager, l: LocalId, b: BrokerId)
    requires Sound(m.ids) && MappedWorks(m) && l !in m.ids.toBroker
    requires n.ids == Add(m.ids, l, b) && n.limits == m.limits && m.openCount <= n.openCount
    requires |m.ids.toBroker| < n.openCount && (m.limits.maxOpenOrders != 0 ==> n.openCount <= m.limits.maxOpenOrders + 1)
    requires l in n.table && Working(n.table[l]) && forall k :: k in m.table && k != l ==> k in n.table && n.table[k] == m.table[k]
    requires IdsCounted(n)
    ensures Safe(n)
  {
    AddCounts(m.ids, l, b);
    AddKeepsSound(m.ids, l, b);
  }

  lemma NewIdCounter(m: Manager, clock: int)
    ensures Ids.CounterOf(NewId(m, clock)) == m.nextId % Ids.COUNTER_RANGE <= m.nextId
    ensures IdsCounted(m) && m.nextId < Ids.COUNTER_RANGE ==> NewId(m, clock) !in m.table
  {
    hide Ids.NthId, Ids.CounterOf;
    Ids.NthIdCounter(PREFIX, clock, m.nextId);
  }

  // One lemma per handler --------------------------------------------------------

  lemma BeginSubmitSafe(m: Manager, signal: Signal, clock: int, storeIo: bool, rejectIo: bool)
    requires Safe(m)
    ensures var begun := BeginSubmit(m, signal, clock, storeIo, rejectIo);
            && Safe(begun.m) && begun.m.ids == m.ids && begun.m.limits == m.limits
            && (begun.Calling? ==>
                  && begun.order.id in begun.m.table && begun.order.id !in m.ids.toBroker
                  && begun.m.table[begun.order.id] == Row(begun.order, PendingSubmission, None, 0.0, 0.0)
                  && (m.limits.maxOpenOrders != 0 ==> begun.m.openCount <= m.limits.maxOpenOrders))
  {
    NewIdCounter(m, clock);
  }

  lemma FinishSubmitSafe(m: Manager, order: Order, reply: Option<BrokerId>, rejectIo: bool, statusIo: bool, brokerIo: bool)
    requires Safe(m)
    requires order.id in m.table && order.id !in m.ids.toBroker
    requires m.table[order.id] == Row(order, PendingSubmission, None, 0.0, 0.0)
    requires m.limits.maxOpenOrders != 0 ==> m.openCount <= m.limits.maxOpenOrders
    ensures Safe(FinishSubmit(m, order.id, reply, rejectIo, statusIo, brokerIo).m)
  {
    if reply.Some? && statusIo {
      RegisterSafe(m, FinishSubmit(m, order.id, reply, rejectIo, statusIo, brokerIo).m, order.id, reply.value);
    }
  }

  lemma DetachSafe(m: Manager, l: LocalId, io: bool)
    requires Safe(m) && l in m.ids.toBroker
    ensures Safe(Detach(m, l, io)) && |Detach(m, l, io).ids.toBroker| < Detach(m, l, io).openCount
    ensures Detach(m, l, io).table.Keys == m.table.Keys
  {
    RetireSafe(m, Detach(m, l, io), l);
    RemoveCounts(m.ids, l);
  }

  lemma AttachSafe(m: Manager, order: Order, b: BrokerId)
    requires Safe(m) && |m.ids.toBroker| < m.openCount
    requires order.id !in m.table && Ids.CounterOf(order.id) < m.nextId
    ensures Safe(Attach(m, order, b))
  {
    RegisterSafe(m, Attach(m, order, b), order.id, b);
  }

  lemma ReplaceSafe(m: Manager, e: Event)
    requires Safe(m) && e.Replace?
    ensures Safe(DoReplace(m, e).m)
  {
    var begun := BeginReplace(m, e.oldId, e.newSignal, e.newClock);
    if begun.Calling? {
      NewIdCounter(m, e.newClock);
      assert Safe(begun.m);
      FinishReplaceSafe(begun.m, e.oldId, begun.order, e.newReply, e.replacedIo, e.insertIo);
    }
  }

  lemma FinishReplaceSafe(m: Manager, l: LocalId, order: Order, reply: Option<BrokerId>, replacedIo: bool, insertIo: bool)
    requires Safe(m) && l in m.ids.toBroker && Ids.CounterOf(order.id) < m.nextId
    ensures Safe(FinishReplace(m, l, order, reply, replacedIo, insertIo).m)
  {
    if reply.Some? {
      DetachSafe(m, l, replacedIo);
      var n := Detach(m, l, replacedIo);
      assert n.nextId == m.nextId;
      hide Safe, Detach, Attach;
      if order.id !in n.table { AttachSafe(n, order, reply.value); }
    }
  }

  lemma ExecutionSafe(m: Manager, r: Report, readIo: bool, writeIo: bool)
    requires Safe(m)
    ensures Safe(DoExecution(m, r, readIo, writeIo))
  {
    if r.broker in m.ids.toLocal {
      var l := m.ids.toLocal[r.broker];
      var n := DoExecution(m, r, readIo, writeIo);
      if EndsOrder(r.status) || FullyFilled(m.table[l], r) {
        if n != m { RetireSafe(m, n, l); }
      }
    }
  }

  lemma {:induction false} CancelEachSafe(m: Manager, ls: seq<LocalId>, refused: set<LocalId>, failed: set<LocalId>)
    requires Safe(m)
    ensures Safe(CancelEach(m, ls, refused, failed))
  {
    if ls != [] {
      var n, l := CancelEach(m, ls[..|ls| - 1], refused, failed), ls[|ls| - 1];
      CancelEachSafe(m, ls[..|ls| - 1], refused, failed);
      if CancelOne(n, l, refused, failed) != n { RetireSafe(n, CancelOne(n, l, refused, failed), l); }
    }
  }

  lemma SubmitSafe(m: Manager, e: Event)
    requires Safe(m) && e.Submit?
    ensures Safe(DoSubmit(m, e).m)
  {
    hide BeginSubmit, FinishSubmit;
    var begun := BeginSubmit(m, e.signal, e.clock, e.storeIo, e.rejectIo);
    BeginSubmitSafe(m, e.signal, e.clock, e.storeIo, e.rejectIo);
    if begun.Calling? { FinishSubmitSafe(begun.m, begun.order, e.reply, e.rejectIo, e.statusIo, e.brokerIo); }
  }

  lemma CancelSafe(m: Manager, l: LocalId, accepted: bool, io: bool)
    requires Safe(m)
    ensures Safe(DoCancel(m, l, accepted, io).m)
  {
    if l in m.ids.toBroker && accepted { RetireSafe(m, DoCancel(m, l, accepted, io).m, l); }
  }

  lemma HandleSafe(m: Manager, e: Event)
    requires Safe(m)
    ensures Safe(Handle(m, e))
  {
    hide Safe, DoExecution, DoSubmit, DoCancel, DoReplace, CancelEach;
    match e
    case Execution(r, readIo, writeIo) => ExecutionSafe(m, r, readIo, writeIo);
    case Submit(_, _, _, _, _, _, _) => SubmitSafe(m, e);
    case Cancel(l, accepted, io) => CancelSafe(m, l, accepted, io);
    case Replace(_, _, _, _, _, _) => ReplaceSafe(m, e);
    case CancelAll(ls, refused, failed) => CancelEachSafe(m, ls, refused, failed);
    case MarketData =>
  }

  // Every run ----------------------------------------------------------------------

  lemma {:induction false} RunSafe(m: Manager, es: seq<Event>)
    requires Safe(m)
    ensures Safe(Run(m, es)) && Run(m, es).limits == m.limits
  {
    if es != [] {
      var n := Run(m, es[..|es| - 1]);
      RunSafe(m, es[..|es| - 1]);
      HandleSafe(n, es[|es| - 1]);
      HandleLimits(n, es[|es| - 1]);
    }
  }

  lemma HandleLimits(m: Manager, e: Event)
    ensures Handle(m, e).limits == m.limits
  {
    if e.CancelAll? { CancelEachFrame(m, e.snapshot, e.refused, e.failed); }
  }

  lemma {:induction false} CancelEachFrame(m: Manager, ls: seq<LocalId>, refused: set<LocalId>, failed: set<LocalId>)
    ensures var n := CancelEach(m, ls, refused, failed);
            n.limits == m.limits && n.book == m.book && n.openCount == m.openCount && n.nextId == m.nextId
  {
    if ls != [] { CancelEachFrame(m, ls[..|ls| - 1], refused, failed); }
  }

  /** Open orders: the counter never falls below the mapped orders, so it never wraps when it is
      read as unsigned, and it never passes the limit by more than one. */
  lemma OpenOrderBound(limits: RiskLimits, es: seq<Event>)
    ensures var m := Run(Start(limits), es);
            && 0 <= |m.ids.toBroker| <= m.openCount
            && ToSizeT(m.openCount) == m.openCount
            && (limits.maxOpenOrders != 0 ==> m.openCount <= limits.maxOpenOrders + 1)
  {
    RunSafe(Start(limits), es);
  }

  predicate PositiveQuantity(e: Event) {
    match e
    case Submit(signal, _, _, _, _, _, _) => signal.quantity > 0.0
    case Replace(_, signal, _, _, _, _) => signal.quantity > 0.0
    case _ => true
  }

  ghost predicate PositiveRows(t: Table) {
    forall l :: l in t ==> t[l].order.quantity > 0.0
  }

  lemma {:induction false} RunPositive(m: Manager, es: seq<Event>)
    requires PositiveRows(m.table) && forall i :: 0 <= i < |es| ==> PositiveQuantity(es[i])
    ensures PositiveRows(Run(m, es).table)
  {
    if es != [] {
      RunPositive(m, es[..|es| - 1]);
      HandlePositive(Run(m, es[..|es| - 1]), es[|es| - 1]);
    }
  }

  /** `after` is `before` with at most the row of `order` written, and that row carries the order. */
  ghost predicate WritesOnly(before: Table, after: Table, order: Order) {
    || after == before
    || (order.id in after && after[order.id].order == order && after == before[order.id := after[order.id]])
  }

  lemma BeginSubmitTable(m: Manager, signal: Signal, clock: int, storeIo: bool, rejectIo: bool)
    ensures var order, begun := OrderFrom(NewId(m, clock), signal), BeginSubmit(m, signal, clock, storeIo, rejectIo);
            && (begun.m.table == m.table || order.id !in m.table)
            && WritesOnly(m.table, begun.m.table, order)
            && (begun.Calling? ==> begun.order == order && order.id !in m.table && order.id in begun.m.table && begun.m.table[order.id].order == order)
  {
    hide Check, TotalPnl, BrokerFree;
  }

  lemma FinishSubmitTable(m: Manager, order: Order, reply: Option<BrokerId>, rejectIo: bool, statusIo: bool, brokerIo: bool)
    requires order.id in m.table && m.table[order.id].order == order
    ensures WritesOnly(m.table, FinishSubmit(m, order.id, reply, rejectIo, statusIo, brokerIo).m.table, order)
  {
    hide BrokerFree;
    var t := FinishSubmit(m, order.id, reply, rejectIo, statusIo, brokerIo).m.table;
    assert t == m.table || t == m.table[order.id := t[order.id]];
  }

  /** A submit writes at most the row of its new id. */
  lemma SubmitTable(m: Manager, e: Event)
    requires e.Submit?
    ensures var order := OrderFrom(NewId(m, e.clock), e.signal);
            && WritesOnly(m.table, DoSubmit(m, e).m.table, order)
            && (order.id in m.table ==> DoSubmit(m, e).m.table == m.table)
  {
    hide BeginSubmit, FinishSubmit;
    var begun := BeginSubmit(m, e.signal, e.clock, e.storeIo, e.rejectIo);
    BeginSubmitTable(m, e.signal, e.clock, e.storeIo, e.rejectIo);
    if begun.Calling? { FinishSubmitTable(begun.m, begun.order, e.reply, e.rejectIo, e.statusIo, e.brokerIo); }
  }

  lemma SubmitPositive(m: Manager, e: Event)
    requires PositiveRows(m.table) && e.Submit? && e.signal.quantity > 0.0
    ensures PositiveRows(DoSubmit(m, e).m.table)
  {
    hide DoSubmit;
    SubmitTable(m, e);
  }

  lemma ReplacePositive(m: Manager, e: Event)
    requires PositiveRows(m.table) && e.Replace? && e.newSignal.quantity > 0.0
    ensures PositiveRows(DoReplace(m, e).m.table)
  {
    assert PositiveRows(Detach(m, e.oldId, e.replacedIo).table);
  }

  lemma HandlePositive(m: Manager, e: Event)
    requires PositiveRows(m.table) && PositiveQuantity(e)
    ensures PositiveRows(Handle(m, e).table)
  {
    match e
    case Submit(_, _, _, _, _, _, _) => SubmitPositive(m, e);
    case Replace(_, _, _, _, _, _) => ReplacePositive(m, e);
    case CancelAll(ls, refused, failed) => CancelEachTable(m, ls, refused, failed);
    case _ =>
  }

  lemma {:induction false} CancelEachTable(m: Manager, ls: seq<LocalId>, refused: set<LocalId>, failed: set<LocalId>)
    ensures var n := CancelEach(m, ls, refused, failed);
            n.table.Keys == m.table.Keys
            && forall l :: l in m.table ==>
                 n.table[l] == if l in ls && l !in refused && l !in failed && m.table[l].broker.Some?
                               then m.table[l].(status := Cancelled) else m.table[l]
  {
    if ls != [] {
      CancelEachTable(m, ls[..|ls| - 1], refused, failed);
      assert forall l :: l in ls <==> l in ls[..|ls| - 1] || l == ls[|ls| - 1];
    }
  }

  /** Whatever fails, an order the engine still routes reports to is stored, live and not yet full. */
  lemma {:induction false} MappedOrdersAreLive(limits: RiskLimits, es: seq<Event>, l: LocalId)
    requires forall i :: 0 <= i < |es| ==> PositiveQuantity(es[i])
    requires l in Run(Start(limits), es).ids.toBroker
    ensures var t := Run(Start(limits), es).table;
            && l in t
            && (t[l].status == Submitted || t[l].status == PartiallyFilled)
            && t[l].filled < t[l].order.quantity
  {
    RunSafe(Start(limits), es);
    RunPositive(Start(limits), es);
  }

  // Terminal statuses are absorbing ---------------------------------------------------

  /** Rows never disappear, their order never changes, and a closed row never changes at all. */
  ghost predicate Settles(before: Table, after: Table) {
    forall l :: l in before ==>
      && l in after
      && after[l].order == before[l].order
      && (!IsOpen(before[l].status) ==> after[l] == before[l])
  }

  lemma SettlesTransitive(a: Table, b: Table, c: Table)
    requires Settles(a, b) && Settles(b, c)
    ensures Settles(a, c)
  {
  }

  /** Writing an open row, or inserting a new one, without touching the order. */
  lemma WriteSettles(t: Table, l: LocalId, row: Row)
    requires l in t ==> IsOpen(t[l].status) && row.order == t[l].order
    ensures Settles(t, t[l := row])
  {
  }

  lemma SubmitSettles(m: Manager, e: Event)
    requires e.Submit?
    ensures Settles(m.table, DoSubmit(m, e).m.table)
  {
    hide DoSubmit;
    SubmitTable(m, e);
  }

  lemma ReplaceSettles(m: Manager, e: Event)
    requires Safe(m) && e.Replace?
    ensures Settles(m.table, DoReplace(m, e).m.table)
  {
    if e.oldId in m.ids.toBroker && e.newReply.Some? {
      var t := Detach(m, e.oldId, e.replacedIo).table;
      WriteSettles(m.table, e.oldId, m.table[e.oldId].(status := Replaced));
      assert Settles(m.table, t);
      var u := DoReplace(m, e).m.table;
      if u != t { SettlesTransitive(m.table, t, u); }
    }
  }

  lemma ExecutionSettles(m: Manager, r: Report, readIo: bool, writeIo: bool)
    requires Safe(m)
    ensures Settles(m.table, DoExecution(m, r, readIo, writeIo).table)
  {
    if r.broker in m.ids.toLocal {
      var l, t := m.ids.toLocal[r.broker], DoExecution(m, r, readIo, writeIo).table;
      assert t == m.table[l := t[l]];
      WriteSettles(m.table, l, t[l]);
    }
  }

  lemma CancelSettles(m: Manager, l: LocalId, accepted: bool, io: bool)
    requires Safe(m)
    ensures Settles(m.table, DoCancel(m, l, accepted, io).m.table)
  {
    if l in m.ids.toBroker && accepted { WriteSettles(m.table, l, m.table[l].(status := Cancelled)); }
  }

  lemma CancelEachSettles(m: Manager, ls: seq<LocalId>, refused: set<LocalId>, failed: set<LocalId>)
    requires Snapshot(m.table, ls)
    ensures Settles(m.table, CancelEach(m, ls, refused, failed).table)
  {
    CancelEachTable(m, ls, refused, failed);
  }

  lemma HandleSettles(m: Manager, e: Event)
    requires Safe(m)
    ensures Settles(m.table, Handle(m, e).table)
  {
    hide Safe, DoExecution, DoSubmit, DoCancel, DoReplace, CancelEach;
    match e
    case Execution(r, readIo, writeIo) => ExecutionSettles(m, r, readIo, writeIo);
    case Submit(_, _, _, _, _, _, _) => SubmitSettles(m, e);
    case Cancel(l, accepted, io) => CancelSettles(m, l, accepted, io);
    case Replace(_, _, _, _, _, _) => ReplaceSettles(m, e);
    case CancelAll(ls, refused, failed) =>
      if Snapshot(m.table, ls) { CancelEachSettles(m, ls, refused, failed); }
    case MarketData =>
  }

  lemma {:induction false} RunSettles(m: Manager, es: seq<Event>)
    requires Safe(m)
    ensures Settles(m.table, Run(m, es).table)
  {
    if es != [] {
      var n := Run(m, es[..|es| - 1]);
      RunSettles(m, es[..|es| - 1]);
      RunSafe(m, es[..|es| - 1]);
      HandleSettles(n, es[|es| - 1]);
      SettlesTransitive(m.table, n.table, Run(m, es).table);
    }
  }

  /** An order that some prefix of a run closed keeps its whole row for the rest of the run,
      although no statement checks the status it overwrites. */
  lemma {:induction false} TerminalIsAbsorbing(limits: RiskLimits, es: seq<Event>, fs: seq<Event>, l: LocalId)
    requires var t := Run(Start(limits), es).table; l in t && !IsOpen(t[l].status)
    ensures var u := Run(Start(limits), es + fs).table;
            l in u && u[l] == Run(Start(limits), es).table[l]
  {
    RunSplit(Start(limits), es, fs);
    RunSafe(Start(limits), es);
    RunSettles(Run(Start(limits), es), fs);
  }
}
