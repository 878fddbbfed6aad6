// The open-order counter against the orders that are really open, in every run with any failures.
module ManagerCounter {
  import opened Base
  import opened IdMapper
  import opened OrderTable
  import opened Positions
  import opened Risk
  import opened Manager
  import opened ManagerSafety
  import opened ManagerIndex

  /** The kill switch reaches this order: it is mapped, has a broker id, and both gateway and store go along. */
  predicate Kills(m: Manager, l: LocalId, refused: set<LocalId>, failed: set<LocalId>) {
    l in m.ids.toBroker && l in m.table && m.table[l].broker.Some? && l !in refused && l !in failed
  }

  function Killed(m: Manager, ls: seq<LocalId>, refused: set<LocalId>, failed: set<LocalId>): nat {
    if ls == [] then 0
    else Killed(m, ls[..|ls| - 1], refused, failed) + if Kills(m, ls[|ls| - 1], refused, failed) then 1 else 0
  }

  /** How many orders an event retires without the counter being told: a terminal report, the kill switch, a cancel whose
      status write fails, and a replace that fails after the gateway has accepted it. */
  ghost function Slip(m: Manager, e: Event): nat {
    match e
    case Execution(r, _, _) => if r.broker in m.ids.toLocal && EndsOrder(r.status) then 1 else 0
    case Cancel(l, accepted, io) => if l in m.ids.toBroker && accepted && !io then 1 else 0
    case Replace(l, _, _, reply, _, _) => if l in m.ids.toBroker && reply.Some? && DoReplace(m, e).answer.Err? then 1 else 0
    case CancelAll(ls, refused, failed) => if Snapshot(m.table, ls) then Killed(m, ls, refused, failed) else 0
    case _ => 0
  }

  ghost function Slips(m: Manager, es: seq<Event>): nat {
    if es == [] then 0 else Slips(m, es[..|es| - 1]) + Slip(Run(m, es[..|es| - 1]), es[|es| - 1])
  }

  /** How far the counter is ahead of the mapper. */
  function Excess(m: Manager): int { m.openCount - |m.ids.toBroker| }

  lemma {:induction false} CancelEachKeepsMapping(m: Manager, ls: seq<LocalId>, refused: set<LocalId>, failed: set<LocalId>, l: LocalId)
    requires l !in ls
    ensures l in CancelEach(m, ls, refused, failed).ids.toBroker <==> l in m.ids.toBroker
  {
    if ls != [] { CancelEachKeepsMapping(m, ls[..|ls| - 1], refused, failed, l); }
  }

  lemma {:induction false} KillSlips(m: Manager, ls: seq<LocalId>, refused: set<LocalId>, failed: set<LocalId>)
    requires Snapshot(m.table, ls)
    ensures Excess(CancelEach(m, ls, refused, failed)) == Excess(m) + Killed(m, ls, refused, failed)
  {
    if ls != [] {
      var front, l := ls[..|ls| - 1], ls[|ls| - 1];
      var n := CancelEach(m, front, refused, failed);
      KillSlips(m, front, refused, failed);
      CancelEachKeepsMapping(m, front, refused, failed, l);
      CancelEachTable(m, front, refused, failed);
      assert l !in front;
      KillOneSlips(n, l, refused, failed);
      assert n.table[l].broker == m.table[l].broker;
    }
  }

  lemma KillOneSlips(m: Manager, l: LocalId, refused: set<LocalId>, failed: set<LocalId>)
    ensures Excess(CancelOne(m, l, refused, failed)) == Excess(m) + if Kills(m, l, refused, failed) then 1 else 0
  {
    RemoveCounts(m.ids, l);
  }

  lemma SubmitSlips(m: Manager, e: Event)
    requires Safe(m) && e.Submit?
    ensures Excess(DoSubmit(m, e).m) == Excess(m)
  {
    BeginSubmitSafe(m, e.signal, e.clock, e.storeIo, e.rejectIo);
    BeginSubmitCount(m, e.signal, e.clock, e.storeIo, e.rejectIo);
    hide Safe, BeginSubmit, BrokerFree;
    var begun := BeginSubmit(m, e.signal, e.clock, e.storeIo, e.rejectIo);
    if begun.Calling? && e.reply.Some? { AddCounts(m.ids, begun.order.id, e.reply.value); }
  }

  lemma BeginSubmitCount(m: Manager, signal: Signal, clock: int, storeIo: bool, rejectIo: bool)
    ensures BeginSubmit(m, signal, clock, storeIo, rejectIo).m.openCount == m.openCount
  {
  }

  lemma ReplaceSlips(m: Manager, e: Event)
    requires Safe(m) && e.Replace?
    ensures Excess(DoReplace(m, e).m) == Excess(m) + Slip(m, e)
  {
    hide Sound, IdsCounted, CountBounds, BrokerFree;
    RemoveCounts(m.ids, e.oldId);
    if e.oldId in m.ids.toBroker && e.newReply.Some? {
      var id := NewId(m, e.newClock);
      RemoveKeepsMapped(m, e.oldId);
      if DoReplace(m, e).answer.Ok? { AddCounts(Remove(m.ids, e.oldId), id, e.newReply.value); }
    }
  }

  lemma RemoveKeepsMapped(m: Manager, l: LocalId)
    requires MappedWorks(m)
    ensures forall k :: k in Remove(m.ids, l).toBroker ==> k in m.table
  {
  }

  lemma ExecutionSlips(m: Manager, e: Event)
    requires Safe(m) && e.Execution?
    ensures Excess(DoExecution(m, e.report, e.readIo, e.writeIo)) == Excess(m) + Slip(m, e)
  {
    if e.report.broker in m.ids.toLocal { RemoveCounts(m.ids, m.ids.toLocal[e.report.broker]); }
  }

  lemma HandleSlips(m: Manager, e: Event)
    requires Safe(m)
    ensures Excess(Handle(m, e)) == Excess(m) + Slip(m, e)
  {
    hide Safe, DoExecution, DoSubmit, DoReplace, CancelEach, Snapshot;
    match e
    case Execution(_, _, _) => ExecutionSlips(m, e);
    case Submit(_, _, _, _, _, _, _) => SubmitSlips(m, e);
    case Cancel(l, _, _) => RemoveCounts(m.ids, l);
    case Replace(_, _, _, _, _, _) => ReplaceSlips(m, e);
    case CancelAll(ls, refused, failed) => if Snapshot(m.table, ls) { KillSlips(m, ls, refused, failed); }
    case MarketData =>
  }

  /** Whatever fails, the counter is ahead of the number of mapped orders by exactly the retirements it was not told of. */
  lemma {:induction false} CounterExcess(limits: RiskLimits, es: seq<Event>)
    ensures Excess(Run(Start(limits), es)) == Slips(Start(limits), es)
  {
    hide Handle, Slip;
    if es != [] {
      var front := es[..|es| - 1];
      CounterExcess(limits, front);
      StartSafe(limits);
      RunSafe(Start(limits), front);
      HandleSlips(Run(Start(limits), front), es[|es| - 1]);
    }
  }

  lemma StartSafe(limits: RiskLimits)
    ensures Safe(Start(limits))
  {
  }

  /** Clean events other than these never slip. */
  predicate Lags(e: Event) {
    e.CancelAll? || (e.Execution? && EndsOrder(e.report.status))
  }

  lemma CleanDoesNotSlip(m: Manager, e: Event)
    requires Indexed(m) && Clean(m, e) && !Lags(e)
    ensures Slip(m, e) == 0
  {
    hide DoReplace, Index, Snapshot;
    if e.Replace? && e.oldId in m.ids.toBroker && e.newReply.Some? { ReplaceEffect(m, e); }
  }

  /** Without asynchronous terminal reports, kill switch and store failures, the counter is exact. */
  lemma {:induction false} CountIsExact(limits: RiskLimits, es: seq<Event>)
    requires CleanRun(Start(limits), es) && forall i :: 0 <= i < |es| ==> !Lags(es[i])
    ensures Run(Start(limits), es).openCount == |Run(Start(limits), es).ids.toBroker|
  {
    NoSlips(limits, es);
    CounterExcess(limits, es);
  }

  lemma {:induction false} NoSlips(limits: RiskLimits, es: seq<Event>)
    requires CleanRun(Start(limits), es) && forall i :: 0 <= i < |es| ==> !Lags(es[i])
    ensures Slips(Start(limits), es) == 0
  {
    hide Handle, Lags, Clean, Slip;
    if es != [] {
      var front := es[..|es| - 1];
      NoSlips(limits, front);
      RunIndexed(Start(limits), front);
      CleanDoesNotSlip(Run(Start(limits), front), es[|es| - 1]);
    }
  }
}
