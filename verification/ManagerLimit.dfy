// How tight the open-order bound is: the limit plus one is reached for every limit, and exactly how.
module ManagerLimit {
  import opened Base
  import opened IdMapper
  import opened OrderTable
  import opened Positions
  import opened Risk
  import opened Manager
  import opened ManagerSafety
  import opened ManagerCounter
  import Ids = IdGenerator

  ghost predicate Inserted(m: Manager, e: Event)
    requires e.Submit?
  {
    var id := NewId(m, e.clock);
    InsertAccepted(m.table, id, Row(OrderFrom(id, e.signal), PendingSubmission, None, 0.0, 0.0), e.storeIo)
  }

  /** The quantity and loss checks, which have nothing to do with the number of open orders. */
  ghost predicate OtherChecksPass(m: Manager, quantity: real) {
    && (m.limits.maxQuantity == 0.0 || quantity <= m.limits.maxQuantity)
    && (m.limits.dailyLoss == 0.0 || TotalPnl(m.book) + m.limits.dailyLoss >= 0.0)
  }

  lemma SubmitRaises(m: Manager, e: Event)
    requires Safe(m) && e.Submit?
    ensures DoSubmit(m, e).m.openCount
         == m.openCount
            + if Inserted(m, e) && OtherChecksPass(m, e.signal.quantity) && e.reply.Some? && e.statusIo
                 && (m.limits.maxOpenOrders == 0 || m.openCount <= m.limits.maxOpenOrders) then 1 else 0
  {
    hide TotalPnl, BrokerFree, NewId, Sound, MappedWorks, IdsCounted;
  }

  /** Among all events in any state with any failures, the only one that takes the counter past a limit n is a submit
      that finds the counter at exactly n and succeeds. */
  lemma LimitPassed(m: Manager, e: Event)
    requires Safe(m) && m.limits.maxOpenOrders != 0
    ensures m.openCount <= m.limits.maxOpenOrders < Handle(m, e).openCount
       <==> e.Submit? && m.openCount == m.limits.maxOpenOrders
            && Inserted(m, e) && OtherChecksPass(m, e.signal.quantity) && e.reply.Some? && e.statusIo
  {
    if e.Submit? {
      SubmitRaises(m, e);
    } else {
      OthersNeverRaise(m, e);
    }
  }

  lemma OthersNeverRaise(m: Manager, e: Event)
    requires !e.Submit?
    ensures Handle(m, e).openCount <= m.openCount
  {
    hide Snapshot, BrokerFree, CancelEach;
    if e.CancelAll? { CancelEachFrame(m, e.snapshot, e.refused, e.failed); }
  }

  /** Only the open-order check is switched on. */
  function OnlyLimit(n: nat): RiskLimits { RiskLimits(0.0, n, 0.0) }

  /** A submit of one share that everything goes along with. */
  function GoodSubmit(k: nat): Event {
    Submit(Signal("", Buy, 1.0), 0, Some(Ids.NthId("BROKER", 0, k)), true, true, true, true)
  }

  function Submits(k: nat): seq<Event> {
    if k == 0 then [] else Submits(k - 1) + [GoodSubmit(k - 1)]
  }

  lemma BeginTakesId(m: Manager, e: Event)
    requires e.Submit?
    ensures DoSubmit(m, e).m.nextId == m.nextId + 1 && DoSubmit(m, e).m.limits == m.limits
  {
    hide BrokerFree, TotalPnl;
  }

  lemma FreshIdInserts(m: Manager, e: Event)
    requires Safe(m) && m.nextId < Ids.COUNTER_RANGE && e.Submit? && e.storeIo
    ensures Inserted(m, e)
  {
    hide NewId;
    NewIdCounter(m, e.clock);
  }

  /** k accepted orders, all of them mapped. */
  ghost predicate Counted(m: Manager, n: nat, k: nat) {
    Safe(m) && m.limits == OnlyLimit(n) && m.openCount == |m.ids.toBroker| == m.nextId == k
  }

  lemma CountStep(m: Manager, n: nat, k: nat)
    requires Counted(m, n, k) && k <= n && k < Ids.COUNTER_RANGE
    ensures Counted(Handle(m, GoodSubmit(k)), n, k + 1)
  {
    hide Safe, DoSubmit, Inserted, TotalPnl, Ids.NthId;
    var e := GoodSubmit(k);
    HandleSafe(m, e);
    FreshIdInserts(m, e);
    SubmitRaises(m, e);
    SubmitSlips(m, e);
    BeginTakesId(m, e);
  }

  lemma StartCounted(n: nat)
    ensures Counted(Start(OnlyLimit(n)), n, 0)
  {
    StartSafe(OnlyLimit(n));
  }

  lemma {:induction false} CountRises(n: nat, k: nat)
    requires k <= n + 1 <= Ids.COUNTER_RANGE
    ensures Counted(Run(Start(OnlyLimit(n)), Submits(k)), n, k)
  {
    hide Counted, Handle, GoodSubmit, Start, OnlyLimit;
    if k == 0 {
      StartCounted(n);
    } else {
      CountRises(n, k - 1);
      assert Submits(k)[..|Submits(k)| - 1] == Submits(k - 1);
      CountStep(Run(Start(OnlyLimit(n)), Submits(k - 1)), n, k - 1);
    }
  }

  /** For every limit, one order more than the limit gets open, and all of them are mapped. */
  lemma LimitPlusOneReached(n: nat)
    requires n < Ids.COUNTER_RANGE
    ensures var m := Run(Start(OnlyLimit(n)), Submits(n + 1));
            m.openCount == |m.ids.toBroker| == n + 1 && m.limits.maxOpenOrders == n
  {
    CountRises(n, n + 1);
  }
}
