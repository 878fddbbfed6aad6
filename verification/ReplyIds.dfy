// Which broker ids the manager can know: the gateway never hands out one id twice, and every id the manager holds
// came with the reply to an earlier submit or replace. No store has to work for that.
module ReplyIds {
  import opened Base
  import opened IdMapper
  import opened OrderTable
  import opened Risk
  import opened Manager
  import opened ManagerSafety
  import opened TradingSystem
  import opened SystemRefinement
  import opened GatewayLedger
  import Paper
  import Ids = IdGenerator

  function ReplyOf(e: Event): Option<BrokerId> {
    match e
    case Submit(_, _, reply, _, _, _, _) => reply
    case Replace(_, _, _, newReply, _, _) => newReply
    case _ => None
  }

  // Replies carry rising counters ---------------------------------------------------------

  predicate Below(e: Event, bound: int) { ReplyOf(e).Some? ==> Ids.CounterOf(ReplyOf(e).value) < bound }

  predicate Rising(es: seq<Event>, bound: int) {
    && (forall i :: 0 <= i < |es| ==> Below(es[i], bound))
    && (forall i, j :: 0 <= i < j < |es| && ReplyOf(es[j]).Some? ==> Below(es[i], Ids.CounterOf(ReplyOf(es[j]).value)))
  }

  /** All events that called the gateway, including one whose handler has not finished. */
  function Issues(s: Sys): seq<Event> {
    match s.phase
    case Submitting(e, _) => s.log.events + [e]
    case Replacing(e, _) => s.log.events + [e]
    case _ => s.log.events
  }

  lemma RisingSnoc(es: seq<Event>, e: Event, bound: int, next: int)
    requires Rising(es, bound) && bound <= next
    requires ReplyOf(e).Some? ==> bound <= Ids.CounterOf(ReplyOf(e).value) < next
    ensures Rising(es + [e], next)
  {
    hide Ids.CounterOf, ReplyOf;
  }

  lemma RisingLater(es: seq<Event>, bound: int, next: int)
    requires Rising(es, bound) && bound <= next
    ensures Rising(es, next)
  {
    hide Ids.CounterOf, ReplyOf;
  }

  lemma DispatchRises(s: Sys, item: Item, io: Io)
    requires s.phase == Idle && Rising(s.log.events, s.gw.nextId) && DispatchItem(s, item, io).gw.nextId <= Ids.COUNTER_RANGE
    ensures var t := DispatchItem(s, item, io); Rising(Issues(t), t.gw.nextId) && s.gw.nextId <= t.gw.nextId
  {
    hide Rising, Handle, BeginSubmit, BeginReplace, Paper.NewBrokerId, Ids.CounterOf;
    var n := s.gw.nextId;
    match item
    case ReportItem(r) => RisingSnoc(s.log.events, Execution(r, io.readIo, io.writeIo), n, n);
    case CommandItem(SubmitCommand(signal)) =>
      var refused := Submit(signal, io.clock, None, io.storeIo, io.rejectIo, io.statusIo, io.brokerIo);
      if io.rejected || BeginSubmit(s.mgr, signal, io.clock, io.storeIo, io.rejectIo).Answered? {
        RisingSnoc(s.log.events, refused, n, n);
      } else {
        NewBrokerIdCounter(s.gw, io.brokerClock);
        RisingSnoc(s.log.events, refused.(reply := Some(Paper.NewBrokerId(s.gw, io.brokerClock))), n, n + 1);
      }
    case CommandItem(CancelCommand(l)) => RisingSnoc(s.log.events, Cancel(l, true, io.statusIo), n, n);
    case CommandItem(ReplaceCommand(l, signal)) =>
      var refused := Replace(l, signal, io.clock, None, io.statusIo, io.storeIo);
      if io.rejected || l !in s.mgr.ids.toBroker {
        RisingSnoc(s.log.events, refused, n, n);
      } else {
        NewBrokerIdCounter(s.gw, io.brokerClock);
        RisingSnoc(s.log.events, refused.(newReply := Some(Paper.NewBrokerId(s.gw, io.brokerClock))), n, n + 1);
      }
    case CommandItem(CancelAllCommand) =>
  }

  lemma ContinueRises(s: Sys)
    requires Rising(Issues(s), s.gw.nextId)
    ensures Rising(Issues(DoContinue(s)), DoContinue(s).gw.nextId) && DoContinue(s).gw.nextId == s.gw.nextId
  {
    hide Rising, FinishSubmit, FinishReplace, CancelOne;
    if s.phase.Killing? && s.phase.kill.CancelAll? { RisingSnoc(s.log.events, s.phase.kill, s.gw.nextId, s.gw.nextId); }
  }

  lemma ActRises(s: Sys, a: Action)
    requires Rising(Issues(s), s.gw.nextId) && Act(s, a).gw.nextId <= Ids.COUNTER_RANGE
    ensures Rising(Issues(Act(s, a)), Act(s, a).gw.nextId) && s.gw.nextId <= Act(s, a).gw.nextId
  {
    hide Rising, DispatchItem, DoContinue;
    match a
    case Dispatch(io) =>
      if s.phase == Idle && s.pipes.queue != [] { DispatchRises(Popped(s), s.pipes.queue[0], io); }
    case Continue => ContinueRises(s);
    case _ =>
  }

  lemma NextIdGrows(s: Sys, a: Action)
    ensures s.gw.nextId <= Act(s, a).gw.nextId
  {
    hide Handle, BeginSubmit, FinishSubmit, FinishReplace, CancelOne;
  }

  /** In every interleaving, whatever fails, replies come in the order of their counters. */
  lemma {:induction false} RepliesRise(limits: RiskLimits, acts: seq<Action>)
    requires RunSys(Boot(limits), acts).gw.nextId <= Ids.COUNTER_RANGE
    ensures var s := RunSys(Boot(limits), acts); Rising(Issues(s), s.gw.nextId)
  {
    hide Act;
    if acts != [] {
      var front := acts[..|acts| - 1];
      NextIdGrows(RunSys(Boot(limits), front), acts[|acts| - 1]);
      RepliesRise(limits, front);
      ActRises(RunSys(Boot(limits), front), acts[|acts| - 1]);
    }
  }

  // The gateway answered only calls that were made ------------------------------------------

  /** The handler got as far as calling the gateway. */
  ghost predicate Called(m: Manager, e: Event) {
    match e
    case Submit(signal, clock, _, storeIo, rejectIo, _, _) => BeginSubmit(m, signal, clock, storeIo, rejectIo).Calling?
    case Replace(l, _, _, _, _, _) => l in m.ids.toBroker
    case _ => false
  }

  ghost predicate AllCalled(m: Manager, es: seq<Event>) {
    es == [] || (
      && AllCalled(m, es[..|es| - 1])
      && (ReplyOf(es[|es| - 1]).Some? ==> Called(Run(m, es[..|es| - 1]), es[|es| - 1])))
  }

  lemma CalledSnoc(m: Manager, es: seq<Event>, e: Event)
    requires AllCalled(m, es) && (ReplyOf(e).Some? ==> Called(Run(m, es), e))
    ensures AllCalled(m, es + [e])
  {
    hide Called, ReplyOf;
    assert (es + [e])[..|es + [e]| - 1] == es;
  }

  lemma {:induction false} CalledPrefix(m: Manager, es: seq<Event>, e: Event, fs: seq<Event>)
    requires AllCalled(m, es + [e] + fs) && ReplyOf(e).Some?
    ensures Called(Run(m, es), e)
  {
    hide Called, ReplyOf, Run;
    var all := es + [e] + fs;
    if fs == [] {
      assert all[..|all| - 1] == es && all[|all| - 1] == e;
    } else {
      assert all[..|all| - 1] == es + [e] + fs[..|fs| - 1];
      CalledPrefix(m, es, e, fs[..|fs| - 1]);
    }
  }

  lemma DispatchCalled(s: Sys, item: Item, io: Io, start: Manager)
    requires AllCalled(start, s.log.events)
    ensures AllCalled(start, DispatchItem(s, item, io).log.events)
  {
    hide AllCalled, Called, Handle, BeginSubmit, BeginReplace, Run;
    match item
    case ReportItem(r) => CalledSnoc(start, s.log.events, Execution(r, io.readIo, io.writeIo));
    case CommandItem(SubmitCommand(signal)) =>
      CalledSnoc(start, s.log.events, Submit(signal, io.clock, None, io.storeIo, io.rejectIo, io.statusIo, io.brokerIo));
    case CommandItem(CancelCommand(l)) => CalledSnoc(start, s.log.events, Cancel(l, true, io.statusIo));
    case CommandItem(ReplaceCommand(l, signal)) =>
      CalledSnoc(start, s.log.events, Replace(l, signal, io.clock, None, io.statusIo, io.storeIo));
    case CommandItem(CancelAllCommand) =>
  }

  lemma ActCalled(s: Sys, a: Action)
    requires Refines(s) && AllCalled(Start(s.mgr.limits), s.log.events)
    ensures AllCalled(Start(s.mgr.limits), Act(s, a).log.events)
  {
    hide AllCalled, DispatchItem, FinishSubmit, FinishReplace, CancelOne, Run, BeginSubmit;
    match a
    case Dispatch(io) =>
      if s.phase == Idle && s.pipes.queue != [] { DispatchCalled(Popped(s), s.pipes.queue[0], io, Start(s.mgr.limits)); }
    case Continue =>
      match s.phase {
        case Idle =>
        case Submitting(e, _) => CalledSnoc(Start(s.mgr.limits), s.log.events, e);
        case Replacing(e, _) => CalledSnoc(Start(s.mgr.limits), s.log.events, e);
        case Killing(e, _) => if e.CancelAll? { CalledSnoc(Start(s.mgr.limits), s.log.events, e); }
      }
    case _ =>
  }

  lemma {:induction false} RepliesCalled(limits: RiskLimits, acts: seq<Action>)
    ensures AllCalled(Start(limits), RunSys(Boot(limits), acts).log.events)
  {
    hide Act, Refines;
    if acts != [] {
      var front := acts[..|acts| - 1];
      RepliesCalled(limits, front);
      RunRefines(limits, front);
      ActCalled(RunSys(Boot(limits), front), acts[|acts| - 1]);
    }
  }

  // Every known broker id was a reply ---------------------------------------------------------

  function Replies(es: seq<Event>): set<BrokerId> { set i | 0 <= i < |es| && ReplyOf(es[i]).Some? :: ReplyOf(es[i]).value }

  ghost predicate Known(m: Manager, bs: set<BrokerId>) {
    && (forall b :: b in m.ids.toLocal ==> b in bs)
    && (forall l :: l in m.ids.toBroker ==> m.ids.toBroker[l] in bs)
    && (forall l :: l in m.table && m.table[l].broker.Some? ==> m.table[l].broker.value in bs)
  }

  lemma KnownMore(m: Manager, bs: set<BrokerId>, more: set<BrokerId>)
    requires Known(m, bs) && bs <= more
    ensures Known(m, more)
  {
  }

  lemma SubmitKnown(m: Manager, e: Event, bs: set<BrokerId>)
    requires e.Submit? && Known(m, bs) && (e.reply.Some? ==> e.reply.value in bs)
    ensures Known(DoSubmit(m, e).m, bs)
  {
    BeginKnown(m, e.signal, e.clock, e.storeIo, e.rejectIo, bs);
    hide BeginSubmit, BrokerFree;
  }

  lemma BeginKnown(m: Manager, signal: Signal, clock: int, storeIo: bool, rejectIo: bool, bs: set<BrokerId>)
    requires Known(m, bs)
    ensures Known(BeginSubmit(m, signal, clock, storeIo, rejectIo).m, bs)
  {
    hide Check, BrokerFree;
  }

  lemma ReplaceKnown(m: Manager, e: Event, bs: set<BrokerId>)
    requires e.Replace? && Known(m, bs) && (e.newReply.Some? ==> e.newReply.value in bs)
    ensures Known(DoReplace(m, e).m, bs)
  {
    hide BrokerFree;
  }

  lemma {:induction false} CancelEachKnown(m: Manager, ls: seq<LocalId>, refused: set<LocalId>, failed: set<LocalId>, bs: set<BrokerId>)
    requires Known(m, bs)
    ensures Known(CancelEach(m, ls, refused, failed), bs)
  {
    if ls != [] { CancelEachKnown(m, ls[..|ls| - 1], refused, failed, bs); }
  }

  lemma HandleKnown(m: Manager, e: Event, bs: set<BrokerId>)
    requires Known(m, bs) && (ReplyOf(e).Some? ==> ReplyOf(e).value in bs)
    ensures Known(Handle(m, e), bs)
  {
    hide Snapshot, DoSubmit, DoReplace, CancelEach;
    match e
    case Submit(_, _, _, _, _, _, _) => SubmitKnown(m, e, bs);
    case Replace(_, _, _, _, _, _) => ReplaceKnown(m, e, bs);
    case CancelAll(ls, refused, failed) => CancelEachKnown(m, ls, refused, failed, bs);
    case _ =>
  }

  lemma {:induction false} RunKnown(limits: RiskLimits, es: seq<Event>)
    ensures Known(Run(Start(limits), es), Replies(es))
  {
    hide Handle, ReplyOf;
    if es != [] {
      var front, e := es[..|es| - 1], es[|es| - 1];
      RunKnown(limits, front);
      assert Replies(front) <= Replies(es) by { forall b | b in Replies(front) ensures b in Replies(es) {
        var i :| 0 <= i < |front| && ReplyOf(front[i]).Some? && ReplyOf(front[i]).value == b;
        assert es[i] == front[i];
      } }
      KnownMore(Run(Start(limits), front), Replies(front), Replies(es));
      HandleKnown(Run(Start(limits), front), e, Replies(es));
    }
  }

  /** A broker id that comes with a reply has never been seen before and is never handed out again. */
  lemma ReplyIsFresh(limits: RiskLimits, acts: seq<Action>, before: seq<Event>, e: Event, after: seq<Event>, b: BrokerId)
    requires RunSys(Boot(limits), acts).log.events == before + [e] + after && ReplyOf(e) == Some(b)
    requires RunSys(Boot(limits), acts).gw.nextId <= Ids.COUNTER_RANGE
    ensures b !in Replies(before) && b !in Replies(after)
  {
    hide RunSys, Ids.CounterOf, ReplyOf;
    RepliesRise(limits, acts);
    var s := RunSys(Boot(limits), acts);
    var all := Issues(s);
    var n := |before|;
    assert all[n] == e;
    forall i | 0 <= i < |before| ensures ReplyOf(before[i]) != Some(b) {
      assert all[i] == before[i] && Below(all[i], Ids.CounterOf(b));
    }
    forall i | 0 <= i < |after| ensures ReplyOf(after[i]) != Some(b) {
      assert all[n + 1 + i] == after[i];
      if ReplyOf(after[i]).Some? { assert Below(all[n], Ids.CounterOf(ReplyOf(all[n + 1 + i]).value)); }
    }
  }

  // Local ids ------------------------------------------------------------------------------------

  lemma HandleNextId(m: Manager, e: Event)
    ensures m.nextId <= Handle(m, e).nextId
    ensures ReplyOf(e).Some? && Called(m, e) ==> m.nextId + 1 == Handle(m, e).nextId
  {
    hide Snapshot, BrokerFree, CancelEach;
    if e.CancelAll? { CancelEachFrame(m, e.snapshot, e.refused, e.failed); }
  }

  lemma {:induction false} RunNextId(m: Manager, es: seq<Event>)
    ensures m.nextId <= Run(m, es).nextId
  {
    hide Handle;
    if es != [] {
      RunNextId(m, es[..|es| - 1]);
      HandleNextId(Run(m, es[..|es| - 1]), es[|es| - 1]);
    }
  }
}
