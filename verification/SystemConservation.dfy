// Every interleaving of commands, fills and queues in which the store works.
module SystemConservation {
  import opened Base
  import opened IdMapper
  import opened OrderTable
  import opened Positions
  import opened Risk
  import opened Manager
  import opened ManagerSafety
  import opened ManagerIndex
  import opened ManagerLedgers
  import opened TradingSystem
  import opened SystemRefinement
  import opened SystemLedger
  import opened GatewayLedger
  import opened SystemLinks
  import opened SystemReports
  import Paper
  import Ids = IdGenerator

  /** Positive quantities are ordered, no id counter has wrapped, and the store works;
      the cash column also needs the gateway to quote positive prices. */
  ghost predicate CleanAct(s: Sys, a: Action, c: Column) {
    match a
    case GatewayFill(_, _, price) => c == Cash ==> price > 0.0
    case Dispatch(io) =>
      && CleanIo(s, io)
      && (s.pipes.queue != [] && s.pipes.queue[0].CommandItem? ==> CleanCommand(s.mgr, s.pipes.queue[0].command, io))
    case _ => true
  }

  predicate CleanIo(s: Sys, io: Io) {
    && io.readIo && io.writeIo && io.storeIo && io.rejectIo && io.statusIo && io.brokerIo && io.failed == {}
    && s.mgr.nextId < Ids.COUNTER_RANGE && s.gw.nextId < Ids.COUNTER_RANGE
  }

  ghost predicate CleanCommand(m: Manager, command: Command, io: Io) {
    match command
    case SubmitCommand(signal) => signal.quantity > 0.0
    case ReplaceCommand(_, signal) => signal.quantity > 0.0
    case CancelAllCommand => FullSnapshot(m.table, io.snapshot)
    case CancelCommand(_) => true
  }

  ghost predicate CleanActs(s: Sys, acts: seq<Action>, c: Column) {
    acts == [] || (CleanActs(s, acts[..|acts| - 1], c) && CleanAct(RunSys(s, acts[..|acts| - 1]), acts[|acts| - 1], c))
  }

  function Busy(p: Phase): Option<BrokerId> {
    match p
    case Submitting(e, _) => if e.Submit? then e.reply else None
    case Replacing(e, _) => if e.Replace? then e.newReply else None
    case _ => None
  }

  function Leaving(p: Phase): Option<LocalId> {
    if p.Replacing? && p.replace.Replace? then Some(p.replace.oldId) else None
  }

  /** The event that the running handler will complete is clean, and its order is the accepted one. */
  ghost predicate PhaseClean(s: Sys) {
    match s.phase
    case Idle => true
    case Submitting(e, order) => e.Submit? && Clean(Atomic(s), e) && AcceptedAs(s.log, e.reply, order)
    case Replacing(e, order) => e.Replace? && Clean(Atomic(s), e) && AcceptedAs(s.log, e.newReply, order)
    case Killing(e, _) => Clean(Atomic(s), e)
  }

  ghost predicate AcceptedAs(log: Log, reply: Option<BrokerId>, order: Order) {
    reply.Some? && reply.value in log.accepted && log.accepted[reply.value] == order
  }

  ghost predicate KnownPrices(log: Log, c: Column) {
    c == Cash ==> forall i :: 0 <= i < |log.emitted| ==> log.emitted[i].price > 0.0
  }

  ghost predicate LinkedSys(s: Sys) {
    Linked(s.mgr.table, s.mgr.ids, s.gw, s.log, Busy(s.phase), Leaving(s.phase))
  }

  ghost predicate Steady(s: Sys, c: Column) {
    && Refines(s) && FaithfulRun(Start(s.mgr.limits), s.log.events, c) && PhaseClean(s)
    && GatewayBooks(s.gw, s.log) && KnownPrices(s.log, c)
    && LinkedSys(s)
  }

  lemma AtomicIndexed(s: Sys, c: Column)
    requires FaithfulRun(Start(s.mgr.limits), s.log.events, c)
    ensures Indexed(Atomic(s))
  {
    FaithfulIsClean(Start(s.mgr.limits), s.log.events, c);
    RunIndexed(Start(s.mgr.limits), s.log.events);
  }

  lemma FaithfulSnoc(m: Manager, es: seq<Event>, e: Event, c: Column)
    requires FaithfulRun(m, es, c) && Faithful(Run(m, es), e, c)
    ensures FaithfulRun(m, es + [e], c)
  {
    assert (es + [e])[..|es + [e]| - 1] == es;
  }

  // Fills and queue moves -----------------------------------------------------------------

  lemma GatewayFillSteady(s: Sys, b: BrokerId, d: Paper.Dice, price: real, c: Column)
    requires Steady(s, c) && (c == Cash ==> price > 0.0)
    ensures Steady(DoGatewayFill(s, b, d, price), c)
  {
    hide Linked, GatewayBooks, FaithfulRun, Clean, Run, BeginSubmit, BeginReplace, CancelEach, Paper.AfterFill;
    if b in s.gw.pending && d != Paper.Skip {
      PendingMatchesOf(s.gw, s.log);
      FillKeepsBooks(s.gw, s.log, b, d, price);
      FillKeepsLinks(s.mgr.table, s.mgr.ids, s.gw, s.log, Busy(s.phase), Leaving(s.phase), b, d, price);
      assert DoGatewayFill(s, b, d, price).log == FillLog(s.gw, s.log, b, d, price);
    }
  }

  lemma PendingMatchesOf(gw: Paper.Gateway, log: Log)
    requires GatewayBooks(gw, log)
    ensures PendingMatches(gw, log)
  {
  }

  // Dispatch ----------------------------------------------------------------------------------

  /** Completing a clean event from rest, with links and books already re-established. */
  lemma RecordSteady(s: Sys, e: Event, gw: Paper.Gateway, log: Log, c: Column)
    requires Refines(s) && s.phase == Idle && FaithfulRun(Start(s.mgr.limits), s.log.events, c) && Faithful(s.mgr, e, c)
    requires log.events == s.log.events + [e]
    requires GatewayBooks(gw, log) && KnownPrices(log, c)
    requires var n := Handle(s.mgr, e); Linked(n.table, n.ids, gw, log, None, None)
    ensures Steady(s.(mgr := Handle(s.mgr, e), gw := gw, log := log), c)
  {
    hide Linked, GatewayBooks, Faithful, FaithfulRun, Run, Handle;
    RecordRefines(s, e);
    HandleLimits(s.mgr, e);
    FaithfulSnoc(Start(s.mgr.limits), s.log.events, e, c);
  }

  lemma ReportFaithful(s: Sys, r: Report, c: Column)
    requires Steady(s, c) && s.phase == Idle && NextReport(s.log, r)
    ensures Faithful(s.mgr, Execution(r, true, true), c)
  {
    hide Amount, PendingLinked, FaithfulRun, Run;
    NextIsPositive(s.gw, s.log, r);
    if r.broker in s.mgr.ids.toLocal { MappedOrder(s.mgr.table, s.mgr.ids, s.log, r.broker); }
  }

  lemma LinksIgnoreEvents(t: Table, ids: IdMap, gw: Paper.Gateway, log: Log, busy: Option<BrokerId>, leaving: Option<LocalId>, es: seq<Event>)
    requires Linked(t, ids, gw, log, busy, leaving)
    ensures Linked(t, ids, gw, log.(events := es), busy, leaving)
  {
    hide Amount, Inverse;
  }

  function Touched(m: Manager, log: Log, r: Report): Log {
    if Applies(m, r, true) then Applied(log, r) else Dropped(log, r)
  }

  lemma ReportLinks(m: Manager, gw: Paper.Gateway, log: Log, r: Report)
    requires Safe(m) && Linked(m.table, m.ids, gw, log, None, None) && GatewayBooks(gw, log) && NextReport(log, r)
    ensures var n := DoExecution(m, r, true, true); Linked(n.table, n.ids, gw, Touched(m, log, r), None, None)
  {
    NextIsPositive(gw, log, r);
    hide Linked, GatewayBooks, DoExecution;
    if r.broker in m.ids.toLocal {
      assert Applies(m, r, true);
      ApplyKeepsLinks(m, gw, log, r);
    } else {
      DropKeepsLinks(m.table, m.ids, gw, log, r);
      StrangerIgnored(m, r);
    }
  }

  lemma StrangerIgnored(m: Manager, r: Report)
    requires r.broker !in m.ids.toLocal
    ensures DoExecution(m, r, true, true) == m
  {
  }

  lemma ReportShape(s: Sys, r: Report, io: Io)
    requires io.readIo && io.writeIo
    ensures var e := Execution(r, true, true);
            DispatchReport(s, r, io)
            == s.(mgr := Handle(s.mgr, e), gw := s.gw, log := Touched(s.mgr, s.log, r).(events := s.log.events + [e]))
  {
    hide Handle, Applies;
  }

  lemma ReportSteady(s: Sys, r: Report, io: Io, c: Column)
    requires Steady(s, c) && s.phase == Idle && io.readIo && io.writeIo && NextReport(s.log, r)
    ensures Steady(DispatchReport(s, r, io), c)
  {
    hide Safe, Linked, Faithful, FaithfulRun, Run, GatewayBooks, Handle, DispatchReport, Indexed, NextReport;
    ReportFaithful(s, r, c);
    AtomicIndexed(s, c);
    ReportLinks(s.mgr, s.gw, s.log, r);
    var e := Execution(r, true, true);
    var touched := Touched(s.mgr, s.log, r);
    HandleExecution(s.mgr, r);
    LinksIgnoreEvents(Handle(s.mgr, e).table, Handle(s.mgr, e).ids, s.gw, touched, None, None, s.log.events + [e]);
    BooksIgnoreManager(s.gw, s.log, touched.(events := s.log.events + [e]));
    RecordSteady(s, e, s.gw, touched.(events := s.log.events + [e]), c);
    ReportShape(s, r, io);
  }

  lemma HandleExecution(m: Manager, r: Report)
    ensures Handle(m, Execution(r, true, true)) == DoExecution(m, r, true, true)
  {
  }

  /** Completing a clean event that is no report and leaves the gateway's log alone. */
  lemma CommandSteady(s: Sys, e: Event, gw: Paper.Gateway, c: Column)
    requires Refines(s) && s.phase == Idle && FaithfulRun(Start(s.mgr.limits), s.log.events, c)
    requires Clean(s.mgr, e) && !e.Execution?
    requires GatewayBooks(gw, s.log) && KnownPrices(s.log, c)
    requires var n := Handle(s.mgr, e); Linked(n.table, n.ids, gw, s.log, None, None)
    ensures Steady(Record(s, e).(gw := gw), c)
  {
    hide Refines, Linked, GatewayBooks, FaithfulRun, Clean, Handle;
    var n, log := Handle(s.mgr, e), Record(s, e).log;
    LinksIgnoreEvents(n.table, n.ids, gw, s.log, None, None, log.events);
    BooksIgnoreManager(gw, s.log, log);
    RecordSteady(s, e, gw, log, c);
  }

  lemma RefusedSubmitSteady(s: Sys, signal: Signal, io: Io, c: Column)
    requires Steady(s, c) && s.phase == Idle && CleanIo(s, io) && io.storeIo
    ensures Steady(Record(s, Submit(signal, io.clock, None, io.storeIo, io.rejectIo, io.statusIo, io.brokerIo)), c)
  {
    var e := Submit(signal, io.clock, None, true, true, true, true);
    AtomicIndexed(s, c);
    hide Linked, GatewayBooks, FaithfulRun, Run, DoSubmit;
    SubmitEffect(s.mgr, e);
    var n, id := DoSubmit(s.mgr, e).m, NewId(s.mgr, io.clock);
    PlainRowKeepsLinks(s.mgr.table, s.mgr.ids, s.gw, s.log, None, None, id, n.table[id]);
    CommandSteady(s, e, s.gw, c);
  }

  lemma CancelSteady(s: Sys, l: LocalId, io: Io, c: Column)
    requires Steady(s, c) && s.phase == Idle && io.statusIo
    ensures Steady(DispatchCancel(s, l, io), c)
  {
    var e := Cancel(l, true, true);
    hide Linked, GatewayBooks, FaithfulRun, Run;
    if l in s.mgr.ids.toBroker {
      WithdrawKeepsLinks(s.mgr.table, s.mgr.ids, s.gw, s.log, None, None, l, Cancelled);
      CancelKeepsBooks(s.gw, s.log, s.mgr.ids.toBroker[l]);
      CommandSteady(s, e, Paper.CancelOrder(s.gw, s.mgr.ids.toBroker[l]), c);
    } else {
      CommandSteady(s, e, s.gw, c);
    }
  }

  lemma RefusedReplaceSteady(s: Sys, l: LocalId, signal: Signal, io: Io, c: Column)
    requires Steady(s, c) && s.phase == Idle && CleanIo(s, io)
    ensures Steady(Record(s, Replace(l, signal, io.clock, None, io.statusIo, io.storeIo)), c)
  {
    hide Linked, GatewayBooks, FaithfulRun, Run;
    CommandSteady(s, Replace(l, signal, io.clock, None, true, true), s.gw, c);
  }

  // Dispatch of an accepted order -----------------------------------------------------------

  lemma HandledStranger(s: Sys, b: BrokerId)
    requires InOrder(s) && b !in Brokers(s.log.emitted)
    ensures Amount(OfOrder(b), s.log.handled) == 0.0
  {
    var n := |s.log.handled|;
    forall i | 0 <= i < n ensures s.log.handled[i].broker != b {
      assert s.log.emitted[i] == s.log.handled[i];
      assert s.log.emitted[i].broker in Brokers(s.log.emitted);
    }
    AmountOfStranger(b, s.log.handled);
  }

  /** Links and books after the gateway accepted an order, maybe in place of a mapped one. */
  lemma AcceptedLinks(s: Sys, t: Table, order: Order, clock: int, leaving: Option<LocalId>)
    requires InOrder(s) && GatewayBooks(s.gw, s.log) && s.gw.nextId < Ids.COUNTER_RANGE && order.quantity > 0.0
    requires Linked(t, s.mgr.ids, s.gw, s.log, None, None)
    requires leaving.Some? ==> leaving.value in s.mgr.ids.toBroker
    ensures var b := Paper.NewBrokerId(s.gw, clock);
            var cancelled := if leaving.Some? then Paper.CancelOrder(s.gw, s.mgr.ids.toBroker[leaving.value]) else s.gw;
            var gw, log := Paper.AcceptOrder(cancelled, order, clock), s.log.(accepted := s.log.accepted[b := order]);
            Linked(t, s.mgr.ids, gw, log, Some(b), leaving) && GatewayBooks(gw, log)
  {
    FreshBrokerIdOf(s.gw, s.log, clock);
    hide Linked, GatewayBooks, Amount, Paper.NewBrokerId, Paper.AcceptOrder, InOrder;
    HandledStranger(s, Paper.NewBrokerId(s.gw, clock));
    AcceptKeepsLinks(t, s.mgr.ids, s.gw, s.log, order, clock, leaving);
    if leaving.Some? {
      CancelKeepsBooks(s.gw, s.log, s.mgr.ids.toBroker[leaving.value]);
      SameBrokerId(s.gw, s.mgr.ids.toBroker[leaving.value], clock);
      AcceptKeepsBooks(Paper.CancelOrder(s.gw, s.mgr.ids.toBroker[leaving.value]), s.log, order, clock);
    } else {
      AcceptKeepsBooks(s.gw, s.log, order, clock);
    }
  }

  lemma FreshBrokerIdOf(gw: Paper.Gateway, log: Log, clock: int)
    requires GatewayBooks(gw, log) && gw.nextId < Ids.COUNTER_RANGE
    ensures var b := Paper.NewBrokerId(gw, clock); b !in log.accepted && b !in Brokers(log.emitted)
  {
    hide Paper.NewBrokerId, Amount;
    FreshBrokerId(gw, log, clock);
  }

  lemma FreshReplyFrom(m: Manager, gw: Paper.Gateway, log: Log, b: BrokerId, busy: Option<BrokerId>, leaving: Option<LocalId>)
    requires Linked(m.table, m.ids, gw, log, busy, leaving)
    requires busy == Some(b) || (busy == None && b !in log.accepted)
    ensures FreshBroker(m, b)
  {
    hide Amount;
    if b in m.ids.toLocal {
      InverseMeans(m.ids);
      assert false;
    }
  }

  /** Entering, or moving on inside, a handler. */
  lemma InsideSteady(s: Sys, s': Sys, c: Column)
    requires Steady(s, c) && Refines(s') && PhaseClean(s') && LinkedSys(s') && GatewayBooks(s'.gw, s'.log)
    requires s'.log.events == s.log.events && s'.log.emitted == s.log.emitted && s'.mgr.limits == s.mgr.limits
    ensures Steady(s', c)
  {
    hide Refines, PhaseClean, LinkedSys, GatewayBooks, FaithfulRun;
  }

  lemma SubmitShape(s: Sys, signal: Signal, io: Io, order: Order)
    requires io.storeIo && io.rejectIo && io.statusIo && io.brokerIo && !io.rejected
    requires var begun := BeginSubmit(s.mgr, signal, io.clock, true, true); begun.Calling? && begun.order == order
    ensures var b := Paper.NewBrokerId(s.gw, io.brokerClock);
            var e := Submit(signal, io.clock, Some(b), true, true, true, true);
            DispatchSubmit(s, signal, io)
            == s.(gw := Paper.AcceptOrder(s.gw, order, io.brokerClock), log := s.log.(accepted := s.log.accepted[b := order]),
                  mgr := BeginSubmit(s.mgr, signal, io.clock, true, true).m, phase := Submitting(e, order))
  {
    hide BeginSubmit, Paper.NewBrokerId, Paper.AcceptOrder;
  }

  lemma AcceptedSubmitLinks(s: Sys, signal: Signal, io: Io, c: Column)
    requires Steady(s, c) && InOrder(s) && s.phase == Idle && CleanIo(s, io) && signal.quantity > 0.0
    requires BeginSubmit(s.mgr, signal, io.clock, true, true).Calling?
    ensures var order, b := OrderFrom(NewId(s.mgr, io.clock), signal), Paper.NewBrokerId(s.gw, io.brokerClock);
            var begun := BeginSubmit(s.mgr, signal, io.clock, true, true);
            var gw, log := Paper.AcceptOrder(s.gw, order, io.brokerClock), s.log.(accepted := s.log.accepted[b := order]);
            && begun.order == order && begun.m.limits == s.mgr.limits
            && Linked(begun.m.table, begun.m.ids, gw, log, Some(b), None) && GatewayBooks(gw, log)
            && Clean(s.mgr, Submit(signal, io.clock, Some(b), true, true, true, true))
  {
    hide Steady, Linked, GatewayBooks, BeginSubmit, Paper.NewBrokerId, Paper.AcceptOrder, InOrder, NewId, FreshBroker;
    var order, b := OrderFrom(NewId(s.mgr, io.clock), signal), Paper.NewBrokerId(s.gw, io.brokerClock);
    SteadyAtRest(s, c);
    BeginSubmitEffect(s.mgr, signal, io.clock);
    FreshBrokerIdOf(s.gw, s.log, io.brokerClock);
    FreshReplyFrom(s.mgr, s.gw, s.log, b, None, None);
    var t := BeginSubmit(s.mgr, signal, io.clock, true, true).m.table;
    PlainRowKeepsLinks(s.mgr.table, s.mgr.ids, s.gw, s.log, None, None, order.id, t[order.id]);
    AcceptedLinks(s, t, order, io.brokerClock, None);
  }

  lemma SteadyRefines(s: Sys, c: Column)
    requires Steady(s, c)
    ensures Refines(s)
  {
  }

  /** Steady at rest, without the parts that concern the run so far. */
  lemma SteadyAtRest(s: Sys, c: Column)
    requires Steady(s, c) && s.phase == Idle
    ensures Linked(s.mgr.table, s.mgr.ids, s.gw, s.log, None, None) && GatewayBooks(s.gw, s.log)
    ensures Safe(s.mgr)
  {
    hide Linked, GatewayBooks, FaithfulRun, Run;
    AtomicIndexed(s, c);
  }

  lemma EnterSubmit(s: Sys, m: Manager, gw: Paper.Gateway, log: Log, e: Event, order: Order, c: Column)
    requires Steady(s, c) && s.phase == Idle && e.Submit? && e.reply.Some? && Clean(s.mgr, e)
    requires log == s.log.(accepted := s.log.accepted[e.reply.value := order]) && m.limits == s.mgr.limits
    requires Linked(m.table, m.ids, gw, log, e.reply, None) && GatewayBooks(gw, log)
    requires Refines(s.(mgr := m, gw := gw, log := log, phase := Submitting(e, order)))
    ensures Steady(s.(mgr := m, gw := gw, log := log, phase := Submitting(e, order)), c)
  {
    hide Linked, GatewayBooks, FaithfulRun, Run, BeginSubmit, Clean;
    InsideSteady(s, s.(mgr := m, gw := gw, log := log, phase := Submitting(e, order)), c);
  }

  lemma AcceptedSubmitSteady(s: Sys, signal: Signal, io: Io, c: Column)
    requires Steady(s, c) && InOrder(s) && s.phase == Idle && CleanIo(s, io) && signal.quantity > 0.0 && !io.rejected
    requires BeginSubmit(s.mgr, signal, io.clock, true, true).Calling?
    ensures Steady(DispatchSubmit(s, signal, io), c)
  {
    hide Steady, Refines, Linked, GatewayBooks, BeginSubmit, Paper.NewBrokerId, Paper.AcceptOrder, InOrder, NewId, DispatchSubmit, Clean;
    SteadyRefines(s, c);
    AcceptedSubmitLinks(s, signal, io, c);
    DispatchRefines(s, CommandItem(SubmitCommand(signal)), io);
    var order, b := OrderFrom(NewId(s.mgr, io.clock), signal), Paper.NewBrokerId(s.gw, io.brokerClock);
    SubmitShape(s, signal, io, order);
    EnterSubmit(s, BeginSubmit(s.mgr, signal, io.clock, true, true).m, Paper.AcceptOrder(s.gw, order, io.brokerClock),
                s.log.(accepted := s.log.accepted[b := order]), Submit(signal, io.clock, Some(b), true, true, true, true), order, c);
  }

  lemma ReplaceShape(s: Sys, l: LocalId, signal: Signal, io: Io)
    requires io.storeIo && io.statusIo && !io.rejected && l in s.mgr.ids.toBroker
    ensures var order, b := OrderFrom(NewId(s.mgr, io.clock), signal), Paper.NewBrokerId(s.gw, io.brokerClock);
            var e := Replace(l, signal, io.clock, Some(b), true, true);
            var cancelled := Paper.CancelOrder(s.gw, s.mgr.ids.toBroker[l]);
            DispatchReplace(s, l, signal, io)
            == s.(gw := Paper.AcceptOrder(cancelled, order, io.brokerClock), log := s.log.(accepted := s.log.accepted[b := order]),
                  mgr := s.mgr.(nextId := s.mgr.nextId + 1), phase := Replacing(e, order))
  {
    hide Paper.NewBrokerId, Paper.AcceptOrder, NewId;
  }

  lemma EnterReplace(s: Sys, m: Manager, gw: Paper.Gateway, log: Log, e: Event, order: Order, c: Column)
    requires Steady(s, c) && s.phase == Idle && e.Replace? && e.newReply.Some? && Clean(s.mgr, e)
    requires log == s.log.(accepted := s.log.accepted[e.newReply.value := order]) && m.limits == s.mgr.limits
    requires Linked(m.table, m.ids, gw, log, e.newReply, Some(e.oldId)) && GatewayBooks(gw, log)
    requires Refines(s.(mgr := m, gw := gw, log := log, phase := Replacing(e, order)))
    ensures Steady(s.(mgr := m, gw := gw, log := log, phase := Replacing(e, order)), c)
  {
    hide Linked, GatewayBooks, FaithfulRun, Run, BeginReplace, Clean;
    InsideSteady(s, s.(mgr := m, gw := gw, log := log, phase := Replacing(e, order)), c);
  }

  lemma AcceptedReplaceLinks(s: Sys, l: LocalId, signal: Signal, io: Io, c: Column)
    requires Steady(s, c) && InOrder(s) && s.phase == Idle && CleanIo(s, io) && signal.quantity > 0.0
    requires l in s.mgr.ids.toBroker
    ensures var order, b := OrderFrom(NewId(s.mgr, io.clock), signal), Paper.NewBrokerId(s.gw, io.brokerClock);
            var cancelled := Paper.CancelOrder(s.gw, s.mgr.ids.toBroker[l]);
            var gw, log := Paper.AcceptOrder(cancelled, order, io.brokerClock), s.log.(accepted := s.log.accepted[b := order]);
            && Linked(s.mgr.table, s.mgr.ids, gw, log, Some(b), Some(l)) && GatewayBooks(gw, log)
            && Clean(s.mgr, Replace(l, signal, io.clock, Some(b), true, true))
  {
    hide Steady, Linked, GatewayBooks, Paper.NewBrokerId, Paper.AcceptOrder, InOrder, NewId, FreshBroker;
    var order, b := OrderFrom(NewId(s.mgr, io.clock), signal), Paper.NewBrokerId(s.gw, io.brokerClock);
    SteadyAtRest(s, c);
    FreshBrokerIdOf(s.gw, s.log, io.brokerClock);
    FreshReplyFrom(s.mgr, s.gw, s.log, b, None, None);
    AcceptedLinks(s, s.mgr.table, order, io.brokerClock, Some(l));
  }

  lemma AcceptedReplaceSteady(s: Sys, l: LocalId, signal: Signal, io: Io, c: Column)
    requires Steady(s, c) && InOrder(s) && s.phase == Idle && CleanIo(s, io) && signal.quantity > 0.0 && !io.rejected
    requires l in s.mgr.ids.toBroker
    ensures Steady(DispatchReplace(s, l, signal, io), c)
  {
    hide Steady, Refines, Linked, GatewayBooks, Paper.NewBrokerId, Paper.AcceptOrder, InOrder, NewId, DispatchReplace, Clean;
    SteadyRefines(s, c);
    AcceptedReplaceLinks(s, l, signal, io, c);
    DispatchRefines(s, CommandItem(ReplaceCommand(l, signal)), io);
    var order, b := OrderFrom(NewId(s.mgr, io.clock), signal), Paper.NewBrokerId(s.gw, io.brokerClock);
    ReplaceShape(s, l, signal, io);
    EnterReplace(s, s.mgr.(nextId := s.mgr.nextId + 1),
                 Paper.AcceptOrder(Paper.CancelOrder(s.gw, s.mgr.ids.toBroker[l]), order, io.brokerClock),
                 s.log.(accepted := s.log.accepted[b := order]), Replace(l, signal, io.clock, Some(b), true, true), order, c);
  }

  // Inside a handler --------------------------------------------------------------------------

  /** What the submit handler knows when the gateway has answered. */
  lemma WaitingSubmit(s: Sys, c: Column)
    requires Steady(s, c) && s.phase.Submitting?
    ensures var e, order, m := s.phase.submit, s.phase.order, s.mgr;
            && e.Submit? && e.reply.Some? && e.rejectIo && e.statusIo && e.brokerIo
            && order.id in m.table && m.table[order.id] == Row(order, PendingSubmission, None, 0.0, 0.0)
            && e.reply.value in s.log.accepted && s.log.accepted[e.reply.value] == order
            && FreshReply(m, e.reply)
  {
    AtomicIndexed(s, c);
    var e := s.phase.submit;
    BeginSubmitEffect(Atomic(s), e.signal, e.clock);
    FreshReplyFrom(s.mgr, s.gw, s.log, e.reply.value, e.reply, None);
    hide Linked, GatewayBooks, FaithfulRun, Run, BeginSubmit, NewId;
  }

  lemma SubmitContinues(s: Sys, c: Column)
    requires Steady(s, c) && s.phase.Submitting?
    ensures Steady(DoContinue(s), c)
  {
    var e, order := s.phase.submit, s.phase.order;
    WaitingSubmit(s, c);
    ContinueRefines(s);
    ContinueLimits(s);
    FinishSubmitEffect(s.mgr, order, e.reply);
    hide Linked, GatewayBooks, FaithfulRun, Run, BeginSubmit, FinishSubmit;
    RegisterKeepsLinks(s.mgr.table, s.mgr.ids, s.gw, s.log, e.reply.value);
    CompletedSteady(s, e, DoContinue(s), c);
  }

  /** Leaving a handler with a clean event. */
  lemma CompletedSteady(s: Sys, e: Event, s': Sys, c: Column)
    requires Steady(s, c) && Clean(Atomic(s), e) && !e.Execution?
    requires s'.phase == Idle && s'.log == s.log.(events := s.log.events + [e]) && s'.gw == s.gw
    requires Refines(s') && s'.mgr.limits == s.mgr.limits
    requires Linked(s'.mgr.table, s'.mgr.ids, s.gw, s.log, None, None)
    ensures Steady(s', c)
  {
    hide Linked, GatewayBooks, FaithfulRun, Run, BeginSubmit, BeginReplace, CancelEach, Clean;
    FaithfulSnoc(Start(s.mgr.limits), s.log.events, e, c);
    LinksIgnoreEvents(s'.mgr.table, s'.mgr.ids, s.gw, s.log, None, None, s'.log.events);
    BooksIgnoreManager(s.gw, s.log, s'.log);
  }

  lemma GoneIsCancelled(gw: Paper.Gateway, b: BrokerId)
    requires b !in gw.pending
    ensures Paper.CancelOrder(gw, b) == gw
  {
    assert gw.pending - {b} == gw.pending;
  }

  lemma LinkedParts(t: Table, ids: IdMap, gw: Paper.Gateway, log: Log, busy: Option<BrokerId>, leaving: Option<LocalId>)
    requires Linked(t, ids, gw, log, busy, leaving)
    ensures RowsAccepted(t, log, busy) && MapFits(t, ids) && LeavingGone(ids, gw, leaving) && BusyWell(ids, gw, log, busy)
    ensures RecordsLinked(t, ids, log, busy)
  {
  }

  /** Storing and mapping the order that took the place of another one. */
  lemma AttachLinks(m: Manager, gw: Paper.Gateway, log: Log, order: Order, b: BrokerId)
    requires Linked(m.table, m.ids, gw, log, Some(b), None) && order.id !in m.table
    requires b in log.accepted && log.accepted[b] == order
    ensures var n := Attach(m, order, b); Linked(n.table, n.ids, gw, log, None, None)
    ensures InsertAccepted(m.table, order.id, Row(order, Submitted, Some(b), 0.0, 0.0), true)
  {
    LinkedParts(m.table, m.ids, gw, log, Some(b), None);
    hide Linked;
    RegisterKeepsLinks(m.table, m.ids, gw, log, b);
  }

  lemma FinishReplaceLinks(m: Manager, gw: Paper.Gateway, log: Log, l: LocalId, order: Order, b: BrokerId)
    requires Linked(m.table, m.ids, gw, log, Some(b), Some(l)) && order.id !in m.table
    requires b in log.accepted && log.accepted[b] == order
    ensures var n := FinishReplace(m, l, order, Some(b), true, true).m; Linked(n.table, n.ids, gw, log, None, None)
  {
    LinkedParts(m.table, m.ids, gw, log, Some(b), Some(l));
    hide Linked, Attach;
    WithdrawKeepsLinks(m.table, m.ids, gw, log, Some(b), Some(l), l, Replaced);
    GoneIsCancelled(gw, m.ids.toBroker[l]);
    AttachLinks(Detach(m, l, true), gw, log, order, b);
  }

  lemma WaitingReplace(s: Sys, c: Column)
    requires Steady(s, c) && s.phase.Replacing?
    ensures var e, order := s.phase.replace, s.phase.newOrder;
            && e.Replace? && e.newReply.Some? && e.replacedIo && e.insertIo
            && order.id !in s.mgr.table
            && e.newReply.value in s.log.accepted && s.log.accepted[e.newReply.value] == order
  {
    AtomicIndexed(s, c);
    hide Linked, GatewayBooks, FaithfulRun, Run, NewId;
    NewIdCounter(Atomic(s), s.phase.replace.newClock);
  }

  lemma ReplaceContinues(s: Sys, c: Column)
    requires Steady(s, c) && s.phase.Replacing?
    ensures Steady(DoContinue(s), c)
  {
    var e, order := s.phase.replace, s.phase.newOrder;
    WaitingReplace(s, c);
    ContinueRefines(s);
    ContinueLimits(s);
    hide Linked, GatewayBooks, FaithfulRun, Run, BeginReplace, FinishReplace;
    FinishReplaceLinks(s.mgr, s.gw, s.log, e.oldId, order, e.newReply.value);
    CompletedSteady(s, e, DoContinue(s), c);
  }

  lemma VictimMapped(m: Manager, ls: seq<LocalId>, n: nat)
    requires Index(m.ids, m.table) && Snapshot(m.table, ls) && n < |ls|
    ensures var k := CancelEach(m, ls[..n], {}, {});
            ls[n] in k.ids.toBroker && ls[n] in k.table && k.table[ls[n]].broker == Some(k.ids.toBroker[ls[n]])
  {
    hide CancelEach, Inverse;
    CancelEachIndexed(m, ls[..n], {});
    CancelEachTable(m, ls[..n], {}, {});
    assert ls[n] !in ls[..n];
  }

  /** The next order of the kill switch is still mapped. */
  lemma NextVictim(s: Sys, c: Column)
    requires Steady(s, c) && s.phase.Killing? && s.phase.visited < |s.phase.kill.snapshot|
    ensures var l := s.phase.kill.snapshot[s.phase.visited];
            l in s.mgr.ids.toBroker && l in s.mgr.table && s.mgr.table[l].broker == Some(s.mgr.ids.toBroker[l])
  {
    hide Linked, GatewayBooks, FaithfulRun, Run, CancelEach, Safe, Index, Snapshot;
    AtomicIndexed(s, c);
    VictimMapped(Atomic(s), s.phase.kill.snapshot, s.phase.visited);
  }

  lemma KillContinues(s: Sys, c: Column)
    requires Steady(s, c) && s.phase.Killing?
    ensures Steady(DoContinue(s), c)
  {
    var e, n := s.phase.kill, s.phase.visited;
    ContinueRefines(s);
    ContinueLimits(s);
    if n < |e.snapshot| {
      NextVictim(s, c);
      VictimContinues(s, c);
    } else {
      hide Linked, GatewayBooks, FaithfulRun, Run, CancelEach;
      CompletedSteady(s, e, DoContinue(s), c);
    }
  }

  lemma VictimContinues(s: Sys, c: Column)
    requires Steady(s, c) && s.phase.Killing? && s.phase.visited < |s.phase.kill.snapshot|
    requires var l := s.phase.kill.snapshot[s.phase.visited];
             l in s.mgr.ids.toBroker && l in s.mgr.table && s.mgr.table[l].broker == Some(s.mgr.ids.toBroker[l])
    requires Refines(DoContinue(s)) && DoContinue(s).mgr.limits == s.mgr.limits
    ensures Steady(DoContinue(s), c)
  {
    hide Linked, GatewayBooks, FaithfulRun, Run, CancelEach;
    var l := s.phase.kill.snapshot[s.phase.visited];
    WithdrawKeepsLinks(s.mgr.table, s.mgr.ids, s.gw, s.log, None, None, l, Cancelled);
    CancelKeepsBooks(s.gw, s.log, s.mgr.ids.toBroker[l]);
    InsideSteady(s, DoContinue(s), c);
  }

  // All steps ---------------------------------------------------------------------------------

  lemma PopKeepsSteady(s: Sys, c: Column)
    requires Steady(s, c) && InOrder(s) && s.phase == Idle && s.pipes.queue != []
    ensures Steady(Popped(s), c)
    ensures s.pipes.queue[0].CommandItem? ==> InOrder(Popped(s))
    ensures s.pipes.queue[0].ReportItem? ==> NextReport(s.log, s.pipes.queue[0].report)
  {
    hide Linked, GatewayBooks, FaithfulRun, Run;
    var q := s.pipes.queue;
    if q[0].ReportItem? {
      assert InFlight(s.pipes) == [q[0].report] + InFlight(Popped(s).pipes);
    }
  }

  lemma CommandDispatchSteady(s: Sys, command: Command, io: Io, c: Column)
    requires Steady(s, c) && InOrder(s) && s.phase == Idle && CleanIo(s, io) && CleanCommand(s.mgr, command, io)
    ensures Steady(DispatchItem(s, CommandItem(command), io), c)
  {
    hide Steady, InOrder, BeginSubmit, DispatchCancel;
    match command
    case SubmitCommand(signal) =>
      if io.rejected || BeginSubmit(s.mgr, signal, io.clock, true, true).Answered? {
        RefusedSubmitSteady(s, signal, io, c);
      } else {
        AcceptedSubmitSteady(s, signal, io, c);
      }
    case CancelCommand(l) => CancelSteady(s, l, io, c);
    case ReplaceCommand(l, signal) =>
      if io.rejected || l !in s.mgr.ids.toBroker {
        RefusedReplaceSteady(s, l, signal, io, c);
      } else {
        AcceptedReplaceSteady(s, l, signal, io, c);
      }
    case CancelAllCommand => EnterKill(s, io, c);
  }

  lemma EnterKill(s: Sys, io: Io, c: Column)
    requires Steady(s, c) && s.phase == Idle && CleanIo(s, io) && FullSnapshot(s.mgr.table, io.snapshot)
    ensures Steady(DispatchCancelAll(s, io), c)
  {
    hide Linked, GatewayBooks, FaithfulRun, Run;
    InsideSteady(s, DispatchCancelAll(s, io), c);
  }

  lemma ActSteady(s: Sys, a: Action, c: Column)
    requires Steady(s, c) && InOrder(s) && CleanAct(s, a, c)
    ensures Steady(Act(s, a), c)
  {
    hide Steady, InOrder, DoGatewayFill, DoDispatch, DoContinue, MovePipes, CleanIo, CleanCommand;
    match a
    case GatewayFill(b, d, price) => GatewayFillSteady(s, b, d, price, c);
    case Dispatch(io) => DispatchSteady(s, io, c);
    case Continue => ContinueSteady(s, c);
    case _ => MoveSteady(s, MovePipes(s.pipes, a), c);
  }

  lemma MoveSteady(s: Sys, p: Pipes, c: Column)
    requires Steady(s, c)
    ensures Steady(s.(pipes := p), c)
  {
    hide Linked, GatewayBooks, FaithfulRun, Run, BeginSubmit, BeginReplace, CancelEach, Clean;
  }

  lemma DispatchSteady(s: Sys, io: Io, c: Column)
    requires Steady(s, c) && InOrder(s) && CleanAct(s, Dispatch(io), c)
    ensures Steady(DoDispatch(s, io), c)
  {
    hide Steady, InOrder, CleanCommand, DispatchReport, NextReport;
    if s.phase == Idle && s.pipes.queue != [] {
      PopKeepsSteady(s, c);
      match s.pipes.queue[0]
      case ReportItem(r) => ReportSteady(Popped(s), r, io, c);
      case CommandItem(command) => CommandDispatchSteady(Popped(s), command, io, c);
    }
  }

  lemma ContinueSteady(s: Sys, c: Column)
    requires Steady(s, c)
    ensures Steady(DoContinue(s), c)
  {
    hide Steady;
    match s.phase
    case Idle =>
    case Submitting(_, _) => SubmitContinues(s, c);
    case Replacing(_, _) => ReplaceContinues(s, c);
    case Killing(_, _) => KillContinues(s, c);
  }

  lemma {:induction false} RunSteady(limits: RiskLimits, acts: seq<Action>, c: Column)
    requires CleanActs(Boot(limits), acts, c)
    ensures Steady(RunSys(Boot(limits), acts), c)
  {
    hide Steady, CleanAct, Act;
    if acts == [] {
      BootSteady(limits, c);
    } else {
      var front := acts[..|acts| - 1];
      RunSteady(limits, front, c);
      ReportsKeepOrder(limits, front);
      ActSteady(RunSys(Boot(limits), front), acts[|acts| - 1], c);
    }
  }

  lemma BootLinked()
    ensures Linked(map[], EMPTY_MAP, Paper.EMPTY_GATEWAY, Log([], [], [], [], [], [], map[]), None, None)
  {
    hide Amount;
  }

  lemma BootBooks()
    ensures GatewayBooks(Paper.EMPTY_GATEWAY, Log([], [], [], [], [], [], map[]))
  {
    hide Amount;
  }

  lemma BootSteady(limits: RiskLimits, c: Column)
    ensures Steady(Boot(limits), c)
  {
    hide Linked, GatewayBooks;
    BootLinked();
    BootBooks();
  }

  // Results -------------------------------------------------------------------------------------

  /** For every order the engine routes reports to, at any moment and in the middle of any handler:
      what the gateway filled = what the store recorded + what is on its way. */
  lemma {:induction false} OrderConserved(limits: RiskLimits, acts: seq<Action>, l: LocalId)
    requires CleanActs(Boot(limits), acts, Shares)
    requires l in RunSys(Boot(limits), acts).mgr.ids.toBroker
    ensures var s := RunSys(Boot(limits), acts);
            var b := s.mgr.ids.toBroker[l];
            && l in s.mgr.table && b in s.log.accepted
            && s.mgr.table[l].filled + Amount(OfOrder(b), InFlight(s.pipes)) == Amount(OfOrder(b), s.log.emitted)
            && (b in s.gw.pending ==> s.gw.pending[b].filled == Amount(OfOrder(b), s.log.emitted))
            && Amount(OfOrder(b), s.log.emitted) <= s.mgr.table[l].order.quantity
  {
    var s := RunSys(Boot(limits), acts);
    RunSteady(limits, acts, Shares);
    ReportsKeepOrder(limits, acts);
    hide RunSys;
    SteadyOrder(s, l);
  }

  lemma SteadyOrder(s: Sys, l: LocalId)
    requires Steady(s, Shares) && InOrder(s) && l in s.mgr.ids.toBroker
    ensures var b := s.mgr.ids.toBroker[l];
            && l in s.mgr.table && b in s.log.accepted
            && s.mgr.table[l].filled + Amount(OfOrder(b), InFlight(s.pipes)) == Amount(OfOrder(b), s.log.emitted)
            && (b in s.gw.pending ==> s.gw.pending[b].filled == Amount(OfOrder(b), s.log.emitted))
            && Amount(OfOrder(b), s.log.emitted) <= s.mgr.table[l].order.quantity
  {
    hide Amount, Refines, PhaseClean, FaithfulRun, Run, PendingLinked, InFlight, Inverse;
    AmountConcat(OfOrder(s.mgr.ids.toBroker[l]), s.log.handled, InFlight(s.pipes));
    assert s.mgr.table[l].broker == Some(s.mgr.ids.toBroker[l]);
  }

  /** The report the dispatcher is about to take. */
  ghost predicate AtReport(s: Sys, r: Report) {
    s.phase == Idle && s.pipes.queue != [] && s.pipes.queue[0] == ReportItem(r)
  }

  /** The manager marks an order FILLED on exactly the report that the gateway considered final. */
  lemma {:induction false} FilledOnFinalReport(limits: RiskLimits, acts: seq<Action>, r: Report)
    requires CleanActs(Boot(limits), acts, Shares) && AtReport(RunSys(Boot(limits), acts), r)
    ensures var s := RunSys(Boot(limits), acts);
            var n := |s.log.handled|;
            && n < |s.log.emitted| == |s.log.finals| && s.log.emitted[n] == r
            && (r.broker in s.mgr.ids.toLocal ==>
                  && s.mgr.ids.toLocal[r.broker] in s.mgr.table
                  && (FullyFilled(s.mgr.table[s.mgr.ids.toLocal[r.broker]], r) <==> s.log.finals[n]))
  {
    var s := RunSys(Boot(limits), acts);
    RunSteady(limits, acts, Shares);
    ReportsKeepOrder(limits, acts);
    hide RunSys, Linked, GatewayBooks, FullyFilled;
    PopKeepsSteady(s, Shares);
    SteadyAtRest(s, Shares);
    FinalsParallel(s.gw, s.log);
    LinkedParts(s.mgr.table, s.mgr.ids, s.gw, s.log, None, None);
    if r.broker in s.mgr.ids.toLocal { CompletionAgrees(s.mgr.table, s.mgr.ids, s.gw, s.log, r); }
  }

  lemma FinalsParallel(gw: Paper.Gateway, log: Log)
    requires GatewayBooks(gw, log)
    ensures |log.finals| == |log.emitted|
  {
  }

  /** Fill race: even if the gateway reports a fill before submit or replace has returned, the report that
      reaches the dispatcher belongs to a stored order, and that order is mapped unless it was withdrawn. */
  lemma {:induction false} FillRace(limits: RiskLimits, acts: seq<Action>, r: Report)
    requires CleanActs(Boot(limits), acts, Shares) && AtReport(RunSys(Boot(limits), acts), r)
    ensures var s := RunSys(Boot(limits), acts);
            && r.broker in s.log.accepted
            && var order := s.log.accepted[r.broker];
               && Owns(s.mgr.table, order, r.broker)
               && order.symbol == r.symbol && order.side == r.side
               && (if r.broker in s.mgr.ids.toLocal then s.mgr.ids.toLocal[r.broker] == order.id
                   else Withdrawn(s.mgr.table[order.id].status))
  {
    var s := RunSys(Boot(limits), acts);
    RunSteady(limits, acts, Shares);
    ReportsKeepOrder(limits, acts);
    hide RunSys, GatewayBooks, FaithfulRun, PendingLinked;
    PopKeepsSteady(s, Shares);
    NextIsPositive(s.gw, s.log, r);
    if r.broker in s.mgr.ids.toLocal {
      MappedOrder(s.mgr.table, s.mgr.ids, s.log, r.broker);
    } else {
      UnmappedIsWithdrawn(s.mgr.table, s.mgr.ids, s.gw, s.log, r);
    }
  }

  /** Every report that was ever dropped belongs to an order that was cancelled or replaced. */
  lemma OnlyWithdrawnFillsAreDropped(limits: RiskLimits, acts: seq<Action>, i: nat)
    requires CleanActs(Boot(limits), acts, Shares) && i < |RunSys(Boot(limits), acts).log.dropped|
    ensures var s := RunSys(Boot(limits), acts);
            var b := s.log.dropped[i].broker;
            b in s.log.accepted && Owns(s.mgr.table, s.log.accepted[b], b) && Withdrawn(s.mgr.table[s.log.accepted[b].id].status)
  {
    RunSteady(limits, acts, Shares);
    hide RunSys, GatewayBooks, FaithfulRun, PendingLinked, Refines, PhaseClean;
  }

  /** When nothing is on its way and no handler is running, gateway and manager agree on the live orders. */
  lemma {:induction false} QuietAgreement(limits: RiskLimits, acts: seq<Action>, b: BrokerId)
    requires CleanActs(Boot(limits), acts, Shares)
    requires var s := RunSys(Boot(limits), acts); s.phase == Idle && InFlight(s.pipes) == []
    ensures var s := RunSys(Boot(limits), acts);
            && (b in s.gw.pending <==> b in s.mgr.ids.toLocal)
            && (b in s.gw.pending ==>
                  && s.mgr.ids.toLocal[b] in s.mgr.table
                  && s.gw.pending[b].filled == s.mgr.table[s.mgr.ids.toLocal[b]].filled)
  {
    var s := RunSys(Boot(limits), acts);
    RunSteady(limits, acts, Shares);
    ReportsKeepOrder(limits, acts);
    SystemIsSafe(limits, acts);
    hide RunSys;
    QuietState(s, b);
  }

  lemma QuietState(s: Sys, b: BrokerId)
    requires Steady(s, Shares) && InOrder(s) && s.phase == Idle && InFlight(s.pipes) == [] && Safe(s.mgr)
    ensures b in s.gw.pending <==> b in s.mgr.ids.toLocal
    ensures b in s.gw.pending ==>
              && s.mgr.ids.toLocal[b] in s.mgr.table
              && s.gw.pending[b].filled == s.mgr.table[s.mgr.ids.toLocal[b]].filled
  {
    hide Amount, InFlight, FaithfulRun, Run, Refines, PhaseClean, FinalsComplete, FinalsLast;
    assert s.log.emitted == s.log.handled;
    if b in s.mgr.ids.toLocal {
      var l := s.mgr.ids.toLocal[b];
      MappedOrder(s.mgr.table, s.mgr.ids, s.log, b);
      assert s.mgr.table[l].filled == Amount(OfOrder(b), s.log.handled);
      assert Working(s.mgr.table[l]);
    }
  }

  lemma BeginAgrees(m: Manager, signal: Signal, clock: int, storeIo: bool, rejectIo: bool, symbol: Symbol, c: Column)
    requires Agree(m, symbol, c)
    ensures Agree(BeginSubmit(m, signal, clock, storeIo, rejectIo).m, symbol, c)
  {
    hide StoreSide, Check, BrokerFree, NewId;
    var id := NewId(m, clock);
    var order := OrderFrom(id, signal);
    if id !in m.table {
      StatusMovesNothing(m.table, id, Row(order, PendingSubmission, None, 0.0, 0.0), symbol, c);
      StatusMovesNothing(m.table, id, Row(order, Rejected, None, 0.0, 0.0), symbol, c);
      RowTwice(m.table, id, Row(order, PendingSubmission, None, 0.0, 0.0), Row(order, Rejected, None, 0.0, 0.0));
    }
  }

  lemma RowTwice(t: Table, l: LocalId, first: Row, second: Row)
    ensures t[l := first][l := second] == t[l := second]
  {
  }

  /** Both ledgers agree in every steady state, whatever handler is running. */
  lemma SteadyAgrees(s: Sys, symbol: Symbol, c: Column)
    requires Steady(s, c)
    ensures Agree(s.mgr, symbol, c)
  {
    hide Linked, GatewayBooks, FaithfulRun, Run, Indexed, Agree, BeginSubmit, CancelEach, Clean;
    var m := Atomic(s);
    StartAgrees(s.mgr.limits, symbol, c);
    RunAgrees(Start(s.mgr.limits), s.log.events, symbol, c);
    match s.phase
    case Idle =>
    case Submitting(e, _) => BeginAgrees(m, e.signal, e.clock, e.storeIo, e.rejectIo, symbol, c);
    case Replacing(_, _) => CounterMovesNothing(m, symbol, c);
    case Killing(e, n) => CancelEachAgrees(m, e.snapshot[..n], e.refused, e.failed, symbol, c);
  }

  lemma CounterMovesNothing(m: Manager, symbol: Symbol, c: Column)
    ensures Agree(m, symbol, c) <==> Agree(m.(nextId := m.nextId + 1), symbol, c)
  {
  }

  /** Positions and stored orders agree in every state of every clean interleaving, also inside handlers. */
  lemma SystemPositions(limits: RiskLimits, acts: seq<Action>, symbol: Symbol)
    requires CleanActs(Boot(limits), acts, Shares)
    ensures var s := RunSys(Boot(limits), acts);
            At(s.mgr.book, symbol).quantity == StoreSide(s.mgr.table, symbol, Shares)
  {
    hide RunSys, StoreSide, Steady;
    RunSteady(limits, acts, Shares);
    SteadyAgrees(RunSys(Boot(limits), acts), symbol, Shares);
  }

  /** And so do cost basis, realized profit and average fill prices. */
  lemma SystemCash(limits: RiskLimits, acts: seq<Action>, symbol: Symbol)
    requires CleanActs(Boot(limits), acts, Cash)
    ensures var s := RunSys(Boot(limits), acts);
            Basis(At(s.mgr.book, symbol)) == StoreSide(s.mgr.table, symbol, Cash)
  {
    hide RunSys, StoreSide, Steady;
    RunSteady(limits, acts, Cash);
    SteadyAgrees(RunSys(Boot(limits), acts), symbol, Cash);
  }
}
