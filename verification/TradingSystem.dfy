// The manager, the paper gateway and the queues between them as one step system.
// A handler that calls the gateway takes two steps, so that fills can arrive in between.
module TradingSystem {
  import opened Base
  import opened OrderTable
  import opened Positions
  import opened Risk
  import opened Manager
  import Paper

  datatype Command =
    | SubmitCommand(signal: Signal)
    | CancelCommand(id: LocalId)
    | ReplaceCommand(oldId: LocalId, newSignal: Signal)
    | CancelAllCommand

  /** An entry of the manager's event queue. */
  datatype Item = ReportItem(report: Report) | CommandItem(command: Command)

  /** Where reports travel: the list a poll is still filling, the gateway's queue, the hand of the
      gateway's dispatcher, and the manager's queue. */
  datatype Pipes = Pipes(made: seq<Report>, reports: seq<Report>, hand: seq<Report>, queue: seq<Item>)

  /** What the manager's thread is in the middle of. */
  datatype Phase =
    | Idle
    | Submitting(submit: Event, order: Order)
    | Replacing(replace: Event, newOrder: Order)
    | Killing(kill: Event, visited: nat)

  /** History variables: they record the run and influence nothing. */
  datatype Log = Log(
    events: seq<Event>,
    emitted: seq<Report>,
    finals: seq<bool>,
    handled: seq<Report>,
    applied: seq<Report>,
    dropped: seq<Report>,
    accepted: map<BrokerId, Order>)

  datatype Sys = Sys(mgr: Manager, gw: Paper.Gateway, phase: Phase, pipes: Pipes, log: Log)

  /** Clock readings, gateway dice and store outcomes of one dispatch. */
  datatype Io = Io(
    clock: int,
    brokerClock: int,
    rejected: bool,
    readIo: bool,
    writeIo: bool,
    storeIo: bool,
    rejectIo: bool,
    statusIo: bool,
    brokerIo: bool,
    snapshot: seq<LocalId>,
    failed: set<LocalId>)

  datatype Action =
    | Enqueue(command: Command)
    | GatewayFill(b: BrokerId, dice: Paper.Dice, price: real)
    | Flush
    | Take
    | Forward
    | Dispatch(io: Io)
    | Continue

  function Boot(limits: RiskLimits): Sys {
    Sys(Start(limits), Paper.EMPTY_GATEWAY, Idle, Pipes([], [], [], []), Log([], [], [], [], [], [], map[]))
  }

  // The report path -----------------------------------------------------------------

  /** Enqueueing, polling, and the gateway's dispatcher thread. */
  function MovePipes(p: Pipes, a: Action): Pipes {
    match a
    case Enqueue(c) => p.(queue := p.queue + [CommandItem(c)])
    case Flush => if p.made == [] then p else p.(made := p.made[1..], reports := p.reports + [p.made[0]])
    case Take => if p.reports == [] || p.hand != [] then p else p.(reports := p.reports[1..], hand := [p.reports[0]])
    case Forward => if p.hand == [] then p else p.(hand := p.hand[1..], queue := p.queue + [ReportItem(p.hand[0])])
    case _ => p
  }

  function QueuedReports(q: seq<Item>): seq<Report> {
    if q == [] then []
    else if q[0].ReportItem? then [q[0].report] + QueuedReports(q[1..])
    else QueuedReports(q[1..])
  }

  /** Every report that was emitted and not yet handled, oldest first. */
  function InFlight(p: Pipes): seq<Report> { QueuedReports(p.queue) + p.hand + p.reports + p.made }

  // The manager's thread ------------------------------------------------------------

  /** The gateway fills part of a pending order: the report is made, not yet queued. */
  function DoGatewayFill(s: Sys, b: BrokerId, d: Paper.Dice, price: real): Sys {
    if b !in s.gw.pending || d == Paper.Skip then s else
    var p := s.gw.pending[b];
    var r := Paper.ReportFor(b, p, d, price);
    s.(gw := Paper.FillOne(s.gw, b, d),
       pipes := s.pipes.(made := s.pipes.made + [r]),
       log := s.log.(emitted := s.log.emitted + [r], finals := s.log.finals + [Paper.Done(Paper.AfterFill(p, d))]))
  }

  /** Whether the handler gets as far as updating the position. */
  predicate Applies(m: Manager, r: Report, readIo: bool) {
    r.broker in m.ids.toLocal && !EndsOrder(r.status) && readIo && m.ids.toLocal[r.broker] in m.table
  }

  ghost function Record(s: Sys, e: Event): Sys {
    s.(mgr := Handle(s.mgr, e), log := s.log.(events := s.log.events + [e]))
  }

  ghost function DispatchReport(s: Sys, r: Report, io: Io): Sys {
    var t := Record(s, Execution(r, io.readIo, io.writeIo));
    var log := t.log.(handled := t.log.handled + [r]);
    if Applies(s.mgr, r, io.readIo) then t.(log := log.(applied := log.applied + [r]))
    else t.(log := log.(dropped := log.dropped + [r]))
  }

  function AcceptInto(s: Sys, gw: Paper.Gateway, b: BrokerId, order: Order): Sys {
    s.(gw := gw, log := s.log.(accepted := s.log.accepted[b := order]))
  }

  ghost function DispatchSubmit(s: Sys, signal: Signal, io: Io): Sys {
    var refused := Submit(signal, io.clock, None, io.storeIo, io.rejectIo, io.statusIo, io.brokerIo);
    var begun := BeginSubmit(s.mgr, signal, io.clock, io.storeIo, io.rejectIo);
    if begun.Answered? || io.rejected then Record(s, refused) else
    var b := Paper.NewBrokerId(s.gw, io.brokerClock);
    AcceptInto(s, Paper.AcceptOrder(s.gw, begun.order, io.brokerClock), b, begun.order)
      .(mgr := begun.m, phase := Submitting(refused.(reply := Some(b)), begun.order))
  }

  ghost function DispatchCancel(s: Sys, l: LocalId, io: Io): Sys {
    var gw := if l in s.mgr.ids.toBroker then Paper.CancelOrder(s.gw, s.mgr.ids.toBroker[l]) else s.gw;
    Record(s, Cancel(l, true, io.statusIo)).(gw := gw)
  }

  ghost function DispatchReplace(s: Sys, l: LocalId, signal: Signal, io: Io): Sys {
    var refused := Replace(l, signal, io.clock, None, io.statusIo, io.storeIo);
    var begun := BeginReplace(s.mgr, l, signal, io.clock);
    if l !in s.mgr.ids.toBroker || io.rejected then Record(s, refused) else
    var b := Paper.NewBrokerId(s.gw, io.brokerClock);
    AcceptInto(s, Paper.ReplaceOrder(s.gw, s.mgr.ids.toBroker[l], begun.order, io.brokerClock), b, begun.order)
      .(mgr := begun.m, phase := Replacing(refused.(newReply := Some(b)), begun.order))
  }

  ghost function DispatchCancelAll(s: Sys, io: Io): Sys {
    var ls := if Snapshot(s.mgr.table, io.snapshot) then io.snapshot else [];
    s.(phase := Killing(CancelAll(ls, {}, io.failed), 0))
  }

  ghost function DispatchItem(s: Sys, item: Item, io: Io): Sys {
    match item
    case ReportItem(r) => DispatchReport(s, r, io)
    case CommandItem(SubmitCommand(signal)) => DispatchSubmit(s, signal, io)
    case CommandItem(CancelCommand(l)) => DispatchCancel(s, l, io)
    case CommandItem(ReplaceCommand(l, signal)) => DispatchReplace(s, l, signal, io)
    case CommandItem(CancelAllCommand) => DispatchCancelAll(s, io)
  }

  function Popped(s: Sys): Sys
    requires s.pipes.queue != []
  {
    s.(pipes := s.pipes.(queue := s.pipes.queue[1..]))
  }

  ghost function DoDispatch(s: Sys, io: Io): Sys {
    if s.phase != Idle || s.pipes.queue == [] then s
    else DispatchItem(Popped(s), s.pipes.queue[0], io)
  }

  /** One order of the kill switch; the paper gateway never refuses a cancel. */
  function KillOne(s: Sys, l: LocalId, failed: set<LocalId>): Sys {
    var gw := if l in s.mgr.table && s.mgr.table[l].broker.Some? then Paper.CancelOrder(s.gw, s.mgr.table[l].broker.value) else s.gw;
    s.(gw := gw, mgr := CancelOne(s.mgr, l, {}, failed))
  }

  ghost function DoContinue(s: Sys): Sys {
    match s.phase
    case Idle => s
    case Submitting(e, order) =>
      if !e.Submit? then s else
      s.(mgr := FinishSubmit(s.mgr, order.id, e.reply, e.rejectIo, e.statusIo, e.brokerIo).m,
         phase := Idle, log := s.log.(events := s.log.events + [e]))
    case Replacing(e, order) =>
      if !e.Replace? then s else
      s.(mgr := FinishReplace(s.mgr, e.oldId, order, e.newReply, e.replacedIo, e.insertIo).m,
         phase := Idle, log := s.log.(events := s.log.events + [e]))
    case Killing(e, n) =>
      if !e.CancelAll? then s
      else if n < |e.snapshot| then KillOne(s, e.snapshot[n], e.failed).(phase := Killing(e, n + 1))
      else s.(phase := Idle, log := s.log.(events := s.log.events + [e]))
  }

  // Runs ------------------------------------------------------------------------------

  ghost function Act(s: Sys, a: Action): Sys {
    match a
    case GatewayFill(b, d, price) => DoGatewayFill(s, b, d, price)
    case Dispatch(io) => DoDispatch(s, io)
    case Continue => DoContinue(s)
    case _ => s.(pipes := MovePipes(s.pipes, a))
  }

  ghost function RunSys(s: Sys, acts: seq<Action>): Sys {
    if acts == [] then s else Act(RunSys(s, acts[..|acts| - 1]), acts[|acts| - 1])
  }

  // Sums over reports -------------------------------------------------------------------

  /** Quantity of one broker order, or signed quantity of one symbol. */
  datatype Measure = OfOrder(b: BrokerId) | OfSymbol(s: Symbol)

  function Weight(m: Measure, r: Report): real {
    match m
    case OfOrder(b) => if r.broker == b then r.quantity else 0.0
    case OfSymbol(s) => if r.symbol == s then Net(TradeOf(r)) else 0.0
  }

  function Amount(m: Measure, rs: seq<Report>): real {
    if rs == [] then 0.0 else Amount(m, rs[..|rs| - 1]) + Weight(m, rs[|rs| - 1])
  }

  lemma {:induction false} AmountConcat(m: Measure, a: seq<Report>, b: seq<Report>)
    ensures Amount(m, a + b) == Amount(m, a) + Amount(m, b)
  {
    if b == [] {
      assert a + b == a;
    } else {
      assert (a + b)[..|a + b| - 1] == a + b[..|b| - 1];
      AmountConcat(m, a, b[..|b| - 1]);
    }
  }

  lemma AmountSnoc(m: Measure, rs: seq<Report>, r: Report)
    ensures Amount(m, rs + [r]) == Amount(m, rs) + Weight(m, r)
  {
    assert (rs + [r])[..|rs + [r]| - 1] == rs;
  }

  lemma {:induction false} AmountOfStranger(b: BrokerId, rs: seq<Report>)
    requires forall i :: 0 <= i < |rs| ==> rs[i].broker != b
    ensures Amount(OfOrder(b), rs) == 0.0
  {
    if rs != [] { AmountOfStranger(b, rs[..|rs| - 1]); }
  }

  lemma {:induction false} QueuedConcat(p: seq<Item>, q: seq<Item>)
    ensures QueuedReports(p + q) == QueuedReports(p) + QueuedReports(q)
  {
    if p == [] {
      assert p + q == q;
    } else {
      assert (p + q)[1..] == p[1..] + q;
      QueuedConcat(p[1..], q);
    }
  }
}
