// Conservation of fills along the pipeline: no report is lost, duplicated or reordered, and every
// filled share is in a position, on its way, or was dropped on purpose. No store has to work for that.
module SystemLedger {
  import opened Base
  import opened Positions
  import opened Risk
  import opened Manager
  import opened ManagerSafety
  import opened TradingSystem
  import Paper

  /** The queues hold exactly the reports that were emitted and not handled, in order. */
  ghost predicate InOrder(s: Sys) { s.log.emitted == s.log.handled + InFlight(s.pipes) }

  lemma MoveKeepsOrder(p: Pipes, a: Action)
    ensures InFlight(MovePipes(p, a)) == InFlight(p)
  {
    match a
    case Enqueue(c) => QueuedConcat(p.queue, [CommandItem(c)]);
    case Forward =>
      if p.hand != [] {
        QueuedConcat(p.queue, [ReportItem(p.hand[0])]);
        assert [p.hand[0]] + p.hand[1..] == p.hand;
      }
    case _ =>
  }

  lemma DispatchKeepsOrder(s: Sys, io: Io)
    requires InOrder(s)
    ensures InOrder(DoDispatch(s, io))
  {
    if s.phase == Idle && s.pipes.queue != [] {
      var item := s.pipes.queue[0];
      var t := DispatchItem(Popped(s), item, io);
      assert t.pipes == Popped(s).pipes && t.log.emitted == s.log.emitted;
      if item.ReportItem? {
        assert InFlight(s.pipes) == [item.report] + InFlight(t.pipes);
      }
    }
  }

  lemma ActKeepsOrder(s: Sys, a: Action)
    requires InOrder(s)
    ensures InOrder(Act(s, a))
  {
    match a
    case Dispatch(io) => DispatchKeepsOrder(s, io);
    case GatewayFill(b, d, price) =>
      if b in s.gw.pending && d != Paper.Skip {
        var r := Paper.ReportFor(b, s.gw.pending[b], d, price);
        assert InFlight(s.pipes.(made := s.pipes.made + [r])) == InFlight(s.pipes) + [r];
      }
    case Continue =>
    case _ => MoveKeepsOrder(s.pipes, a);
  }

  /** First in, first out, across all four places a report passes through. */
  lemma {:induction false} ReportsKeepOrder(limits: RiskLimits, acts: seq<Action>)
    ensures InOrder(RunSys(Boot(limits), acts))
  {
    if acts != [] {
      ReportsKeepOrder(limits, acts[..|acts| - 1]);
      ActKeepsOrder(RunSys(Boot(limits), acts[..|acts| - 1]), acts[|acts| - 1]);
    }
  }

  // Shares ------------------------------------------------------------------------------

  /** Handled reports were applied or dropped, and the applied ones are the position. */
  ghost predicate Settled(s: Sys, symbol: Symbol) {
    var m := OfSymbol(symbol);
    && Amount(m, s.log.handled) == Amount(m, s.log.applied) + Amount(m, s.log.dropped)
    && At(s.mgr.book, symbol).quantity == Amount(m, s.log.applied)
  }

  lemma OnlyReportsMoveBook(m: Manager, e: Event)
    requires !e.Execution?
    ensures Handle(m, e).book == m.book
  {
    if e.CancelAll? { CancelEachFrame(m, e.snapshot, e.refused, e.failed); }
  }

  lemma ExecutionBook(m: Manager, r: Report, readIo: bool, writeIo: bool)
    ensures DoExecution(m, r, readIo, writeIo).book == if Applies(m, r, readIo) then BookFill(m.book, r.symbol, TradeOf(r)) else m.book
  {
  }

  lemma ReportSettles(s: Sys, r: Report, io: Io, symbol: Symbol)
    requires Settled(s, symbol)
    ensures Settled(DispatchReport(s, r, io), symbol)
  {
    hide OnFill, BookFill, DoExecution, Amount;
    ExecutionBook(s.mgr, r, io.readIo, io.writeIo);
    OnFillQuantity(At(s.mgr.book, symbol), TradeOf(r));
    AmountSnoc(OfSymbol(symbol), s.log.handled, r);
    AmountSnoc(OfSymbol(symbol), s.log.applied, r);
    AmountSnoc(OfSymbol(symbol), s.log.dropped, r);
    BookFillAt(s.mgr.book, r.symbol, TradeOf(r), symbol);
  }

  lemma DispatchSettles(s: Sys, item: Item, io: Io, symbol: Symbol)
    requires Settled(s, symbol)
    ensures Settled(DispatchItem(s, item, io), symbol)
  {
    hide Handle, Amount;
    match item
    case ReportItem(r) => ReportSettles(s, r, io, symbol);
    case CommandItem(SubmitCommand(signal)) =>
      OnlyReportsMoveBook(s.mgr, Submit(signal, io.clock, None, io.storeIo, io.rejectIo, io.statusIo, io.brokerIo));
    case CommandItem(CancelCommand(l)) => OnlyReportsMoveBook(s.mgr, Cancel(l, true, io.statusIo));
    case CommandItem(ReplaceCommand(l, signal)) =>
      OnlyReportsMoveBook(s.mgr, Replace(l, signal, io.clock, None, io.statusIo, io.storeIo));
    case CommandItem(CancelAllCommand) =>
  }

  lemma ActSettles(s: Sys, a: Action, symbol: Symbol)
    requires Settled(s, symbol)
    ensures Settled(Act(s, a), symbol)
  {
    hide DispatchItem, Amount, BeginSubmit;
    match a
    case Dispatch(io) =>
      if s.phase == Idle && s.pipes.queue != [] { DispatchSettles(Popped(s), s.pipes.queue[0], io, symbol); }
    case _ =>
  }

  lemma {:induction false} RunSettled(limits: RiskLimits, acts: seq<Action>, symbol: Symbol)
    ensures Settled(RunSys(Boot(limits), acts), symbol)
  {
    if acts != [] {
      RunSettled(limits, acts[..|acts| - 1], symbol);
      ActSettles(RunSys(Boot(limits), acts[..|acts| - 1]), acts[|acts| - 1], symbol);
    }
  }

  /** In every state of every interleaving, whatever fails:
      shares the gateway filled = position + shares in flight + shares in dropped reports. */
  lemma {:induction false} SharesConserved(limits: RiskLimits, acts: seq<Action>, symbol: Symbol)
    ensures var s, m := RunSys(Boot(limits), acts), OfSymbol(symbol);
            && At(s.mgr.book, symbol).quantity
               == Amount(m, s.log.emitted) - Amount(m, InFlight(s.pipes)) - Amount(m, s.log.dropped)
  {
    var s := RunSys(Boot(limits), acts);
    ReportsKeepOrder(limits, acts);
    RunSettled(limits, acts, symbol);
    AmountConcat(OfSymbol(symbol), s.log.handled, InFlight(s.pipes));
  }
}
