// The step system, with its handlers interleaved with fills, refines the atomic manager.
module SystemRefinement {
  import opened Base
  import opened OrderTable
  import opened Positions
  import opened Risk
  import opened Manager
  import opened ManagerSafety
  import opened TradingSystem
  import Paper

  /** The atomic manager after the events completed so far. */
  ghost function Atomic(s: Sys): Manager { Run(Start(s.mgr.limits), s.log.events) }

  /** At rest the manager is the atomic one; inside a handler it is the atomic one plus the handler's work so far. */
  ghost predicate Refines(s: Sys) {
    var m := Atomic(s);
    match s.phase
    case Idle => s.mgr == m
    case Submitting(e, order) =>
      e.Submit? && e.reply.Some? && BeginSubmit(m, e.signal, e.clock, e.storeIo, e.rejectIo) == Calling(s.mgr, order)
    case Replacing(e, order) =>
      e.Replace? && e.newReply.Some? && BeginReplace(m, e.oldId, e.newSignal, e.newClock) == Calling(s.mgr, order)
    case Killing(e, n) =>
      e.CancelAll? && e.refused == {} && n <= |e.snapshot| && Snapshot(m.table, e.snapshot)
      && s.mgr == CancelEach(m, e.snapshot[..n], e.refused, e.failed)
  }

  lemma RunSnoc(m: Manager, es: seq<Event>, e: Event)
    ensures Run(m, es + [e]) == Handle(Run(m, es), e)
  {
    assert (es + [e])[..|es + [e]| - 1] == es;
  }

  lemma RecordRefines(s: Sys, e: Event)
    requires Refines(s) && s.phase == Idle
    ensures Refines(Record(s, e))
  {
    hide Handle, Run;
    RunSnoc(Start(s.mgr.limits), s.log.events, e);
    HandleLimits(s.mgr, e);
  }

  lemma BeginSubmitLimits(m: Manager, signal: Signal, clock: int, storeIo: bool, rejectIo: bool)
    ensures BeginSubmit(m, signal, clock, storeIo, rejectIo).m.limits == m.limits
  {
  }

  lemma ContinueLimits(s: Sys)
    ensures DoContinue(s).mgr.limits == s.mgr.limits
  {
  }

  lemma DispatchRefines(s: Sys, item: Item, io: Io)
    requires Refines(s) && s.phase == Idle
    ensures Refines(DispatchItem(s, item, io))
  {
    hide Handle, Run, BeginSubmit;
    match item
    case ReportItem(r) => RecordRefines(s, Execution(r, io.readIo, io.writeIo));
    case CommandItem(SubmitCommand(signal)) =>
      BeginSubmitLimits(s.mgr, signal, io.clock, io.storeIo, io.rejectIo);
      RecordRefines(s, Submit(signal, io.clock, None, io.storeIo, io.rejectIo, io.statusIo, io.brokerIo));
    case CommandItem(CancelCommand(l)) => RecordRefines(s, Cancel(l, true, io.statusIo));
    case CommandItem(ReplaceCommand(l, signal)) =>
      RecordRefines(s, Replace(l, signal, io.clock, None, io.statusIo, io.storeIo));
    case CommandItem(CancelAllCommand) =>
  }

  lemma ContinueRefines(s: Sys)
    requires Refines(s)
    ensures Refines(DoContinue(s))
  {
    hide Run, BeginSubmit, FinishSubmit, FinishReplace, CancelOne;
    ContinueLimits(s);
    match s.phase
    case Idle =>
    case Submitting(e, _) => RunSnoc(Start(s.mgr.limits), s.log.events, e);
    case Replacing(e, _) => RunSnoc(Start(s.mgr.limits), s.log.events, e);
    case Killing(e, n) =>
      if n < |e.snapshot| {
        assert e.snapshot[..n + 1][..n] == e.snapshot[..n];
      } else {
        RunSnoc(Start(s.mgr.limits), s.log.events, e);
        assert e.snapshot[..n] == e.snapshot;
      }
  }

  lemma DispatchLimits(s: Sys, item: Item, io: Io)
    ensures DispatchItem(s, item, io).mgr.limits == s.mgr.limits
  {
    hide Handle, BeginSubmit;
    match item
    case ReportItem(r) => HandleLimits(s.mgr, Execution(r, io.readIo, io.writeIo));
    case CommandItem(SubmitCommand(signal)) =>
      BeginSubmitLimits(s.mgr, signal, io.clock, io.storeIo, io.rejectIo);
      HandleLimits(s.mgr, Submit(signal, io.clock, None, io.storeIo, io.rejectIo, io.statusIo, io.brokerIo));
    case CommandItem(CancelCommand(l)) => HandleLimits(s.mgr, Cancel(l, true, io.statusIo));
    case CommandItem(ReplaceCommand(l, signal)) =>
      HandleLimits(s.mgr, Replace(l, signal, io.clock, None, io.statusIo, io.storeIo));
    case CommandItem(CancelAllCommand) =>
  }

  lemma ActRefines(s: Sys, a: Action)
    requires Refines(s)
    ensures Refines(Act(s, a)) && Act(s, a).mgr.limits == s.mgr.limits
  {
    hide DispatchItem, Run, BeginSubmit, FinishSubmit, FinishReplace, CancelOne;
    match a
    case Dispatch(io) =>
      if s.phase == Idle && s.pipes.queue != [] {
        DispatchRefines(Popped(s), s.pipes.queue[0], io);
        DispatchLimits(Popped(s), s.pipes.queue[0], io);
      }
    case Continue => ContinueRefines(s); ContinueLimits(s);
    case _ =>
  }

  lemma {:induction false} RunRefines(limits: RiskLimits, acts: seq<Action>)
    ensures var s := RunSys(Boot(limits), acts); Refines(s) && s.mgr.limits == limits
  {
    if acts != [] {
      RunRefines(limits, acts[..|acts| - 1]);
      ActRefines(RunSys(Boot(limits), acts[..|acts| - 1]), acts[|acts| - 1]);
    }
  }

  /** The manager is safe in every state, also in the middle of a handler. */
  lemma {:induction false} SystemIsSafe(limits: RiskLimits, acts: seq<Action>)
    ensures Safe(RunSys(Boot(limits), acts).mgr)
  {
    RunRefines(limits, acts);
    var s := RunSys(Boot(limits), acts);
    RunSafe(Start(limits), s.log.events);
    PhaseSafe(s);
  }

  lemma PhaseSafe(s: Sys)
    requires Refines(s) && Safe(Atomic(s))
    ensures Safe(s.mgr)
  {
    hide Safe, Run;
    match s.phase
    case Idle =>
    case Submitting(e, _) => BeginSubmitSafe(Atomic(s), e.signal, e.clock, e.storeIo, e.rejectIo);
    case Replacing(e, _) => BeginReplaceSafe(Atomic(s), e.oldId, e.newSignal, e.newClock);
    case Killing(e, n) => CancelEachSafe(Atomic(s), e.snapshot[..n], e.refused, e.failed);
  }

  lemma BeginReplaceSafe(m: Manager, l: LocalId, signal: Signal, clock: int)
    requires Safe(m)
    ensures Safe(BeginReplace(m, l, signal, clock).m)
  {
  }

  /** Every theorem about atomic runs holds of the step system at rest: its manager is that of an atomic run. */
  lemma SystemRefinesManager(limits: RiskLimits, acts: seq<Action>)
    requires RunSys(Boot(limits), acts).phase == Idle
    ensures var s := RunSys(Boot(limits), acts); s.mgr == Run(Start(limits), s.log.events)
  {
    RunRefines(limits, acts);
  }
}
