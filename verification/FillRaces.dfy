// The fill-race guarantee when the store may fail at any time: exactly which reports find their order,
// a run in which the race happens, and a run in which a failing store loses a fill.
module FillRaces {
  import opened Base
  import opened IdMapper
  import opened OrderTable
  import opened Positions
  import opened Risk
  import opened Manager
  import opened ManagerSafety
  import opened TradingSystem
  import opened SystemRefinement
  import opened ReplyIds
  import Paper
  import Ids = IdGenerator

  /** The event retires local order l: a completing or terminal report, an accepted cancel or replace, or the kill
      switch, which skips orders without a stored broker id. */
  ghost predicate Retires(m: Manager, e: Event, l: LocalId) {
    match e
    case Execution(r, readIo, _) =>
      && r.broker in m.ids.toLocal && m.ids.toLocal[r.broker] == l
      && (EndsOrder(r.status) || (readIo && l in m.table && FullyFilled(m.table[l], r)))
    case Cancel(k, accepted, _) => k == l && accepted
    case Replace(k, _, _, reply, _, _) => k == l && reply.Some?
    case CancelAll(ls, refused, failed) =>
      Snapshot(m.table, ls) && l in ls && l !in refused && l !in failed && m.table[l].broker.Some?
    case _ => false
  }

  /** Nothing in the run retires l. */
  ghost predicate LeftAlone(m: Manager, es: seq<Event>, l: LocalId) {
    es == [] || (LeftAlone(m, es[..|es| - 1], l) && !Retires(Run(m, es[..|es| - 1]), es[|es| - 1], l))
  }

  ghost predicate Routed(ids: IdMap, l: LocalId, b: BrokerId) {
    && l in ids.toBroker && ids.toBroker[l] == b
    && b in ids.toLocal && ids.toLocal[b] == l
    && (forall k :: k in ids.toBroker && ids.toBroker[k] == b ==> k == l)
  }

  lemma RemoveKeepsRoute(ids: IdMap, k: LocalId, l: LocalId, b: BrokerId)
    requires Routed(ids, l, b) && k != l
    ensures Routed(Remove(ids, k), l, b)
  {
  }

  lemma AddKeepsRoute(ids: IdMap, k: LocalId, c: BrokerId, l: LocalId, b: BrokerId)
    requires Routed(ids, l, b) && k != l && c != b
    ensures Routed(Add(ids, k, c), l, b)
  {
  }

  lemma {:induction false} CancelEachKeepsRoute(m: Manager, ls: seq<LocalId>, refused: set<LocalId>, failed: set<LocalId>, l: LocalId, b: BrokerId)
    requires Routed(m.ids, l, b)
    requires l in ls && l in m.table ==> l in refused || l in failed || m.table[l].broker.None?
    ensures Routed(CancelEach(m, ls, refused, failed).ids, l, b)
  {
    hide Routed, Remove;
    if ls != [] {
      var front, k := ls[..|ls| - 1], ls[|ls| - 1];
      CancelEachKeepsRoute(m, front, refused, failed, l, b);
      CancelEachTable(m, front, refused, failed);
      if k != l { RemoveKeepsRoute(CancelEach(m, front, refused, failed).ids, k, l, b); }
    }
  }

  lemma SubmitKeepsRoute(m: Manager, e: Event, l: LocalId, b: BrokerId)
    requires Safe(m) && e.Submit? && ReplyOf(e) != Some(b) && Routed(m.ids, l, b)
    ensures Routed(DoSubmit(m, e).m.ids, l, b)
  {
    hide Routed, Safe, BeginSubmit;
    BeginSubmitSafe(m, e.signal, e.clock, e.storeIo, e.rejectIo);
    var begun := BeginSubmit(m, e.signal, e.clock, e.storeIo, e.rejectIo);
    RoutedMeans(m.ids, l, b);
    if begun.Calling? && e.reply.Some? { AddKeepsRoute(m.ids, begun.order.id, e.reply.value, l, b); }
  }

  lemma RoutedMeans(ids: IdMap, l: LocalId, b: BrokerId)
    requires Routed(ids, l, b)
    ensures l in ids.toBroker && ids.toBroker[l] == b && b in ids.toLocal && ids.toLocal[b] == l
  {
  }

  lemma ReplaceKeepsRoute(m: Manager, e: Event, l: LocalId, b: BrokerId)
    requires Safe(m) && e.Replace? && !Retires(m, e, l) && ReplyOf(e) != Some(b) && Routed(m.ids, l, b)
    ensures Routed(DoReplace(m, e).m.ids, l, b)
  {
    hide Routed, Remove, Add;
    RoutedMeans(m.ids, l, b);
    if e.oldId in m.ids.toBroker && e.newReply.Some? {
      RemoveKeepsRoute(m.ids, e.oldId, l, b);
      var id := NewId(m, e.newClock);
      if id != l { AddKeepsRoute(Remove(m.ids, e.oldId), id, e.newReply.value, l, b); }
    }
  }

  lemma HandleKeepsRoute(m: Manager, e: Event, l: LocalId, b: BrokerId)
    requires Safe(m) && !Retires(m, e, l) && ReplyOf(e) != Some(b) && Routed(m.ids, l, b)
    ensures Routed(Handle(m, e).ids, l, b)
  {
    hide Routed, Safe, DoSubmit, DoReplace, CancelEach, Remove;
    match e
    case Execution(r, _, _) =>
      if r.broker in m.ids.toLocal && m.ids.toLocal[r.broker] != l { RemoveKeepsRoute(m.ids, m.ids.toLocal[r.broker], l, b); }
    case Submit(_, _, _, _, _, _, _) => SubmitKeepsRoute(m, e, l, b);
    case Cancel(k, _, _) => if k != l { RemoveKeepsRoute(m.ids, k, l, b); }
    case Replace(_, _, _, _, _, _) => ReplaceKeepsRoute(m, e, l, b);
    case CancelAll(ls, refused, failed) =>
      if Snapshot(m.table, ls) { CancelEachKeepsRoute(m, ls, refused, failed, l, b); }
    case MarketData =>
  }

  // Ids that lead nowhere -------------------------------------------------------------------

  predicate Unissued(ids: IdMap, b: BrokerId) {
    b !in ids.toLocal && forall k :: k in ids.toBroker ==> ids.toBroker[k] != b
  }

  lemma AddRoutes(ids: IdMap, l: LocalId, b: BrokerId)
    requires Unissued(ids, b)
    ensures Routed(Add(ids, l, b), l, b)
  {
  }

  lemma RemoveUnissued(ids: IdMap, l: LocalId, b: BrokerId)
    requires Unissued(ids, b)
    ensures Unissued(Remove(ids, l), b)
  {
  }

  lemma AddUnissued(ids: IdMap, l: LocalId, c: BrokerId, b: BrokerId)
    requires Unissued(ids, b) && b != c
    ensures Unissued(Add(ids, l, c), b)
  {
  }

  lemma RemoveEndsRoute(ids: IdMap, l: LocalId, b: BrokerId)
    requires Routed(ids, l, b)
    ensures Unissued(Remove(ids, l), b)
  {
  }

  lemma {:induction false} CancelEachUnissued(m: Manager, ls: seq<LocalId>, refused: set<LocalId>, failed: set<LocalId>, b: BrokerId)
    requires Unissued(m.ids, b)
    ensures Unissued(CancelEach(m, ls, refused, failed).ids, b)
  {
    hide Unissued, Remove;
    if ls != [] {
      CancelEachUnissued(m, ls[..|ls| - 1], refused, failed, b);
      RemoveUnissued(CancelEach(m, ls[..|ls| - 1], refused, failed).ids, ls[|ls| - 1], b);
    }
  }

  lemma HandleUnissued(m: Manager, e: Event, b: BrokerId)
    requires Unissued(m.ids, b) && ReplyOf(e) != Some(b)
    ensures Unissued(Handle(m, e).ids, b)
  {
    hide Unissued, BeginSubmit, Remove, Add, CancelEach, BrokerFree, Snapshot;
    match e
    case Execution(r, _, _) =>
      if r.broker in m.ids.toLocal { RemoveUnissued(m.ids, m.ids.toLocal[r.broker], b); }
    case Submit(signal, clock, reply, storeIo, rejectIo, _, _) =>
      BeginKeepsIds(m, signal, clock, storeIo, rejectIo);
      var begun := BeginSubmit(m, signal, clock, storeIo, rejectIo);
      if begun.Calling? && reply.Some? { AddUnissued(m.ids, begun.order.id, reply.value, b); }
    case Cancel(l, _, _) => RemoveUnissued(m.ids, l, b);
    case Replace(l, _, clock, reply, _, _) =>
      RemoveUnissued(m.ids, l, b);
      if reply.Some? { AddUnissued(Remove(m.ids, l), NewId(m, clock), reply.value, b); }
    case CancelAll(ls, refused, failed) => CancelEachUnissued(m, ls, refused, failed, b);
    case MarketData =>
  }

  lemma BeginKeepsIds(m: Manager, signal: Signal, clock: int, storeIo: bool, rejectIo: bool)
    ensures BeginSubmit(m, signal, clock, storeIo, rejectIo).m.ids == m.ids
  {
  }

  /** An id that leads nowhere and is not handed out again leads nowhere for ever, and its reports change nothing. */
  lemma {:induction false} UnissuedForever(m: Manager, es: seq<Event>, b: BrokerId)
    requires Unissued(m.ids, b) && b !in Replies(es)
    ensures Unissued(Run(m, es).ids, b)
    ensures forall r: Report, readIo, writeIo :: r.broker == b ==> Handle(Run(m, es), Execution(r, readIo, writeIo)) == Run(m, es)
  {
    hide Replies;
    if es != [] {
      var front, e := es[..|es| - 1], es[|es| - 1];
      RepliesSplit(front, e);
      assert front + [e] == es;
      UnissuedForever(m, front, b);
      HandleUnissued(Run(m, front), e, b);
    }
  }

  lemma RepliesSplit(es: seq<Event>, e: Event)
    ensures Replies(es + [e]) == Replies(es) + if ReplyOf(e).Some? then {ReplyOf(e).value} else {}
  {
    hide ReplyOf;
    var all := es + [e];
    forall b | b in Replies(es) ensures b in Replies(all) {
      var i :| 0 <= i < |es| && ReplyOf(es[i]).Some? && ReplyOf(es[i]).value == b;
      assert all[i] == es[i];
    }
    assert all[|es|] == e;
  }

  // What retiring does ------------------------------------------------------------------------

  lemma {:induction false} CancelEachEndsRoute(m: Manager, ls: seq<LocalId>, refused: set<LocalId>, failed: set<LocalId>, l: LocalId, b: BrokerId)
    requires Routed(m.ids, l, b) && l in ls && l !in refused && l !in failed && l in m.table && m.table[l].broker.Some?
    ensures Unissued(CancelEach(m, ls, refused, failed).ids, b)
  {
    hide Routed, Unissued, Remove;
    var front, k := ls[..|ls| - 1], ls[|ls| - 1];
    var n := CancelEach(m, front, refused, failed);
    if l in front {
      CancelEachEndsRoute(m, front, refused, failed, l, b);
      RemoveUnissued(n.ids, k, b);
    } else {
      assert k == l;
      CancelEachKeepsRoute(m, front, refused, failed, l, b);
      CancelEachTable(m, front, refused, failed);
      RemoveEndsRoute(n.ids, l, b);
    }
  }

  lemma RetireEndsRoute(m: Manager, e: Event, l: LocalId, b: BrokerId)
    requires Retires(m, e, l) && ReplyOf(e) != Some(b) && Routed(m.ids, l, b)
    ensures Unissued(Handle(m, e).ids, b)
  {
    hide Routed, Unissued, Remove, Add, CancelEach, BrokerFree;
    RoutedMeans(m.ids, l, b);
    match e
    case Execution(_, _, _) => RemoveEndsRoute(m.ids, l, b);
    case Cancel(_, _, _) => RemoveEndsRoute(m.ids, l, b);
    case Replace(_, _, clock, reply, _, _) =>
      RemoveEndsRoute(m.ids, l, b);
      AddUnissued(Remove(m.ids, l), NewId(m, clock), reply.value, b);
    case CancelAll(ls, refused, failed) => CancelEachEndsRoute(m, ls, refused, failed, l, b);
    case _ =>
  }

  /** A mapped broker id leads to its order exactly until the order is retired, and nowhere afterwards. */
  lemma {:induction false} RoutedUntilRetired(m: Manager, es: seq<Event>, l: LocalId, b: BrokerId)
    requires Safe(m) && Routed(m.ids, l, b) && b !in Replies(es)
    ensures if LeftAlone(m, es, l) then Routed(Run(m, es).ids, l, b) else Unissued(Run(m, es).ids, b)
  {
    hide Routed, Unissued, Safe, Handle, Retires, Replies;
    if es != [] {
      var front, e := es[..|es| - 1], es[|es| - 1];
      RepliesSplit(front, e);
      assert front + [e] == es;
      RoutedUntilRetired(m, front, l, b);
      RunSafe(m, front);
      var n := Run(m, front);
      if !LeftAlone(m, front, l) {
        HandleUnissued(n, e, b);
      } else if Retires(n, e, l) {
        RetireEndsRoute(n, e, l, b);
      } else {
        HandleKeepsRoute(n, e, l, b);
      }
    }
  }

  // The answer -----------------------------------------------------------------------------------

  /** The local id that a submit or replace creates. */
  function Created(m: Manager, e: Event): LocalId {
    match e
    case Submit(_, clock, _, _, _, _, _) => NewId(m, clock)
    case Replace(_, _, clock, _, _, _) => NewId(m, clock)
    case _ => ""
  }

  /** The store writes that have to work between the gateway's reply and the registration of the mapping. */
  predicate WritesWork(e: Event) {
    match e
    case Submit(_, _, _, _, _, statusIo, _) => statusIo
    case Replace(_, _, _, _, replacedIo, insertIo) => replacedIo && insertIo
    case _ => false
  }

  ghost function Answer(m: Manager, e: Event): Outcome<LocalId>
    requires ReplyOf(e).Some?
  {
    if e.Submit? then DoSubmit(m, e).answer else DoReplace(m, e).answer
  }

  lemma BeginCreates(m: Manager, signal: Signal, clock: int, storeIo: bool, rejectIo: bool)
    ensures var begun := BeginSubmit(m, signal, clock, storeIo, rejectIo); begun.Calling? ==> begun.order.id == NewId(m, clock)
  {
  }

  lemma SubmitRoutes(m: Manager, e: Event, b: BrokerId)
    requires Unissued(m.ids, b) && e.Submit? && e.reply == Some(b) && Called(m, e)
    ensures var n, l := DoSubmit(m, e).m, Created(m, e);
            if e.statusIo then DoSubmit(m, e).answer == Ok(l) && Routed(n.ids, l, b)
            else DoSubmit(m, e).answer.Err? && Unissued(n.ids, b)
  {
    hide BeginSubmit, Routed, Unissued, Add, BrokerFree;
    BeginKeepsIds(m, e.signal, e.clock, e.storeIo, e.rejectIo);
    BeginCreates(m, e.signal, e.clock, e.storeIo, e.rejectIo);
    AddRoutes(m.ids, Created(m, e), b);
  }

  lemma ReplaceRoutes(m: Manager, e: Event, b: BrokerId)
    requires Unissued(m.ids, b) && e.Replace? && e.newReply == Some(b) && Called(m, e)
    requires NewId(m, e.newClock) !in m.table && forall k :: k in m.table ==> m.table[k].broker != Some(b)
    ensures var n, l := DoReplace(m, e).m, Created(m, e);
            if e.replacedIo && e.insertIo then DoReplace(m, e).answer == Ok(l) && Routed(n.ids, l, b)
            else DoReplace(m, e).answer.Err? && Unissued(n.ids, b)
  {
    hide Routed, Unissued, Remove, Add;
    RemoveUnissued(m.ids, e.oldId, b);
    AddRoutes(Remove(m.ids, e.oldId), NewId(m, e.newClock), b);
  }

  /** What decides whether an accepted order is mapped: in every state that knows nothing of the new ids, exactly the
      status write of a submit, and exactly the two writes of a replace. */
  lemma WritesDecideRouting(m: Manager, e: Event, b: BrokerId)
    requires Unissued(m.ids, b) && ReplyOf(e) == Some(b) && Called(m, e)
    requires Created(m, e) !in m.table && forall k :: k in m.table ==> m.table[k].broker != Some(b)
    ensures b in Handle(m, e).ids.toLocal <==> WritesWork(e)
    ensures Answer(m, e).Ok? <==> WritesWork(e)
    ensures WritesWork(e) ==> Answer(m, e) == Ok(Created(m, e)) && Routed(Handle(m, e).ids, Created(m, e), b)
    ensures !WritesWork(e) ==> Unissued(Handle(m, e).ids, b)
  {
    hide DoSubmit, DoReplace, Called, NewId;
    if e.Submit? { SubmitRoutes(m, e, b); } else { ReplaceRoutes(m, e, b); }
  }

  /** In every run the new ids of an accepted order are new to the manager. */
  lemma AcceptedIsNew(limits: RiskLimits, acts: seq<Action>, before: seq<Event>, e: Event, after: seq<Event>, b: BrokerId)
    requires var s := RunSys(Boot(limits), acts);
             && s.phase == Idle && s.log.events == before + [e] + after
             && s.gw.nextId <= Ids.COUNTER_RANGE && s.mgr.nextId <= Ids.COUNTER_RANGE
    requires ReplyOf(e) == Some(b)
    ensures var m := Run(Start(limits), before);
            && Safe(m) && Called(m, e) && Unissued(m.ids, b) && Created(m, e) !in m.table
            && (forall k :: k in m.table ==> m.table[k].broker != Some(b))
    ensures b !in Replies(after)
  {
    hide RunSys, Called, Handle, NewId, Replies;
    var m := Run(Start(limits), before);
    SystemRefinesManager(limits, acts);
    RepliesCalled(limits, acts);
    CalledPrefix(Start(limits), before, e, after);
    ReplyIsFresh(limits, acts, before, e, after, b);
    RunKnown(limits, before);
    RunSafe(Start(limits), before);
    RunSplit(Start(limits), before + [e], after);
    RunSnoc(Start(limits), before, e);
    HandleNextId(m, e);
    RunNextId(Run(Start(limits), before + [e]), after);
    NewIdCounter(m, if e.Submit? then e.clock else e.newClock);
  }

  /** Fill race with failing stores, exactly: whatever fails in whatever interleaving, a report for an accepted order's
      broker id finds that order if and only if the writes after the acceptance worked and nothing has retired the order
      since; otherwise the id leads nowhere and its reports change nothing. */
  lemma {:induction false} FillRaceWithFailures(limits: RiskLimits, acts: seq<Action>, before: seq<Event>, e: Event, after: seq<Event>, b: BrokerId)
    requires var s := RunSys(Boot(limits), acts);
             && s.phase == Idle && s.log.events == before + [e] + after
             && s.gw.nextId <= Ids.COUNTER_RANGE && s.mgr.nextId <= Ids.COUNTER_RANGE
    requires ReplyOf(e) == Some(b)
    ensures var s, m := RunSys(Boot(limits), acts), Run(Start(limits), before);
            var l := Created(m, e);
            && (Answer(m, e).Ok? <==> WritesWork(e))
            && (b in s.mgr.ids.toLocal <==> WritesWork(e) && LeftAlone(Run(Start(limits), before + [e]), after, l))
            && (b in s.mgr.ids.toLocal ==> s.mgr.ids.toLocal[b] == l && l in s.mgr.ids.toBroker && s.mgr.ids.toBroker[l] == b)
  {
    hide RunSys, Called, Handle, NewId, Replies, LeftAlone, Created, WritesWork;
    var m := Run(Start(limits), before);
    AcceptedIsNew(limits, acts, before, e, after, b);
    WritesDecideRouting(m, e, b);
    SystemRefinesManager(limits, acts);
    RunSplit(Start(limits), before + [e], after);
    RunSnoc(Start(limits), before, e);
    RunSafe(Start(limits), before + [e]);
    var n := Run(Start(limits), before + [e]);
    if WritesWork(e) {
      RoutedUntilRetired(n, after, Created(m, e), b);
    } else {
      UnissuedForever(n, after, b);
    }
  }

  /** After a failed write the order stays unmapped for the rest of the run, and none of its reports has any effect. */
  lemma {:induction false} FailedWriteLosesFills(limits: RiskLimits, acts: seq<Action>, before: seq<Event>, e: Event, after: seq<Event>, b: BrokerId)
    requires var s := RunSys(Boot(limits), acts);
             && s.phase == Idle && s.log.events == before + [e] + after
             && s.gw.nextId <= Ids.COUNTER_RANGE && s.mgr.nextId <= Ids.COUNTER_RANGE
    requires ReplyOf(e) == Some(b) && !WritesWork(e)
    ensures var s := RunSys(Boot(limits), acts);
            && b !in s.mgr.ids.toLocal
            && forall r: Report, readIo, writeIo :: r.broker == b ==> Handle(s.mgr, Execution(r, readIo, writeIo)) == s.mgr
  {
    hide RunSys, Called, Handle, NewId, Replies, Created, WritesWork;
    var m := Run(Start(limits), before);
    AcceptedIsNew(limits, acts, before, e, after, b);
    WritesDecideRouting(m, e, b);
    SystemRefinesManager(limits, acts);
    RunSplit(Start(limits), before + [e], after);
    RunSnoc(Start(limits), before, e);
    UnissuedForever(Run(Start(limits), before + [e]), after, b);
  }

  // The race happens ----------------------------------------------------------------------

  const NO_LIMITS := RiskLimits(0.0, 0, 0.0)

  /** All store statements work; the clocks read zero. */
  const GOOD_IO := Io(0, 0, false, true, true, true, true, true, true, [], {})

  const FIRST_BROKER_ID := Paper.NewBrokerId(Paper.EMPTY_GATEWAY, 0)

  function StoreIo(statusIo: bool): Io { GOOD_IO.(statusIo := statusIo) }

  /** A client submits, the gateway accepts and fills at once, and the report travels to the manager's queue. */
  function RaceActs(signal: Signal, statusIo: bool): seq<Action> {
    [Enqueue(SubmitCommand(signal)), Dispatch(StoreIo(statusIo)), GatewayFill(FIRST_BROKER_ID, Paper.FillAll, 1.0), Flush, Take, Forward]
  }

  lemma RunSysSnoc(s: Sys, acts: seq<Action>, a: Action)
    ensures RunSys(s, acts + [a]) == Act(RunSys(s, acts), a)
  {
    assert (acts + [a])[..|acts + [a]| - 1] == acts;
  }

  function FirstOrder(signal: Signal): Order { OrderFrom(NewId(Start(NO_LIMITS), 0), signal) }

  function FirstReport(signal: Signal): Report {
    Report(FIRST_BROKER_ID, signal.symbol, signal.side, signal.quantity, 1.0, "", NewReport)
  }

  lemma FirstSubmit(signal: Signal)
    ensures var order := FirstOrder(signal);
            BeginSubmit(Start(NO_LIMITS), signal, 0, true, true)
            == Calling(Start(NO_LIMITS).(nextId := 1, table := map[order.id := Row(order, PendingSubmission, None, 0.0, 0.0)]), order)
  {
    hide NewId;
  }

  /** The state right after the gateway accepted the first order. */
  function Racing(signal: Signal, statusIo: bool): Sys {
    var order := FirstOrder(signal);
    var e := Submit(signal, 0, Some(FIRST_BROKER_ID), true, true, statusIo, true);
    Sys(Start(NO_LIMITS).(nextId := 1, table := map[order.id := Row(order, PendingSubmission, None, 0.0, 0.0)]),
        Paper.AcceptOrder(Paper.EMPTY_GATEWAY, order, 0), Submitting(e, order), Pipes([], [], [], []),
        Log([], [], [], [], [], [], map[FIRST_BROKER_ID := order]))
  }

  lemma RaceStarts(signal: Signal, statusIo: bool)
    ensures RunSys(Boot(NO_LIMITS), RaceActs(signal, statusIo)[..2]) == Racing(signal, statusIo)
  {
    hide NewId, Paper.NewBrokerId, BeginSubmit;
    var acts := RaceActs(signal, statusIo);
    FirstSubmit(signal);
    RunSysSnoc(Boot(NO_LIMITS), [], acts[0]);
    RunSysSnoc(Boot(NO_LIMITS), [acts[0]], acts[1]);
    assert [] + [acts[0]] == [acts[0]] && [acts[0]] + [acts[1]] == acts[..2];
    var s := RunSys(Boot(NO_LIMITS), [acts[0]]);
    assert s == Boot(NO_LIMITS).(pipes := Pipes([], [], [], [CommandItem(SubmitCommand(signal))]));
    assert Popped(s) == Boot(NO_LIMITS);
  }

  lemma RaceTravels(signal: Signal, statusIo: bool)
    ensures var s := RunSys(Boot(NO_LIMITS), RaceActs(signal, statusIo));
            && s.pipes == Pipes([], [], [], [ReportItem(FirstReport(signal))])
            && s.mgr == Racing(signal, statusIo).mgr && s.phase == Racing(signal, statusIo).phase && s.log.dropped == []
  {
    hide NewId, Paper.NewBrokerId;
    var acts := RaceActs(signal, statusIo);
    RaceStarts(signal, statusIo);
    var s2 := Racing(signal, statusIo);
    var s3 := Act(s2, acts[2]);
    var r := FirstReport(signal);
    assert s3.pipes == Pipes([r], [], [], []);
    var s4 := Act(s3, Flush);
    assert s4.pipes == Pipes([], [r], [], []);
    var s5 := Act(s4, Take);
    assert s5.pipes == Pipes([], [], [r], []);
    assert acts[..2] + [acts[2]] == acts[..3] && acts[..3] + [acts[3]] == acts[..4];
    assert acts[..4] + [acts[4]] == acts[..5] && acts[..5] + [acts[5]] == acts;
    RunSysSnoc(Boot(NO_LIMITS), acts[..2], acts[2]);
    RunSysSnoc(Boot(NO_LIMITS), acts[..3], acts[3]);
    RunSysSnoc(Boot(NO_LIMITS), acts[..4], acts[4]);
    RunSysSnoc(Boot(NO_LIMITS), acts[..5], acts[5]);
  }

  /** The race is real: the fill is at the head of the manager's queue while its broker id is still unmapped. */
  lemma RaceIsReal(signal: Signal)
    ensures var s := RunSys(Boot(NO_LIMITS), RaceActs(signal, true));
            && s.pipes.queue != [] && s.pipes.queue[0].ReportItem?
            && s.pipes.queue[0].report.broker !in s.mgr.ids.toLocal
            && s.phase.Submitting?
  {
    hide RunSys, NewId, Paper.NewBrokerId;
    RaceTravels(signal, true);
  }

  /** The same run with a failing status write, up to the dispatch of the report. */
  function LosingActs(signal: Signal): seq<Action> { RaceActs(signal, false) + [Continue] + [Dispatch(GOOD_IO)] }

  /** The loss is real: the gateway has filled the order, its report is dropped, and the order was never withdrawn. */
  lemma FillIsLost(signal: Signal)
    ensures var s := RunSys(Boot(NO_LIMITS), LosingActs(signal));
            var l := FirstOrder(signal).id;
            && s.log.dropped == [FirstReport(signal)]
            && l in s.mgr.table && s.mgr.table[l].status == PendingSubmission && s.mgr.table[l].filled == 0.0
            && s.mgr.book == map[] && s.phase == Idle
  {
    hide RunSys, NewId, Paper.NewBrokerId;
    var acts := RaceActs(signal, false);
    RaceTravels(signal, false);
    RunSysSnoc(Boot(NO_LIMITS), acts, Continue);
    RunSysSnoc(Boot(NO_LIMITS), acts + [Continue], Dispatch(GOOD_IO));
    var s := RunSys(Boot(NO_LIMITS), acts);
    var t := Act(s, Continue);
    assert t.mgr == s.mgr && t.phase == Idle && t.pipes == s.pipes;
    assert Popped(t).mgr == s.mgr;
  }
}
