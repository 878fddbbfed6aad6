// The single-consumer event queue.
module EventQueues {
  import opened Base

  datatype Queue<T> = Queue(items: seq<T>, pushed: nat, processed: nat, dropped: nat)

  function Pushed<T>(q: Queue<T>, e: T): Queue<T> {
    q.(items := q.items + [e], pushed := q.pushed + 1)
  }

  /** Below the depth limit the event is queued, otherwise it is counted as dropped. */
  function TryPushed<T>(q: Queue<T>, e: T, maxDepth: nat): Queue<T> {
    if |q.items| >= maxDepth then q.(dropped := q.dropped + 1) else Pushed(q, e)
  }

  function Popped<T>(q: Queue<T>): Queue<T>
    requires q.items != []
  {
    q.(items := q.items[1..])
  }

  /** The condition that a waiter for idleness waits for. */
  predicate Idle<T>(q: Queue<T>) { q.processed == q.pushed }

  class EventQueue<T> {
    var items: seq<T>
    var totalPushed: nat
    var totalProcessed: nat
    var totalDropped: nat

    ghost function View(): Queue<T>
      reads this
    {
      Queue(items, totalPushed, totalProcessed, totalDropped)
    }

    constructor ()
      ensures View() == Queue([], 0, 0, 0)
    {
      items, totalPushed, totalProcessed, totalDropped := [], 0, 0, 0;
    }

    method Push(e: T)
      modifies this
      ensures View() == Pushed(old(View()), e)
    {
      items := items + [e];
      totalPushed := totalPushed + 1;
    }

    method TryPush(e: T, maxDepth: nat) returns (queued: bool)
      modifies this
      ensures View() == TryPushed(old(View()), e, maxDepth)
      ensures queued <==> |old(items)| < maxDepth
    {
      if |items| >= maxDepth {
        totalDropped := totalDropped + 1;
        return false;
      }
      items := items + [e];
      totalPushed := totalPushed + 1;
      queued := true;
    }

    /** Returns when there is an item or a stop was requested; nothing is returned only if the queue is empty. */
    method Pop(stopRequested: bool) returns (out: Option<T>)
      requires items != [] || stopRequested
      modifies this
      ensures if old(items) == [] then out == None && View() == old(View())
              else out == Some(old(items)[0]) && View() == Popped(old(View()))
    {
      if items == [] { return None; }
      out := Some(items[0]);
      items := items[1..];
    }

    method MarkProcessed()
      modifies this
      ensures View() == old(View()).(processed := old(totalProcessed) + 1)
    {
      totalProcessed := totalProcessed + 1;
    }

    method IsIdle() returns (idle: bool)
      ensures idle <==> Idle(View())
    {
      idle := totalProcessed == totalPushed;
    }
  }
}

// Gateway threads, clients and the dispatch thread around the queue: what is counted, what is answered,
// and what happens to reports still travelling when the manager is destroyed.
module EventFlow {
  import opened Base
  import opened EventQueues

  datatype Event = FromGateway(report: Report) | Command(ticket: nat) | MarketData

  const MAX_MARKET_DATA_DEPTH: nat := 8192

  function Enqueued(q: Queue<Event>, e: Event): Queue<Event> {
    if e.MarketData? then TryPushed(q, e, MAX_MARKET_DATA_DEPTH) else Pushed(q, e)
  }

  /** A thread that is asked to stop. For the gateway's dispatcher the request and its notification are two steps; the
      dispatch thread waits on its stop token, so for it they are one. */
  datatype Stage = Running | Requested | Stopping | Stopped

  /** Where the gateway's dispatcher is in its wait: running, past a check that found nothing to do and still holding the
      mutex, or asleep. */
  datatype Attention = Awake | Checked | Asleep

  /** What was emitted by the gateway, handed to the queue, handled, and answered so far. */
  datatype History = History(emitted: seq<Report>, sent: seq<Event>, handled: seq<Event>, answered: seq<nat>)

  datatype Flow = Flow(
    reports: seq<Report>,
    inTransit: Option<Report>,
    attention: Attention,
    queue: Queue<Event>,
    hand: Option<Event>,
    gateway: Stage,
    manager: Stage,
    history: History)

  const QUIET := Flow([], None, Awake, Queue([], 0, 0, 0), None, Running, Running, History([], [], [], []))

  datatype Step =
    | Emit(report: Report)   // a gateway thread queues a report and notifies
    | Check                  // the gateway's dispatcher finds nothing to do and no stop request
    | Sleep                  // and goes to sleep
    | SpuriousWake           // it may wake up for no reason
    | Take                   // it takes the oldest report
    | Forward                // and hands it to the manager's queue
    | Send(event: Event)     // a client thread sends a command, or a feed sends market data
    | Pop                    // the dispatch thread takes the oldest event
    | Finish                 // and has handled it
    | RequestStop            // stopping the gateway sets the stop flag
    | Notify                 // and then, without the mutex, notifies its dispatcher
    | GatewayExits
    | StopManager
    | ManagerExits

  function Delivered(f: Flow, e: Event): Flow {
    f.(queue := Enqueued(f.queue, e), history := f.history.(sent := f.history.sent + [e]))
  }

  function TicketsOf(e: Event): seq<nat> { if e.Command? then [e.ticket] else [] }

  function Finished(f: Flow): Flow
    requires f.hand.Some?
  {
    f.(hand := None,
       queue := f.queue.(processed := f.queue.processed + 1),
       history := f.history.(handled := f.history.handled + [f.hand.value],
                             answered := f.history.answered + TicketsOf(f.hand.value)))
  }

  function Woken(a: Attention): Attention { if a == Asleep then Awake else a }

  predicate Enabled(f: Flow, s: Step) {
    match s
    case Emit(_) => f.gateway == Running && f.attention != Checked
    case Check => f.gateway == Running && f.attention == Awake && f.inTransit == None && f.reports == []
    case Sleep => f.attention == Checked
    case SpuriousWake => f.attention == Asleep
    case Take => f.gateway != Stopped && f.attention == Awake && f.inTransit == None && f.reports != []
    case Forward => f.inTransit.Some?
    case Send(e) => !e.FromGateway?
    case Pop => f.manager != Stopped && f.hand == None && f.queue.items != []
    case Finish => f.hand.Some?
    case RequestStop => f.gateway == Running
    case Notify => f.gateway == Requested
    case GatewayExits =>
      (f.gateway == Requested || f.gateway == Stopping) && f.attention == Awake && f.inTransit == None && f.reports == []
    case StopManager => f.gateway == Stopped && f.manager == Running
    case ManagerExits => f.manager == Stopping && f.hand == None && f.queue.items == []
  }

  function Do(f: Flow, s: Step): Flow
    requires Enabled(f, s)
  {
    match s
    case Emit(r) =>
      f.(reports := f.reports + [r], attention := Woken(f.attention),
         history := f.history.(emitted := f.history.emitted + [r]))
    case Check => f.(attention := Checked)
    case Sleep => f.(attention := Asleep)
    case SpuriousWake => f.(attention := Awake)
    case Take => f.(reports := f.reports[1..], inTransit := Some(f.reports[0]))
    case Forward => Delivered(f.(inTransit := None), FromGateway(f.inTransit.value))
    case Send(e) => Delivered(f, e)
    case Pop => f.(hand := Some(f.queue.items[0]), queue := Popped(f.queue))
    case Finish => Finished(f)
    case RequestStop => f.(gateway := Requested)
    case Notify => f.(gateway := Stopping, attention := Woken(f.attention))
    case GatewayExits => f.(gateway := Stopped)
    case StopManager => f.(manager := Stopping)
    case ManagerExits => f.(manager := Stopped)
  }

  /** Any interleaving; a step that cannot happen is skipped. */
  function Run(steps: seq<Step>): Flow {
    if steps == [] then QUIET
    else
      var f, s := Run(steps[..|steps| - 1]), steps[|steps| - 1];
      if Enabled(f, s) then Do(f, s) else f
  }

  // Views of event lists ----------------------------------------------------------------------

  function One<T>(o: Option<T>): seq<T> { if o.Some? then [o.value] else [] }

  /** Everything except market data, in order. */
  function Essential(es: seq<Event>): seq<Event> {
    if es == [] then []
    else Essential(es[..|es| - 1]) + if es[|es| - 1].MarketData? then [] else [es[|es| - 1]]
  }

  function Reports(es: seq<Event>): seq<Report> {
    if es == [] then []
    else Reports(es[..|es| - 1]) + if es[|es| - 1].FromGateway? then [es[|es| - 1].report] else []
  }

  function Tickets(es: seq<Event>): seq<nat> {
    if es == [] then [] else Tickets(es[..|es| - 1]) + TicketsOf(es[|es| - 1])
  }

  function MarketCount(es: seq<Event>): nat {
    if es == [] then 0 else MarketCount(es[..|es| - 1]) + if es[|es| - 1].MarketData? then 1 else 0
  }

  lemma EssentialSnoc(es: seq<Event>, e: Event)
    ensures Essential(es + [e]) == if e.MarketData? then Essential(es) else Essential(es) + [e]
  {
    assert (es + [e])[..|es + [e]| - 1] == es;
    assert Essential(es) + [] == Essential(es);
  }

  lemma ReportsSnoc(es: seq<Event>, e: Event)
    ensures Reports(es + [e]) == if e.FromGateway? then Reports(es) + [e.report] else Reports(es)
  {
    assert (es + [e])[..|es + [e]| - 1] == es;
    assert Reports(es) + [] == Reports(es);
  }

  lemma TicketsSnoc(es: seq<Event>, e: Event)
    ensures Tickets(es + [e]) == Tickets(es) + TicketsOf(e)
  {
    assert (es + [e])[..|es + [e]| - 1] == es;
  }

  lemma MarketSnoc(es: seq<Event>, e: Event)
    ensures MarketCount(es + [e]) == MarketCount(es) + if e.MarketData? then 1 else 0
  {
    assert (es + [e])[..|es + [e]| - 1] == es;
  }

  /** Reports and commands can be read off the essential events alone. */
  lemma {:induction false} EssentialViews(es: seq<Event>)
    ensures Reports(Essential(es)) == Reports(es) && Tickets(Essential(es)) == Tickets(es)
  {
    if es != [] {
      hide Reports, Tickets;
      var front, e := es[..|es| - 1], es[|es| - 1];
      assert es == front + [e];
      EssentialViews(front);
      EssentialSnoc(front, e);
      ReportsSnoc(front, e);
      TicketsSnoc(front, e);
      ReportsSnoc(Essential(front), e);
      TicketsSnoc(Essential(front), e);
      assert Tickets(front) + [] == Tickets(front);
    }
  }

  lemma {:induction false} NoReportsIn(a: seq<Event>, b: seq<Event>)
    requires forall e :: e in b ==> !e.FromGateway?
    ensures Reports(a + b) == Reports(a)
  {
    hide Reports;
    if b == [] {
      assert a + b == a;
    } else {
      var front, e := b[..|b| - 1], b[|b| - 1];
      NoReportsIn(a, front);
      ReportsSnoc(a + front, e);
      assert a + b == a + front + [e];
      assert e in b;
    }
  }

  lemma NoTickets()
    ensures Tickets([]) == []
  {
  }

  lemma {:induction false} TicketsConcat(a: seq<Event>, b: seq<Event>)
    ensures Tickets(a + b) == Tickets(a) + Tickets(b)
  {
    hide Tickets, TicketsOf;
    if b == [] {
      NoTickets();
      assert a + b == a;
    } else {
      var front, e := b[..|b| - 1], b[|b| - 1];
      TicketsConcat(a, front);
      TicketsSnoc(a + front, e);
      TicketsSnoc(front, e);
      assert a + b == a + front + [e] && b == front + [e];
    }
  }

  // Invariants ---------------------------------------------------------------------------------

  /** Everything the queue accepted, in order: handled, in hand, waiting. */
  function Accepted(f: Flow): seq<Event> { f.history.handled + One(f.hand) + f.queue.items }

  predicate Counted(f: Flow) {
    && f.queue.pushed == f.queue.processed + |f.queue.items| + |One(f.hand)|
    && f.queue.processed == |f.history.handled|
    && |f.history.sent| == f.queue.pushed + f.queue.dropped
  }

  predicate NothingEssentialLost(f: Flow) {
    && Essential(Accepted(f)) == Essential(f.history.sent)
    && f.history.answered == Tickets(f.history.handled)
    && f.queue.dropped + MarketCount(Accepted(f)) == MarketCount(f.history.sent)
  }

  /** A queued market event never has a full market-data depth of events before it. */
  predicate MarketDataBounded(f: Flow) {
    forall i :: 0 <= i < |f.queue.items| && f.queue.items[i].MarketData? ==> i < MAX_MARKET_DATA_DEPTH
  }

  predicate ReportsTravel(f: Flow) {
    && f.history.emitted == Reports(f.history.sent) + One(f.inTransit) + f.reports
    && (f.gateway == Stopped ==> f.inTransit == None && f.reports == [])
    && (f.attention != Awake ==> f.inTransit == None && f.reports == [] && f.gateway != Stopped)
    && f.manager != Requested && (f.manager != Running ==> f.gateway == Stopped)
    && (f.manager == Stopped ==> f.hand == None && forall e :: e in f.queue.items ==> !e.FromGateway?)
  }

  /** Either the queue accepts the event at its end, or it is market data and is dropped. */
  lemma DeliveredShape(f: Flow, e: Event)
    ensures var g := Delivered(f, e);
            && g.history == f.history.(sent := f.history.sent + [e]) && g.hand == f.hand
            && (g.queue == Pushed(f.queue, e) || (e.MarketData? && g.queue == f.queue.(dropped := f.queue.dropped + 1)))
            && (e.MarketData? && g.queue == Pushed(f.queue, e) ==> |f.queue.items| < MAX_MARKET_DATA_DEPTH)
  {
  }

  lemma DeliveredKeeps(f: Flow, e: Event)
    requires Counted(f) && NothingEssentialLost(f) && MarketDataBounded(f)
    ensures Counted(Delivered(f, e)) && NothingEssentialLost(Delivered(f, e)) && MarketDataBounded(Delivered(f, e))
  {
    hide Delivered, Essential, Tickets, MarketCount;
    DeliveredShape(f, e);
    EssentialSnoc(Accepted(f), e);
    EssentialSnoc(f.history.sent, e);
    MarketSnoc(Accepted(f), e);
    MarketSnoc(f.history.sent, e);
    var g := Delivered(f, e);
    if g.queue.items == f.queue.items + [e] {
      assert Accepted(g) == Accepted(f) + [e];
    } else {
      assert Accepted(g) == Accepted(f);
    }
  }

  lemma FinishedKeeps(f: Flow)
    requires f.hand.Some? && Counted(f) && NothingEssentialLost(f)
    ensures Counted(Finished(f)) && NothingEssentialLost(Finished(f))
  {
    hide Essential, Tickets, MarketCount;
    TicketsSnoc(f.history.handled, f.hand.value);
    assert Accepted(Finished(f)) == Accepted(f);
  }

  lemma PopKeeps(f: Flow)
    requires Enabled(f, Pop) && Counted(f) && NothingEssentialLost(f)
    ensures Counted(Do(f, Pop)) && NothingEssentialLost(Do(f, Pop))
  {
    hide Essential, Tickets, MarketCount;
    assert Accepted(Do(f, Pop)) == Accepted(f);
  }

  lemma ForwardTravels(f: Flow)
    requires Enabled(f, Forward) && ReportsTravel(f) && f.gateway != Stopped
    ensures ReportsTravel(Do(f, Forward))
  {
    hide Reports;
    ReportsSnoc(f.history.sent, FromGateway(f.inTransit.value));
    assert Reports(f.history.sent) + [f.inTransit.value] + [] + f.reports == f.history.emitted;
  }

  lemma SendTravels(f: Flow, e: Event)
    requires Enabled(f, Send(e)) && ReportsTravel(f)
    ensures ReportsTravel(Do(f, Send(e)))
  {
    hide Reports;
    ReportsSnoc(f.history.sent, e);
  }

  lemma TravelKeeps(f: Flow, s: Step)
    requires Enabled(f, s) && ReportsTravel(f)
    ensures ReportsTravel(Do(f, s))
  {
    hide Reports, Delivered, ReportsTravel;
    match s
    case Forward =>
      StoppedTravels(f);
      ForwardTravels(f);
    case Send(e) => SendTravels(f, e);
    case _ => OtherTravels(f, s);
  }

  lemma StoppedTravels(f: Flow)
    requires ReportsTravel(f)
    ensures f.gateway == Stopped ==> f.inTransit == None
  {
  }

  lemma OtherTravels(f: Flow, s: Step)
    requires Enabled(f, s) && ReportsTravel(f) && !s.Forward? && !s.Send?
    ensures ReportsTravel(Do(f, s))
  {
    hide Reports;
  }

  lemma SameCounts(f: Flow, g: Flow)
    requires f.queue == g.queue && f.hand == g.hand && g.history == f.history.(emitted := g.history.emitted)
    ensures Counted(f) == Counted(g) && NothingEssentialLost(f) == NothingEssentialLost(g)
  {
    hide Essential, Tickets, MarketCount;
  }

  ghost predicate Invariant(f: Flow) {
    Counted(f) && NothingEssentialLost(f) && MarketDataBounded(f) && ReportsTravel(f)
  }

  lemma StepKeeps(f: Flow, s: Step)
    requires Enabled(f, s) && Invariant(f)
    ensures Invariant(Do(f, s))
  {
    hide Enqueued, Essential, Reports, Tickets, MarketCount, ReportsTravel, Counted, NothingEssentialLost;
    TravelKeeps(f, s);
    match s
    case Forward =>
      SameCounts(f, f.(inTransit := None));
      DeliveredKeeps(f.(inTransit := None), FromGateway(f.inTransit.value));
    case Send(e) => DeliveredKeeps(f, e);
    case Pop => PopKeeps(f);
    case Finish => FinishedKeeps(f);
    case _ => SameCounts(f, Do(f, s));
  }

  /** In every interleaving. */
  lemma {:induction false} RunInvariant(steps: seq<Step>)
    ensures Invariant(Run(steps))
  {
    hide Invariant, Enabled;
    if steps == [] {
      QuietInvariant();
    } else {
      RunInvariant(steps[..|steps| - 1]);
      var f, s := Run(steps[..|steps| - 1]), steps[|steps| - 1];
      if Enabled(f, s) { StepKeeps(f, s); }
    }
  }

  lemma QuietInvariant()
    ensures Invariant(QUIET)
  {
  }

  // Results --------------------------------------------------------------------------------------

  /** Counters: everything pushed is processed, waiting or in hand; waiting for idleness means exactly that nothing is
      waiting or in hand; only market data is ever dropped. */
  lemma EventsAccountedFor(steps: seq<Step>)
    ensures var f := Run(steps);
            && f.queue.pushed == f.queue.processed + |f.queue.items| + |One(f.hand)|
            && (Idle(f.queue) <==> f.queue.items == [] && f.hand == None)
            && f.queue.dropped == MarketCount(f.history.sent) - MarketCount(Accepted(f))
            && |f.history.sent| == f.queue.pushed + f.queue.dropped
  {
    hide Run, MarketCount;
    RunInvariant(steps);
  }

  /** Fills and commands: none lost, all in arrival order. */
  lemma EssentialInOrder(steps: seq<Step>)
    ensures var f := Run(steps); Essential(f.history.handled + One(f.hand) + f.queue.items) == Essential(f.history.sent)
    ensures var f := Run(steps); Idle(f.queue) ==> Essential(f.history.handled) == Essential(f.history.sent)
  {
    hide Run, Essential;
    RunInvariant(steps);
    var f := Run(steps);
    assert f.history.handled + [] + [] == f.history.handled;
  }

  /** Each command is answered once, in order, when it is handled; an idle queue has answered them all. */
  lemma CommandsAnsweredOnce(steps: seq<Step>)
    ensures var f := Run(steps);
            && f.history.answered + Tickets(One(f.hand) + f.queue.items) == Tickets(f.history.sent)
            && (Idle(f.queue) ==> f.history.answered == Tickets(f.history.sent))
  {
    hide Run, Essential, Tickets;
    var f := Run(steps);
    RunInvariant(steps);
    EventsAccountedFor(steps);
    EssentialViews(Accepted(f));
    EssentialViews(f.history.sent);
    TicketsConcat(f.history.handled, One(f.hand) + f.queue.items);
    assert Accepted(f) == f.history.handled + (One(f.hand) + f.queue.items);
    EssentialViews(f.history.handled);
    EssentialInOrder(steps);
  }

  lemma {:induction false} MarketPrefix(es: seq<Event>, depth: nat)
    requires forall i :: 0 <= i < |es| && es[i].MarketData? ==> i < depth
    ensures MarketCount(es) <= depth && MarketCount(es) <= |es|
  {
    if es != [] { MarketPrefix(es[..|es| - 1], depth); }
  }

  lemma QueuedMarketData(steps: seq<Step>)
    ensures MarketCount(Run(steps).queue.items) <= MAX_MARKET_DATA_DEPTH
  {
    hide Run;
    RunInvariant(steps);
    MarketPrefix(Run(steps).queue.items, MAX_MARKET_DATA_DEPTH);
  }

  /** Destruction: the gateway drains into the queue before the dispatch thread drains the queue, so when the
      dispatch thread has exited every report ever emitted has been handled, in order. */
  lemma ShutdownHandlesEveryReport(steps: seq<Step>)
    requires Run(steps).manager == Stopped
    ensures Reports(Run(steps).history.handled) == Run(steps).history.emitted
  {
    hide Run, Essential, Reports;
    var f := Run(steps);
    RunInvariant(steps);
    EssentialViews(Accepted(f));
    EssentialViews(f.history.sent);
    NoReportsIn(f.history.handled, f.queue.items);
    assert Accepted(f) == f.history.handled + f.queue.items;
    assert Reports(f.history.sent) + [] + [] == Reports(f.history.sent);
  }

  // Shutdown ---------------------------------------------------------------------------------------

  /** Steps that need neither new input nor luck. */
  predicate Internal(s: Step) { !s.Emit? && !s.Send? && !s.SpuriousWake? }

  /** Work left before both threads can exit. */
  function Weight(f: Flow): nat {
    4 * |f.reports| + 3 * |One(f.inTransit)| + 2 * |f.queue.items| + |One(f.hand)|
    + GatewayAhead(f.gateway) + Ahead(f.attention) + ManagerAhead(f.manager)
  }

  function GatewayAhead(s: Stage): nat {
    match s
    case Running => 5
    case Requested => 4
    case Stopping => 1
    case Stopped => 0
  }

  function ManagerAhead(s: Stage): nat { if s == Running then 2 else if s == Stopped then 0 else 1 }

  function Ahead(a: Attention): nat { if a == Awake then 2 else if a == Checked then 1 else 0 }

  /** Internal steps, in whatever order, come to an end. */
  lemma InternalStepsShrink(f: Flow, s: Step)
    requires Enabled(f, s) && Internal(s)
    ensures Weight(Do(f, s)) < Weight(f)
  {
  }

  /** The notification is over and the dispatcher is asleep or on its way to sleep. */
  predicate Missed(f: Flow) { f.gateway == Stopping && f.attention != Awake }

  /** Exactly when the notification is lost: it falls between the dispatcher's check and its sleep. */
  lemma NotifyMisses(f: Flow)
    requires Enabled(f, Notify)
    ensures Missed(Do(f, Notify)) <==> f.attention == Checked
  {
  }

  /** A lost notification stays lost: nothing internal wakes the dispatcher, and the dispatch thread is not even asked to stop. */
  lemma {:induction false} MissedForever(steps: seq<Step>, more: seq<Step>)
    requires Missed(Run(steps)) && forall s :: s in more ==> Internal(s)
    ensures Missed(Run(steps + more)) && Run(steps + more).manager == Running
  {
    if more == [] {
      assert steps + more == steps;
      RunInvariant(steps);
    } else {
      var front, s := more[..|more| - 1], more[|more| - 1];
      assert forall x :: x in front ==> x in more;
      assert s in more;
      MissedForever(steps, front);
      assert (steps + more)[..|steps + more| - 1] == steps + front;
    }
  }

  /** Once the dispatcher has heard of the stop, no schedule makes it miss it. */
  lemma HeardStaysHeard(f: Flow, s: Step)
    requires Enabled(f, s) && f.gateway == Stopping && !Missed(f)
    ensures !Missed(Do(f, s)) && Do(f, s).gateway != Running
  {
  }

  function NextDrain(f: Flow): Step {
    if f.attention == Checked then Sleep
    else if f.attention == Asleep then Notify
    else if f.inTransit.Some? then Forward
    else if f.reports != [] then Take
    else if f.gateway != Stopped then GatewayExits
    else if f.hand.Some? then Finish
    else if f.queue.items != [] then Pop
    else if f.manager == Running then StopManager
    else ManagerExits
  }

  /** After a stop request that is not missed, neither thread is stuck before the dispatch thread has exited. */
  lemma DrainEnabled(f: Flow)
    requires ReportsTravel(f) && f.gateway != Running && !Missed(f) && f.manager != Stopped
    ensures Enabled(f, NextDrain(f)) && Internal(NextDrain(f))
    ensures Do(f, NextDrain(f)).gateway != Running && !Missed(Do(f, NextDrain(f)))
  {
    hide Reports;
  }

  lemma {:induction false} HeardDrains(steps: seq<Step>) returns (more: seq<Step>)
    requires Run(steps).gateway != Running && !Missed(Run(steps))
    ensures Run(steps + more).manager == Stopped
    ensures forall s :: s in more ==> Internal(s)
    decreases Weight(Run(steps))
  {
    hide Weight, Enabled, Internal, NextDrain, ReportsTravel, Counted, NothingEssentialLost, MarketDataBounded, Missed;
    var f := Run(steps);
    if f.manager == Stopped {
      assert steps + [] == steps;
      more := [];
    } else {
      var s := NextDrain(f);
      RunInvariant(steps);
      DrainEnabled(f);
      InternalStepsShrink(f, s);
      assert (steps + [s])[..|steps + [s]| - 1] == steps;
      var rest := HeardDrains(steps + [s]);
      more := [s] + rest;
      assert steps + more == steps + [s] + rest;
    }
  }

  /** Stopping can reach the point where everything has been handled exactly when the notification was not missed. */
  lemma {:induction false} ShutdownCompletes(steps: seq<Step>)
    requires Run(steps).gateway != Running
    ensures (exists more :: (forall s :: s in more ==> Internal(s)) && Run(steps + more).manager == Stopped)
       <==> !Missed(Run(steps))
  {
    hide Run, Internal, Missed;
    if Missed(Run(steps)) {
      forall more | forall s :: s in more ==> Internal(s) ensures Run(steps + more).manager != Stopped {
        MissedForever(steps, more);
      }
    } else {
      var more := HeardDrains(steps);
    }
  }

  /** Nothing internal is left to do. */
  ghost predicate Stuck(f: Flow) { forall s :: Internal(s) ==> !Enabled(f, s) }

  /** Where a schedule without new input can end once the dispatcher was notified: everything is handled and both
      threads have exited, unless the notification was missed. */
  lemma ScheduleEnds(steps: seq<Step>)
    requires Stuck(Run(steps)) && Run(steps).gateway != Running
    ensures Missed(Run(steps)) || Run(steps).manager == Stopped
  {
    hide Run, Enabled, Internal, NextDrain, ReportsTravel, Counted, NothingEssentialLost, MarketDataBounded, Missed;
    RunInvariant(steps);
    var f := Run(steps);
    if f.manager != Stopped && !Missed(f) { DrainEnabled(f); }
  }

  /** The miss is possible. */
  lemma NotificationCanBeLost()
    ensures Missed(Run([Check, RequestStop, Notify]))
  {
    var steps := [Check, RequestStop, Notify];
    assert steps[..2] == [Check, RequestStop] && steps[..2][..1] == [Check] && [Check][..0] == [];
    assert Run([Check]) == QUIET.(attention := Checked);
    assert Run(steps[..2]) == QUIET.(attention := Checked, gateway := Requested);
  }

  // The two threads' queues as objects --------------------------------------------------------------

  method Enqueue(q: EventQueue<Event>, e: Event)
    modifies q
    ensures q.View() == Enqueued(old(q.View()), e)
  {
    if e.MarketData? {
      var _ := q.TryPush(e, MAX_MARKET_DATA_DEPTH);
    } else {
      q.Push(e);
    }
  }

  function EnqueuedReports(q: Queue<Event>, rs: seq<Report>): Queue<Event>
    decreases |rs|
  {
    if rs == [] then q else EnqueuedReports(Enqueued(q, FromGateway(rs[0])), rs[1..])
  }

  lemma {:induction false} AllReportsQueued(q: Queue<Event>, rs: seq<Report>)
    ensures EnqueuedReports(q, rs).items == q.items + seq(|rs|, i requires 0 <= i < |rs| => FromGateway(rs[i]))
    ensures EnqueuedReports(q, rs).pushed == q.pushed + |rs|
    ensures EnqueuedReports(q, rs).dropped == q.dropped && EnqueuedReports(q, rs).processed == q.processed
    decreases |rs|
  {
    if rs != [] {
      AllReportsQueued(Enqueued(q, FromGateway(rs[0])), rs[1..]);
    }
  }

  class GatewayDispatch {
    var reportsQueue: seq<Report>

    constructor ()
      ensures reportsQueue == []
    {
      reportsQueue := [];
    }

    method EnqueueReport(r: Report)
      modifies this
      ensures reportsQueue == old(reportsQueue) + [r]
    {
      reportsQueue := reportsQueue + [r];
    }

    /** After a stop request the dispatcher leaves its loop only once the report queue is empty. */
    method RunDispatcherUntilStopped(q: EventQueue<Event>)
      modifies this, q
      ensures reportsQueue == []
      ensures q.items == old(q.items) + seq(|old(reportsQueue)|, i requires 0 <= i < |old(reportsQueue)| => FromGateway(old(reportsQueue)[i]))
      ensures q.totalPushed == old(q.totalPushed) + |old(reportsQueue)|
      ensures q.totalProcessed == old(q.totalProcessed) && q.totalDropped == old(q.totalDropped)
    {
      AllReportsQueued(q.View(), reportsQueue);
      while reportsQueue != []
        invariant EnqueuedReports(q.View(), reportsQueue) == EnqueuedReports(old(q.View()), old(reportsQueue))
        decreases |reportsQueue|
      {
        var report := reportsQueue[0];
        reportsQueue := reportsQueue[1..];
        Enqueue(q, FromGateway(report));
      }
    }
  }
}
