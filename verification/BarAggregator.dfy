// Aggregating a tick stream into time bars.
module Bars {
  import opened Base

  datatype Tick = Tick(last: real, size: real, time: int, received: int)

  /** The cash a tick stands for. */
  function Value(t: Tick): real { t.last * t.size }

  type Period = string

  datatype BarKey = BarKey(symbol: Symbol, period: Period)

  datatype Bar = Bar(
    key: BarKey,
    open: real,
    high: real,
    low: real,
    close: real,
    volume: real,
    vwap: real,
    time: int,
    received: int)

  /** The bar being built; a start of 0 means that there is none. */
  datatype Accumulator = Accumulator(period: int, start: int, notional: real, volume: real, bar: Option<Bar>)

  function Max(x: real, y: real): real { if x < y then y else x }

  function Min(x: real, y: real): real { if y < x then y else x }

  /** Integer division as the source has it: towards zero. */
  function TruncatedQuotient(x: int, d: int): int
    requires d > 0
  {
    if x >= 0 then x / d else -(-x / d)
  }

  function AlignToPeriodStart(time: int, period: int): int
    requires period > 0
  {
    TruncatedQuotient(time, period) * period
  }

  function NoBar(period: int): Accumulator { Accumulator(period, 0, 0.0, 0.0, None) }

  function StartBar(acc: Accumulator, key: BarKey, t: Tick): Accumulator
    requires acc.period > 0
  {
    var start := AlignToPeriodStart(t.time, acc.period);
    Accumulator(acc.period, start, Value(t), t.size,
                Some(Bar(key, t.last, t.last, t.last, t.last, t.size, t.last, start, t.received)))
  }

  function UpdateBar(acc: Accumulator, t: Tick): Accumulator
    requires acc.bar.Some?
  {
    var bar := acc.bar.value;
    var notional := acc.notional + Value(t);
    var volume := acc.volume + t.size;
    acc.(notional := notional, volume := volume, bar := Some(bar.(
      high := Max(bar.high, t.last),
      low := Min(bar.low, t.last),
      close := t.last,
      volume := bar.volume + t.size,
      vwap := if volume > 0.0 then notional / volume else bar.vwap,
      received := t.received)))
  }

  predicate Sound(acc: Accumulator) { acc.period > 0 && (acc.start != 0 ==> acc.bar.Some?) }

  /** The tick completes the bar being built. */
  predicate Completes(acc: Accumulator, t: Tick) { acc.start != 0 && t.time >= acc.start + acc.period }

  function Next(acc: Accumulator, key: BarKey, t: Tick): (next: Accumulator)
    requires Sound(acc)
    ensures Sound(next) && next.period == acc.period && next.bar.Some?
  {
    if acc.start == 0 || Completes(acc, t) then StartBar(acc, key, t) else UpdateBar(acc, t)
  }

  function Emitted(acc: Accumulator, t: Tick): seq<Bar>
    requires Sound(acc)
  {
    if Completes(acc, t) then [acc.bar.value] else []
  }

  /** The accumulator after a stream of ticks. */
  function After(period: int, key: BarKey, ts: seq<Tick>): (acc: Accumulator)
    requires period > 0
    ensures Sound(acc) && acc.period == period && (ts != [] ==> acc.bar.Some?)
  {
    if ts == [] then NoBar(period) else Next(After(period, key, ts[..|ts| - 1]), key, ts[|ts| - 1])
  }

  function Completed(period: int, key: BarKey, ts: seq<Tick>): seq<Bar>
    requires period > 0
  {
    if ts == [] then []
    else
      var front := ts[..|ts| - 1];
      Completed(period, key, front) + Emitted(After(period, key, front), ts[|ts| - 1])
  }

  // Folds over a group of ticks ---------------------------------------------------------------

  function Highest(g: seq<Tick>): real
    requires g != []
  {
    if |g| == 1 then g[0].last else Max(Highest(g[..|g| - 1]), g[|g| - 1].last)
  }

  function Lowest(g: seq<Tick>): real
    requires g != []
  {
    if |g| == 1 then g[0].last else Min(Lowest(g[..|g| - 1]), g[|g| - 1].last)
  }

  function Volume(g: seq<Tick>): real {
    if g == [] then 0.0 else Volume(g[..|g| - 1]) + g[|g| - 1].size
  }

  function Notional(g: seq<Tick>): real {
    if g == [] then 0.0 else Notional(g[..|g| - 1]) + Value(g[|g| - 1])
  }

  /** The bar of a group of ticks, computed from the whole group at once. */
  function BarOf(period: int, key: BarKey, g: seq<Tick>): Bar
    requires period > 0 && g != []
  {
    Bar(key, g[0].last, Highest(g), Lowest(g), g[|g| - 1].last, Volume(g),
        if Volume(g) > 0.0 then Notional(g) / Volume(g) else g[0].last,
        AlignToPeriodStart(g[0].time, period), g[|g| - 1].received)
  }

  // Which ticks went into which bar -----------------------------------------------------------

  /** The ticks of every emitted bar, and those of the bar being built. */
  datatype Trace = Trace(emitted: seq<seq<Tick>>, open: seq<Tick>)

  function Place(trace: Trace, acc: Accumulator, t: Tick): Trace {
    if acc.start == 0 then trace.(open := [t])
    else if Completes(acc, t) then Trace(trace.emitted + [trace.open], [t])
    else trace.(open := trace.open + [t])
  }

  function Traced(period: int, key: BarKey, ts: seq<Tick>): Trace
    requires period > 0
  {
    if ts == [] then Trace([], [])
    else
      var front, t := ts[..|ts| - 1], ts[|ts| - 1];
      Place(Traced(period, key, front), After(period, key, front), t)
  }

  ghost predicate FoldsTo(period: int, key: BarKey, groups: seq<seq<Tick>>, bars: seq<Bar>)
    requires period > 0
  {
    |bars| == |groups| && forall i :: 0 <= i < |groups| ==> groups[i] != [] && bars[i] == BarOf(period, key, groups[i])
  }

  predicate Sizes(ts: seq<Tick>) { forall t :: t in ts ==> t.size >= 0.0 }

  /** What the running sums of the accumulator mean. */
  ghost predicate Sums(period: int, key: BarKey, acc: Accumulator, g: seq<Tick>)
    requires period > 0
  {
    && g != [] && acc.bar == Some(BarOf(period, key, g))
    && acc.notional == Notional(g) && acc.volume == Volume(g)
    && acc.start == AlignToPeriodStart(g[0].time, period)
  }

  lemma {:induction false} VolumeGrows(g: seq<Tick>)
    requires Sizes(g)
    ensures Volume(g) >= 0.0
  {
    if g != [] { VolumeGrows(g[..|g| - 1]); }
  }

  lemma SingleTick(t: Tick)
    ensures Volume([t]) == t.size && Notional([t]) == Value(t)
  {
    assert [t][..0] == [];
    assert Volume([t]) == Volume([]) + t.size;
    assert Notional([t]) == Notional([]) + Value(t);
  }

  lemma StartSums(acc: Accumulator, key: BarKey, t: Tick)
    requires acc.period > 0 && t.size >= 0.0
    ensures Sums(acc.period, key, StartBar(acc, key, t), [t])
  {
    SingleTick(t);
    if t.size > 0.0 { assert t.size * (t.last * t.size / t.size) == t.last * t.size; }
  }

  lemma SumsSnoc(g: seq<Tick>, t: Tick)
    ensures Volume(g + [t]) == Volume(g) + t.size && Notional(g + [t]) == Notional(g) + Value(t)
    ensures g != [] ==> Highest(g + [t]) == Max(Highest(g), t.last) && Lowest(g + [t]) == Min(Lowest(g), t.last)
  {
    assert (g + [t])[..|g + [t]| - 1] == g;
  }

  lemma UpdateSums(acc: Accumulator, key: BarKey, g: seq<Tick>, t: Tick)
    requires acc.period > 0 && Sums(acc.period, key, acc, g) && Sizes(g) && t.size >= 0.0
    ensures Sums(acc.period, key, UpdateBar(acc, t), g + [t])
  {
    hide Volume, Notional, Highest, Lowest, AlignToPeriodStart;
    SumsSnoc(g, t);
    VolumeGrows(g);
  }

  /** Whatever the timestamps: every emitted bar, and the one being built, is the direct fold of its ticks. */
  lemma {:induction false} BarsAreFolds(period: int, key: BarKey, ts: seq<Tick>)
    requires period > 0 && Sizes(ts)
    ensures FoldsTo(period, key, Traced(period, key, ts).emitted, Completed(period, key, ts))
    ensures ts != [] ==> Sums(period, key, After(period, key, ts), Traced(period, key, ts).open)
    ensures Sizes(Traced(period, key, ts).open)
  {
    hide StartBar, UpdateBar, Sums, BarOf;
    if ts != [] {
      var front, t := ts[..|ts| - 1], ts[|ts| - 1];
      BarsAreFolds(period, key, front);
      var acc, open := After(period, key, front), Traced(period, key, front).open;
      StartSums(acc, key, t);
      if front != [] {
        SumsMeaning(period, key, acc, open);
        if acc.start != 0 { UpdateSums(acc, key, open, t); }
      }
    }
  }

  lemma SumsMeaning(period: int, key: BarKey, acc: Accumulator, g: seq<Tick>)
    requires period > 0 && Sums(period, key, acc, g)
    ensures g != [] && acc.bar == Some(BarOf(period, key, g)) && acc.start == AlignToPeriodStart(g[0].time, period)
  {
  }

  // The partition ------------------------------------------------------------------------------

  predicate Clocked(ts: seq<Tick>) {
    && (forall i :: 0 <= i < |ts| ==> ts[i].time >= 0)
    && (forall i, j :: 0 <= i < j < |ts| ==> ts[i].time <= ts[j].time)
  }

  function Joined(groups: seq<seq<Tick>>): seq<Tick> {
    if groups == [] then [] else Joined(groups[..|groups| - 1]) + groups[|groups| - 1]
  }

  function Groups(trace: Trace): seq<seq<Tick>> {
    if trace.open == [] then trace.emitted else trace.emitted + [trace.open]
  }

  /** The window of period number n holds every tick of the group. */
  predicate InWindow(period: int, g: seq<Tick>, n: int) {
    forall t :: t in g ==> n * period <= t.time < (n + 1) * period
  }

  predicate Windowed(period: int, g: seq<Tick>)
    requires period > 0
  {
    g != [] && InWindow(period, g, g[0].time / period)
  }

  /** Non-empty groups in period-aligned windows, each window later than the one before. */
  predicate Separated(period: int, groups: seq<seq<Tick>>)
    requires period > 0
  {
    && (forall i :: 0 <= i < |groups| ==> Windowed(period, groups[i]))
    && (forall i, j :: 0 <= i < j < |groups| && groups[i] != [] && groups[j] != [] ==>
          groups[i][0].time / period < groups[j][0].time / period)
  }

  lemma WindowStart(time: int, period: int)
    requires period > 0 && time >= 0
    ensures AlignToPeriodStart(time, period) == time / period * period <= time < time / period * period + period
    ensures AlignToPeriodStart(time, period) != 0 <==> time >= period
  {
    var q := time / period;
    assert time == q * period + time % period;
    if q == 0 { assert q * period == 0; } else { assert q * period >= period; }
  }

  lemma MulMonotone(x: int, y: int, d: int)
    requires d > 0 && x <= y
    ensures x * d <= y * d
  {
  }

  lemma QuotientMonotone(x: int, y: int, d: int)
    requires d > 0 && 0 <= x <= y
    ensures x / d <= y / d
  {
    if y / d < x / d { MulMonotone(y / d + 1, x / d, d); }
  }

  /** Comparing against the end of the current window is comparing period numbers. */
  lemma LaterWindow(time: int, first: int, period: int)
    requires period > 0 && 0 <= first <= time
    ensures first / period <= time / period
    ensures time >= AlignToPeriodStart(first, period) + period <==> first / period < time / period
  {
    WindowStart(time, period);
    WindowStart(first, period);
    QuotientMonotone(first, time, period);
    var p, q := first / period, time / period;
    if p < q { MulMonotone(p + 1, q, period); }
  }

  /** The ticks in the first window: their bar starts at 0, which the aggregator takes for "no bar". */
  function Early(period: int, ts: seq<Tick>): nat {
    if ts == [] then 0 else Early(period, ts[..|ts| - 1]) + if ts[|ts| - 1].time < period then 1 else 0
  }

  /** How many ticks go missing: every early one, except that the newest tick is always held. */
  function Lost(period: int, ts: seq<Tick>): nat {
    if ts == [] then 0 else if ts[|ts| - 1].time < period then |ts| - 1 else Early(period, ts)
  }

  lemma {:induction false} AllEarly(period: int, ts: seq<Tick>)
    requires Clocked(ts)
    ensures Early(period, ts) <= |ts|
    ensures ts != [] && ts[|ts| - 1].time < period ==> Early(period, ts) == |ts|
    ensures ts != [] ==> (Early(period, ts) == 0 <==> ts[0].time >= period)
  {
    if ts != [] { AllEarly(period, ts[..|ts| - 1]); }
  }

  lemma {:induction false} OpenStart(period: int, key: BarKey, ts: seq<Tick>)
    requires period > 0 && ts != []
    ensures var open := Traced(period, key, ts).open;
            open != [] && After(period, key, ts).start == AlignToPeriodStart(open[0].time, period)
  {
    hide AlignToPeriodStart;
    if |ts| > 1 { OpenStart(period, key, ts[..|ts| - 1]); }
  }

  lemma JoinedSnoc(groups: seq<seq<Tick>>, g: seq<Tick>)
    ensures Joined(groups + [g]) == Joined(groups) + g
  {
    assert (groups + [g])[..|groups + [g]| - 1] == groups;
  }

  /** The bars hold, each once and in order, all ticks but the first few. */
  predicate Covers(period: int, trace: Trace, ts: seq<Tick>, lost: nat) {
    && lost <= |ts| && Joined(trace.emitted) + trace.open == ts[lost..]
    && (ts != [] ==> trace.open != [] && trace.open[|trace.open| - 1] == ts[|ts| - 1])
    && (ts != [] && ts[|ts| - 1].time < period ==> trace == Trace([], [ts[|ts| - 1]]))
    && (ts != [] && ts[|ts| - 1].time >= period ==> trace.open[0].time >= period)
  }

  /** The newest tick starts a bar without one being emitted. */
  lemma CoverRestart(period: int, trace: Trace, acc: Accumulator, front: seq<Tick>, t: Tick)
    requires trace.emitted == [] && acc.start == 0
    ensures Covers(period, Place(trace, acc, t), front + [t], |front|)
  {
    NothingJoined();
  }

  lemma CoverMore(period: int, trace: Trace, acc: Accumulator, front: seq<Tick>, t: Tick, lost: nat)
    requires front != [] && front[|front| - 1].time >= period && t.time >= period
    requires Covers(period, trace, front, lost) && acc.start != 0
    ensures Covers(period, Place(trace, acc, t), front + [t], lost)
  {
    hide Joined, Completes;
    JoinedSnoc(trace.emitted, trace.open);
    assert front[lost..] + [t] == (front + [t])[lost..];
    assert Joined(trace.emitted) + trace.open + [t] == Joined(trace.emitted) + (trace.open + [t]);
  }

  lemma LostSnoc(period: int, ts: seq<Tick>)
    requires Clocked(ts) && ts != []
    ensures var front := ts[..|ts| - 1];
            Lost(period, ts) == if front == [] || front[|front| - 1].time < period then |front| else Lost(period, front)
  {
    AllEarly(period, ts);
    AllEarly(period, ts[..|ts| - 1]);
  }

  /** Whether the bar being built is one the aggregator will notice. */
  lemma StartNoticed(period: int, key: BarKey, ts: seq<Tick>, lost: nat)
    requires period > 0 && Clocked(ts) && ts != [] && Covers(period, Traced(period, key, ts), ts, lost)
    ensures After(period, key, ts).start != 0 <==> ts[|ts| - 1].time >= period
    ensures ts[|ts| - 1].time < period ==> Traced(period, key, ts).emitted == []
  {
    hide After, Traced, AlignToPeriodStart, Joined;
    OpenStart(period, key, ts);
    WindowStart(Traced(period, key, ts).open[0].time, period);
  }

  /** Exactly which ticks the bars cover. */
  lemma {:induction false} TicksCovered(period: int, key: BarKey, ts: seq<Tick>)
    requires period > 0 && Clocked(ts)
    ensures Covers(period, Traced(period, key, ts), ts, Lost(period, ts))
  {
    if ts == [] {
      NothingJoined();
    } else {
      TicksCoveredNext(period, key, ts);
    }
  }

  lemma {:induction false} TicksCoveredNext(period: int, key: BarKey, ts: seq<Tick>)
    requires period > 0 && Clocked(ts) && ts != []
    ensures Covers(period, Traced(period, key, ts), ts, Lost(period, ts))
    decreases |ts|, 0
  {
    hide After, AlignToPeriodStart, Place, Covers, Lost;
    var front, t := ts[..|ts| - 1], ts[|ts| - 1];
    var trace, acc := Traced(period, key, front), After(period, key, front);
    LostSnoc(period, ts);
    assert front + [t] == ts;
    if front == [] {
      NoStart(period, key);
      CoverRestart(period, trace, acc, front, t);
    } else {
      TicksCoveredNext(period, key, front);
      StartNoticed(period, key, front, Lost(period, front));
      if front[|front| - 1].time < period {
        CoverRestart(period, trace, acc, front, t);
      } else {
        CoverMore(period, trace, acc, front, t, Lost(period, front));
      }
    }
  }

  lemma NothingJoined()
    ensures Joined([]) == []
  {
  }

  lemma NoStart(period: int, key: BarKey)
    requires period > 0
    ensures After(period, key, []).start == 0
  {
  }

  lemma NothingLost(period: int, ts: seq<Tick>)
    requires period > 0 && Clocked(ts)
    ensures Lost(period, ts) == 0 <==> |ts| < 2 || ts[0].time >= period
  {
    AllEarly(period, ts);
  }

  /** Every tick is in exactly one bar, in order, just when the stream has at most one tick or starts a full period
      after time zero. */
  lemma {:induction false} LosslessExactly(period: int, key: BarKey, ts: seq<Tick>)
    requires period > 0 && Clocked(ts)
    ensures var trace := Traced(period, key, ts);
            Joined(trace.emitted) + trace.open == ts <==> |ts| < 2 || ts[0].time >= period
  {
    hide Traced, Joined, Lost;
    TicksCovered(period, key, ts);
    NothingLost(period, ts);
    assert Lost(period, ts) == 0 ==> ts[Lost(period, ts)..] == ts;
  }

  lemma WindowedOne(period: int, t: Tick)
    requires period > 0 && t.time >= 0
    ensures Windowed(period, [t])
  {
    WindowStart(t.time, period);
    var n := t.time / period;
    assert (n + 1) * period == n * period + period;
  }

  lemma WindowedSnoc(period: int, g: seq<Tick>, t: Tick)
    requires period > 0 && Windowed(period, g) && 0 <= g[0].time <= t.time
    requires t.time < AlignToPeriodStart(g[0].time, period) + period
    ensures Windowed(period, g + [t])
  {
    WindowStart(g[0].time, period);
    WindowStart(t.time, period);
    LaterWindow(t.time, g[0].time, period);
    var n := t.time / period;
    assert (n + 1) * period == n * period + period;
    assert (g + [t])[0] == g[0];
  }

  lemma SeparatedSnoc(period: int, groups: seq<seq<Tick>>, g: seq<Tick>)
    requires period > 0 && Separated(period, groups) && Windowed(period, g) && g != []
    requires forall i :: 0 <= i < |groups| && groups[i] != [] ==> groups[i][0].time / period < g[0].time / period
    ensures Separated(period, groups + [g])
  {
    hide Windowed;
  }

  lemma SeparatedFront(period: int, groups: seq<seq<Tick>>, g: seq<Tick>)
    requires period > 0 && Separated(period, groups + [g]) && g != []
    ensures Separated(period, groups) && Windowed(period, g)
    ensures forall i :: 0 <= i < |groups| && groups[i] != [] ==> groups[i][0].time / period < g[0].time / period
  {
    hide Windowed;
    var all := groups + [g];
    assert forall i :: 0 <= i < |groups| ==> all[i] == groups[i];
    assert all[|groups|] == g;
  }

  /** The ticks of each bar share one period-aligned window, and later bars have later windows. */
  lemma {:induction false} BarsSeparated(period: int, key: BarKey, ts: seq<Tick>)
    requires period > 0 && Clocked(ts)
    ensures Separated(period, Groups(Traced(period, key, ts)))
  {
    hide After, AlignToPeriodStart, Joined, Windowed, Separated;
    if ts == [] {
      NoGroups(period);
    } else {
      var front, t := ts[..|ts| - 1], ts[|ts| - 1];
      var trace, acc := Traced(period, key, front), After(period, key, front);
      BarsSeparated(period, key, front);
      WindowedOne(period, t);
      if front == [] {
        NoStart(period, key);
        NoGroups(period);
        SeparatedSnoc(period, [], [t]);
      } else {
        OpenStart(period, key, front);
        OpenIsPast(period, key, front);
        LaterWindow(t.time, trace.open[0].time, period);
        SeparatedFront(period, trace.emitted, trace.open);
        if acc.start == 0 {
          SeparatedSnoc(period, trace.emitted, [t]);
        } else if Completes(acc, t) {
          SeparatedSnoc(period, trace.emitted + [trace.open], [t]);
        } else {
          WindowedSnoc(period, trace.open, t);
          SeparatedSnoc(period, trace.emitted, trace.open + [t]);
        }
      }
    }
  }

  lemma NoGroups(period: int)
    requires period > 0
    ensures Separated(period, [])
  {
  }

  lemma OpenIsPast(period: int, key: BarKey, ts: seq<Tick>)
    requires period > 0 && Clocked(ts) && ts != []
    ensures var open := Traced(period, key, ts).open;
            open != [] && 0 <= open[0].time <= ts[|ts| - 1].time
  {
    hide Traced, Joined;
    TicksCovered(period, key, ts);
    var trace, lost := Traced(period, key, ts), Lost(period, ts);
    assert ts[lost..][|Joined(trace.emitted)|] == trace.open[0];
  }

  /** Emitted bars followed by the one being built. */
  function AllBars(period: int, key: BarKey, ts: seq<Tick>): seq<Bar>
    requires period > 0
  {
    Completed(period, key, ts) + if ts == [] then [] else [After(period, key, ts).bar.value]
  }

  /** The bars partition the stream: disjoint aligned windows, every tick once, each bar the fold of its ticks. */
  lemma BarsPartition(period: int, key: BarKey, ts: seq<Tick>)
    requires period > 0 && Clocked(ts) && Sizes(ts) && (|ts| < 2 || ts[0].time >= period)
    ensures var groups := Groups(Traced(period, key, ts));
            && Joined(groups) == ts
            && Separated(period, groups)
            && FoldsTo(period, key, groups, AllBars(period, key, ts))
  {
    hide After, Traced, Completed, Joined, Separated, BarOf;
    LosslessExactly(period, key, ts);
    BarsSeparated(period, key, ts);
    BarsAreFolds(period, key, ts);
    var trace := Traced(period, key, ts);
    JoinedSnoc(trace.emitted, trace.open);
    assert Joined(trace.emitted) + [] == Joined(trace.emitted);
    if ts == [] { NoTrace(period, key); }
  }

  lemma NoTrace(period: int, key: BarKey)
    requires period > 0
    ensures Traced(period, key, []) == Trace([], [])
  {
  }

  // Prices ----------------------------------------------------------------------------------------

  lemma ValueBounds(low: real, t: Tick, high: real)
    requires low <= t.last <= high && t.size >= 0.0
    ensures low * t.size <= Value(t) <= high * t.size
  {
  }

  lemma BoundsAdd(low: real, high: real, volume: real, n: real, size: real, x: real)
    requires low * volume <= n <= high * volume && low * size <= x <= high * size
    ensures low * (volume + size) <= n + x <= high * (volume + size)
  {
  }

  lemma {:induction false} NotionalBounds(g: seq<Tick>, low: real, high: real)
    requires Sizes(g) && forall t :: t in g ==> low <= t.last <= high
    ensures low * Volume(g) <= Notional(g) <= high * Volume(g)
  {
    hide Value;
    if g != [] {
      var front, t := g[..|g| - 1], g[|g| - 1];
      NotionalBounds(front, low, high);
      ValueBounds(low, t, high);
      BoundsAdd(low, high, Volume(front), Notional(front), t.size, Value(t));
    }
  }

  lemma {:induction false} Extremes(g: seq<Tick>)
    requires g != []
    ensures forall t :: t in g ==> Lowest(g) <= t.last <= Highest(g)
    ensures exists t :: t in g && t.last == Lowest(g)
    ensures exists t :: t in g && t.last == Highest(g)
  {
    if |g| > 1 {
      var front, t := g[..|g| - 1], g[|g| - 1];
      Extremes(front);
      assert g == front + [t];
      var l :| l in front && l.last == Lowest(front);
      var h :| h in front && h.last == Highest(front);
      assert l in g && h in g && t in g;
    } else {
      assert g[0] in g;
    }
  }

  lemma QuotientBetween(low: real, n: real, high: real, volume: real)
    requires volume > 0.0 && low * volume <= n <= high * volume
    ensures low <= n / volume <= high
  {
    assert n / volume * volume == n;
  }

  /** low <= open, close, vwap <= high. */
  lemma BarInRange(period: int, key: BarKey, g: seq<Tick>)
    requires period > 0 && g != [] && Sizes(g)
    ensures var bar := BarOf(period, key, g);
            bar.low <= bar.open <= bar.high && bar.low <= bar.close <= bar.high && bar.low <= bar.vwap <= bar.high
  {
    hide Lowest, Highest, AlignToPeriodStart;
    Extremes(g);
    assert g[0] in g && g[|g| - 1] in g;
    NotionalBounds(g, Lowest(g), Highest(g));
    if Volume(g) > 0.0 { QuotientBetween(Lowest(g), Notional(g), Highest(g), Volume(g)); }
  }

  // What a bar says about its ticks ----------------------------------------------------------------

  lemma AlignedStart(time: int, period: int)
    requires period > 0 && time >= 0
    ensures var start := AlignToPeriodStart(time, period); start <= time < start + period && start % period == 0
  {
    WindowStart(time, period);
    MultipleOf(time / period, period);
  }

  lemma {:induction false} MultipleOf(n: int, d: int)
    requires d > 0 && n >= 0
    ensures n * d % d == 0
  {
    if n > 0 {
      MultipleOf(n - 1, d);
      assert n * d == (n - 1) * d + d;
      AddDivisor((n - 1) * d, d);
    }
  }

  lemma AddDivisor(x: int, d: int)
    requires d > 0 && x >= 0
    ensures (x + d) % d == x % d
  {
    var q, r := x / d, x % d;
    assert x == q * d + r;
    assert x + d == (q + 1) * d + r;
    var q', r' := (x + d) / d, (x + d) % d;
    assert x + d == q' * d + r';
    if q' > q + 1 { MulMonotone(q + 2, q', d); }
    if q' < q + 1 { MulMonotone(q', q, d); }
  }

  /** The bar of a single tick. */
  lemma BarOfOne(period: int, key: BarKey, t: Tick)
    requires period > 0
    ensures var bar := BarOf(period, key, [t]);
            && bar.open == bar.high == bar.low == bar.close == bar.vwap == t.last
            && bar.volume == t.size && bar.received == t.received && bar.key == key
            && (t.time >= 0 ==> bar.time <= t.time < bar.time + period && bar.time % period == 0)
  {
    if t.time >= 0 { AlignedStart(t.time, period); }
    hide AlignToPeriodStart;
    SingleTick(t);
    if t.size > 0.0 { assert t.last * t.size / t.size == t.last; }
  }

  lemma {:induction false} FoldsJoin(a: seq<Tick>, b: seq<Tick>)
    requires a != [] && b != []
    ensures Volume(a + b) == Volume(a) + Volume(b) && Notional(a + b) == Notional(a) + Notional(b)
    ensures Highest(a + b) == Max(Highest(a), Highest(b)) && Lowest(a + b) == Min(Lowest(a), Lowest(b))
  {
    var front, t := b[..|b| - 1], b[|b| - 1];
    assert a + b == a + front + [t] && b == front + [t];
    hide Value;
    SumsSnoc(a + front, t);
    SumsSnoc(front, t);
    if front != [] {
      FoldsJoin(a, front);
    } else {
      assert a + front == a;
      NoTicks();
    }
  }

  lemma NoTicks()
    ensures Volume([]) == 0.0 && Notional([]) == 0.0
  {
  }

  lemma NothingTraded(low: real, n: real, high: real, volume: real)
    requires volume == 0.0 && low * volume <= n <= high * volume
    ensures n == 0.0
  {
  }

  lemma QuotientBack(n: real, volume: real)
    requires volume != 0.0
    ensures n / volume * volume == n
  {
  }

  lemma VwapWeighs(period: int, key: BarKey, g: seq<Tick>)
    requires period > 0 && g != [] && Sizes(g)
    ensures var bar := BarOf(period, key, g); bar.vwap * bar.volume == Notional(g)
  {
    hide Volume, Notional, Lowest, Highest, AlignToPeriodStart;
    VolumeGrows(g);
    var low, high := Lowest(g), Highest(g);
    Extremes(g);
    NotionalBounds(g, low, high);
    if Volume(g) > 0.0 {
      QuotientBack(Notional(g), Volume(g));
    } else {
      NothingTraded(low, Notional(g), high, Volume(g));
    }
  }

  /** A bar over two stretches of ticks comes from their two bars: it opens with the first and closes with the second, has
      the outer extremes, the summed volume and the volume-weighted price. Together with the bar of one tick this
      determines every bar. */
  lemma BarsJoin(period: int, key: BarKey, a: seq<Tick>, b: seq<Tick>)
    requires period > 0 && a != [] && b != [] && Sizes(a) && Sizes(b)
    ensures var x, y, bar := BarOf(period, key, a), BarOf(period, key, b), BarOf(period, key, a + b);
            && bar.open == x.open && bar.close == y.close
            && bar.high == (if x.high < y.high then y.high else x.high)
            && bar.low == (if y.low < x.low then y.low else x.low)
            && bar.volume == x.volume + y.volume
            && bar.vwap * bar.volume == x.vwap * x.volume + y.vwap * y.volume
            && bar.time == x.time && bar.received == y.received && bar.key == key
  {
    hide Volume, Notional, Lowest, Highest, AlignToPeriodStart;
    FoldsJoin(a, b);
    VwapsJoin(period, key, a, b);
    assert (a + b)[0] == a[0] && (a + b)[|a + b| - 1] == b[|b| - 1];
  }

  lemma VwapsJoin(period: int, key: BarKey, a: seq<Tick>, b: seq<Tick>)
    requires period > 0 && a != [] && b != [] && Sizes(a) && Sizes(b)
    ensures var x, y, bar := BarOf(period, key, a), BarOf(period, key, b), BarOf(period, key, a + b);
            bar.vwap * bar.volume == x.vwap * x.volume + y.vwap * y.volume
  {
    hide BarOf;
    assert Sizes(a + b);
    FoldsJoin(a, b);
    VwapWeighs(period, key, a);
    VwapWeighs(period, key, b);
    VwapWeighs(period, key, a + b);
  }

  // The feed --------------------------------------------------------------------------------------

  type Accumulators = map<BarKey, Accumulator>

  /** Every accumulator of the tick's symbol takes the tick; the others stay as they are. */
  function NextAll(accs: Accumulators, symbol: Symbol, t: Tick): Accumulators
    requires forall k :: k in accs ==> Sound(accs[k])
  {
    map k | k in accs :: if k.symbol == symbol then Next(accs[k], k, t) else accs[k]
  }

  class SimulatedFeed {
    var accumulators: Accumulators

    ghost predicate Valid()
      reads this
    {
      forall k :: k in accumulators ==> Sound(accumulators[k])
    }

    constructor ()
      ensures Valid() && accumulators == map[]
    {
      accumulators := map[];
    }

    /** Subscribing to bars creates an accumulator unless there is one already. */
    method SubscribeBars(key: BarKey, period: int)
      requires Valid() && period > 0
      modifies this
      ensures Valid()
      ensures accumulators == if key in old(accumulators) then old(accumulators) else old(accumulators)[key := After(period, key, [])]
    {
      if key !in accumulators {
        accumulators := accumulators[key := NoBar(period)];
      }
    }

    method UnsubscribeBars(key: BarKey)
      requires Valid()
      modifies this
      ensures Valid() && accumulators == old(accumulators) - {key}
    {
      accumulators := accumulators - {key};
    }

    /** One accumulator takes one tick; the bar that the tick completes, if any, is handed out. */
    method AddTick(key: BarKey, t: Tick) returns (completed: Option<Bar>)
      requires Valid() && key in accumulators
      modifies this
      ensures Valid() && accumulators == old(accumulators)[key := Next(old(accumulators)[key], key, t)]
      ensures completed.Some? <==> Completes(old(accumulators)[key], t)
      ensures completed.Some? ==> Emitted(old(accumulators)[key], t) == [completed.value]
    {
      hide StartBar, UpdateBar;
      var acc := accumulators[key];
      completed := None;
      if acc.start == 0 {
        accumulators := accumulators[key := StartBar(acc, key, t)];
      } else if t.time >= acc.start + acc.period {
        completed := Some(acc.bar.value);
        accumulators := accumulators[key := StartBar(acc, key, t)];
      } else {
        accumulators := accumulators[key := UpdateBar(acc, t)];
      }
      assert accumulators[key] == Next(old(accumulators)[key], key, t);
    }

    method OnTick(symbol: Symbol, t: Tick) returns (completed: map<BarKey, Bar>)
      requires Valid()
      modifies this
      ensures Valid() && accumulators == NextAll(old(accumulators), symbol, t)
      ensures forall k :: k in completed <==> k in old(accumulators) && k.symbol == symbol && Completes(old(accumulators)[k], t)
      ensures forall k :: k in completed ==> Emitted(old(accumulators)[k], t) == [completed[k]]
    {
      hide Next, Completes, Emitted;
      var rest := accumulators.Keys;
      ghost var was := accumulators;
      completed := map[];
      while rest != {}
        invariant Valid() && accumulators.Keys == was.Keys && rest <= was.Keys
        invariant forall k :: k in rest ==> accumulators[k] == was[k] && k !in completed
        invariant forall k :: k in was && k !in rest ==> accumulators[k] == if k.symbol == symbol then Next(was[k], k, t) else was[k]
        invariant forall k :: k in completed ==> k in was && Completes(was[k], t) && Emitted(was[k], t) == [completed[k]]
        invariant forall k :: k in was && k !in rest ==> (k in completed <==> k.symbol == symbol && Completes(was[k], t))
        decreases |rest|
      {
        var key :| key in rest;
        rest := rest - {key};
        if key.symbol == symbol {
          var bar := AddTick(key, t);
          if bar.Some? { completed := completed[key := bar.value]; }
        }
      }
    }
  }

  /** A tick addressed to its symbol. */
  datatype SymbolTick = SymbolTick(symbol: Symbol, tick: Tick)

  function Run(accs: Accumulators, ts: seq<SymbolTick>): (r: Accumulators)
    requires forall k :: k in accs ==> Sound(accs[k])
    ensures r.Keys == accs.Keys && forall k :: k in r ==> Sound(r[k])
  {
    if ts == [] then accs else NextAll(Run(accs, ts[..|ts| - 1]), ts[|ts| - 1].symbol, ts[|ts| - 1].tick)
  }

  function Of(symbol: Symbol, ts: seq<SymbolTick>): seq<Tick> {
    if ts == [] then []
    else Of(symbol, ts[..|ts| - 1]) + if ts[|ts| - 1].symbol == symbol then [ts[|ts| - 1].tick] else []
  }

  /** Subscriptions do not disturb each other: each accumulator is the run of its own symbol's ticks alone. */
  lemma {:induction false} AccumulatorsIndependent(accs: Accumulators, ts: seq<SymbolTick>, key: BarKey, period: int)
    requires period > 0 && key in accs && accs[key] == NoBar(period) && forall k :: k in accs ==> Sound(accs[k])
    ensures Run(accs, ts)[key] == After(period, key, Of(key.symbol, ts))
  {
    hide Next, NoBar, After;
    if ts == [] {
      NothingYet(period, key);
    } else {
      var front, t := ts[..|ts| - 1], ts[|ts| - 1];
      AccumulatorsIndependent(accs, front, key, period);
      AfterSnoc(period, key, Of(key.symbol, front), t.tick);
      assert Of(key.symbol, front) + [] == Of(key.symbol, front);
    }
  }

  lemma AfterSnoc(period: int, key: BarKey, ts: seq<Tick>, t: Tick)
    requires period > 0
    ensures After(period, key, ts + [t]) == Next(After(period, key, ts), key, t)
  {
    assert (ts + [t])[..|ts + [t]| - 1] == ts;
  }

  lemma NothingYet(period: int, key: BarKey)
    requires period > 0
    ensures After(period, key, []) == NoBar(period)
  {
  }
}
