/** Properties of the memory-pressure monitor over whole runs, in which any other operation on
    the pool may come between two evaluations. */
module PressureRuns {
  import opened Wrappers
  import opened BackupLedger
  import opened BackupAllocator
  import opened MemoryPressure
  import Runs = BackupRuns

  // ---------------------------------------------------------------------------
  // The watermarks

  lemma TruncatedIs(x: real, n: int)
    requires x >= 0.0
    ensures n < Truncated(x) <==> (n + 1) as real <= x
  {
  }

  /** At least one whole byte below the given share of the total. */
  predicate BelowShare(available: int, total: int, ratio: Option<real>) {
    ratio.Some? && (available + 1) as real <= total as real * ratio.value
  }

  lemma BelowShareIs(available: int, total: int, ratio: Option<real>)
    requires total >= 0 && (ratio.Some? ==> ratio.value >= 0.0)
    ensures BelowShare(available, total, ratio) <==> (ratio.Some? && available < Share(total, ratio.value))
  {
    hide Truncated;
    if ratio.Some? {
      var x := total as real * ratio.value;
      assert x >= 0.0;
      TruncatedIs(x, available);
    }
  }

  /** A sample is low exactly if it is below the absolute mark or below the configured share of
      the total; it is high exactly if it is not low and neither recovery mark is above it. */
  lemma WatermarksMean(c: Settings, s: Sample)
    requires s.total >= 0
    requires c.reclaimRatio.Some? ==> c.reclaimRatio.value >= 0.0
    requires c.recoveryRatio.Some? ==> c.recoveryRatio.value >= 0.0
    ensures IsLow(c, s) <==> (s.available < c.reclaimBytes || BelowShare(s.available, s.total, c.reclaimRatio))
    ensures IsHigh(c, s) <==>
            (!IsLow(c, s) && s.available >= c.recoveryBytes && !BelowShare(s.available, s.total, c.recoveryRatio))
  {
    hide Share, BelowShare;
    BelowShareIs(s.available, s.total, c.reclaimRatio);
    BelowShareIs(s.available, s.total, c.recoveryRatio);
  }

  // ---------------------------------------------------------------------------
  // Hysteresis: the mode as a function of the history of samples

  /** The `n` samples up to the `k`-th were all low, and none since has reached the high mark. */
  ghost predicate Triggered(c: Settings, samples: seq<Sample>, k: nat) {
    && c.consecutive <= k <= |samples|
    && (forall i :: k - c.consecutive <= i < k && 0 <= i ==> IsLow(c, samples[i]))
    && (forall i :: k <= i < |samples| ==> !IsHigh(c, samples[i]))
  }

  ghost predicate UnderPressure(c: Settings, samples: seq<Sample>) {
    exists k: nat :: Triggered(c, samples, k)
  }

  /** The number of low samples at the end of the history. */
  function TrailingLow(c: Settings, samples: seq<Sample>): nat {
    if samples == [] || !IsLow(c, samples[|samples| - 1]) then 0
    else TrailingLow(c, samples[..|samples| - 1]) + 1
  }

  lemma {:induction false} TrailingAreLow(c: Settings, samples: seq<Sample>)
    ensures TrailingLow(c, samples) <= |samples|
    ensures forall i :: |samples| - TrailingLow(c, samples) <= i < |samples| ==> IsLow(c, samples[i])
    ensures TrailingLow(c, samples) < |samples| ==> !IsLow(c, samples[|samples| - TrailingLow(c, samples) - 1])
  {
    hide IsLow;
    if samples != [] {
      TrailingAreLow(c, samples[..|samples| - 1]);
    }
  }

  lemma NotBoth(c: Settings, s: Sample)
    ensures !(IsLow(c, s) && IsHigh(c, s))
  {
  }

  /** A new sample extends the history: what it does to the trigger. */
  lemma TriggerStep(c: Settings, samples: seq<Sample>, s: Sample)
    requires c.consecutive >= 1
    ensures UnderPressure(c, samples + [s]) <==>
      (IsLow(c, s) && TrailingLow(c, samples + [s]) >= c.consecutive) || (UnderPressure(c, samples) && !IsHigh(c, s))
  {
    hide IsLow, IsHigh, TrailingLow;
    var longer := samples + [s];
    NotBoth(c, s);
    TrailingAreLow(c, longer);
    if UnderPressure(c, longer) {
      var k: nat :| Triggered(c, longer, k);
      if k <= |samples| {
        assert forall i :: 0 <= i < |samples| ==> longer[i] == samples[i];
        assert Triggered(c, samples, k);
        assert !IsHigh(c, longer[|samples|]);
      } else {
        assert TrailingLow(c, longer) >= c.consecutive;
        assert IsLow(c, longer[|samples|]);
      }
    }
    if UnderPressure(c, samples) && !IsHigh(c, s) {
      var k: nat :| Triggered(c, samples, k);
      assert Triggered(c, longer, k);
    }
    if IsLow(c, s) && TrailingLow(c, longer) >= c.consecutive {
      assert Triggered(c, longer, |longer|);
    }
  }

  /** The mode and the counter as they follow from the history. */
  ghost predicate Matches(c: Settings, m: Monitor, samples: seq<Sample>) {
    && m.mode == (if UnderPressure(c, samples) then Reclaiming else Normal)
    && m.lowSamples == (if m.mode == Reclaiming then c.consecutive else TrailingLow(c, samples))
    && m.lowSamples <= c.consecutive
    && (m.mode == Normal ==> m.lowSamples < c.consecutive)
  }

  lemma HysteresisStep(c: Settings, m: Monitor, samples: seq<Sample>, s: Sample)
    requires Validated(c) && Matches(c, m, samples)
    ensures Matches(c, Debounced(c, m, s), samples + [s])
  {
    hide IsLow, IsHigh, UnderPressure;
    NotBoth(c, s);
    TriggerStep(c, samples, s);
    assert (samples + [s])[..|samples|] == samples;
  }

  // ---------------------------------------------------------------------------
  // One reclaim round

  /** Requests for a shortage never push what is pending beyond it; what is left unresolved is
      what nobody could spare, and then nobody has anything left to spare. */
  lemma NeverOverAsks(pr: Priorities, m: Monitor, p: Pool, now: real)
    requires WellKept(p) && m.target >= 0
    ensures var (m', p') := Round(pr, m, p, now);
      var pending, pending' := Sum(PendingBytes, p.order, p.recs), Sum(PendingBytes, p'.order, p'.recs);
      && pending <= pending' <= Max(pending, m.target)
      && pending' == Max(pending, Min(m.target, pending + Sum(SpareBytes, p.order, p.recs)))
      && m'.unresolved == Max(m.target - pending - Sum(SpareBytes, p.order, p.recs), 0)
      && (m'.unresolved > 0 ==> forall id <- p'.recs :: Spare(p'.recs[id]) == 0)
  {
    hide RequestIn, Spare, Sum;
    var p' := RequestIn(pr, p, Shortfall(m, p));
    RequestTotals(pr, p, Shortfall(m, p));
    SumSpareNonNegative(p.order, p.recs);
    if Round(pr, m, p, now).0.unresolved > 0 {
      forall id <- p'.recs ensures Spare(p'.recs[id]) == 0 {
        NoSpare(p'.order, p'.recs, id);
      }
    }
  }

  lemma {:induction false} NoSpare(ids: seq<Id>, recs: Records, id: Id)
    requires Sum(SpareBytes, ids, recs) == 0 && id in ids && id in recs
    ensures Spare(recs[id]) == 0
  {
    if ids != [] {
      SumSpareNonNegative(ids[1..], recs);
      if ids[0] != id {
        NoSpare(ids[1..], recs, id);
      }
    }
  }

  // ---------------------------------------------------------------------------
  // Runs of monitor and pool

  datatype Event =
    | Other(op: Runs.Op)
    | Evaluate(probe: Option<Sample>, now: real)

  datatype Setup = Setup(c: Settings, pool: Runs.Settings)

  datatype Host = Host(monitor: Monitor, pool: Pool)

  function Next(su: Setup, h: Host, e: Event): Host {
    match e
    case Other(op) => h.(pool := Runs.Apply(su.pool, h.pool, op))
    case Evaluate(probe, now) =>
      var (m, p) := Evaluated(su.c, su.pool.pr, h.monitor, h.pool, probe, now);
      Host(m, p)
  }

  function Start(su: Setup): Host {
    Host(Fresh(su.c), Runs.EMPTY)
  }

  function Front(es: seq<Event>): seq<Event>
    requires es != []
  {
    es[..|es| - 1]
  }

  function HostAfter(su: Setup, es: seq<Event>): Host {
    if es == [] then Start(su) else Next(su, HostAfter(su, Front(es)), es[|es| - 1])
  }

  function Commanded(p: Pool): int {
    Sum(RequestedBytes, p.order, p.recs)
  }

  /** What the evaluations of the run have queued, all told. */
  function QueuedByMonitor(su: Setup, es: seq<Event>): int {
    if es == [] then 0
    else
      QueuedByMonitor(su, Front(es))
      + if es[|es| - 1].Evaluate? then Commanded(HostAfter(su, es).pool) - Commanded(HostAfter(su, Front(es)).pool) else 0
  }

  /** The times of the evaluations that queued something. */
  function QueuingTimes(su: Setup, es: seq<Event>): seq<real> {
    if es == [] then []
    else
      var earlier, e := QueuingTimes(su, Front(es)), es[|es| - 1];
      if e.Evaluate? && Commanded(HostAfter(su, es).pool) > Commanded(HostAfter(su, Front(es)).pool) then earlier + [e.now]
      else earlier
  }

  lemma EvaluatedFacts(c: Settings, pr: Priorities, m: Monitor, p: Pool, probe: Option<Sample>, now: real)
    requires WellKept(p)
    ensures var (m', p') := Evaluated(c, pr, m, p, probe, now);
      && WellKept(p') && Commanded(p') >= Commanded(p)
      && m'.totalRequested == m.totalRequested + (Commanded(p') - Commanded(p))
      && m'.lastRequest == (if Commanded(p') > Commanded(p) then Some(now) else m.lastRequest)
      && (Commanded(p') > Commanded(p) && m.lastRequest.Some? ==> now - m.lastRequest.value >= c.cooldown)
      && (!IsEnabled(c) ==> m' == m && p' == p)
  {
    hide IsEnabled, Granted, Order, WellKept, IsLow, IsHigh, LowMark, HighMark, Sum;
    if IsEnabled(c) && probe.Some? {
      var m2 := Aimed(Debounced(c, m, probe.value), probe.value);
      RequestTotals(pr, p, Shortfall(m2, p));
      SumSpareNonNegative(p.order, p.recs);
    }
  }

  lemma {:induction false} HostKept(su: Setup, es: seq<Event>)
    ensures WellKept(HostAfter(su, es).pool)
  {
    if es == [] {
      Runs.EmptyKept();
    } else {
      hide WellKept, Evaluated, Runs.Apply;
      HostKept(su, Front(es));
      var h, e := HostAfter(su, Front(es)), es[|es| - 1];
      if e.Other? {
        Runs.ApplyKeeps(su.pool, h.pool, e.op);
      } else {
        EvaluatedFacts(su.c, su.pool.pr, h.monitor, h.pool, e.probe, e.now);
      }
    }
  }

  /** What the probes of the run have reported; a failed probe leaves no sample. */
  function Samples(es: seq<Event>): seq<Sample> {
    if es == [] then []
    else
      var earlier, e := Samples(Front(es)), es[|es| - 1];
      if e.Evaluate? && e.probe.Some? then earlier + [e.probe.value] else earlier
  }

  lemma EvaluatedMode(c: Settings, pr: Priorities, m: Monitor, p: Pool, probe: Option<Sample>, now: real)
    requires IsEnabled(c)
    ensures var m', m1 := Evaluated(c, pr, m, p, probe, now).0, if probe.Some? then Debounced(c, m, probe.value) else m;
      m'.mode == m1.mode && m'.lowSamples == m1.lowSamples
  {
  }

  /** Over any run the monitor is reclaiming exactly if at some point `consecutive` successful
      samples in a row were low and none since has reached the high mark; its counter is then
      at its limit, and otherwise the length of the current run of low samples. Failed probes
      and the traffic on the pool change neither. */
  lemma {:induction false} HysteresisMatchesHistory(su: Setup, es: seq<Event>)
    requires Validated(su.c) && (su.c.reclaimRatio.Some? || su.c.reclaimBytes > 0)
    ensures Matches(su.c, HostAfter(su, es).monitor, Samples(es))
  {
    if es != [] {
      hide Evaluated, Debounced, UnderPressure, TrailingLow, Runs.Apply;
      HysteresisMatchesHistory(su, Front(es));
      var h, e := HostAfter(su, Front(es)), es[|es| - 1];
      if e.Evaluate? {
        EvaluatedMode(su.c, su.pool.pr, h.monitor, h.pool, e.probe, e.now);
        if e.probe.Some? {
          HysteresisStep(su.c, h.monitor, Samples(Front(es)), e.probe.value);
        }
      }
    }
  }

  /** A disabled monitor never acts. */
  lemma {:induction false} DisabledIsInert(su: Setup, es: seq<Event>)
    requires su.c.reclaimRatio.None? && su.c.reclaimBytes <= 0
    ensures HostAfter(su, es).monitor == Fresh(su.c) && QueuingTimes(su, es) == []
  {
    if es != [] {
      hide Runs.Apply;
      DisabledIsInert(su, Front(es));
    }
  }

  lemma {:induction false} SumGrows(ids: seq<Id>, recs: Records, recs': Records)
    requires forall id <- ids :: id in recs && id in recs' && recs'[id].requested >= recs[id].requested
    ensures Sum(RequestedBytes, ids, recs') >= Sum(RequestedBytes, ids, recs)
  {
    if ids != [] {
      SumGrows(ids[1..], recs, recs');
    }
  }

  /** A pool whose clients were all asked for at least as much has been asked for at least as
      much in all. */
  lemma CommandedMonotone(p: Pool, p': Pool)
    requires WellKept(p) && WellKept(p')
    requires p'.order == p.order || exists id :: p'.order == p.order + [id]
    requires forall id :: Runs.RecordOf(p', id).requested >= Runs.RecordOf(p, id).requested
    ensures Commanded(p') >= Commanded(p)
  {
    forall id <- p.order ensures id in p.recs && id in p'.recs && p'.recs[id].requested >= p.recs[id].requested {
      assert id in p'.order;
      assert Runs.RecordOf(p', id).requested >= Runs.RecordOf(p, id).requested;
    }
    SumGrows(p.order, p.recs, p'.recs);
    if p'.order != p.order {
      var id :| p'.order == p.order + [id];
      SumAppend(RequestedBytes, p.order, id, p'.recs);
      DistinctLast(p.order, id);
      assert Runs.RecordOf(p', id).requested >= Runs.RecordOf(p, id).requested;
    }
  }

  lemma {:induction false} DistinctLast(ids: seq<Id>, id: Id)
    requires Distinct(ids + [id])
    ensures id !in ids
  {
    if ids != [] {
      assert (ids + [id])[1..] == ids[1..] + [id];
      DistinctLast(ids[1..], id);
    }
  }

  lemma OrderGrows(cfg: Runs.Settings, p: Pool, op: Runs.Op)
    ensures var p' := Runs.Apply(cfg, p, op);
      p'.order == p.order || exists id :: p'.order == p.order + [id]
  {
    hide Registered, Reported, Order, Granted, OverCap;
  }

  /** Other operations may command more bytes too, never fewer. */
  lemma OtherStep(cfg: Runs.Settings, p: Pool, op: Runs.Op)
    requires WellKept(p)
    ensures WellKept(Runs.Apply(cfg, p, op)) && Commanded(Runs.Apply(cfg, p, op)) >= Commanded(p)
  {
    hide Runs.Apply, Runs.Accepted, WellKept, Runs.RecordOf, Commanded;
    var p' := Runs.Apply(cfg, p, op);
    Runs.ApplyKeeps(cfg, p, op);
    forall id ensures Runs.RecordOf(p', id).requested >= Runs.RecordOf(p, id).requested {
      var n := Runs.ClientStep(cfg, p, op, id);
    }
    OrderGrows(cfg, p, op);
    CommandedMonotone(p, p');
  }

  /** The monitor's total is exactly what its evaluations queued, and never exceeds what the
      clients were asked for in all. */
  lemma {:induction false} TotalIsWhatWasQueued(su: Setup, es: seq<Event>)
    ensures var h := HostAfter(su, es);
      h.monitor.totalRequested == QueuedByMonitor(su, es) <= Commanded(h.pool)
  {
    if es != [] {
      hide WellKept, Evaluated, Runs.Apply, Commanded;
      TotalIsWhatWasQueued(su, Front(es));
      HostKept(su, Front(es));
      var h, e := HostAfter(su, Front(es)), es[|es| - 1];
      if e.Other? {
        OtherStep(su.pool, h.pool, e.op);
      } else {
        EvaluatedFacts(su.c, su.pool.pr, h.monitor, h.pool, e.probe, e.now);
      }
    }
  }

  // ---------------------------------------------------------------------------
  // A reclaim round somewhere in a run

  lemma EvaluatedRecord(c: Settings, pr: Priorities, m: Monitor, p: Pool, probe: Option<Sample>, now: real, id: Id)
    requires WellKept(p) && Runs.RecordOf(p, id).pending >= 0
    ensures Runs.RecordOf(Evaluated(c, pr, m, p, probe, now).1, id).pending >= 0
  {
    hide IsEnabled, Granted, Order, WellKept, IsLow, IsHigh, LowMark, HighMark, Sum, Runs.RecordOf;
    if IsEnabled(c) && probe.Some? {
      var m2 := Aimed(Debounced(c, m, probe.value), probe.value);
      var n := Runs.RequestStep(pr, p, Shortfall(m2, p), id);
    }
  }

  lemma OtherRecord(cfg: Runs.Settings, p: Pool, op: Runs.Op, id: Id)
    requires WellKept(p) && Runs.RecordOf(p, id).pending >= 0
    ensures Runs.RecordOf(Runs.Apply(cfg, p, op), id).pending >= 0
  {
    hide WellKept, Runs.Apply, Runs.RecordOf, Runs.FlowOf;
    Runs.StepArithmetic(cfg, p, op, id);
  }

  lemma {:induction false} PendingNonNegative(su: Setup, es: seq<Event>, id: Id)
    ensures Runs.RecordOf(HostAfter(su, es).pool, id).pending >= 0
  {
    if es != [] {
      hide WellKept, Evaluated, Runs.Apply, Runs.RecordOf;
      PendingNonNegative(su, Front(es), id);
      HostKept(su, Front(es));
      var h, e := HostAfter(su, Front(es)), es[|es| - 1];
      if e.Other? {
        OtherRecord(su.pool, h.pool, e.op, id);
      } else {
        EvaluatedRecord(su.c, su.pool.pr, h.monitor, h.pool, e.probe, e.now, id);
      }
    }
  }

  lemma {:induction false} SumPendingNonNegative(ids: seq<Id>, p: Pool)
    requires forall id :: Runs.RecordOf(p, id).pending >= 0
    ensures Sum(PendingBytes, ids, p.recs) >= 0
  {
    if ids != [] {
      assert Runs.RecordOf(p, ids[0]).pending >= 0;
      SumPendingNonNegative(ids[1..], p);
    }
  }

  // ---------------------------------------------------------------------------
  // The cooldown

  /** Consecutive entries are at least `gap` apart. */
  ghost predicate Spaced(times: seq<real>, gap: real) {
    forall i :: 0 < i < |times| ==> times[i] - times[i - 1] >= gap
  }

  lemma SpacedAppend(times: seq<real>, gap: real, t: real)
    requires Spaced(times, gap)
    ensures times == [] || t - times[|times| - 1] >= gap ==> Spaced(times + [t], gap)
  {
  }

  lemma {:induction false} QueuingIsSpaced(su: Setup, es: seq<Event>)
    ensures var times := QueuingTimes(su, es);
      && Spaced(times, su.c.cooldown)
      && HostAfter(su, es).monitor.lastRequest == (if times == [] then None else Some(times[|times| - 1]))
  {
    if es != [] {
      hide WellKept, Evaluated, Runs.Apply, Commanded, Spaced;
      QueuingIsSpaced(su, Front(es));
      HostKept(su, Front(es));
      var h, e := HostAfter(su, Front(es)), es[|es| - 1];
      if e.Evaluate? {
        EvaluatedFacts(su.c, su.pool.pr, h.monitor, h.pool, e.probe, e.now);
        SpacedAppend(QueuingTimes(su, Front(es)), su.c.cooldown, e.now);
      }
    }
  }

  lemma {:induction false} SpacedSpan(times: seq<real>, gap: real, i: nat, j: nat)
    requires Spaced(times, gap) && i <= j < |times|
    ensures times[j] - times[i] >= (j - i) as real * gap
    decreases j
  {
    if i < j {
      SpacedSpan(times, gap, i, j - 1);
      assert (j - i) as real == (j - 1 - i) as real + 1.0;
    }
  }

  /** Any two evaluations that queue something are at least the cooldown apart, and a window of
      length `span` holds at most floor(span / cooldown) + 1 of them. */
  lemma CooldownBoundsRequests(su: Setup, es: seq<Event>, i: nat, j: nat, span: real)
    requires Validated(su.c) && i < j < |QueuingTimes(su, es)|
    ensures var times := QueuingTimes(su, es);
      && times[j] - times[i] >= su.c.cooldown
      && (su.c.cooldown > 0.0 && times[j] - times[i] <= span ==> j - i + 1 <= (span / su.c.cooldown).Floor + 1)
  {
    hide QueuingTimes;
    QueuingIsSpaced(su, es);
    var times, gap := QueuingTimes(su, es), su.c.cooldown;
    SpacedSpan(times, gap, i, j);
    Multiples(j - i, gap, times[j] - times[i], span);
  }

  lemma Multiples(n: nat, gap: real, distance: real, span: real)
    requires n >= 1 && gap >= 0.0 && distance >= n as real * gap
    ensures distance >= gap
    ensures gap > 0.0 && distance <= span ==> n <= (span / gap).Floor
  {
    assert n as real * gap >= gap by {
      assert (n - 1) as real * gap >= 0.0;
    }
    if gap > 0.0 && distance <= span {
      assert n as real * gap <= span;
      assert n as real <= span / gap;
    }
  }

  // ---------------------------------------------------------------------------
  // What one more sample does, after any run

  /** The cooldown of the last queuing evaluation is over. */
  predicate Due(su: Setup, es: seq<Event>, now: real) {
    var times := QueuingTimes(su, es);
    times == [] || now - times[|times| - 1] >= su.c.cooldown
  }

  /** By the history, the monitor reclaims once `s` has come in. */
  ghost predicate Pressed(su: Setup, es: seq<Event>, s: Sample) {
    UnderPressure(su.c, Samples(es) + [s])
  }

  lemma DueMeans(su: Setup, es: seq<Event>, s: Sample, now: real)
    requires Validated(su.c) && IsEnabled(su.c)
    ensures var m := HostAfter(su, es).monitor;
      && (Pressed(su, es, s) <==> Debounced(su.c, m, s).mode == Reclaiming)
      && (Due(su, es, now) <==> !CoolingDown(su.c, Aimed(Debounced(su.c, m, s), s), now))
  {
    hide HostAfter, UnderPressure, QueuingTimes, Debounced, TrailingLow, Samples;
    HysteresisMatchesHistory(su, es);
    HysteresisStep(su.c, HostAfter(su, es).monitor, Samples(es), s);
    QueuingIsSpaced(su, es);
    SameCooldown(su.c, HostAfter(su, es).monitor, s, now);
  }

  lemma SameCooldown(c: Settings, m: Monitor, s: Sample, now: real)
    ensures CoolingDown(c, Aimed(Debounced(c, m, s), s), now) == CoolingDown(c, m, now)
  {
    hide IsLow, IsHigh, LowMark, HighMark;
  }

  lemma RoundIsNext(su: Setup, h: Host, s: Sample, now: real)
    requires IsEnabled(su.c) && Debounced(su.c, h.monitor, s).mode == Reclaiming
    requires !CoolingDown(su.c, Aimed(Debounced(su.c, h.monitor, s), s), now)
    ensures var m, (m', p') := Aimed(Debounced(su.c, h.monitor, s), s), Round(su.pool.pr, Aimed(Debounced(su.c, h.monitor, s), s), h.pool, now);
      && Next(su, h, Evaluate(Some(s), now)) == Host(m', p')
      && m.target == Max(HighMark(su.c, s.total) - s.available, 0)
  {
    hide Round, HighMark, IsLow, IsHigh, LowMark;
  }

  /** What a reclaim round for `s` makes of `h`. */
  ghost predicate Answered(su: Setup, h: Host, s: Sample, h': Host) {
    var pending, pending' := Sum(PendingBytes, h.pool.order, h.pool.recs), Sum(PendingBytes, h'.pool.order, h'.pool.recs);
    var shortage, spare := HighMark(su.c, s.total) - s.available, Sum(SpareBytes, h.pool.order, h.pool.recs);
    && pending <= pending' <= Max(pending, shortage)
    && pending' == Max(pending, Min(shortage, pending + spare))
    && h'.monitor.unresolved == Max(shortage - pending - spare, 0)
    && (h'.monitor.unresolved > 0 ==> forall id <- h'.pool.recs :: Spare(h'.pool.recs[id]) == 0)
  }

  lemma RoundOutcome(su: Setup, h: Host, s: Sample, now: real)
    requires WellKept(h.pool) && Sum(PendingBytes, h.pool.order, h.pool.recs) >= 0
    requires IsEnabled(su.c) && Debounced(su.c, h.monitor, s).mode == Reclaiming
    requires !CoolingDown(su.c, Aimed(Debounced(su.c, h.monitor, s), s), now)
    ensures Answered(su, h, s, Next(su, h, Evaluate(Some(s), now)))
  {
    hide IsEnabled, WellKept, Sum, HighMark, CoolingDown, Debounced, Spare, Round, Next, Aimed;
    SumSpareNonNegative(h.pool.order, h.pool.recs);
    RoundIsNext(su, h, s, now);
    NeverOverAsks(su.pool.pr, Aimed(Debounced(su.c, h.monitor, s), s), h.pool, now);
  }

  /** The pool and the monitor after a reclaim round at the end of a run. */
  lemma RoundAtEnd(su: Setup, es: seq<Event>, s: Sample, now: real)
    requires Validated(su.c) && IsEnabled(su.c) && Pressed(su, es, s) && Due(su, es, now)
    ensures Answered(su, HostAfter(su, es), s, HostAfter(su, es + [Evaluate(Some(s), now)]))
  {
    hide IsEnabled, WellKept, Sum, Pressed, Due, CoolingDown, Debounced, Runs.RecordOf, Validated, Answered, Next;
    var h := HostAfter(su, es);
    DueMeans(su, es, s, now);
    HostKept(su, es);
    forall id ensures Runs.RecordOf(h.pool, id).pending >= 0 {
      PendingNonNegative(su, es, id);
    }
    SumPendingNonNegative(h.pool.order, h.pool);
    RoundOutcome(su, h, s, now);
    assert Front(es + [Evaluate(Some(s), now)]) == es;
  }

  /** A reclaim round that is not held back by the cooldown, after any run: pending bytes end at
      most at what was pending or at the shortage, whichever is larger. */
  lemma PressureNeverOverAsks(su: Setup, es: seq<Event>, s: Sample, now: real)
    requires Validated(su.c) && (su.c.reclaimRatio.Some? || su.c.reclaimBytes > 0) && Pressed(su, es, s) && Due(su, es, now)
    ensures var h, h' := HostAfter(su, es), HostAfter(su, es + [Evaluate(Some(s), now)]);
      var pending, pending' := Sum(PendingBytes, h.pool.order, h.pool.recs), Sum(PendingBytes, h'.pool.order, h'.pool.recs);
      pending <= pending' <= Max(pending, HighMark(su.c, s.total) - s.available)
  {
    hide HostAfter, Sum, HighMark, Pressed, Due, Validated;
    RoundAtEnd(su, es, s, now);
  }

  /** What stays unresolved is what is missing beyond all spare bytes, and then none are left. */
  lemma UnresolvedIsBeyondSpare(su: Setup, es: seq<Event>, s: Sample, now: real)
    requires Validated(su.c) && (su.c.reclaimRatio.Some? || su.c.reclaimBytes > 0) && Pressed(su, es, s) && Due(su, es, now)
    ensures var h, h' := HostAfter(su, es), HostAfter(su, es + [Evaluate(Some(s), now)]);
      && h'.monitor.unresolved == Max(HighMark(su.c, s.total) - s.available
                                      - Sum(PendingBytes, h.pool.order, h.pool.recs)
                                      - Sum(SpareBytes, h.pool.order, h.pool.recs), 0)
      && (h'.monitor.unresolved > 0 ==> forall id <- h'.pool.recs :: Spare(h'.pool.recs[id]) == 0)
  {
    hide HostAfter, Sum, HighMark, Pressed, Due, Validated;
    RoundAtEnd(su, es, s, now);
  }

  /** Under pressure, once the cooldown is over, what is missing is requested again: pending
      bytes end at the shortage, or as near to it as all spare bytes allow. */
  lemma PressureIsAnswered(su: Setup, es: seq<Event>, s: Sample, now: real)
    requires Validated(su.c) && (su.c.reclaimRatio.Some? || su.c.reclaimBytes > 0) && Pressed(su, es, s)
    requires var times := QueuingTimes(su, es); times == [] || now - times[|times| - 1] >= su.c.cooldown
    ensures var h, h' := HostAfter(su, es), HostAfter(su, es + [Evaluate(Some(s), now)]);
      var pending, pending' := Sum(PendingBytes, h.pool.order, h.pool.recs), Sum(PendingBytes, h'.pool.order, h'.pool.recs);
      var shortage, spare := HighMark(su.c, s.total) - s.available, Sum(SpareBytes, h.pool.order, h.pool.recs);
      pending' == Max(pending, Min(shortage, pending + spare))
  {
    hide HostAfter, Sum, HighMark, Pressed, Validated, QueuingTimes;
    RoundAtEnd(su, es, s, now);
  }

  /** Without pressure, or while the cooldown lasts, and after a failed probe, nothing is
      requested. */
  lemma OtherwiseNothing(su: Setup, es: seq<Event>, probe: Option<Sample>, now: real)
    requires Validated(su.c) && (su.c.reclaimRatio.Some? || su.c.reclaimBytes > 0)
    requires var times := QueuingTimes(su, es);
      probe.None? || !Pressed(su, es, probe.value) || (times != [] && now - times[|times| - 1] < su.c.cooldown)
    ensures HostAfter(su, es + [Evaluate(probe, now)]).pool == HostAfter(su, es).pool
  {
    hide Pressed, Validated, QueuingTimes, Debounced, CoolingDown, Round;
    assert Front(es + [Evaluate(probe, now)]) == es;
    if probe.Some? {
      DueMeans(su, es, probe.value, now);
    }
  }
}
