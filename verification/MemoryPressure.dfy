/** controller/memory_pressure.py: a debounced hysteresis monitor that turns a low
    MemAvailable into release requests. The probe's answer and the clock are parameters. */
module MemoryPressure {
  import opened Wrappers
  import opened BackupLedger
  import opened BackupAllocator
  import opened BackupPool

  datatype Settings = Settings(
    reclaimRatio: Option<real>,
    recoveryRatio: Option<real>,
    reclaimBytes: int,
    recoveryBytes: int,
    consecutive: int,
    cooldown: real)

  /** What the settings loader guarantees. */
  predicate Validated(c: Settings) {
    c.consecutive >= 1 && c.cooldown >= 0.0
  }

  datatype Sample = Sample(total: int, available: int)

  datatype Mode = Disabled | Normal | Reclaiming

  datatype Monitor = Monitor(
    mode: Mode,
    lowSamples: int,
    lowMark: int,
    highMark: int,
    target: int,
    totalRequested: int,
    unresolved: int,
    probeErrors: int,
    lastRequest: Option<real>)  // None: minus infinity

  predicate IsEnabled(c: Settings) {
    c.reclaimRatio.Some? || c.reclaimBytes > 0
  }

  /** Conversion to an integer drops the fraction. */
  function Truncated(x: real): int {
    if x >= 0.0 then x.Floor else -((-x).Floor)
  }

  function Share(total: int, ratio: real): int {
    Truncated(total as real * ratio)
  }

  function LowMark(c: Settings, total: int): int {
    if c.reclaimRatio.Some? then Max(c.reclaimBytes, Share(total, c.reclaimRatio.value)) else c.reclaimBytes
  }

  function HighMark(c: Settings, total: int): int {
    var high := if c.recoveryRatio.Some? then Max(c.recoveryBytes, Share(total, c.recoveryRatio.value))
                else c.recoveryBytes;
    Max(high, LowMark(c, total))
  }

  predicate IsLow(c: Settings, s: Sample) {
    s.available < LowMark(c, s.total)
  }

  predicate IsHigh(c: Settings, s: Sample) {
    s.available >= HighMark(c, s.total)
  }

  function Fresh(c: Settings): Monitor {
    Monitor(if IsEnabled(c) then Normal else Disabled, 0, 0, 0, 0, 0, 0, 0, None)
  }

  /** The hysteresis: the mode and the counter after one successful sample. */
  function Debounced(c: Settings, m: Monitor, s: Sample): Monitor {
    var m := m.(lowMark := LowMark(c, s.total), highMark := HighMark(c, s.total));
    if IsLow(c, s) then
      var n := Min(m.lowSamples + 1, c.consecutive);
      m.(lowSamples := n, mode := if n >= c.consecutive then Reclaiming else m.mode)
    else if IsHigh(c, s) then m.(lowSamples := 0, mode := Normal)
    else if m.mode != Reclaiming then m.(lowSamples := 0)
    else m
  }

  predicate CoolingDown(c: Settings, m: Monitor, now: real) {
    m.lastRequest.Some? && now - m.lastRequest.value < c.cooldown
  }

  /** What is asked for on top of what is already pending. */
  function Shortfall(m: Monitor, p: Pool): int {
    Max(m.target - Sum(PendingBytes, p.order, p.recs), 0)
  }

  function Aimed(m: Monitor, s: Sample): Monitor {
    m.(target := Max(m.highMark - s.available, 0))
  }

  function Recorded(m: Monitor, requested: int, pending: int, now: real): Monitor {
    m.(totalRequested := m.totalRequested + requested,
       unresolved := Max(m.target - pending, 0),
       lastRequest := if requested > 0 then Some(now) else m.lastRequest)
  }

  function Relaxed(m: Monitor): Monitor {
    m.(target := 0, unresolved := 0)
  }

  /** The monitor and the pool after a reclaim round that is not cooling down. */
  function Round(pr: Priorities, m: Monitor, p: Pool, now: real): (Monitor, Pool) {
    var p' := RequestIn(pr, p, Shortfall(m, p));
    (Recorded(m, Sum(RequestedBytes, p.order, p'.recs) - Sum(RequestedBytes, p.order, p.recs),
              Sum(PendingBytes, p.order, p'.recs), now), p')
  }

  /** `evaluate_once`. */
  function Evaluated(c: Settings, pr: Priorities, m: Monitor, p: Pool, probe: Option<Sample>, now: real): (Monitor, Pool) {
    if !IsEnabled(c) then (m, p)
    else if probe.None? then (m.(probeErrors := m.probeErrors + 1), p)
    else
      var m1 := Debounced(c, m, probe.value);
      if m1.mode != Reclaiming then (Relaxed(m1), p)
      else
        var m2 := Aimed(m1, probe.value);
        if CoolingDown(c, m2, now) then (m2, p) else Round(pr, m2, p, now)
  }

  /** What one evaluation sets, figure by figure: a disabled monitor does nothing, a failed probe
      is counted only, and a sample sets both marks and, under pressure, the target. */
  lemma EvaluationSets(c: Settings, pr: Priorities, m: Monitor, p: Pool, probe: Option<Sample>, now: real)
    ensures var (m', p') := Evaluated(c, pr, m, p, probe, now);
      if c.reclaimRatio.None? && c.reclaimBytes <= 0 then m' == m && p' == p
      else if probe.None? then m' == m.(probeErrors := m.probeErrors + 1) && p' == p
      else
        var low, high := LowMark(c, probe.value.total), HighMark(c, probe.value.total);
        && m'.probeErrors == m.probeErrors && m'.lowMark == low && m'.highMark == high
        && (m'.mode == Reclaiming ==>
              m'.target == if high > probe.value.available then high - probe.value.available else 0)
        && (m'.mode != Reclaiming ==> m'.target == 0 && m'.unresolved == 0 && p' == p)
  {
    hide LowMark, HighMark, RequestIn;
  }

  class MemoryPressureMonitor {
    const backupPool: BackupPoolState
    const settings: Settings
    var state: Mode
    var lowSamples: int
    var reclaimWatermarkBytes: int
    var recoveryWatermarkBytes: int
    var targetReleaseBytes: int
    var totalRequestedBytes: int
    var unresolvedPressureBytes: int
    var probeErrors: int
    var lastRequestMonotonic: Option<real>

    function View(): Monitor
      reads this
    {
      Monitor(state, lowSamples, reclaimWatermarkBytes, recoveryWatermarkBytes, targetReleaseBytes,
              totalRequestedBytes, unresolvedPressureBytes, probeErrors, lastRequestMonotonic)
    }

    constructor (pool: BackupPoolState, settings: Settings)
      ensures View() == Fresh(settings) && backupPool == pool && this.settings == settings
    {
      backupPool, this.settings := pool, settings;
      state := if IsEnabled(settings) then Normal else Disabled;
      lowSamples, reclaimWatermarkBytes, recoveryWatermarkBytes, targetReleaseBytes := 0, 0, 0, 0;
      totalRequestedBytes, unresolvedPressureBytes, probeErrors := 0, 0, 0;
      lastRequestMonotonic := None;
    }

    method Debounce(s: Sample)
      modifies this
      ensures View() == Debounced(settings, old(View()), s)
    {
      hide LowMark, HighMark;
      var low, high := LowMark(settings, s.total), HighMark(settings, s.total);
      reclaimWatermarkBytes := low;
      recoveryWatermarkBytes := high;
      if s.available < low {
        lowSamples := Min(lowSamples + 1, settings.consecutive);
        if lowSamples >= settings.consecutive {
          state := Reclaiming;
        }
      } else if s.available >= high {
        lowSamples := 0;
        state := Normal;
      } else if state != Reclaiming {
        lowSamples := 0;
      }
    }

    /** Asking the pool for the bytes that are not pending yet. */
    method Queue(additionalBytes: int) returns (queued: map<Id, int>, requested: int, pending: int)
      requires backupPool.Valid()
      modifies backupPool.clients.Values
      ensures backupPool.Valid()
      ensures backupPool.View() == RequestIn(backupPool.priorities, old(backupPool.View()), additionalBytes)
      ensures IsReceipt(old(backupPool.Records()), backupPool.Records(), queued)
      ensures requested == Sum(RequestedBytes, backupPool.order, backupPool.Records())
                         - Sum(RequestedBytes, backupPool.order, old(backupPool.Records()))
      ensures pending == Sum(PendingBytes, backupPool.order, backupPool.Records())
    {
      hide IsReceipt, RequestIn, WellKept, ClientBackupUsage.View, BackupPoolState.Valid, Sum, OverCap;
      queued := backupPool.RequestReleaseBytes(additionalBytes);
      ReceiptAddsUp(backupPool.order, old(backupPool.Records()), backupPool.Records(), queued);
      requested := QueuedSum(backupPool.order, queued);
      var overCap;
      overCap, pending := backupPool.Stats();
    }

    method Record(requested: int, pendingBytes: int, now: real)
      modifies this
      ensures View() == Recorded(old(View()), requested, pendingBytes, now)
    {
      totalRequestedBytes := totalRequestedBytes + requested;
      unresolvedPressureBytes := Max(targetReleaseBytes - pendingBytes, 0);
      if requested > 0 {
        lastRequestMonotonic := Some(now);
      }
    }

    /** A reclaim round. */
    method Reclaim(now: real) returns (queued: map<Id, int>)
      requires backupPool.Valid()
      modifies this, backupPool.clients.Values
      ensures backupPool.Valid()
      ensures (View(), backupPool.View()) == Round(backupPool.priorities, old(View()), old(backupPool.View()), now)
      ensures IsReceipt(old(backupPool.Records()), backupPool.Records(), queued)
    {
      hide IsReceipt, RequestIn, WellKept, ClientBackupUsage.View, BackupPoolState.Valid, BackupPoolState.Records,
           Recorded, Sum, OverCap;
      var overCap, pendingBefore := backupPool.Stats();
      var additionalBytes := Max(targetReleaseBytes - pendingBefore, 0);
      var requested, pendingBytes;
      queued, requested, pendingBytes := Queue(additionalBytes);
      Record(requested, pendingBytes, now);
    }

    /** No pressure: nothing is asked for. */
    method Relax()
      modifies this
      ensures View() == Relaxed(old(View()))
    {
      targetReleaseBytes := 0;
      unresolvedPressureBytes := 0;
    }

    method CountError()
      modifies this
      ensures View() == old(View()).(probeErrors := old(View()).probeErrors + 1)
    {
      probeErrors := probeErrors + 1;
    }

    method Aim(s: Sample)
      modifies this
      ensures View() == Aimed(old(View()), s)
    {
      targetReleaseBytes := Max(recoveryWatermarkBytes - s.available, 0);
    }

    method EvaluateOnce(probe: Option<Sample>, now: real) returns (queued: map<Id, int>)
      requires backupPool.Valid()
      modifies this, backupPool.clients.Values
      ensures backupPool.Valid()
      ensures (View(), backupPool.View())
           == Evaluated(settings, backupPool.priorities, old(View()), old(backupPool.View()), probe, now)
      ensures IsReceipt(old(backupPool.Records()), backupPool.Records(), queued)
      ensures QueuedSum(backupPool.order, queued) == Sum(PendingBytes, backupPool.order, backupPool.Records())
                                                   - Sum(PendingBytes, backupPool.order, old(backupPool.Records()))
    {
      hide IsReceipt, WellKept, ClientBackupUsage.View, BackupPoolState.Valid, BackupPoolState.Records, Sum, QueuedSum,
           Debounced, Aimed, Relaxed, Round, IsEnabled;
      queued := map[];
      NothingQueued(backupPool.Records());
      ReceiptAddsUp(backupPool.order, backupPool.Records(), backupPool.Records(), queued);
      if !IsEnabled(settings) {
        return;
      }
      if probe.None? {
        CountError();
        return;
      }
      Debounce(probe.value);
      if state != Reclaiming {
        Relax();
        return;
      }
      Aim(probe.value);
      if lastRequestMonotonic.Some? && now - lastRequestMonotonic.value < settings.cooldown {
        return;
      }
      queued := Reclaim(now);
      ReceiptAddsUp(backupPool.order, old(backupPool.Records()), backupPool.Records(), queued);
    }
  }
}
