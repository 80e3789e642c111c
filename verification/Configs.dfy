// internal/config/config.go: the daemon's tunables and Normalize.
module Configs {
  import opened Prelude

  datatype Config = Config(
    wakeBuffer: Dur,
    defaultCeiling: Dur,
    wakeOnlyHold: Dur,
    minCeiling: Dur,
    maxCeiling: Dur,
    tickInterval: Dur,
    pollInterval: Dur,
    wakeReassertInterval: Dur,
    minImportInterval: Dur,
    autoAdoptInterval: Dur,
    ceilingMultiplier: real,
    historyWindow: int,
    minRunsForEstimate: int,
    thermalCutoutC: real,
    lowBatteryCutoutPct: int,
    rearmMarginC: real,
    rearmMarginPct: int,
    eventLogMaxBytes: int,
    sleepAfterWake: bool)

  const DEFAULT: Config := Config(
    90 * SECOND, 5 * MINUTE, 3 * MINUTE, 30 * SECOND, 2 * HOUR,
    10 * SECOND, 2 * SECOND, MINUTE, 0, 2 * MINUTE,
    1.2, 20, 3, 80.0, 10, 5.0, 5, 10 * 1024 * 1024, true)

  /** A setting whose repair is reported. */
  datatype Field =
    | WakeBuffer | DefaultCeiling | WakeOnlyHold | MinCeiling | MaxCeiling
    | TickInterval | PollInterval | WakeReassertInterval | MinImportInterval
    | AutoAdoptInterval | CeilingOrder | CeilingMultiplier
    | ThermalCutout | LowBatteryCutout | RearmMarginPct

  /** clampDur: zero means absent, anything else is brought into range. */
  function ClampDur(v: Dur, lo: Dur, hi: Dur, default: Dur): Dur {
    if v == 0 then default else if v < lo then lo else if v > hi then hi else v
  }

  /** A value that is present is moved as little as its range allows. */
  lemma ClampDurIsNearest(v: Dur, lo: Dur, hi: Dur, default: Dur, other: Dur)
    requires lo <= default <= hi && lo <= other <= hi
    ensures lo <= ClampDur(v, lo, hi, default) <= hi
    ensures v != 0 ==> Distance(v, ClampDur(v, lo, hi, default)) <= Distance(v, other)
  {
  }

  function Distance(a: int, b: int): nat {
    if a < b then b - a else a - b
  }

  function Reported(v: Dur, lo: Dur, hi: Dur, f: Field): seq<Field> {
    if v != 0 && (v < lo || v > hi) then [f] else []
  }

  ghost predicate DurationsNormal(c: Config) {
    && 10 * SECOND <= c.wakeBuffer <= 30 * MINUTE
    && 10 * SECOND <= c.defaultCeiling <= 12 * HOUR
    && 10 * SECOND <= c.wakeOnlyHold <= HOUR
    && SECOND <= c.minCeiling <= HOUR
    && MINUTE <= c.maxCeiling <= 24 * HOUR
    && SECOND <= c.tickInterval <= 5 * MINUTE
    && 250 * MILLISECOND <= c.pollInterval <= MINUTE
    && 10 * SECOND <= c.wakeReassertInterval <= 10 * MINUTE
    && 0 <= c.minImportInterval <= 24 * HOUR
    && 30 * SECOND <= c.autoAdoptInterval <= HOUR
  }

  ghost predicate EstimatorNormal(c: Config) {
    && 1.0 <= c.ceilingMultiplier <= 10.0
    && 2 <= c.historyWindow <= 1000
    && (1 <= c.minRunsForEstimate <= c.historyWindow
        || (c.minRunsForEstimate == 3 && c.historyWindow == 2))
  }

  ghost predicate CutoutsNormal(c: Config) {
    && 70.0 <= c.thermalCutoutC <= 95.0
    && 5 <= c.lowBatteryCutoutPct <= 50
    && c.rearmMarginC > 0.0
    && 1 <= c.rearmMarginPct <= 50
    && c.eventLogMaxBytes >= 64 * 1024
  }

  /** In range, for every field; what Normalize leaves behind. */
  ghost predicate Normal(c: Config) {
    DurationsNormal(c) && c.minCeiling <= c.maxCeiling && EstimatorNormal(c) && CutoutsNormal(c)
  }

  class Settings {
    var c: Config

    constructor (c: Config)
      ensures this.c == c
    {
      this.c := c;
    }

    /** Repairs every field in place, and leaves a configuration that is already
        in range alone. A safety threshold is only ever changed when it is out
        of range, and then the change is reported. */
    method Normalize() returns (fixed: seq<Field>)
      modifies this
      ensures Normal(c)
      ensures Normal(old(c)) ==> c == old(c) && fixed == []
      ensures c.sleepAfterWake == old(c.sleepAfterWake)
      ensures c.wakeBuffer == ClampedDurations(old(c)).wakeBuffer
      ensures c.defaultCeiling == ClampedDurations(old(c)).defaultCeiling
      ensures c.minCeiling == Min(ClampedDurations(old(c)).minCeiling, ClampedDurations(old(c)).maxCeiling)
      ensures c.maxCeiling == Max(ClampedDurations(old(c)).minCeiling, ClampedDurations(old(c)).maxCeiling)
      ensures c.tickInterval == ClampedDurations(old(c)).tickInterval
      ensures 1.0 <= old(c.ceilingMultiplier) <= 10.0 ==> c.ceilingMultiplier == old(c.ceilingMultiplier)
      ensures ThermalCutout in fixed <==> !(70.0 <= old(c.thermalCutoutC) <= 95.0)
      ensures LowBatteryCutout in fixed <==> !(5 <= old(c.lowBatteryCutoutPct) <= 50)
      ensures 70.0 <= old(c.thermalCutoutC) <= 95.0 ==> c.thermalCutoutC == old(c.thermalCutoutC)
      ensures 5 <= old(c.lowBatteryCutoutPct) <= 50 ==> c.lowBatteryCutoutPct == old(c.lowBatteryCutoutPct)
    {
      fixed := NormalizeDurations();
      if c.minCeiling > c.maxCeiling {
        fixed := fixed + [CeilingOrder];
        c := c.(minCeiling := c.maxCeiling, maxCeiling := c.minCeiling);
      }
      var estimator := NormalizeEstimator();
      var cutouts := NormalizeCutouts();
      fixed := fixed + estimator + cutouts;
    }

    method NormalizeDurations() returns (fixed: seq<Field>)
      modifies this
      ensures DurationsNormal(c) && c == ClampedDurations(old(c))
      ensures DurationsNormal(old(c)) ==> c == old(c) && fixed == []
      ensures ThermalCutout !in fixed && LowBatteryCutout !in fixed
    {
      fixed := Reported(c.wakeBuffer, 10 * SECOND, 30 * MINUTE, WakeBuffer)
        + Reported(c.defaultCeiling, 10 * SECOND, 12 * HOUR, DefaultCeiling)
        + Reported(c.wakeOnlyHold, 10 * SECOND, HOUR, WakeOnlyHold)
        + Reported(c.minCeiling, SECOND, HOUR, MinCeiling)
        + Reported(c.maxCeiling, MINUTE, 24 * HOUR, MaxCeiling);
      c := c.(
        wakeBuffer := ClampDur(c.wakeBuffer, 10 * SECOND, 30 * MINUTE, DEFAULT.wakeBuffer),
        defaultCeiling := ClampDur(c.defaultCeiling, 10 * SECOND, 12 * HOUR, DEFAULT.defaultCeiling),
        wakeOnlyHold := ClampDur(c.wakeOnlyHold, 10 * SECOND, HOUR, DEFAULT.wakeOnlyHold),
        minCeiling := ClampDur(c.minCeiling, SECOND, HOUR, DEFAULT.minCeiling),
        maxCeiling := ClampDur(c.maxCeiling, MINUTE, 24 * HOUR, DEFAULT.maxCeiling));
      fixed := fixed
        + Reported(c.tickInterval, SECOND, 5 * MINUTE, TickInterval)
        + Reported(c.pollInterval, 250 * MILLISECOND, MINUTE, PollInterval)
        + Reported(c.wakeReassertInterval, 10 * SECOND, 10 * MINUTE, WakeReassertInterval);
      c := c.(
        tickInterval := ClampDur(c.tickInterval, SECOND, 5 * MINUTE, DEFAULT.tickInterval),
        pollInterval := ClampDur(c.pollInterval, 250 * MILLISECOND, MINUTE, DEFAULT.pollInterval),
        wakeReassertInterval := ClampDur(c.wakeReassertInterval, 10 * SECOND, 10 * MINUTE,
          DEFAULT.wakeReassertInterval));
      // Zero is a meaningful import interval, so it is not read as absent.
      if c.minImportInterval < 0 {
        fixed := fixed + [MinImportInterval];
        c := c.(minImportInterval := 0);
      } else if c.minImportInterval > 24 * HOUR {
        fixed := fixed + [MinImportInterval];
        c := c.(minImportInterval := 24 * HOUR);
      }
      fixed := fixed + Reported(c.autoAdoptInterval, 30 * SECOND, HOUR, AutoAdoptInterval);
      c := c.(autoAdoptInterval := ClampDur(c.autoAdoptInterval, 30 * SECOND, HOUR, DEFAULT.autoAdoptInterval));
    }

    method NormalizeEstimator() returns (fixed: seq<Field>)
      modifies this
      ensures EstimatorNormal(c)
      ensures c == old(c).(ceilingMultiplier := c.ceilingMultiplier, historyWindow := c.historyWindow,
        minRunsForEstimate := c.minRunsForEstimate)
      ensures EstimatorNormal(old(c)) ==> c == old(c) && fixed == []
      ensures !(1.0 <= old(c.ceilingMultiplier) <= 10.0) ==> c.ceilingMultiplier == DEFAULT.ceilingMultiplier
      ensures c.historyWindow == if 2 <= old(c.historyWindow) <= 1000 then old(c.historyWindow)
              else DEFAULT.historyWindow
      ensures c.minRunsForEstimate == if 1 <= old(c.minRunsForEstimate) <= c.historyWindow
              then old(c.minRunsForEstimate) else DEFAULT.minRunsForEstimate
      ensures 1.0 <= old(c.ceilingMultiplier) <= 10.0 ==> c.ceilingMultiplier == old(c.ceilingMultiplier)
      ensures ThermalCutout !in fixed && LowBatteryCutout !in fixed
    {
      fixed := [];
      if c.ceilingMultiplier < 1.0 || c.ceilingMultiplier > 10.0 {
        fixed := fixed + [CeilingMultiplier];
        c := c.(ceilingMultiplier := DEFAULT.ceilingMultiplier);
      }
      if c.historyWindow < 2 || c.historyWindow > 1000 {
        c := c.(historyWindow := DEFAULT.historyWindow);
      }
      if c.minRunsForEstimate < 1 || c.minRunsForEstimate > c.historyWindow {
        c := c.(minRunsForEstimate := DEFAULT.minRunsForEstimate);
      }
    }

    method NormalizeCutouts() returns (fixed: seq<Field>)
      modifies this
      ensures CutoutsNormal(c)
      ensures c == old(c).(thermalCutoutC := c.thermalCutoutC, lowBatteryCutoutPct := c.lowBatteryCutoutPct,
        rearmMarginC := c.rearmMarginC, rearmMarginPct := c.rearmMarginPct,
        eventLogMaxBytes := c.eventLogMaxBytes)
      ensures CutoutsNormal(old(c)) ==> c == old(c) && fixed == []
      ensures ThermalCutout in fixed ==> c.thermalCutoutC == DEFAULT.thermalCutoutC
      ensures LowBatteryCutout in fixed ==> c.lowBatteryCutoutPct == DEFAULT.lowBatteryCutoutPct
      ensures c.rearmMarginC == if old(c.rearmMarginC) > 0.0 then old(c.rearmMarginC) else DEFAULT.rearmMarginC
      ensures c.rearmMarginPct == if 1 <= old(c.rearmMarginPct) <= 50 then old(c.rearmMarginPct)
              else DEFAULT.rearmMarginPct
      ensures ThermalCutout in fixed <==> !(70.0 <= old(c.thermalCutoutC) <= 95.0)
      ensures LowBatteryCutout in fixed <==> !(5 <= old(c.lowBatteryCutoutPct) <= 50)
      ensures 70.0 <= old(c.thermalCutoutC) <= 95.0 ==> c.thermalCutoutC == old(c.thermalCutoutC)
      ensures 5 <= old(c.lowBatteryCutoutPct) <= 50 ==> c.lowBatteryCutoutPct == old(c.lowBatteryCutoutPct)
    {
      fixed := [];
      if c.thermalCutoutC < 70.0 || c.thermalCutoutC > 95.0 {
        fixed := fixed + [ThermalCutout];
        c := c.(thermalCutoutC := DEFAULT.thermalCutoutC);
      }
      if c.lowBatteryCutoutPct < 5 || c.lowBatteryCutoutPct > 50 {
        fixed := fixed + [LowBatteryCutout];
        c := c.(lowBatteryCutoutPct := DEFAULT.lowBatteryCutoutPct);
      }
      if c.rearmMarginC <= 0.0 {
        c := c.(rearmMarginC := DEFAULT.rearmMarginC);
      }
      if c.rearmMarginPct <= 0 || c.rearmMarginPct > 50 {
        fixed := fixed + [RearmMarginPct];
        c := c.(rearmMarginPct := DEFAULT.rearmMarginPct);
      }
      if c.eventLogMaxBytes < 64 * 1024 {
        c := c.(eventLogMaxBytes := DEFAULT.eventLogMaxBytes);
      }
    }
  }

  function ClampedDurations(c: Config): Config {
    c.(
      wakeBuffer := ClampDur(c.wakeBuffer, 10 * SECOND, 30 * MINUTE, DEFAULT.wakeBuffer),
      defaultCeiling := ClampDur(c.defaultCeiling, 10 * SECOND, 12 * HOUR, DEFAULT.defaultCeiling),
      wakeOnlyHold := ClampDur(c.wakeOnlyHold, 10 * SECOND, HOUR, DEFAULT.wakeOnlyHold),
      minCeiling := ClampDur(c.minCeiling, SECOND, HOUR, DEFAULT.minCeiling),
      maxCeiling := ClampDur(c.maxCeiling, MINUTE, 24 * HOUR, DEFAULT.maxCeiling),
      tickInterval := ClampDur(c.tickInterval, SECOND, 5 * MINUTE, DEFAULT.tickInterval),
      pollInterval := ClampDur(c.pollInterval, 250 * MILLISECOND, MINUTE, DEFAULT.pollInterval),
      wakeReassertInterval := ClampDur(c.wakeReassertInterval, 10 * SECOND, 10 * MINUTE,
        DEFAULT.wakeReassertInterval),
      minImportInterval := Max(0, Min(c.minImportInterval, 24 * HOUR)),
      autoAdoptInterval := ClampDur(c.autoAdoptInterval, 30 * SECOND, HOUR, DEFAULT.autoAdoptInterval))
  }
}
