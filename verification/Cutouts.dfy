// internal/daemon/cutout.go: the safety cutouts, their latch, and the decision
// whether a wake may be scheduled at all.
module Cutouts {
  import opened Prelude
  import opened Configs

  datatype Kind = Thermal | LowBattery

  /** One reading of the machine. A battery percentage of -1 is unknown. */
  datatype Power = Power(
    lidClosed: bool,
    onAC: bool,
    batteryPct: int,
    tempC: Option<real>,
    thermalWarn: bool)

  datatype Cutout = Cutout(kind: Kind, firedAt: Time, released: nat)

  predicate Hot(st: Power, cfg: Config) {
    (st.tempC.Some? && st.tempC.value >= cfg.thermalCutoutC) || st.thermalWarn
  }

  predicate Flat(st: Power, cfg: Config) {
    !st.onAC && 0 <= st.batteryPct <= cfg.lowBatteryCutoutPct
  }

  predicate Hazard(kind: Kind, st: Power, cfg: Config) {
    match kind
    case Thermal => Hot(st, cfg)
    case LowBattery => Flat(st, cfg)
  }

  /** Whether every hold must be released now, and why. */
  function EvaluateCutout(st: Power, cfg: Config, holding: bool): (k: Option<Kind>)
    ensures k.Some? <==> holding && st.lidClosed && (Hot(st, cfg) || Flat(st, cfg))
    ensures k.Some? ==> Hazard(k.value, st, cfg)
  {
    if !holding || !st.lidClosed then None
    else if st.tempC.Some? && st.tempC.value >= cfg.thermalCutoutC then Some(Thermal)
    else if st.thermalWarn then Some(Thermal)
    else if !st.onAC && st.batteryPct >= 0 && st.batteryPct <= cfg.lowBatteryCutoutPct then Some(LowBattery)
    else None
  }

  /** Whether a latched cutout of this kind clears on this reading: the lid is
      open, or the hazard has receded by its margin. */
  predicate Recovered(kind: Kind, st: Power, cfg: Config) {
    || !st.lidClosed
    || match kind
       case Thermal =>
         !st.thermalWarn && (st.tempC.None? || st.tempC.value <= cfg.thermalCutoutC - cfg.rearmMarginC)
       case LowBattery =>
         st.onAC || st.batteryPct >= cfg.lowBatteryCutoutPct + cfg.rearmMarginPct
  }

  class CutoutLatch {
    var active: Option<Cutout>

    constructor ()
      ensures active == None
    {
      active := None;
    }

    predicate Blocking()
      reads this
    {
      active.Some?
    }

    method Engage(kind: Kind, released: nat, now: Time) returns (c: Cutout)
      modifies this
      ensures c == Cutout(kind, now, released) && active == Some(c)
    {
      c := Cutout(kind, now, released);
      active := Some(c);
    }

    method Update(st: Power, cfg: Config) returns (cleared: bool)
      modifies this
      ensures cleared <==> old(active).Some? && Recovered(old(active).value.kind, st, cfg)
      ensures active == if cleared then None else old(active)
      ensures active == Updated(old(active), st, cfg)
    {
      if active == None { return false; }
      if !st.lidClosed {
        active := None;
        return true;
      }
      match active.value.kind {
        case Thermal =>
          var cooled := st.tempC.None? || st.tempC.value <= cfg.thermalCutoutC - cfg.rearmMarginC;
          if !st.thermalWarn && cooled {
            active := None;
            return true;
          }
        case LowBattery =>
          if st.onAC || st.batteryPct >= cfg.lowBatteryCutoutPct + cfg.rearmMarginPct {
            active := None;
            return true;
          }
      }
      return false;
    }
  }

  function Updated(active: Option<Cutout>, st: Power, cfg: Config): Option<Cutout> {
    if active.Some? && Recovered(active.value.kind, st, cfg) then None else active
  }

  // ----- one evaluation -----

  /** One sample of the control loop: a reading, the time, and how many holds
      are open when it is taken. */
  datatype Sample = Sample(st: Power, now: Time, holds: nat)

  /** The cutout that fires on a sample, if any. */
  function Fires(active: Option<Cutout>, s: Sample, cfg: Config): (c: Option<Cutout>)
    ensures c.Some? ==> c.value.released > 0
  {
    var dec := EvaluateCutout(s.st, cfg, s.holds > 0);
    if dec.None? || Updated(active, s.st, cfg).Some? then None
    else Some(Cutout(dec.value, s.now, s.holds))
  }

  function LatchAfter(active: Option<Cutout>, s: Sample, cfg: Config): Option<Cutout> {
    if Fires(active, s, cfg).Some? then Fires(active, s, cfg) else Updated(active, s.st, cfg)
  }

  /** Recovery by the margin is not compatible with the hazard, because the
      margins are positive after Normalize. */
  lemma MarginSeparates(kind: Kind, st: Power, cfg: Config)
    requires Normal(cfg) && Recovered(kind, st, cfg) && st.lidClosed
    ensures !Hazard(kind, st, cfg)
  {
  }

  // ----- waking -----

  const MIN_WAKE_MARGIN_PCT := 1

  function WakeFloor(cfg: Config, drainPct: int): int {
    cfg.lowBatteryCutoutPct + (if drainPct > MIN_WAKE_MARGIN_PCT then drainPct else MIN_WAKE_MARGIN_PCT)
  }

  predicate ShouldScheduleWake(st: Power, cfg: Config, drainPct: int) {
    st.onAC || st.batteryPct < 0 || st.batteryPct > WakeFloor(cfg, drainPct)
  }

  function Drained(st: Power, used: int): Power {
    st.(batteryPct := st.batteryPct - used)
  }

  /** A wake is refused exactly when a run that costs what the job has been
      seen to cost, or one point, could take a known battery down to the level
      at which the low-battery cutout releases the hold. */
  lemma WakeRefusedIffUnsafe(st: Power, cfg: Config, drainPct: int)
    requires Normal(cfg)
    ensures ShouldScheduleWake(st, cfg, drainPct) <==>
      forall used :: 0 <= used <= Max(drainPct, MIN_WAKE_MARGIN_PCT) && used <= st.batteryPct ==>
        !Flat(Drained(st, used), cfg)
  {
    var worst := Max(drainPct, MIN_WAKE_MARGIN_PCT);
    if !ShouldScheduleWake(st, cfg, drainPct) {
      var used := Min(worst, st.batteryPct);
      assert Flat(Drained(st, used), cfg);
    }
  }
}
