// internal/daemon/wake.go: which fire the machine is woken for, and that the
// window later opened is for that same fire. A schedule is known only by its
// fire times; the one kind whose arithmetic is modelled is a repeating gap.
module Schedules {
  import opened Prelude

  /** What the user chose to skip: every fire up to an instant, for all jobs or
      for one. */
  datatype Skips = Skips(all: Option<Time>, jobs: map<string, Time>)
  {
    predicate Skipped(slug: string, fire: Time) {
      (all.Some? && fire <= all.value) || (slug in jobs && fire <= jobs[slug])
    }
  }

  /** The zero time, which lies before every fire. */
  const NEVER: Time := 0

  ghost predicate Later(fires: iset<Time>, t: Time) {
    exists f: Time :: f in fires && f > t
  }

  /** Next gives the least fire strictly after an instant, and the zero time
      when there is none. */
  ghost predicate IsNext(next: Time -> Time, fires: iset<Time>) {
    && (forall f: Time :: f in fires ==> f > NEVER)
    && (forall t: Time :: if Later(fires, t) then Least(fires, t, next(t)) else next(t) == NEVER)
  }

  ghost predicate Least(fires: iset<Time>, t: Time, fire: Time) {
    && fire in fires && fire > t
    && forall f: Time :: f in fires && f > t ==> fire <= f
  }

  lemma NextIsLeast(next: Time -> Time, fires: iset<Time>, t: Time)
    requires IsNext(next, fires)
    ensures Later(fires, t) ==> Least(fires, t, next(t))
    ensures !Later(fires, t) ==> next(t) == NEVER
  {
  }

  /** ParseAt refuses a schedule that has no fire to come when it is parsed. */
  function Parsed(spec: Time -> Time, at: Time): Option<Time -> Time> {
    if spec(at) == NEVER then None else Some(spec)
  }

  /** The fire times of "every delay", counted from an anchor. */
  ghost function Lattice(anchor: Time, delay: Dur): iset<Time> {
    iset k: nat | true :: anchor + k * delay
  }

  /** nextFromAnchor. */
  function NextFromAnchor(anchor: Time, delay: Dur, t: Time): Time
    requires delay > 0
  {
    if anchor > t then anchor else anchor + ((t - anchor) / delay + 1) * delay
  }

  lemma MulMono(a: int, b: int, d: int)
    requires a <= b && d >= 0
    ensures a * d <= b * d
  {
    assert (b - a) * d >= 0;
  }

  /** (gap / delay + 1) * delay is the least multiple of delay above gap. */
  lemma NextMultiple(delay: Dur, gap: Dur, k: nat)
    requires delay > 0 && gap >= 0
    ensures (gap / delay + 1) * delay > gap
    ensures k * delay > gap ==> k * delay >= (gap / delay + 1) * delay
  {
    var q := gap / delay;
    if k <= q { MulMono(k, q, delay); } else { MulMono(q + 1, k, delay); }
  }

  /** A repeating gap fires where a schedule must, whoever asks and whenever. */
  lemma AnchoredIsNext(anchor: Time, delay: Dur)
    requires delay > 0 && anchor > NEVER
    ensures IsNext(t => if delay > 0 then NextFromAnchor(anchor, delay, t) else t, Lattice(anchor, delay))
  {
    var next := (t: Time) => if delay > 0 then NextFromAnchor(anchor, delay, t) else t;
    forall t: Time
      ensures Later(Lattice(anchor, delay), t) && Least(Lattice(anchor, delay), t, next(t))
    {
      AnchoredNext(anchor, delay, t);
    }
    forall f: Time | f in Lattice(anchor, delay)
      ensures f > NEVER
    {
      var k: nat :| f == anchor + k * delay;
      MulMono(0, k, delay);
    }
  }

  lemma AnchoredNext(anchor: Time, delay: Dur, t: Time)
    requires delay > 0
    ensures Least(Lattice(anchor, delay), t, NextFromAnchor(anchor, delay, t))
  {
    var n := NextFromAnchor(anchor, delay, t);
    var m: nat := if anchor > t then 0 else (t - anchor) / delay + 1;
    if anchor <= t { NextMultiple(delay, t - anchor, 0); }
    assert n == anchor + m * delay;
    forall f: Time | f in Lattice(anchor, delay) && f > t
      ensures n <= f
    {
      var k: nat :| f == anchor + k * delay;
      if anchor <= t { NextMultiple(delay, t - anchor, k); }
    }
  }
}

module Wakes {
  import opened Prelude
  import opened Configs
  import opened Ids
  import opened Runs
  import opened Holds
  import opened Schedules
  import opened DaemonModel
  import opened DaemonPasses

  /** A registered job as the wake planner sees it: its schedule, unless it no
      longer parses, and the next run its own scheduler announces, if any. */
  datatype Planned = Planned(slug: string, enabled: bool, buffer: Dur, next: Option<Time -> Time>,
      announced: Option<Time>)

  datatype Target = Target(job: nat, fire: Time, wakeAt: Time)

  const SKIP_WALK: nat := 10

  /** Past the fires the user chose to skip, but no further than n steps. */
  function Walk(next: Time -> Time, skips: Skips, slug: string, fire: Time, n: nat): Time
    decreases n
  {
    if n == 0 || !skips.Skipped(slug, fire) then fire else Walk(next, skips, slug, next(fire), n - 1)
  }

  function Announced(j: Planned, now: Time): Option<Time> {
    if j.announced.Some? && j.announced.value > now then j.announced else None
  }

  /** The fire a wake would be for. */
  function FireOf(j: Planned, skips: Skips, now: Time): Time
    requires j.next.Some?
  {
    var first := if Announced(j, now).Some? then Announced(j, now).value else j.next.value(now);
    Walk(j.next.value, skips, j.slug, first, SKIP_WALK)
  }

  /** The n-th fire from one on. */
  function Nth(next: Time -> Time, fire: Time, n: nat): Time
    decreases n
  {
    if n == 0 then fire else next(Nth(next, fire, n - 1))
  }

  /** The first fire a wake might be for: as the job's scheduler announces, if that
      is still to come, and otherwise the schedule's next. */
  ghost predicate IsFirst(j: Planned, now: Time, first: Time)
    requires j.next.Some?
  {
    if j.announced.Some? && j.announced.value > now then first == j.announced.value else first == j.next.value(now)
  }

  /** The fire a wake would be for: counting from that one, the first the user has
      not skipped, or the tenth after it if all before that are. */
  ghost predicate IsWakeFire(j: Planned, skips: Skips, now: Time, fire: Time) {
    j.next.Some? && exists first, n: nat :: IsFirst(j, now, first) && FoundAt(j, skips, first, n, fire)
  }

  ghost predicate FoundAt(j: Planned, skips: Skips, first: Time, n: nat, fire: Time)
    requires j.next.Some?
  {
    && n <= 10 && fire == Nth(j.next.value, first, n)
    && (forall k: nat :: k < n ==> skips.Skipped(j.slug, Nth(j.next.value, first, k)))
    && (n < 10 ==> !skips.Skipped(j.slug, fire))
  }

  lemma {:induction false} NthShift(next: Time -> Time, fire: Time, n: nat)
    ensures Nth(next, next(fire), n) == Nth(next, fire, n + 1)
  {
    if n > 0 { NthShift(next, fire, n - 1); }
  }

  lemma {:induction false} WalkIsNth(next: Time -> Time, skips: Skips, slug: string, fire: Time, n: nat)
    returns (m: nat)
    ensures m <= n && Walk(next, skips, slug, fire, n) == Nth(next, fire, m)
    ensures forall k: nat :: k < m ==> skips.Skipped(slug, Nth(next, fire, k))
    ensures m < n ==> !skips.Skipped(slug, Nth(next, fire, m))
    decreases n
  {
    m := 0;
    if n > 0 && skips.Skipped(slug, fire) {
      var i := WalkIsNth(next, skips, slug, next(fire), n - 1);
      m := i + 1;
      NthShift(next, fire, i);
      forall k: nat | k < m
        ensures skips.Skipped(slug, Nth(next, fire, k))
      {
        if k > 0 { NthShift(next, fire, k - 1); }
      }
    }
  }

  /** That is what the walk past skipped fires computes, and nothing else is. */
  lemma WakeFireIff(j: Planned, skips: Skips, now: Time, fire: Time)
    requires j.next.Some?
    ensures IsWakeFire(j, skips, now, fire) <==> fire == FireOf(j, skips, now)
  {
    var first := if Announced(j, now).Some? then Announced(j, now).value else j.next.value(now);
    assert IsFirst(j, now, first);
    var m := WalkIsNth(j.next.value, skips, j.slug, first, SKIP_WALK);
    assert FoundAt(j, skips, first, m, FireOf(j, skips, now));
    if IsWakeFire(j, skips, now, fire) {
      var f, n: nat :| IsFirst(j, now, f) && FoundAt(j, skips, f, n, fire);
      assert f == first && n == m;
    }
  }

  /** A job a wake can be booked for: its window is not open yet. */
  predicate Eligible(j: Planned, skips: Skips, now: Time) {
    j.enabled && j.next.Some? && FireOf(j, skips, now) - j.buffer > now
  }

  function TargetOf(jobs: seq<Planned>, i: nat, skips: Skips, now: Time): Target
    requires i < |jobs| && jobs[i].next.Some?
  {
    Target(i, FireOf(jobs[i], skips, now), FireOf(jobs[i], skips, now) - jobs[i].buffer)
  }

  /** nextWakeTarget: the earliest wake any job can be booked for, and none
      exactly when no job can. */
  method NextWakeTarget(jobs: seq<Planned>, skips: Skips, now: Time) returns (best: Option<Target>)
    ensures best.None? <==> forall i :: 0 <= i < |jobs| ==> !Eligible(jobs[i], skips, now)
    ensures best.Some? ==>
              && best.value.job < |jobs| && Eligible(jobs[best.value.job], skips, now)
              && best.value == TargetOf(jobs, best.value.job, skips, now)
              && best.value.wakeAt > now
    ensures best.Some? ==> forall i :: 0 <= i < |jobs| && Eligible(jobs[i], skips, now) ==>
                                         best.value.wakeAt <= FireOf(jobs[i], skips, now) - jobs[i].buffer
    ensures best.Some? ==>
              && jobs[best.value.job].enabled
              && IsWakeFire(jobs[best.value.job], skips, now, best.value.fire)
              && best.value.wakeAt == best.value.fire - jobs[best.value.job].buffer
    ensures forall i, fire :: 0 <= i < |jobs| && jobs[i].enabled && IsWakeFire(jobs[i], skips, now, fire)
                              && fire - jobs[i].buffer > now ==>
                                && best.Some? && best.value.wakeAt <= fire - jobs[i].buffer
                                && (i < best.value.job ==> best.value.wakeAt < fire - jobs[i].buffer)
  {
    best := None;
    var k := 0;
    while k < |jobs|
      invariant k <= |jobs|
      invariant best.None? <==> forall i :: 0 <= i < k ==> !Eligible(jobs[i], skips, now)
      invariant best.Some? ==>
                  && best.value.job < k && Eligible(jobs[best.value.job], skips, now)
                  && best.value == TargetOf(jobs, best.value.job, skips, now)
      invariant best.Some? ==> forall i :: 0 <= i < k && Eligible(jobs[i], skips, now) ==>
                                             best.value.wakeAt <= FireOf(jobs[i], skips, now) - jobs[i].buffer
      invariant best.Some? ==> forall i :: 0 <= i < best.value.job && Eligible(jobs[i], skips, now) ==>
                                             best.value.wakeAt < FireOf(jobs[i], skips, now) - jobs[i].buffer
    {
      var j := jobs[k];
      if j.enabled && j.next.Some? {
        var fire := PlannedFire(j, skips, now);
        var wakeAt := fire - j.buffer;
        if wakeAt > now && (best.None? || wakeAt < best.value.wakeAt) {
          best := Some(Target(k, fire, wakeAt));
        }
      }
      k := k + 1;
    }
    forall i, fire | 0 <= i < |jobs| && jobs[i].next.Some?
      ensures IsWakeFire(jobs[i], skips, now, fire) <==> fire == FireOf(jobs[i], skips, now)
    {
      WakeFireIff(jobs[i], skips, now, fire);
    }
  }

  /** The walk past skipped fires. */
  method PlannedFire(j: Planned, skips: Skips, now: Time) returns (fire: Time)
    requires j.next.Some?
    ensures fire == FireOf(j, skips, now) && IsWakeFire(j, skips, now, fire)
  {
    WakeFireIff(j, skips, now, FireOf(j, skips, now));
    var next := j.next.value;
    fire := if j.announced.Some? && j.announced.value > now then j.announced.value else next(now);
    ghost var first := fire;
    var left := SKIP_WALK;
    while left > 0
      invariant 0 <= left
      invariant Walk(next, skips, j.slug, fire, left) == Walk(next, skips, j.slug, first, SKIP_WALK)
    {
      if !skips.Skipped(j.slug, fire) { return; }
      fire := next(fire);
      left := left - 1;
    }
  }

  /** This fire and the n after it are all skipped. */
  predicate AllSkipped(next: Time -> Time, skips: Skips, slug: string, fire: Time, n: nat)
    decreases n
  {
    skips.Skipped(slug, fire) && (n > 0 ==> AllSkipped(next, skips, slug, next(fire), n - 1))
  }

  /** With a fire to come that is not skipped, the walk ends at the first such,
      unless every fire it can reach is skipped; then, and only then, a wake is
      planned for a fire the user chose to skip. */
  lemma {:induction false} WalkFindsUnskipped(next: Time -> Time, fires: iset<Time>, skips: Skips, slug: string,
      t: Time, n: nat, open: Time)
    requires IsNext(next, fires) && open in fires && open > t && !skips.Skipped(slug, open)
    ensures var fire := Walk(next, skips, slug, next(t), n);
            && fire in fires && t < fire <= open
            && (forall f: Time :: f in fires && t < f < fire ==> skips.Skipped(slug, f))
            && (skips.Skipped(slug, fire) <==> AllSkipped(next, skips, slug, next(t), n))
    decreases n
  {
    hide IsNext;
    var first := next(t);
    NextIsLeast(next, fires, t);
    if n > 0 && skips.Skipped(slug, first) {
      WalkFindsUnskipped(next, fires, skips, slug, first, n - 1, open);
      var fire := Walk(next, skips, slug, next(first), n - 1);
      forall f: Time | f in fires && t < f < fire
        ensures skips.Skipped(slug, f)
      {
        assert first <= f;
      }
    }
  }

  /** So where a fire to come is not skipped, the wake is for the scheduler's
      announcement if that is to come and is not skipped, and otherwise for a fire
      of the schedule, after now or the skipped announcement, with every fire in
      between skipped. */
  lemma WakeFireIs(j: Planned, fires: iset<Time>, skips: Skips, now: Time, fire: Time, open: Time)
    requires IsWakeFire(j, skips, now, fire) && IsNext(j.next.value, fires)
    requires open in fires && !skips.Skipped(j.slug, open) && open > now
    requires j.announced.Some? ==> open > j.announced.value
    ensures var live := j.announced.Some? && j.announced.value > now;
            if live && !skips.Skipped(j.slug, j.announced.value) then fire == j.announced.value
            else
              var after := if live then j.announced.value else now;
              && fire in fires && after < fire <= open
              && forall f: Time :: f in fires && after < f < fire ==> skips.Skipped(j.slug, f)
  {
    hide IsNext, AllSkipped;
    WakeFireIff(j, skips, now, fire);
    if j.announced.Some? && j.announced.value > now {
      if skips.Skipped(j.slug, j.announced.value) {
        WalkFindsUnskipped(j.next.value, fires, skips, j.slug, j.announced.value, SKIP_WALK - 1, open);
      }
    } else {
      WalkFindsUnskipped(j.next.value, fires, skips, j.slug, now, SKIP_WALK, open);
    }
  }

  /** "every delay", counted from its first fire one delay past the zero time. */
  function Every(delay: Dur): Planned
    requires delay > 0
  {
    Planned("j", true, 0, Some(t => if delay > 0 then NextFromAnchor(delay, delay, t) else t), None)
  }

  /** A job that repeats and is skipped past its next eleven fires: the wake is
      booked for the eleventh all the same. */
  lemma SkippedWakeIsBooked(delay: Dur, buffer: Dur)
    requires delay > 0 && 0 <= buffer < 11 * delay
    ensures var j, skips := Every(delay).(buffer := buffer), Skips(None, map["j" := 11 * delay]);
            && FireOf(j, skips, 0) == 11 * delay && skips.Skipped(j.slug, FireOf(j, skips, 0))
            && Eligible(j, skips, 0)
  {
    var skips := Skips(None, map["j" := 11 * delay]);
    MultipleNext(delay, 0);
    WalkSkips(delay, skips, 1, SKIP_WALK);
  }

  lemma MultipleNext(delay: Dur, k: nat)
    requires delay > 0
    ensures NextFromAnchor(delay, delay, k * delay) == (k + 1) * delay
  {
    AnchoredNext(delay, delay, k * delay);
    var f := delay + k * delay;
    assert f in Lattice(delay, delay) && f == (k + 1) * delay;
    var n := NextFromAnchor(delay, delay, k * delay);
    var m: nat :| n == delay + m * delay;
    if m < k { MulMono(m + 1, k, delay); }
    if m > k { MulMono(k + 1, m, delay); }
  }

  lemma {:induction false} WalkSkips(delay: Dur, skips: Skips, k: nat, n: nat)
    requires delay > 0 && skips == Skips(None, map["j" := 11 * delay]) && k + n == 11
    ensures Walk(Every(delay).next.value, skips, "j", k * delay, n) == 11 * delay
    decreases n
  {
    if n > 0 {
      MulMono(k, 11, delay);
      MultipleNext(delay, k);
      WalkSkips(delay, skips, k + 1, n - 1);
    }
  }

  /** Wherever the walk ends is a fire, or the zero time. */
  lemma {:induction false} WalkLands(next: Time -> Time, fires: iset<Time>, skips: Skips, slug: string, t: Time,
      n: nat)
    requires IsNext(next, fires)
    ensures var fire := Walk(next, skips, slug, next(t), n); fire in fires || fire == NEVER
    decreases n
  {
    NextIsLeast(next, fires, t);
    if n > 0 && skips.Skipped(slug, next(t)) { WalkLands(next, fires, skips, slug, next(t), n - 1); }
  }

  // ----- the wake and the window agree -----

  /** The fire openDueWindows finds at a tick in the schedule: it looks back by
      the configured buffer, whatever the job's own. */
  function WindowFire(next: Time -> Time, lookBack: Dur, tick: Time): Time {
    next(tick - lookBack)
  }

  /** The fire it considers: the scheduler's announcement, or else that. */
  function Considered(j: Planned, lookBack: Dur, tick: Time): Time
    requires j.next.Some?
  {
    if Announced(j, tick).Some? then Announced(j, tick).value else WindowFire(j.next.value, lookBack, tick)
  }

  /** No other fire lies within the two buffers before this one. */
  ghost predicate Apart(fires: iset<Time>, fire: Time, buffers: Dur) {
    forall f: Time :: f in fires && f < fire ==> f <= fire - buffers
  }

  /** Every tick between the wake and its fire finds that same fire in the
      schedule exactly when no other lies within the two buffers before it. */
  lemma AgreeIff(next: Time -> Time, fires: iset<Time>, fire: Time, buffer: Dur, lookBack: Dur)
    requires IsNext(next, fires) && fire in fires && buffer > 0 && lookBack > 0
    ensures (forall tick :: fire - buffer <= tick < fire ==> WindowFire(next, lookBack, tick) == fire)
            <==> Apart(fires, fire, buffer + lookBack)
  {
    hide IsNext;
    if forall tick :: fire - buffer <= tick < fire ==> WindowFire(next, lookBack, tick) == fire {
      forall f: Time | f in fires && f < fire
        ensures f <= fire - (buffer + lookBack)
      {
        assert WindowFire(next, lookBack, fire - buffer) == fire;
        NextIsLeast(next, fires, fire - buffer - lookBack);
      }
    }
    if Apart(fires, fire, buffer + lookBack) {
      forall tick | fire - buffer <= tick < fire
        ensures WindowFire(next, lookBack, tick) == fire
      {
        NextIsLeast(next, fires, tick - lookBack);
      }
    }
  }

  /** The wake's fire is the one the scheduler announces, or else no
      announcement is left at the wake and no other fire lies within the two
      buffers before it. */
  ghost predicate Agreed(j: Planned, fires: iset<Time>, skips: Skips, now: Time, lookBack: Dur)
    requires j.next.Some?
  {
    var announced, fire := Announced(j, now), FireOf(j, skips, now);
    announced == Some(fire)
    || ((announced.Some? ==> announced.value <= fire - j.buffer) && Apart(fires, fire, j.buffer + lookBack))
  }

  /** Every tick between a booked wake and its fire considers that same fire
      exactly when they are agreed in that way. */
  lemma BookedIsConsideredIff(j: Planned, fires: iset<Time>, skips: Skips, now: Time, lookBack: Dur)
    requires Eligible(j, skips, now) && IsNext(j.next.value, fires) && now >= NEVER
    requires j.buffer > 0 && lookBack > 0
    ensures (forall tick :: FireOf(j, skips, now) - j.buffer <= tick < FireOf(j, skips, now) ==>
               Considered(j, lookBack, tick) == FireOf(j, skips, now))
            <==> Agreed(j, fires, skips, now, lookBack)
  {
    hide IsNext, Apart;
    var next, fire, announced := j.next.value, FireOf(j, skips, now), Announced(j, now);
    var wakeAt := fire - j.buffer;
    if announced != Some(fire) {
      BookedIsFire(j, fires, skips, now);
      AgreeIff(next, fires, fire, j.buffer, lookBack);
      assert announced.Some? && announced.value > wakeAt ==> Considered(j, lookBack, wakeAt) == announced.value;
      assert (announced.Some? ==> announced.value <= wakeAt) ==>
          forall tick :: wakeAt <= tick < fire ==> Considered(j, lookBack, tick) == WindowFire(next, lookBack, tick);
    }
  }

  /** An hourly job that wants fifty minutes, under a configured buffer of twenty:
      the tick at the wake considers the fire an hour before the one the wake is
      for. */
  lemma WakeFindsEarlierFire()
    ensures var j, skips := Every(HOUR).(buffer := 50 * MINUTE), Skips(None, map[]);
            && Eligible(j, skips, HOUR) && FireOf(j, skips, HOUR) == 2 * HOUR
            && Considered(j, 20 * MINUTE, FireOf(j, skips, HOUR) - j.buffer) == HOUR
  {
    MultipleNext(HOUR, 1);
    assert Every(HOUR).next.value(HOUR) == 2 * HOUR;
  }

  /** A wake that is not for the announced fire is for one of the schedule's. */
  lemma BookedIsFire(j: Planned, fires: iset<Time>, skips: Skips, now: Time)
    requires j.next.Some? && IsNext(j.next.value, fires) && now >= NEVER
    requires FireOf(j, skips, now) > now && Announced(j, now) != Some(FireOf(j, skips, now))
    ensures FireOf(j, skips, now) in fires
  {
    hide IsNext;
    if Announced(j, now).Some? {
      WalkLands(j.next.value, fires, skips, j.slug, Announced(j, now).value, SKIP_WALK - 1);
    } else {
      WalkLands(j.next.value, fires, skips, j.slug, now, SKIP_WALK);
    }
  }

  /** So the daemon opens the window it woke the machine for. With the wake
      booked as nextWakeTarget chose it, any tick from the wake on, before the
      fire, opens a window for exactly that fire, unless one of the daemon's own
      reasons not to open applies: a pause, a latched cutout, a window already
      open, a fire already served or skipped. */
  lemma WakeOpensItsWindow(jobs: seq<Planned>, k: nat, skips: Skips, now: Time, fires: iset<Time>, s: State, e: Event)
    requires k < |jobs| && Eligible(jobs[k], skips, now) && IsNext(jobs[k].next.value, fires) && now >= NEVER
    requires Normal(s.cfg) && s.skips == skips
    requires var j, target := jobs[k], TargetOf(jobs, k, skips, now);
             && j.slug in s.jobs && s.jobs[j.slug].enabled && j.buffer == Buffer(s.cfg, s.jobs[j.slug])
             && Agreed(j, fires, skips, now, s.cfg.wakeBuffer)
             && Enabled(s, e) && e.step.Opening? && target.wakeAt <= e.now < target.fire
             && j.slug in e.step.offers && e.step.offers[j.slug].fire == Considered(j, s.cfg.wakeBuffer, e.now)
             && !s.paused && s.latch.None? && JobId(j.slug) !in s.holds
             && (j.slug in s.served ==> target.fire > s.served[j.slug]) && !skips.Skipped(j.slug, target.fire)
    ensures var p, id := Do(s, e), JobId(jobs[k].slug);
            id in p.holds && p.holds[id].fireAt == TargetOf(jobs, k, skips, now).fire && p.holds[id].openedAt == e.now
  {
    hide OfferAll, IsNext, Normal, FireOf, Considered, Announced, Agreed;
    var j := jobs[k];
    BuffersArePositive(s.cfg, s.jobs[j.slug]);
    BookedIsConsideredIff(j, fires, skips, now, s.cfg.wakeBuffer);
    assert Considered(j, s.cfg.wakeBuffer, e.now) == FireOf(j, skips, now);
    OfferHold(s.(clock := e.now), e.step.jobOrder, e.step.offers, e.now, JobId(j.slug));
  }

  lemma BuffersArePositive(cfg: Config, job: Job)
    requires Normal(cfg)
    ensures cfg.wakeBuffer > 0 && Buffer(cfg, job) > 0
  {
  }
}
