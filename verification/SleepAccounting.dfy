// internal/daemon/wake.go: inferring that the machine slept from a gap between
// ticks, and recording every fire it slept through exactly once.
module SleepAccounting {
  import opened Prelude
  import opened Runs
  import opened Schedules
  import opened Wakes

  // ----- gaps between ticks -----

  datatype Interval = Interval(sleep: Time, wake: Time)

  /** One pass of the control loop, and how long the loop was busy before it. */
  datatype Beat = Beat(now: Time, busy: Dur)

  /** The gap since the last tick, less the time the daemon was running, if that
      is long enough to call sleep. */
  function Gap(last: Time, beat: Beat, tick: Dur): Option<Dur> {
    var gap := beat.now - last - beat.busy;
    if gap < Max(4 * tick, MINUTE) then None else Some(gap)
  }

  function SleptBefore(last: Time, beat: Beat, tick: Dur): Option<Interval> {
    match Gap(last, beat, tick)
    case None => None
    case Some(gap) => Some(Interval(beat.now - gap, beat.now))
  }

  /** The wall clock does not go back and no time is negative. */
  ghost predicate Steady(beats: seq<Beat>) {
    && (forall i :: 0 <= i < |beats| ==> beats[i].busy >= 0)
    && (forall i, j :: 0 <= i < j < |beats| ==> beats[i].now <= beats[j].now)
  }

  /** A sleep is inferred exactly when what the clock jumped, less the busy time, is
      at least a minute and four ticks; it ends now and is that long. */
  lemma SleptIff(last: Time, beat: Beat, tick: Dur, iv: Interval)
    ensures SleptBefore(last, beat, tick) == Some(iv) <==>
              && iv.wake == beat.now && iv.wake - iv.sleep + beat.busy == beat.now - last
              && iv.wake - iv.sleep >= MINUTE && iv.wake - iv.sleep >= 4 * tick
  {
  }

  /** An inferred sleep lies between two ticks and is as long as the clock's
      jump less the busy time, so two of them never overlap. */
  lemma SleepsAreDisjoint(beats: seq<Beat>, tick: Dur, i: nat, j: nat)
    requires Steady(beats) && 0 < i < j < |beats|
    requires SleptBefore(beats[i - 1].now, beats[i], tick).Some?
    requires SleptBefore(beats[j - 1].now, beats[j], tick).Some?
    ensures var a := SleptBefore(beats[i - 1].now, beats[i], tick).value;
            var b := SleptBefore(beats[j - 1].now, beats[j], tick).value;
            && beats[i - 1].now <= a.sleep < a.wake == beats[i].now
            && a.wake - a.sleep >= MINUTE
            && a.wake <= b.sleep
  {
    assert i < j - 1 ==> beats[i].now <= beats[j - 1].now;
    assert beats[j].busy >= 0;
  }

  /** The fields the loop keeps for it. */
  class SleepClock {
    var lastTick: Option<Time>
    var busy: Dur
    var slept: seq<Interval>

    ghost predicate Valid()
      reads this
    {
      && busy >= 0
      && (forall i :: 0 <= i < |slept| ==> slept[i].sleep < slept[i].wake)
      && (forall i, j :: 0 <= i < j < |slept| ==> slept[i].wake <= slept[j].sleep)
      && (slept != [] ==> lastTick.Some? && slept[|slept| - 1].wake <= lastTick.value)
    }

    constructor ()
      ensures Valid() && lastTick == None && slept == []
    {
      lastTick, busy, slept := None, 0, [];
    }

    method Worked(d: Dur)
      requires Valid() && d >= 0
      modifies this`busy
      ensures Valid() && busy == old(busy) + d
    {
      busy := busy + d;
    }

    /** The busy time is claimed here, whatever the answer. */
    method SleepGap(now: Time, tick: Dur) returns (gap: Option<Dur>)
      modifies this`busy
      ensures busy == 0
      ensures gap == if lastTick.None? then None else Gap(lastTick.value, Beat(now, old(busy)), tick)
    {
      var claimed := busy;
      busy := 0;
      if lastTick.None? { return None; }
      var elapsed := now - lastTick.value;
      gap := Some(elapsed - claimed);
      if gap.value < Max(4 * tick, MINUTE) { gap := None; }
    }

    /** The start of a tick: the sleep before it, if any, is logged, and no two
        logged sleeps overlap. */
    method Tick(now: Time, tick: Dur) returns (iv: Option<Interval>)
      requires Valid() && (lastTick.Some? ==> lastTick.value <= now)
      modifies this
      ensures Valid() && lastTick == Some(now) && busy == 0
      ensures iv == if old(lastTick).None? then None else SleptBefore(old(lastTick).value, Beat(now, old(busy)), tick)
      ensures slept == if iv.Some? then old(slept) + [iv.value] else old(slept)
    {
      var gap := SleepGap(now, tick);
      iv := None;
      if gap.Some? {
        iv := Some(Interval(now - gap.value, now));
        slept := slept + [iv.value];
      }
      lastTick := Some(now);
    }
  }

  // ----- fires slept through -----

  /** What decides about a job's fires: what it was last served for, and what
      the user chose to skip. */
  datatype Watched = Watched(slug: string, detection: Detection, served: Option<Time>, skips: Skips)
  {
    predicate Excuses(fire: Time) {
      (served.Some? && fire <= served.value) || skips.Skipped(slug, fire)
    }
  }

  function Minute(t: Time): int { t / MINUTE }

  predicate SameMinute(r: Run, fire: Time) {
    Minute(r.windowOpened) == Minute(fire) || (r.started.Some? && Minute(r.started.value) == Minute(fire))
  }

  /** A job's history already has a run in this fire's minute. */
  predicate HasRunAt(runs: seq<Run>, fire: Time) {
    exists i :: 0 <= i < |runs| && SameMinute(runs[i], fire)
  }

  /** It opened, or its job started, in the same minute of the clock. */
  predicate InMinuteOf(r: Run, fire: Time) {
    || r.windowOpened / (60 * SECOND) == fire / (60 * SECOND)
    || (r.started.Some? && r.started.value / (60 * SECOND) == fire / (60 * SECOND))
  }

  function Missed(w: Watched, fire: Time): Run {
    Run(w.slug, fire, None, None, 0, 0, SleptThrough, w.detection, false)
  }

  /** Some fire is at or after the wake. */
  ghost predicate Lasts(fires: iset<Time>, wake: Time) {
    exists f: Time :: f in fires && f >= wake
  }

  lemma Advances(next: Time -> Time, fires: iset<Time>, fire: Time, wake: Time)
    requires IsNext(next, fires) && Lasts(fires, wake) && fire < wake
    ensures Later(fires, fire) && Least(fires, fire, next(fire))
  {
    NextIsLeast(next, fires, fire);
  }

  /** The walk over the fires from one on, up to the wake. */
  ghost function Walked(next: Time -> Time, fires: iset<Time>, w: Watched, runs: seq<Run>, fire: Time,
      wake: Time): seq<Run>
    requires IsNext(next, fires) && Lasts(fires, wake)
    decreases wake - fire
  {
    if fire >= wake then runs
    else
      Advances(next, fires, fire, wake);
      Walked(next, fires, w,
             if w.Excuses(fire) || HasRunAt(runs, fire) then runs else runs + [Missed(w, fire)], next(fire), wake)
  }

  /** Why ParseAt refuses a schedule with no fire to come: the walk from the first
      fire after an instant reaches the wake exactly when some fire is at or after
      it, for past its last fire a schedule answers the zero time, and the walk
      would start over from there for ever. */
  lemma WalkEndsIff(next: Time -> Time, fires: iset<Time>, from: Time, wake: Time)
    requires IsNext(next, fires) && wake > NEVER
    ensures (exists n: nat :: Nth(next, next(from), n) >= wake) <==> Lasts(fires, wake)
  {
    hide IsNext;
    if Lasts(fires, wake) {
      var n: nat := if wake > next(from) then wake - next(from) else 0;
      Gains(next, fires, next(from), wake, n);
    } else {
      forall n: nat
        ensures Nth(next, next(from), n) < wake
      {
        StaysBefore(next, fires, from, wake, n);
      }
    }
  }

  /** Every turn gains, until the wake is reached. */
  lemma {:induction false} Gains(next: Time -> Time, fires: iset<Time>, fire: Time, wake: Time, n: nat)
    requires IsNext(next, fires) && Lasts(fires, wake)
    ensures exists m: nat :: m <= n && (Nth(next, fire, m) >= wake || (m == n && Nth(next, fire, n) >= fire + n))
  {
    hide IsNext;
    if n == 0 {
      assert Nth(next, fire, 0) == fire;
    } else {
      Gains(next, fires, fire, wake, n - 1);
      var m: nat :| m <= n - 1
        && (Nth(next, fire, m) >= wake || (m == n - 1 && Nth(next, fire, n - 1) >= fire + (n - 1)));
      if Nth(next, fire, m) < wake {
        Advances(next, fires, Nth(next, fire, n - 1), wake);
        assert Nth(next, fire, n) >= fire + n;
      }
    }
  }

  lemma {:induction false} StaysBefore(next: Time -> Time, fires: iset<Time>, from: Time, wake: Time, n: nat)
    requires IsNext(next, fires) && wake > NEVER && !Lasts(fires, wake)
    ensures Nth(next, next(from), n) < wake
  {
    hide IsNext;
    NextIsLeast(next, fires, if n == 0 then from else Nth(next, next(from), n - 1));
  }

  /** So over a schedule that parses, once the sleep has ended, the walk ends. */
  lemma ParsedLasts(spec: Time -> Time, fires: iset<Time>, parsedAt: Time, wake: Time)
    requires IsNext(spec, fires) && Parsed(spec, parsedAt).Some? && wake <= parsedAt
    ensures Lasts(fires, wake) && Later(fires, parsedAt)
    ensures forall from: Time :: from <= parsedAt ==> Later(fires, from)
  {
    NextIsLeast(spec, fires, parsedAt);
    assert spec(parsedAt) in fires;
  }

  /** A job as the daemon finds it after a sleep: the schedule its expression
      stands for, if it is one, and when that is parsed. */
  datatype Sleeper = Sleeper(watched: Watched, enabled: bool, spec: Option<Time -> Time>, createdAt: Time,
      parsedAt: Time, ghost fires: iset<Time>)
  {
    ghost predicate Lawful() {
      spec.Some? ==> IsNext(spec.value, fires)
    }

    /** Enabled, with a schedule that parses. */
    predicate Live() {
      enabled && spec.Some? && Parsed(spec.value, parsedAt).Some?
    }

    ghost function Record(runs: seq<Run>, iv: Interval): seq<Run>
      requires Lawful() && iv.wake <= parsedAt
    {
      if Live() then
        ParsedLasts(spec.value, fires, parsedAt, iv.wake);
        Walked(spec.value, fires, watched, runs, spec.value(Max(iv.sleep, createdAt)), iv.wake)
      else runs
    }
  }

  class History {
    var runs: map<string, seq<Run>>

    constructor (runs: map<string, seq<Run>>)
      ensures this.runs == runs
    {
      this.runs := runs;
    }

    method Seen(slug: string, fire: Time) returns (found: bool)
      requires slug in runs
      ensures found <==> HasRunAt(runs[slug], fire)
      ensures found <==> exists i :: 0 <= i < |runs[slug]| && InMinuteOf(runs[slug][i], fire)
    {
      var k := 0;
      while k < |runs[slug]|
        invariant k <= |runs[slug]|
        invariant forall i :: 0 <= i < k ==> !SameMinute(runs[slug][i], fire)
      {
        if SameMinute(runs[slug][k], fire) { return true; }
        k := k + 1;
      }
      return false;
    }

    /** One job's turn of recordSleptThrough: the walk over its fires ends, and
        touches no other job's history. */
    method RecordJob(j: Sleeper, iv: Interval)
      requires j.Lawful() && iv.wake <= j.parsedAt && j.watched.slug in runs
      modifies this
      ensures runs == old(runs)[j.watched.slug := j.Record(old(runs)[j.watched.slug], iv)]
    {
      var w := j.watched;
      assert runs[w.slug := runs[w.slug]] == runs;
      if !j.enabled || j.spec.None? { return; }
      var sched := Parsed(j.spec.value, j.parsedAt);
      if sched.None? { return; }
      var next := sched.value;
      ParsedLasts(next, j.fires, j.parsedAt, iv.wake);
      var from := iv.sleep;
      if j.createdAt > from { from := j.createdAt; }
      var fire := next(from);
      while fire < iv.wake
        invariant w.slug in runs && runs == old(runs)[w.slug := runs[w.slug]]
        invariant Walked(next, j.fires, w, runs[w.slug], fire, iv.wake)
                  == Walked(next, j.fires, w, old(runs)[w.slug], next(from), iv.wake)
        decreases iv.wake - fire
      {
        if !w.Excuses(fire) {
          var seen := Seen(w.slug, fire);
          if !seen { runs := runs[w.slug := runs[w.slug] + [Missed(w, fire)]]; }
        }
        Advances(next, j.fires, fire, iv.wake);
        fire := next(fire);
      }
    }

    /** recordSleptThrough: every enabled job with a schedule that parses gets
        its own walk, and no other history changes. */
    method RecordSleptThrough(jobs: seq<Sleeper>, iv: Interval)
      requires forall i :: 0 <= i < |jobs| ==> jobs[i].watched.slug in runs
      requires forall i :: 0 <= i < |jobs| ==> jobs[i].Lawful() && iv.wake <= jobs[i].parsedAt
      requires forall i, j :: 0 <= i < j < |jobs| ==> jobs[i].watched.slug != jobs[j].watched.slug
      modifies this
      ensures runs.Keys == old(runs).Keys
      ensures forall i :: 0 <= i < |jobs| ==>
                runs[jobs[i].watched.slug] == jobs[i].Record(old(runs)[jobs[i].watched.slug], iv)
      ensures forall slug :: slug in runs && (forall i :: 0 <= i < |jobs| ==> jobs[i].watched.slug != slug) ==>
                               runs[slug] == old(runs)[slug]
    {
      var k := 0;
      while k < |jobs|
        invariant k <= |jobs| && runs.Keys == old(runs).Keys
        invariant forall i :: 0 <= i < k ==>
                    runs[jobs[i].watched.slug] == jobs[i].Record(old(runs)[jobs[i].watched.slug], iv)
        invariant forall slug :: slug in runs && (forall i :: 0 <= i < k ==> jobs[i].watched.slug != slug) ==>
                                   runs[slug] == old(runs)[slug]
      {
        RecordJob(jobs[k], iv);
        k := k + 1;
      }
    }
  }

  /** A fire of the schedule inside the interval, after the job's creation, that
      nothing excuses. */
  ghost predicate Owed(fires: iset<Time>, w: Watched, from: Time, wake: Time, fire: Time) {
    && fire in fires && from < fire < wake
    && (w.served.Some? ==> fire > w.served.value)
    && !(w.skips.all.Some? && fire <= w.skips.all.value)
    && !(w.slug in w.skips.jobs && fire <= w.skips.jobs[w.slug])
  }

  /** The walk appends runs for owed fires only, in time order, at most one a
      minute and none in a minute already recorded; and covers every owed one. */
  ghost predicate Exact(fires: iset<Time>, w: Watched, runs: seq<Run>, from: Time, wake: Time, r: seq<Run>) {
    && |runs| <= |r| && r[..|runs|] == runs
    && (forall i :: |runs| <= i < |r| ==> Appended(fires, w, runs, from, wake, r[i]))
    && (forall i, j :: |runs| <= i < j < |r| ==> r[i].windowOpened < r[j].windowOpened)
    && (forall fire :: Owed(fires, w, from, wake, fire) ==> HasRunAt(r, fire))
  }

  ghost predicate Appended(fires: iset<Time>, w: Watched, runs: seq<Run>, from: Time, wake: Time, run: Run) {
    && run == Run(w.slug, run.windowOpened, None, None, 0, 0, SleptThrough, w.detection, false)
    && Owed(fires, w, from, wake, run.windowOpened)
    && !HasRunAt(runs, run.windowOpened)
    && forall g :: Owed(fires, w, from, wake, g) && g < run.windowOpened ==> Minute(g) != Minute(run.windowOpened)
  }

  lemma HasMore(runs: seq<Run>, more: seq<Run>, fire: Time)
    requires |runs| <= |more| && more[..|runs|] == runs
    ensures HasRunAt(runs, fire) ==> HasRunAt(more, fire)
  {
    if HasRunAt(runs, fire) {
      var i :| 0 <= i < |runs| && SameMinute(runs[i], fire);
      assert more[i] == more[..|runs|][i];
    }
  }

  lemma {:induction false} WalkIsExact(next: Time -> Time, fires: iset<Time>, w: Watched, runs: seq<Run>, from: Time,
      wake: Time)
    requires IsNext(next, fires) && Lasts(fires, wake) && Later(fires, from)
    ensures Exact(fires, w, runs, from, wake, Walked(next, fires, w, runs, next(from), wake))
    decreases wake - from
  {
    hide IsNext;
    var fire := next(from);
    NextIsLeast(next, fires, from);
    if fire < wake {
      var longer := if w.Excuses(fire) || HasRunAt(runs, fire) then runs else runs + [Missed(w, fire)];
      Advances(next, fires, fire, wake);
      WalkIsExact(next, fires, w, longer, fire, wake);
      var r := Walked(next, fires, w, longer, next(fire), wake);
      ExactStep(fires, w, runs, longer, from, fire, wake, r);
    }
  }

  /** One step of the walk, from the fire that follows it. */
  lemma ExactStep(fires: iset<Time>, w: Watched, runs: seq<Run>, longer: seq<Run>, from: Time, fire: Time,
      wake: Time, r: seq<Run>)
    requires fire in fires && from < fire < wake
    requires forall f: Time :: f in fires && f > from ==> fire <= f
    requires longer == if w.Excuses(fire) || HasRunAt(runs, fire) then runs else runs + [Missed(w, fire)]
    requires Exact(fires, w, longer, fire, wake, r)
    ensures Exact(fires, w, runs, from, wake, r)
  {
    assert r[..|runs|] == r[..|longer|][..|runs|];
    forall g | Owed(fires, w, from, wake, g)
      ensures HasRunAt(r, g)
      ensures g == fire || Owed(fires, w, fire, wake, g)
    {
      HasMore(longer, r, g);
      if g == fire && !HasRunAt(runs, fire) { assert SameMinute(longer[|runs|], fire); }
    }
    forall i | |runs| <= i < |r|
      ensures Appended(fires, w, runs, from, wake, r[i])
      ensures i >= |longer| ==> fire < r[i].windowOpened
    {
      if i < |longer| {
        assert r[i] == r[..|longer|][i];
      } else {
        LaterAppended(fires, w, runs, longer, from, fire, wake, r[i]);
      }
    }
  }

  lemma LaterAppended(fires: iset<Time>, w: Watched, runs: seq<Run>, longer: seq<Run>, from: Time, fire: Time,
      wake: Time, run: Run)
    requires fire in fires && from < fire < wake
    requires forall f: Time :: f in fires && f > from ==> fire <= f
    requires longer == if w.Excuses(fire) || HasRunAt(runs, fire) then runs else runs + [Missed(w, fire)]
    requires Appended(fires, w, longer, fire, wake, run)
    ensures Appended(fires, w, runs, from, wake, run)
  {
    var f := run.windowOpened;
    assert longer[..|runs|] == runs;
    HasMore(runs, longer, f);
    forall g | Owed(fires, w, from, wake, g) && g < f
      ensures Minute(g) != Minute(f)
    {
      if g == fire {
        OwedIsSeen(w, runs, longer, fire, f);
      } else {
        assert Owed(fires, w, fire, wake, g);
      }
    }
  }

  lemma OwedIsSeen(w: Watched, runs: seq<Run>, longer: seq<Run>, fire: Time, f: Time)
    requires !w.Excuses(fire)
    requires longer == if HasRunAt(runs, fire) then runs else runs + [Missed(w, fire)]
    requires !HasRunAt(longer, f)
    ensures Minute(fire) != Minute(f)
  {
    if HasRunAt(runs, fire) {
      var i :| 0 <= i < |runs| && SameMinute(runs[i], fire);
      assert !SameMinute(longer[i], f);
    } else {
      assert !SameMinute(longer[|runs|], f);
    }
  }

  lemma NewRunAt(runs: seq<Run>, more: seq<Run>, fire: Time) returns (i: nat)
    requires |runs| <= |more| && more[..|runs|] == runs
    requires HasRunAt(more, fire) && !HasRunAt(runs, fire)
    ensures |runs| <= i < |more| && SameMinute(more[i], fire)
  {
    forall k | 0 <= k < |runs|
      ensures !SameMinute(more[k], fire)
    {
      assert more[..|runs|][k] == runs[k];
    }
    i :| 0 <= i < |more| && SameMinute(more[i], fire);
  }

  /** A fire gets a run exactly when it is owed, its minute has none yet, and no
      earlier owed fire shares its minute. */
  lemma RecordedIff(next: Time -> Time, fires: iset<Time>, w: Watched, runs: seq<Run>, from: Time, wake: Time,
      fire: Time)
    requires IsNext(next, fires) && Lasts(fires, wake) && Later(fires, from)
    ensures var r := Walked(next, fires, w, runs, next(from), wake);
            |runs| <= |r| && r[..|runs|] == runs
            && ((exists i :: |runs| <= i < |r| && r[i].windowOpened == fire) <==>
                (Owed(fires, w, from, wake, fire) && !HasRunAt(runs, fire)
                && forall g :: Owed(fires, w, from, wake, g) && g < fire ==> Minute(g) != Minute(fire)))
  {
    hide Walked, IsNext;
    WalkIsExact(next, fires, w, runs, from, wake);
    var r := Walked(next, fires, w, runs, next(from), wake);
    if Owed(fires, w, from, wake, fire) && !HasRunAt(runs, fire)
       && forall g :: Owed(fires, w, from, wake, g) && g < fire ==> Minute(g) != Minute(fire) {
      assert HasRunAt(r, fire);
      var i := NewRunAt(runs, r, fire);
      assert Appended(fires, w, runs, from, wake, r[i]);
      assert r[i].windowOpened == fire;
    }
  }

  /** What one job's turn of recordSleptThrough records, for every job: nothing
      unless it is enabled and its schedule parses, and then exactly such fires,
      however the job's creation lies to the sleep. */
  lemma JobRecordedIff(j: Sleeper, runs: seq<Run>, iv: Interval, fire: Time)
    requires j.Lawful() && iv.sleep <= iv.wake <= j.parsedAt
    requires j.createdAt <= j.parsedAt || Later(j.fires, j.createdAt)
    ensures var r, from := j.Record(runs, iv), Max(iv.sleep, j.createdAt);
            |runs| <= |r| && r[..|runs|] == runs
            && ((exists i :: |runs| <= i < |r| && r[i].windowOpened == fire) <==>
                (j.Live() && Owed(j.fires, j.watched, from, iv.wake, fire) && !HasRunAt(runs, fire)
                && forall g :: Owed(j.fires, j.watched, from, iv.wake, g) && g < fire ==> Minute(g) != Minute(fire)))
  {
    hide IsNext, Walked, Owed;
    if j.Live() {
      ParsedLasts(j.spec.value, j.fires, j.parsedAt, iv.wake);
      RecordedIff(j.spec.value, j.fires, j.watched, runs, Max(iv.sleep, j.createdAt), iv.wake, fire);
    }
  }

  lemma {:induction false} CoveredAddsNothing(next: Time -> Time, fires: iset<Time>, w: Watched, runs: seq<Run>,
      from: Time, wake: Time)
    requires IsNext(next, fires) && Lasts(fires, wake) && Later(fires, from)
    requires forall f :: Owed(fires, w, from, wake, f) ==> HasRunAt(runs, f)
    ensures Walked(next, fires, w, runs, next(from), wake) == runs
    decreases wake - from
  {
    hide IsNext;
    var fire := next(from);
    NextIsLeast(next, fires, from);
    if fire < wake {
      Advances(next, fires, fire, wake);
      assert !w.Excuses(fire) ==> Owed(fires, w, from, wake, fire);
      forall f | Owed(fires, w, fire, wake, f)
        ensures HasRunAt(runs, f)
      {
        assert Owed(fires, w, from, wake, f);
      }
      CoveredAddsNothing(next, fires, w, runs, fire, wake);
    }
  }

  /** Going over the same interval again, or over any part of it, as a sleep
      detected twice would, records nothing more. */
  lemma RecordingIsIdempotent(next: Time -> Time, fires: iset<Time>, w: Watched, runs: seq<Run>,
      from: Time, wake: Time, from': Time, wake': Time)
    requires IsNext(next, fires) && from <= from' && wake' <= wake
    requires Lasts(fires, wake) && Later(fires, from')
    ensures Lasts(fires, wake') && Later(fires, from)
    ensures var r := Walked(next, fires, w, runs, next(from), wake);
            Walked(next, fires, w, r, next(from'), wake') == r
  {
    hide Walked, IsNext;
    var r := Walked(next, fires, w, runs, next(from), wake);
    WalkIsExact(next, fires, w, runs, from, wake);
    forall f | Owed(fires, w, from', wake', f)
      ensures HasRunAt(r, f)
    {
      assert Owed(fires, w, from, wake, f);
    }
    CoveredAddsNothing(next, fires, w, r, from', wake');
  }
}
