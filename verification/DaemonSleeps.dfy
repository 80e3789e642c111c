// What moves a pending forced sleep, over whole runs, and what does not.
module DaemonSleeps {
  import opened Prelude
  import opened Ids
  import opened Runs
  import opened Holds
  import opened DaemonModel
  import opened DaemonPasses
  import opened DaemonInvariants
  import opened DaemonSteps
  import opened DaemonRequests
  import opened DaemonTheorems

  /** No check of the pending sleep is made in this run. */
  ghost predicate Unchecked(run: seq<Event>) {
    forall i :: 0 <= i < |run| ==> !run[i].step.SleepingBack?
  }

  lemma {:induction false} ArmingsGrow(s: State, run: seq<Event>)
    requires IsRun(s, run)
    ensures |After(s, run).armings| >= |s.armings|
    decreases |run|
  {
    hide Do, Enabled, WindowsStay;
    if run != [] {
      StepEvolves(s, run[0]);
      ArmingsGrow(Do(s, run[0]), run[1..]);
    }
  }

  /** A pending sleep stays pending, for the same moment, through any run in
      which it is neither checked nor armed anew: nothing opened, paused or
      resumed meanwhile cancels it. */
  lemma {:induction false} PendingSleepStays(s: State, run: seq<Event>)
    requires IsRun(s, run) && Unchecked(run) && After(s, run).armings == s.armings
    ensures After(s, run).sleepBackAt == s.sleepBackAt
    decreases |run|
  {
    hide Do, Enabled, WindowsStay;
    if run != [] {
      var t := Do(s, run[0]);
      assert !run[0].step.SleepingBack?;
      StepEvolves(s, run[0]);
      ArmingsGrow(t, run[1..]);
      assert Unchecked(run[1..]) by { assert forall i :: 0 <= i < |run[1..]| ==> run[1..][i] == run[i + 1]; }
      PendingSleepStays(t, run[1..]);
    }
  }

  /** So what decides, at the first check after it falls due, is what holds then
      and nothing that happened before: the machine is put to sleep exactly when
      a sleep is still wanted. */
  lemma SleepDecidedWhenDue(s: State, run: seq<Event>, e: Event)
    requires IsRun(s, run) && Unchecked(run) && After(s, run).armings == s.armings
    requires s.sleepBackAt.Some? && e.step.SleepingBack? && e.now >= s.sleepBackAt.value
    ensures var t, p := After(s, run), Do(After(s, run), e);
            && (p.sleeps != t.sleeps <==> SleepWanted(t, e.step.idle, e.now))
            && (p.sleeps != t.sleeps ==>
                  p.sleeps == t.sleeps + [Sleep(e.now, |s.armings| - 1, |t.holds|, t.paused)])
            && p.sleepBackAt == None
  {
    hide IsRun, After;
    PendingSleepStays(s, run);
    DueSleep(After(s, run), e);
  }

  lemma DueSleep(s: State, e: Event)
    requires e.step.SleepingBack? && s.sleepBackAt.Some? && e.now >= s.sleepBackAt.value
    ensures var p := Do(s, e);
            && p.sleeps == (if SleepWanted(s, e.step.idle, e.now)
                            then s.sleeps + [Sleep(e.now, |s.armings| - 1, |s.holds|, s.paused)] else s.sleeps)
            && p.sleepBackAt == None
  {
    hide SleepWanted;
    ClockUnread(s, e);
  }

  lemma ClockUnread(s: State, e: Event)
    requires e.step.SleepingBack?
    ensures SleepWanted(s.(clock := e.now), e.step.idle, e.now) == SleepWanted(s, e.step.idle, e.now)
  {
  }

  // ----- when the machine is put to sleep -----

  /** Nothing held, not paused, nobody at the machine for two minutes, no wake
      about to fire, and a sleep pending that is due. */
  predicate Quiet(s: State, e: Event) {
    && s.holds == map[] && !s.paused && s.cfg.sleepAfterWake
    && s.sleepBackAt.Some? && e.now >= s.sleepBackAt.value
    && e.step.SleepingBack? && e.step.idle.Some? && e.step.idle.value >= 2 * MINUTE
    && (s.nextWake.Some? ==> s.nextWake.value - e.now >= 90 * SECOND)
  }

  /** A step puts the machine to sleep exactly when all is quiet and it is the
      check of the pending sleep; then once. */
  lemma SleepsIffQuiet(s: State, e: Event)
    requires Enabled(s, e)
    ensures Do(s, e).sleeps ==
            if Quiet(s, e) then s.sleeps + [Sleep(e.now, |s.armings| - 1, 0, false)] else s.sleeps
  {
    hide Do, Enabled, SleepWanted, Quiet;
    StepEvolves(s, e);
    if e.step.SleepingBack? {
      WantedIffQuiet(s, e);
      if s.sleepBackAt.Some? && e.now >= s.sleepBackAt.value { DueSleep(s, e); } else { NotDue(s, e); }
    } else {
      assert !Quiet(s, e) by { WantedIffQuiet(s, e); }
    }
  }

  lemma WantedIffQuiet(s: State, e: Event)
    ensures Quiet(s, e) ==> e.step.SleepingBack? && s.holds == map[] && !s.paused
    ensures e.step.SleepingBack? && SleepWanted(s, e.step.idle, e.now) ==> s.holds == map[] && !s.paused
    ensures e.step.SleepingBack? ==>
              (Quiet(s, e) <==> SleepWanted(s, e.step.idle, e.now)
                                && s.sleepBackAt.Some? && e.now >= s.sleepBackAt.value)
  {
  }

  lemma NotDue(s: State, e: Event)
    requires e.step.SleepingBack? && !(s.sleepBackAt.Some? && e.now >= s.sleepBackAt.value)
    ensures Do(s, e).sleeps == s.sleeps
  {
    hide SleepWanted;
  }

  /** So in every run each forced sleep was taken at a step at which all was
      quiet, and is that step's only one. */
  lemma {:induction false} EverySleepWasQuiet(s: State, run: seq<Event>, j: nat, i: nat)
    requires IsRun(s, run) && j <= |run| && |s.sleeps| <= i < |StateAt(s, run, j).sleeps|
    ensures exists m :: 0 <= m < j && |StateAt(s, run, m).sleeps| == i && Quiet(StateAt(s, run, m), run[m])
                        && StateAt(s, run, j).sleeps[i].at == run[m].now
  {
    hide Do, IsRun, After, StateAt, Enabled, Quiet;
    if j == 0 {
      AfterNone(s, run);
    } else {
      NextState(s, run, j - 1);
      SleepsIffQuiet(StateAt(s, run, j - 1), run[j - 1]);
      if i < |StateAt(s, run, j - 1).sleeps| { EverySleepWasQuiet(s, run, j - 1, i); }
    }
  }

  // ----- so a hold opened and closed again, or a pause lifted, cancels nothing -----

  /** The only open hold is a job's window, seen running after a wake; nothing
      else stands against a forced sleep. */
  predicate LastJob(s: State, slug: string) {
    && slug in s.jobs && JobId(slug) in s.holds && s.holds == map[JobId(slug) := s.holds[JobId(slug)]]
    && s.holds[JobId(slug)].Detected() && (s.holds[JobId(slug)].wokeMachine || s.holds[JobId(slug)].followsWake)
    && s.cfg.sleepAfterWake && !s.paused && s.latch.None? && s.nextWake.None?
  }

  /** Armed after n sleeps, with nothing held and nothing against another. */
  predicate Armed(s: State, at: Time, n: nat) {
    && s.sleepBackAt == Some(at) && |s.sleeps| == n && s.holds == map[]
    && s.cfg.sleepAfterWake && !s.paused && s.latch.None? && s.nextWake.None?
  }

  lemma LastJobArms(s: State, slug: string, now: Time)
    requires LastJob(s, slug)
    ensures Armed(Do(s, Event(now, MarkingEnd(slug, 0))), now + SLEEP_BACK_GRACE, |s.sleeps|)
  {
    hide Framed, Fin;
    var t, id := s.(clock := now), JobId(slug);
    LastFin(t, id, t.holds[id], now);
    FinFrame(t, id, t.holds[id], now, RanOk);
    FramedAside(t, Fin(t, id, t.holds[id], now, RanOk));
  }

  lemma LastFin(s: State, id: Id, h: Hold, now: Time)
    requires id.JobId? && s.holds - {id} == map[] && h.Detected() && (h.wokeMachine || h.followsWake)
    ensures Fin(s, id, h, now, RanOk).sleepBackAt == Some(now + SLEEP_BACK_GRACE)
    ensures Fin(s, id, h, now, RanOk).holds == map[]
  {
    hide Finish;
  }

  lemma FramedAside(s: State, p: State)
    requires Framed(s, p)
    ensures p.cfg == s.cfg && p.paused == s.paused && p.latch == s.latch && p.nextWake == s.nextWake
    ensures p.sleeps == s.sleeps
  {
  }

  ghost predicate InTurn(s: State, e0: Event, e1: Event, e2: Event, e3: Event) {
    Enabled(s, e0) && Enabled(Do(s, e0), e1) && Enabled(Do(Do(s, e0), e1), e2) && Enabled(Do(Do(Do(s, e0), e1), e2), e3)
  }

  lemma AfterFour(s: State, e0: Event, e1: Event, e2: Event, e3: Event)
    ensures After(s, [e0, e1, e2, e3]) == Do(Do(Do(Do(s, e0), e1), e2), e3)
    ensures InTurn(s, e0, e1, e2, e3) ==> IsRun(s, [e0, e1, e2, e3])
  {
    hide Do, Enabled;
    var s2 := Do(Do(s, e0), e1);
    assert [e0, e1, e2, e3][1..] == [e1, e2, e3] && [e1, e2, e3][1..] == [e2, e3] && [e2, e3][1..] == [e3];
    assert [e3][1..] == [];
    assert After(s2, [e2, e3]) == After(Do(s2, e2), [e3]);
    assert Enabled(s2, e2) && Enabled(Do(s2, e2), e3) ==> IsRun(Do(s2, e2), [e3]) && IsRun(s2, [e2, e3]);
  }

  /** The user asking to stay awake, and then not to, before the grace ends:
      the machine is put to sleep all the same. */
  lemma KeepAwakeCancelsNothing(s: State, slug: string, a: Time, b: Time, c: Time, d: Time, want: Dur, idle: Dur)
    requires LastJob(s, slug) && s.clock <= a <= b <= c <= d && d == a + SLEEP_BACK_GRACE
    requires want > 0 && idle >= SLEEP_BACK_USER_IDLE
    ensures var run := [Event(a, MarkingEnd(slug, 0)), Event(b, KeepingAwake(want)),
                        Event(c, KeepingAwake(0)), Event(d, SleepingBack(Some(idle)))];
            IsRun(s, run) && |After(s, run).sleeps| == |s.sleeps| + 1
  {
    var e0, e1, e2, e3 := Event(a, MarkingEnd(slug, 0)), Event(b, KeepingAwake(want)),
                          Event(c, KeepingAwake(0)), Event(d, SleepingBack(Some(idle)));
    var s1 := Do(s, e0);
    var s2 := Do(s1, e1);
    var s3 := Do(s2, e2);
    AfterFour(s, e0, e1, e2, e3);
    hide After, Do, Armed, LastJob, Opened, IsRun, Enabled;
    ClockIs(s, e0);
    ClockIs(s1, e1);
    ClockIs(s2, e2);
    CanFollow(s, e0);
    CanFollow(s1, e1);
    CanFollow(s2, e2);
    CanFollow(s3, e3);
    LastJobArms(s, slug, a);
    KeepAwakeOpens(s1, d, |s.sleeps|, b, want);
    KeepAwakeEnds(s2, d, |s.sleeps|, c);
    ArmedSleeps(s3, e3, |s.sleeps|);
  }

  lemma ClockIs(s: State, e: Event)
    requires e.step.MarkingEnd? || e.step.KeepingAwake? || e.step.Pausing? || e.step.Resuming?
    ensures Do(s, e).clock == e.now
  {
    hide Fin, Framed, WithHold, Sync, Pass;
    var t := s.(clock := e.now);
    match e.step {
      case MarkingEnd(slug, exitCode) =>
        EndFrame(t, JobId(slug), e.now, if exitCode == 0 then RanOk else RanFailed);
      case KeepingAwake(want) =>
        EndFrame(t, KeepAwake, e.now, RanOk);
        CloseFrame(t, KeepAwake, e.now, RanOk);
        var c := CloseOpen(t, KeepAwake, e.now, RanOk);
        PutClock(c, KeepAwake, UserHold(e.now, ClampKeepAwake(want), ByUser));
      case Pausing(order) =>
        PassFrame(t.(paused := true), order, ReleaseAll, e.now);
        FramedLatch(t.(paused := true), Pass(t.(paused := true), order, ReleaseAll, e.now));
        SyncClock(Pass(t.(paused := true), order, ReleaseAll, e.now));
      case Resuming(_) =>
    }
  }

  lemma CanFollow(s: State, e: Event)
    requires e.step.MarkingEnd? || e.step.KeepingAwake? || e.step.Resuming? || e.step.SleepingBack?
             || (e.step == Pausing([]) && s.holds == map[])
    requires s.clock <= e.now
    ensures Enabled(s, e)
  {
  }

  lemma EndFrame(s: State, id: Id, now: Time, outcome: Outcome)
    ensures EndHold(s, id, now, outcome).clock == s.clock
  {
    hide Fin, Sync;
    CloseFrame(s, id, now, outcome);
    if id in s.holds { SyncClock(Fin(s, id, s.holds[id], now, outcome)); }
  }

  lemma SyncClock(s: State)
    ensures Sync(s).clock == s.clock
  {
  }

  lemma PutClock(s: State, id: Id, h: Hold)
    ensures Sync(WithHold(s, id, h)).clock == s.clock
  {
  }

  lemma ArmedSleeps(s: State, e: Event, n: nat)
    requires e.step.SleepingBack? && Armed(s, e.now, n)
    requires e.step.idle.Some? && e.step.idle.value >= SLEEP_BACK_USER_IDLE
    ensures |Do(s, e).sleeps| == n + 1
  {
    hide Do;
    DueSleep(s, e);
  }

  /** Armed, but for the user's own window. */
  predicate Opened(s: State, at: Time, n: nat) {
    && KeepAwake in s.holds && s.holds - {KeepAwake} == map[] && Armed(s.(holds := map[]), at, n)
  }

  lemma KeepAwakeOpens(s: State, at: Time, n: nat, now: Time, want: Dur)
    requires Armed(s, at, n) && want > 0
    ensures Opened(Do(s, Event(now, KeepingAwake(want))), at, n)
  {
  }

  lemma KeepAwakeEnds(s: State, at: Time, n: nat, now: Time)
    requires Opened(s, at, n)
    ensures Armed(Do(s, Event(now, KeepingAwake(0))), at, n)
  {
    hide Framed, Fin;
    var t := s.(clock := now);
    FinFrame(t, KeepAwake, t.holds[KeepAwake], now, RanOk);
    FramedAside(t, Fin(t, KeepAwake, t.holds[KeepAwake], now, RanOk));
    ManualLeavesPending(t, KeepAwake, t.holds[KeepAwake], now, RanOk);
  }

  lemma ManualLeavesPending(s: State, id: Id, h: Hold, now: Time, outcome: Outcome)
    requires id.Manual()
    ensures Fin(s, id, h, now, outcome).sleepBackAt == s.sleepBackAt
  {
  }

  /** Pausing and resuming before the grace ends: likewise. */
  lemma PauseCancelsNothing(s: State, slug: string, a: Time, b: Time, c: Time, d: Time, idle: Dur)
    requires LastJob(s, slug) && s.clock <= a <= b <= c <= d && d == a + SLEEP_BACK_GRACE
    requires idle >= SLEEP_BACK_USER_IDLE
    ensures var run := [Event(a, MarkingEnd(slug, 0)), Event(b, Pausing([])),
                        Event(c, Resuming(None)), Event(d, SleepingBack(Some(idle)))];
            IsRun(s, run) && |After(s, run).sleeps| == |s.sleeps| + 1
  {
    var e0, e1, e2, e3 := Event(a, MarkingEnd(slug, 0)), Event(b, Pausing([])),
                          Event(c, Resuming(None)), Event(d, SleepingBack(Some(idle)));
    var s1 := Do(s, e0);
    var s2 := Do(s1, e1);
    AfterFour(s, e0, e1, e2, e3);
    hide After, Do, Armed, LastJob, IsRun, Enabled;
    LastJobArms(s, slug, a);
    NothingArmed(s1, d, |s.sleeps|);
    ClockIs(s, e0);
    ClockIs(s1, e1);
    ClockIs(s2, e2);
    CanFollow(s, e0);
    CanFollow(s1, e1);
    CanFollow(s2, e2);
    CanFollow(Do(s2, e2), e3);
    PauseAndBack(s1, d, |s.sleeps|, b, c);
    ArmedSleeps(Do(s2, e2), e3, |s.sleeps|);
  }

  lemma NothingArmed(s: State, at: Time, n: nat)
    requires Armed(s, at, n)
    ensures s.holds == map[]
  {
  }

  lemma PauseAndBack(s: State, at: Time, n: nat, b: Time, c: Time)
    requires Armed(s, at, n)
    ensures Armed(Do(Do(s, Event(b, Pausing([]))), Event(c, Resuming(None))), at, n)
  {
  }
}
