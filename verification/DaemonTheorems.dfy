// What the daemon promises, over every run of its steps from a fresh start.
module DaemonTheorems {
  import opened Prelude
  import opened Configs
  import opened Cutouts
  import opened Ids
  import opened Runs
  import opened Holds
  import opened DaemonModel
  import opened DaemonPasses
  import opened DaemonInvariants
  import opened DaemonSteps
  import opened DaemonWindows
  import Text

  /** Reached from a fresh start by some run. */
  ghost predicate Reaches(s0: State, run: seq<Event>, s: State) {
    s0.Fresh() && IsRun(s0, run) && s == After(s0, run)
  }

  lemma Reached(s0: State, run: seq<Event>, s: State)
    requires Reaches(s0, run, s)
    ensures Invariant(s)
  {
    hide Invariant, IsRun, After;
    StartKeeps(s0);
    RunKeeps(s0, run);
  }

  // ----- accounting -----

  /** Every job window ever opened is open still, or closed with exactly one run
      recorded for it. */
  lemma OneRunPerWindow(s0: State, run: seq<Event>, s: State, k: nat)
    requires Reaches(s0, run, s) && k < s.openings
    ensures exists p :: (SerialAt(s, p) == Some(k) && forall q :: SerialAt(s, q) == Some(k) ==> q == p)
  {
    hide Reaches, SerialAt;
    Reached(s0, run, s);
    assert Placed(s, k);
  }

  /** So the runs recorded for windows and the windows open add up to those ever
      opened: no other hold is recorded when it closes. */
  lemma WindowsAddUp(s0: State, run: seq<Event>, s: State)
    requires Reaches(s0, run, s)
    ensures WindowRuns(s.runs) + |OpenWindows(s.holds)| == s.openings
  {
    hide Reaches;
    Reached(s0, run, s);
  }

  lemma JobHoldsAreRegistered(s0: State, run: seq<Event>, s: State, slug: string)
    requires Reaches(s0, run, s) && JobId(slug) in s.holds
    ensures slug in s.jobs
  {
    hide Reaches;
    Reached(s0, run, s);
    assert HoldOk(s, JobId(slug), s.holds[JobId(slug)]);
  }

  // ----- cutouts and pause -----

  /** A latched cutout released something, and under it only windows a wrapped
      job opened are left; under a pause no window the schedule opened. */
  lemma LatchAndPauseHold(s0: State, run: seq<Event>, s: State)
    requires Reaches(s0, run, s)
    ensures s.latch.Some? ==> s.latch.value.released > 0
    ensures s.latch.Some? ==> forall id :: id in s.holds ==> id.JobId? && s.holds[id].origin.AdHoc?
    ensures s.paused ==> forall id :: id in s.holds ==> id.Manual() || s.holds[id].origin.AdHoc?
  {
    hide Reaches;
    Reached(s0, run, s);
    forall id | id in s.holds
      ensures s.latch.Some? ==> id.JobId? && s.holds[id].origin.AdHoc?
      ensures s.paused ==> id.Manual() || s.holds[id].origin.AdHoc?
    {
      assert HoldOk(s, id, s.holds[id]);
    }
  }

  /** The state a run is in before its i-th step. */
  function StateAt(s: State, run: seq<Event>, i: nat): State
    requires i <= |run|
  {
    After(s, run[..i])
  }

  lemma {:induction false} NextState(s: State, run: seq<Event>, i: nat)
    requires IsRun(s, run) && i < |run|
    ensures StateAt(s, run, i + 1) == Do(StateAt(s, run, i), run[i])
    ensures Enabled(StateAt(s, run, i), run[i])
    decreases |run|
  {
    hide Do, Enabled;
    if i == 0 {
      assert run[..1][1..] == [];
      assert StateAt(s, run, 1) == After(Do(s, run[0]), []);
    } else {
      assert run[..i + 1][1..] == run[1..][..i] && run[..i][1..] == run[1..][..i - 1];
      NextState(Do(s, run[0]), run[1..], i - 1);
    }
  }

  lemma {:induction false} ConfigStaysNormal(s: State, run: seq<Event>, i: nat)
    requires IsRun(s, run) && i <= |run| && Normal(s.cfg)
    ensures Normal(StateAt(s, run, i).cfg)
  {
    hide Do, IsRun, After, Normal, Evolves;
    if i == 0 {
      assert StateAt(s, run, 0) == s by { AfterNone(s, run); }
    } else {
      ConfigStaysNormal(s, run, i - 1);
      NextState(s, run, i - 1);
      StepEvolves(StateAt(s, run, i - 1), run[i - 1]);
      if run[i - 1].step.SettingConfig? { ConfigSet(StateAt(s, run, i - 1), run[i - 1]); }
    }
  }

  lemma AfterNone(s: State, run: seq<Event>)
    ensures StateAt(s, run, 0) == s
  {
  }

  lemma ConfigSet(s: State, e: Event)
    requires e.step.SettingConfig?
    ensures Do(s, e).cfg == e.step.cfg
  {
  }

  /** Step i of a run is a sample on which a cutout of this kind fires. */
  ghost predicate FiresIn(s: State, run: seq<Event>, i: nat, kind: Kind)
    requires i < |run|
  {
    && run[i].step.Sampled?
    && var t := StateAt(s, run, i);
       var c := Fires(t.latch, Sample(run[i].step.st, run[i].now, |t.holds|), t.cfg);
       c.Some? && c.value.kind == kind
  }

  /** Step m leaves a cutout of this kind latched if it was. */
  ghost predicate Keeps(s: State, run: seq<Event>, m: nat, kind: Kind, cfg: Config)
    requires m < |run|
  {
    !run[m].step.SettingConfig? && (run[m].step.Sampled? ==> !Recovered(kind, run[m].step.st, cfg))
  }

  lemma {:induction false} LatchIsKept(s: State, run: seq<Event>, i: nat, j: nat, kind: Kind, cfg: Config)
    requires IsRun(s, run) && i < j <= |run| && FiresIn(s, run, i, kind) && cfg == StateAt(s, run, i).cfg
    requires forall m :: i < m < j ==> Keeps(s, run, m, kind, cfg)
    ensures var t := StateAt(s, run, j); t.latch.Some? && t.latch.value.kind == kind && t.cfg == cfg
  {
    hide Do, IsRun, After, StateAt, Evolves, EvaluateCutout, Recovered;
    NextState(s, run, j - 1);
    StepEvolves(StateAt(s, run, j - 1), run[j - 1]);
    if i + 1 < j {
      LatchIsKept(s, run, i, j - 1, kind, cfg);
      assert Keeps(s, run, j - 1, kind, cfg);
    }
  }

  /** In every run, between two firings of the same kind lies a sample with the
      lid open or that hazard recovered by its margin, or a configuration
      change. */
  lemma FiringsAreApart(s0: State, run: seq<Event>, i: nat, j: nat, kind: Kind)
    requires s0.Fresh() && IsRun(s0, run) && i < j < |run|
    requires FiresIn(s0, run, i, kind) && FiresIn(s0, run, j, kind)
    ensures exists m :: i < m < j && !Keeps(s0, run, m, kind, StateAt(s0, run, i).cfg)
  {
    hide Do, IsRun, After, StateAt;
    var cfg := StateAt(s0, run, i).cfg;
    ConfigStaysNormal(s0, run, i);
    if forall m :: i < m < j ==> Keeps(s0, run, m, kind, cfg) {
      LatchIsKept(s0, run, i, j, kind, cfg);
      MarginSeparates(kind, run[j].step.st, cfg);
      assert false;
    }
  }

  // ----- how long a hold can last -----

  /** However often it was renewed a run hold keeps inside its bounds. */
  lemma RunHoldsAreBounded(s0: State, run: seq<Event>, s: State, id: Id)
    requires Reaches(s0, run, s) && id in s.holds && (id.Keyed? || id.Counted?)
    ensures s.holds[id].openedAt <= s.holds[id].fireAt <= s.holds[id].openedAt + 12 * HOUR
    ensures 0 < s.holds[id].ceiling <= 30 * MINUTE
    ensures s.holds[id].Deadline() == s.holds[id].fireAt + s.holds[id].ceiling
  {
    hide Reaches;
    Reached(s0, run, s);
    assert HoldOk(s, id, s.holds[id]);
  }

  /** One pass of the ceiling loop, at a time past a hold's bound, closes it:
      for a run hold that is one lease after its last renewal, and so at most
      twelve hours and a lease after it opened; for a job's window it is the
      detect deadline or, once the job was seen, the later of its ceiling and
      the backstop. */
  lemma NothingOutlivesItsBound(s0: State, run: seq<Event>, s: State, e: Event, id: Id)
    requires Reaches(s0, run, s) && id in s.holds
    requires Enabled(s, e) && e.step.Sweep? && e.step.rule.Ceilings?
    requires e.now > s.holds[id].Bound(s.cfg)
    ensures id !in Do(s, e).holds
  {
    hide Reaches, Pass;
    Reached(s0, run, s);
    assert HoldOk(s, id, s.holds[id]);
    var t := s.(clock := e.now);
    PassHold(t, e.step.order, e.step.rule, e.now, id);
    CeilingBound(s.cfg, s.observers, s.holds[id], e.now);
  }

  lemma RunHoldsEnd(s0: State, run: seq<Event>, s: State, e: Event, id: Id)
    requires Reaches(s0, run, s) && id in s.holds && (id.Keyed? || id.Counted?)
    requires Enabled(s, e) && e.step.Sweep? && e.step.rule.Ceilings?
    requires e.now > s.holds[id].fireAt + s.holds[id].ceiling || e.now > s.holds[id].openedAt + 12 * HOUR + 30 * MINUTE
    ensures id !in Do(s, e).holds
  {
    hide Reaches, Do;
    Reached(s0, run, s);
    assert HoldOk(s, id, s.holds[id]);
    NothingOutlivesItsBound(s0, run, s, e, id);
  }

  /** A run recorded as a ceiling hit was seen running past a limit somebody
      typed, or past its start plus the backstop. */
  lemma CeilingHitsAreEarned(s0: State, run: seq<Event>, s: State, i: nat)
    requires Reaches(s0, run, s) && i < |s.runs| && s.runs[i].FromWindow?
    requires s.runs[i].run.outcome.HitCeiling? && s.runs[i].hold.job.maxRuntime <= 0
    ensures s.runs[i].hold.Detected() && s.runs[i].closed >= s.runs[i].hold.started.value + s.runs[i].backstop
  {
    hide Reaches;
    Reached(s0, run, s);
  }

  /** A run recorded as never detected is one that could have been detected, was
      not, and had until its deadline; and no window is recorded as slept
      through. */
  lemma NeverDetectedIsTrue(s0: State, run: seq<Event>, s: State, i: nat)
    requires Reaches(s0, run, s) && i < |s.runs| && s.runs[i].FromWindow?
    ensures s.runs[i].run.outcome.NeverDetected? ==>
              && s.runs[i].hold.job.detection.Observable() && s.runs[i].hold.started == None
              && s.runs[i].closed > s.runs[i].hold.detectDeadline
    ensures !s.runs[i].run.outcome.SleptThrough?
  {
    hide Reaches;
    Reached(s0, run, s);
  }

  /** Every run recorded for a window tells its window's story. */
  lemma RunsTellTheirWindows(s0: State, run: seq<Event>, s: State, i: nat)
    requires Reaches(s0, run, s) && i < |s.runs| && s.runs[i].FromWindow?
    ensures Tells(s.runs[i].run, s.runs[i].run.slug, s.runs[i].hold, s.runs[i].closed)
  {
    hide Reaches, Tells;
    Reached(s0, run, s);
  }

  // ----- late completions -----

  /** Every completion recorded late belongs to a window of that job which was
      recorded as ok with nobody able to see it run, and no window is completed
      late twice; one still awaited has not been. */
  lemma LateCompletionsAreDue(s0: State, run: seq<Event>, s: State, i: nat)
    requires Reaches(s0, run, s) && i < |s.runs| && s.runs[i].LateCompletion?
    ensures exists j :: 0 <= j < |s.runs| && UnseenClose(s.runs[j], s.runs[i].run.slug, s.runs[i].serial)
    ensures forall j :: 0 <= j < |s.runs| && LateFor(s.runs[j], s.runs[i].serial) ==> j == i
    ensures forall slug :: JobId(slug) in s.lateWatch ==> s.lateWatch[JobId(slug)].serial != s.runs[i].serial
  {
    hide Reaches, UnseenClose;
    Reached(s0, run, s);
    forall slug | JobId(slug) in s.lateWatch
      ensures s.lateWatch[JobId(slug)].serial != s.runs[i].serial
    {
      assert !LateFor(s.runs[i], s.lateWatch[JobId(slug)].serial);
    }
  }

  // ----- forced sleeps -----

  /** Every forced sleep happened with no hold open and not paused, and used up
      its own arming, made at least the grace period earlier by closing a
      detected job window as ok or failed, after a wake, with no hold left. */
  lemma SleepsAreEarned(s0: State, run: seq<Event>, s: State, i: nat)
    requires Reaches(s0, run, s) && i < |s.sleeps|
    ensures s.sleeps[i].holds == 0 && !s.sleeps[i].paused
    ensures 0 <= s.sleeps[i].arming < |s.armings| && Earned(s.armings[s.sleeps[i].arming])
    ensures s.sleeps[i].at >= s.armings[s.sleeps[i].arming].at + 45 * SECOND
    ensures forall j :: 0 <= j < |s.sleeps| && j != i ==> s.sleeps[j].arming != s.sleeps[i].arming
  {
    hide Reaches;
    Reached(s0, run, s);
    assert SleepsOk(s);
    assert s.armings[s.sleeps[i].arming] in s.armings;
  }

  /** No step arms a second sleep, and an arming step leaves no hold open. */
  lemma ArmingLeavesNoHold(s: State, e: Event)
    requires Enabled(s, e) && Do(s, e).armings != s.armings
    ensures |Do(s, e).armings| == |s.armings| + 1 && Do(s, e).holds == map[]
  {
    hide Enabled, Do;
    StepEvolves(s, e);
  }

  // ----- a start report fixes how long a window can last -----

  ghost predicate StaysOpen(s: State, run: seq<Event>, slug: string)
    decreases |run|
  {
    && JobId(slug) in s.holds
    && (run != [] ==> StaysOpen(Do(s, run[0]), run[1..], slug))
  }

  /** Once a job has been seen to start, nothing but another mark.start for it
      moves the moment by which its window is gone. */
  lemma {:induction false} BoundStays(s: State, run: seq<Event>, slug: string, cfg: Config)
    requires IsRun(s, run) && StaysOpen(s, run, slug) && s.holds[JobId(slug)].Detected()
    requires forall i :: 0 <= i < |run| ==> !(run[i].step.Marking? && run[i].step.slug == slug)
    ensures JobId(slug) in After(s, run).holds
    ensures After(s, run).holds[JobId(slug)].Bound(cfg) == s.holds[JobId(slug)].Bound(cfg)
    decreases |run|
  {
    hide Do, Enabled;
    if run != [] {
      StepEvolves(s, run[0]);
      assert !(run[0].step.Marking? && run[0].step.slug == slug);
      assert slug !in Marked(run[0].step);
      BoundStays(Do(s, run[0]), run[1..], slug, cfg);
    }
  }

  // ----- requests keep to their own hold -----

  /** The hold a run request is about; an anonymous start is about a new one. */
  function Target(s: State, step: Step): Id
    requires step.StartingRun? || step.RenewingRun? || step.EndingRun?
  {
    match step
    case StartingRun(key, _) =>
      if Text.TrimSpace(key) == "" then Counted(s.runSeq + 1) else Keyed(Text.TrimSpace(key))
    case RenewingRun(id) => id
    case EndingRun(id) => id
  }

  /** No run request, and so no agent's, changes another's hold, opens a hold
      under another id or closes one. */
  lemma RunRequestsKeepToThemselves(s: State, e: Event, other: Id)
    requires e.step.StartingRun? || e.step.RenewingRun? || e.step.EndingRun?
    requires other != Target(s, e.step)
    ensures other in Do(s, e).holds <==> other in s.holds
    ensures other in s.holds ==> Do(s, e).holds[other] == s.holds[other]
  {
    hide Fin, StartRun, WithHold, Sync, Renewed, Text.TrimSpace;
    var t := s.(clock := e.now);
    match e.step {
      case StartingRun(key, want) => StartKeepsTo(t, key, want, e.now, other);
      case RenewingRun(id) => if id in t.holds { HoldsAfter(t, id, Renewed(t.holds[id], e.now)); }
      case EndingRun(id) =>
        if id in t.holds {
          FinFrame(t, id, t.holds[id], e.now, RanOk);
          SyncAside(Fin(t, id, t.holds[id], e.now, RanOk));
        }
    }
  }

  lemma StartKeepsTo(s: State, key: string, want: Dur, now: Time, other: Id)
    requires other != Target(s, StartingRun(key, want))
    ensures var p := StartRun(s, key, want, now);
            (other in p.holds <==> other in s.holds) && (other in s.holds ==> p.holds[other] == s.holds[other])
  {
    hide Text.TrimSpace, WithHold, UserHold, Lease, Renewed, InsertRun;
    var k := Text.TrimSpace(key);
    if k != "" && !s.hooksOn {
    } else if k != "" && Keyed(k) in s.holds {
      HoldsAfter(s, Keyed(k), Renewed(s.holds[Keyed(k)], now).(ceiling := Lease(k, want)));
    } else if s.latch.None? {
      if k == "" {
        InsertHolds(s.(runSeq := s.runSeq + 1), Counted(s.runSeq + 1), Lease(k, want), now);
      } else {
        InsertHolds(s, Keyed(k), Lease(k, want), now);
      }
    }
  }

  lemma HoldsAfter(s: State, id: Id, h: Hold)
    ensures WithHold(s, id, h).holds == s.holds[id := h]
  {
  }

  lemma InsertHolds(s: State, id: Id, lease: Dur, now: Time)
    ensures InsertRun(s, id, lease, now).holds ==
              if id in s.holds then s.holds else s.holds[id := UserHold(now, lease, Wrapped)]
  {
    hide UserHold;
    HoldsAfter(s, id, UserHold(now, lease, Wrapped));
    SyncAside(WithHold(s, id, UserHold(now, lease, Wrapped)));
  }

  /** An anonymous run's number is never that of a hold already open. */
  lemma NumbersAreNew(s0: State, run: seq<Event>, s: State)
    requires Reaches(s0, run, s)
    ensures Counted(s.runSeq + 1) !in s.holds
  {
    hide Reaches;
    Reached(s0, run, s);
    forall n: nat | Counted(n) in s.holds
      ensures n <= s.runSeq
    {
      assert HoldOk(s, Counted(n), s.holds[Counted(n)]);
    }
  }

  /** run.start trims its key and run.end does not, so ending by the key that
      was started closes the hold exactly when the key had no outer space. */
  lemma EndByKeyIff(s: State, key: string, want: Dur, now: Time, later: Time)
    requires s.hooksOn && s.latch.None? && Text.TrimSpace(key) != ""
    ensures Keyed(Text.TrimSpace(key)) !in EndHold(StartRun(s, key, want, now), Keyed(key), later, RanOk).holds
            <==> Text.TrimSpace(key) == key
  {
    hide Text.TrimSpace, Fin, Sync, InsertRun, UserHold, Lease, Renewed;
    var k := Text.TrimSpace(key);
    var t := StartRun(s, key, want, now);
    InsertHolds(s, Keyed(k), Lease(k, want), now);
    assert Keyed(k) in t.holds;
    if Keyed(key) in t.holds {
      FinFrame(t, Keyed(key), t.holds[Keyed(key)], later, RanOk);
      SyncAside(Fin(t, Keyed(key), t.holds[Keyed(key)], later, RanOk));
    }
  }

  // ----- the block and the windows, over whole runs -----

  /** After whole operations the helper is asked to block sleep exactly while
      some hold is open. */
  lemma WantedBlockMatchesHolds(s0: State, run: seq<Event>, s: State)
    requires Reaches(s0, run, s) && Whole(run)
    ensures s.wantBlocked <==> s.holds != map[]
  {
    hide IsRun, After;
    BlockMatchesHolds(s0, run);
  }

  ghost predicate NoEarlyMarks(s: State, run: seq<Event>)
    decreases |run|
  {
    run != [] ==> NoEarlyMark(s, run[0]) && NoEarlyMarks(Do(s, run[0]), run[1..])
  }

  lemma {:induction false} RunOrdered(s: State, run: seq<Event>)
    requires Ordered(s) && IsRun(s, run) && NoEarlyMarks(s, run)
    ensures Ordered(After(s, run))
    decreases |run|
  {
    hide Ordered, Do, Enabled, NoEarlyMark;
    if run != [] {
      StepOrdered(s, run[0]);
      RunOrdered(Do(s, run[0]), run[1..]);
    }
  }

  /** So no fire is held for twice, as long as no wrapper reports a start before
      the fire its job was last served for. */
  lemma ScheduledWindowsIncrease(s0: State, run: seq<Event>, s: State)
    requires Reaches(s0, run, s) && NoEarlyMarks(s0, run)
    ensures Increasing(s)
  {
    hide IsRun, After, NoEarlyMarks;
    RunOrdered(s0, run);
  }

  /** Without that, one is. A job served ahead of its fire, then marked again
      and finished before the fire, is due for the very same fire. */
  lemma EarlyMarkReopens(s: State, slug: string, fire: Time, pid: int, ceiling: Dur, exitCode: int, now: Time)
    requires slug in s.jobs && s.jobs[slug].enabled && JobId(slug) !in s.holds
    requires slug in s.served && s.served[slug] == fire
    requires fire - Buffer(s.cfg, s.jobs[slug]) <= now < fire && !s.skips.Skipped(slug, fire)
    ensures !Due(s, slug, fire, now)
    ensures var s' := MarkEnd(MarkStart(s, slug, pid, ceiling, now), slug, exitCode, now);
            slug in s'.jobs && Due(s', slug, fire, now)
  {
    hide Fin, Begin, OpenJob, Sync;
    var o := Offer(now, ceiling, false, false);
    var t := OpenJob(s, slug, o, AdHoc, now);
    var u := Begin(t, JobId(slug), pid, now);
    OpenJobFire(s, slug, o, now);
    BeginFire(t, slug, pid, now);
    BeginHolds(t, JobId(slug), pid, now);
    OpenFrame(s, slug, o, now);
    BeginFrame(t, JobId(slug), pid, now);
    var outcome := if exitCode == 0 then RanOk else RanFailed;
    var f := Fin(u, JobId(slug), u.holds[JobId(slug)], now, outcome);
    FinServes(u, JobId(slug), u.holds[JobId(slug)], now, outcome);
    FinFrame(u, JobId(slug), u.holds[JobId(slug)], now, outcome);
    SyncFrame(f);
    assert f.served[slug] == now;
  }

  lemma OpenFrame(s: State, slug: string, o: Offer, now: Time)
    requires slug in s.jobs
    ensures var p := OpenJob(s, slug, o, AdHoc, now);
            p == s.(holds := p.holds, openings := p.openings, windows := p.windows)
  {
  }

  lemma BeginFrame(s: State, id: Id, pid: int, now: Time)
    ensures var p := Begin(s, id, pid, now); p == s.(holds := p.holds, wantBlocked := p.wantBlocked)
  {
    hide Sync;
    if id in s.holds { SyncFrame(WithHold(s, id, s.holds[id].(started := Some(now), pid := pid))); }
  }

  lemma SyncFrame(s: State)
    ensures Sync(s) == s.(wantBlocked := Sync(s).wantBlocked)
  {
  }
}
