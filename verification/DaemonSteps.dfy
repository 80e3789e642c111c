// What any one step may do to the pending sleep, to the windows that stay open
// and to the block asked of the helper.
module DaemonSteps {
  import opened Prelude
  import opened Cutouts
  import opened Ids
  import opened Runs
  import opened Holds
  import opened DaemonModel
  import opened DaemonPasses
  import opened DaemonInvariants
  import Text

  /** Armed at most once, and then with no hold left; unless it is armed anew a
      pending sleep stays as it is. */
  ghost predicate ArmedLast(s: State, p: State) {
    || (p.armings == s.armings && p.sleepBackAt == s.sleepBackAt)
    || (|p.armings| == |s.armings| + 1 && p.holds == map[])
  }

  /** Neither the latch nor the configuration is touched, no fire is opened for,
      and nothing is put to sleep. */
  predicate SettingsStay(s: State, p: State) {
    p.latch == s.latch && p.cfg == s.cfg && p.sleeps == s.sleeps && p.windows == s.windows
  }

  /** A job's window that stays open stays the same window, and a start once
      seen stays seen, save for the jobs that were marked. */
  ghost predicate WindowsStay(s: State, p: State, marked: set<string>) {
    forall slug :: JobId(slug) in s.holds && JobId(slug) in p.holds ==>
      && p.holds[JobId(slug)].SameWindow(s.holds[JobId(slug)])
      && (s.holds[JobId(slug)].Detected() && slug !in marked ==>
            p.holds[JobId(slug)].started == s.holds[JobId(slug)].started)
  }

  ghost predicate Evolves(s: State, p: State, marked: set<string>) {
    ArmedLast(s, p) && WindowsStay(s, p, marked) && SettingsStay(s, p)
  }

  /** Neither the armings nor any job's window is touched. */
  ghost predicate Aside(s: State, p: State) {
    && p.armings == s.armings && p.sleepBackAt == s.sleepBackAt && SettingsStay(s, p)
    && forall slug :: (JobId(slug) in p.holds <==> JobId(slug) in s.holds)
         && (JobId(slug) in s.holds ==> p.holds[JobId(slug)] == s.holds[JobId(slug)])
  }

  lemma AsideEvolves(s: State, t: State, p: State, marked: set<string>)
    requires Aside(s, t) && Evolves(t, p, marked)
    ensures Evolves(s, p, marked)
  {
    forall slug | JobId(slug) in s.holds && JobId(slug) in p.holds
      ensures p.holds[JobId(slug)].SameWindow(s.holds[JobId(slug)])
      ensures s.holds[JobId(slug)].Detected() && slug !in marked ==>
                p.holds[JobId(slug)].started == s.holds[JobId(slug)].started
    {
      assert JobId(slug) in t.holds;
    }
  }

  /** Evolving and then changing nothing an arming or a window depends on. */
  lemma EvolvesThen(s: State, t: State, p: State, marked: set<string>)
    requires Evolves(s, t, marked) && SettingsStay(t, p)
    requires p.armings == t.armings && p.holds == t.holds && p.sleepBackAt == t.sleepBackAt
    ensures Evolves(s, p, marked)
  {
  }

  lemma Unarmed(s: State, p: State)
    requires Aside(s, p)
    ensures Evolves(s, p, {})
  {
  }

  lemma SyncAside(s: State)
    ensures Aside(s, Sync(s)) && Sync(s).holds == s.holds && Sync(s).armings == s.armings
    ensures Sync(s).sleepBackAt == s.sleepBackAt
    ensures SettingsStay(s, Sync(s))
  {
  }

  lemma UserHoldAside(s: State, id: Id, h: Hold)
    requires !id.JobId?
    ensures Aside(s, WithHold(s, id, h))
  {
  }

  lemma FinEvolves(s: State, id: Id, h: Hold, now: Time, outcome: Outcome)
    ensures Evolves(s, Fin(s, id, h, now, outcome), {})
    ensures id.Manual() ==> Aside(s, Fin(s, id, h, now, outcome))
  {
    hide Closed;
    FinSummary(s, id, h, now, outcome);
  }

  lemma CloseEvolves(s: State, id: Id, now: Time, outcome: Outcome)
    ensures Evolves(s, CloseOpen(s, id, now, outcome), {})
    ensures Evolves(s, Sync(CloseOpen(s, id, now, outcome)), {})
    ensures Evolves(s, EndHold(s, id, now, outcome), {})
    ensures id.Manual() ==> Aside(s, CloseOpen(s, id, now, outcome))
  {
    hide Fin, Evolves, Sync;
    if id in s.holds { FinEvolves(s, id, s.holds[id], now, outcome); }
    assert Evolves(s, s, {}) by { Unarmed(s, s); }
    var c := CloseOpen(s, id, now, outcome);
    SyncAside(c);
    EvolvesThen(s, c, Sync(c), {});
  }

  // ----- loops -----

  lemma OneArms(s: State, id: Id, rule: Rule, now: Time)
    ensures ArmedLast(s, One(s, id, rule, now))
    ensures s.holds == map[] ==> One(s, id, rule, now) == s
  {
    hide Judge, Fin, Closed;
    if id in s.holds {
      var v := Judge(rule, id, s.holds[id], now);
      if v.Close? {
        FinEvolves(s, id, v.hold, now, v.outcome);
      }
    }
  }

  lemma {:induction false} PassArms(s: State, order: seq<Id>, rule: Rule, now: Time)
    ensures ArmedLast(s, Pass(s, order, rule, now))
  {
    hide One;
    if order != [] {
      var n := |order| - 1;
      PassArms(s, order[..n], rule, now);
      OneArms(Pass(s, order[..n], rule, now), order[n], rule, now);
    }
  }

  lemma PassEvolves(s: State, order: seq<Id>, rule: Rule, now: Time)
    requires Lists(order, s.holds.Keys)
    ensures Evolves(s, Pass(s, order, rule, now), {})
  {
    hide Pass, Judge, Framed;
    PassArms(s, order, rule, now);
    PassFrame(s, order, rule, now);
    FramedLatch(s, Pass(s, order, rule, now));
    forall slug | JobId(slug) in s.holds
      ensures var p := Pass(s, order, rule, now);
              JobId(slug) in p.holds ==>
                && p.holds[JobId(slug)].SameWindow(s.holds[JobId(slug)])
                && (s.holds[JobId(slug)].Detected() ==> p.holds[JobId(slug)].started == s.holds[JobId(slug)].started)
    {
      PassHold(s, order, rule, now, JobId(slug));
      JudgeKeepsWindow(rule, JobId(slug), s.holds[JobId(slug)], now);
    }
  }

  lemma OfferEvolves(s: State, order: seq<string>, offers: map<string, Offer>, now: Time)
    requires Lists(order, s.jobs.Keys)
    ensures Evolves(s, OpenDue(s, order, offers, now).(windows := s.windows), {})
  {
    hide OfferAll, Due;
    OfferFrame(s, order, offers, now);
    forall slug | JobId(slug) in s.holds
      ensures var p := OfferAll(s, order, offers, now);
              JobId(slug) in p.holds && p.holds[JobId(slug)] == s.holds[JobId(slug)]
    {
      OfferHold(s, order, offers, now, JobId(slug));
    }
  }

  lemma {:induction false} LateFrame(s: State, order: seq<Id>, records: map<string, Option<Record>>, now: Time)
    ensures var p := LateAll(s, order, records, now); p == s.(lateWatch := p.lateWatch, runs := p.runs)
  {
    hide LateRun;
    if order != [] {
      var n := |order| - 1;
      LateFrame(s, order[..n], records, now);
    }
  }

  // ----- requests -----

  lemma StartRunAside(s: State, key: string, want: Dur, now: Time)
    ensures Aside(s, StartRun(s, key, want, now))
  {
    hide Aside, InsertRun, WithHold, Text.TrimSpace;
    var k := Text.TrimSpace(key);
    SelfAside(s);
    if k != "" && Keyed(k) in s.holds {
      UserHoldAside(s, Keyed(k), Renewed(s.holds[Keyed(k)], now).(ceiling := Lease(k, want)));
    }
    NumberAside(s);
    var t := s.(runSeq := s.runSeq + 1);
    InsertAside(t, Counted(t.runSeq), Lease(k, want), now);
    InsertAside(s, Keyed(k), Lease(k, want), now);
    AsideTrans(s, t, InsertRun(t, Counted(t.runSeq), Lease(k, want), now));
  }

  lemma NumberAside(s: State)
    ensures Aside(s, s.(runSeq := s.runSeq + 1))
  {
  }

  lemma SelfAside(s: State)
    ensures Aside(s, s)
  {
  }

  lemma AsideTrans(s: State, t: State, p: State)
    requires Aside(s, t) && Aside(t, p)
    ensures Aside(s, p)
  {
  }

  lemma InsertAside(s: State, id: Id, lease: Dur, now: Time)
    requires !id.JobId?
    ensures Aside(s, InsertRun(s, id, lease, now))
  {
    hide Aside, WithHold, Sync, UserHold;
    SelfAside(s);
    var t := WithHold(s, id, UserHold(now, lease, Wrapped));
    UserHoldAside(s, id, UserHold(now, lease, Wrapped));
    SyncAside(t);
    AsideTrans(s, t, Sync(t));
  }

  lemma KeepAwakeAside(s: State, want: Dur, now: Time)
    ensures Aside(s, KeepAwakeFor(s, want, now))
  {
    hide Aside, CloseOpen, WithHold, Sync, UserHold, Fin;
    SelfAside(s);
    CloseEvolves(s, KeepAwake, now, RanOk);
    var c := CloseOpen(s, KeepAwake, now, RanOk);
    var h := UserHold(now, ClampKeepAwake(want), ByUser);
    UserHoldAside(c, KeepAwake, h);
    SyncAside(WithHold(c, KeepAwake, h));
    AsideTrans(s, c, WithHold(c, KeepAwake, h));
    AsideTrans(s, WithHold(c, KeepAwake, h), Sync(WithHold(c, KeepAwake, h)));
    EndManualAside(s, KeepAwake, now, RanOk);
  }

  lemma EndManualAside(s: State, id: Id, now: Time, outcome: Outcome)
    requires !id.JobId?
    ensures Aside(s, EndHold(s, id, now, outcome))
  {
    hide Aside, Sync, Fin;
    SelfAside(s);
    if id in s.holds {
      FinEvolves(s, id, s.holds[id], now, outcome);
      SyncAside(Fin(s, id, s.holds[id], now, outcome));
      AsideTrans(s, Fin(s, id, s.holds[id], now, outcome), Sync(Fin(s, id, s.holds[id], now, outcome)));
    }
  }

  lemma OpenEvolves(s: State, slug: string, o: Offer, origin: Origin, now: Time)
    requires slug in s.jobs && JobId(slug) !in s.holds && !origin.Scheduled?
    ensures Evolves(s, OpenJob(s, slug, o, origin, now), {slug})
    ensures forall other :: other != JobId(slug) ==>
              (other in OpenJob(s, slug, o, origin, now).holds <==> other in s.holds)
              && (other in s.holds ==> OpenJob(s, slug, o, origin, now).holds[other] == s.holds[other])
    ensures OpenJob(s, slug, o, origin, now).armings == s.armings
    ensures SettingsStay(s, OpenJob(s, slug, o, origin, now))
  {
  }

  lemma BeginHolds(s: State, id: Id, pid: int, now: Time)
    ensures Begin(s, id, pid, now).armings == s.armings && SettingsStay(s, Begin(s, id, pid, now))
    ensures Begin(s, id, pid, now).sleepBackAt == s.sleepBackAt
    ensures Begin(s, id, pid, now).holds ==
              if id in s.holds then s.holds[id := s.holds[id].(started := Some(now), pid := pid)] else s.holds
  {
    if id in s.holds {
      var h := s.holds[id].(started := Some(now), pid := pid);
      assert WithHold(s, id, h).holds == s.holds[id := h];
    }
  }

  lemma BeginEvolves(s: State, slug: string, pid: int, now: Time)
    ensures Evolves(s, Begin(s, JobId(slug), pid, now), {slug})
    ensures Begin(s, JobId(slug), pid, now).armings == s.armings
    ensures SettingsStay(s, Begin(s, JobId(slug), pid, now))
    ensures Begin(s, JobId(slug), pid, now).holds.Keys == s.holds.Keys
    ensures forall other :: other in s.holds && other != JobId(slug) ==>
              other in Begin(s, JobId(slug), pid, now).holds
              && Begin(s, JobId(slug), pid, now).holds[other] == s.holds[other]
  {
    hide Begin;
    BeginHolds(s, JobId(slug), pid, now);
  }

  lemma MarkEvolves(s: State, slug: string, pid: int, ceiling: Dur, now: Time)
    ensures Evolves(s, MarkStart(s, slug, pid, ceiling, now), {slug})
  {
    hide OpenJob, Begin;
    if slug in s.jobs {
      var o := Offer(now, ceiling, false, false);
      if JobId(slug) in s.holds {
        BeginEvolves(s, slug, pid, now);
      } else {
        OpenEvolves(s, slug, o, AdHoc, now);
        BeginEvolves(OpenJob(s, slug, o, AdHoc, now), slug, pid, now);
      }
    }
  }

  lemma RemoveEvolves(s: State, slug: string, now: Time)
    ensures Evolves(s, RemoveJob(s, slug, now), {})
  {
    hide Evolves, Aside, CloseOpen, Sync;
    SelfAside(s);
    Unarmed(s, s);
    if slug in s.jobs {
      var t := s.(jobs := s.jobs - {slug});
      JobsAside(s, s.jobs - {slug});
      CloseEvolves(t, JobId(slug), now, CutOff);
      AsideEvolves(s, t, RemoveJob(s, slug, now), {});
    }
  }

  lemma EnableEvolves(s: State, slug: string, on: bool, now: Time)
    ensures Evolves(s, EnableJob(s, slug, on, now), {})
  {
    hide Evolves, Aside, CloseOpen, Sync;
    SelfAside(s);
    Unarmed(s, s);
    if slug in s.jobs {
      var jobs := s.jobs[slug := s.jobs[slug].(enabled := on)];
      var t := s.(jobs := jobs);
      JobsAside(s, jobs);
      Unarmed(s, t);
      CloseEvolves(t, JobId(slug), now, CutOff);
      AsideEvolves(s, t, ReleaseJob(t, slug, now), {});
    }
  }

  lemma JobsAside(s: State, jobs: map<string, Job>)
    ensures Aside(s, s.(jobs := jobs))
  {
  }

  predicate SameArming(s: State, p: State) {
    p.holds == s.holds && p.armings == s.armings && p.sleepBackAt == s.sleepBackAt
  }

  /** A request that loops over the holds. */
  lemma LoopRequestEvolves(s: State, t: State, order: seq<Id>, rule: Rule, now: Time, p: State)
    requires Lists(order, s.holds.Keys) && SameArming(s, t) && SettingsStay(s, t)
    requires SameArming(Pass(t, order, rule, now), p) && SettingsStay(Pass(t, order, rule, now), p)
    ensures Evolves(s, p, {})
  {
    hide Evolves, Aside, Pass;
    SameAside(s, t);
    PassEvolves(t, order, rule, now);
    EvolvesThen(t, Pass(t, order, rule, now), p, {});
    AsideEvolves(s, t, p, {});
  }

  lemma SameAside(s: State, t: State)
    requires SameArming(s, t) && SettingsStay(s, t)
    ensures Aside(s, t) && Evolves(s, t, {})
  {
  }

  lemma DoSample(s: State, e: Event)
    requires e.step.Sampled?
    ensures Do(s, e) == EvaluateCutouts(s.(clock := e.now), e.step.st, e.step.order, e.now)
  {
    hide EvaluateCutouts;
  }

  /** A sample changes the latch as Cutouts.LatchAfter says, and otherwise only
      as a loop over the holds does. */
  lemma CutoutEvolves(s: State, e: Event)
    requires Enabled(s, e) && e.step.Sampled?
    ensures Evolves(s, Do(s, e).(latch := s.latch), {})
    ensures Do(s, e).latch == LatchAfter(s.latch, Sample(e.step.st, e.now, |s.holds|), s.cfg)
  {
    hide Evolves, Pass, Fires, Updated, Lists, Do;
    DoSample(s, e);
    SampleEvolves(s, s.(clock := e.now), e.step.st, e.step.order, e.now);
  }

  lemma SampleEvolves(s: State, t: State, st: Power, order: seq<Id>, now: Time)
    requires SameArming(s, t) && SettingsStay(s, t) && Lists(order, s.holds.Keys)
    ensures Evolves(s, EvaluateCutouts(t, st, order, now).(latch := s.latch), {})
    ensures EvaluateCutouts(t, st, order, now).latch == LatchAfter(s.latch, Sample(st, now, |s.holds|), s.cfg)
  {
    hide Evolves, Pass, Fires, Updated, Lists, EvaluateCutouts;
    var p := EvaluateCutouts(t, st, order, now).(latch := s.latch);
    if Fires(s.latch, Sample(st, now, |s.holds|), s.cfg).Some? {
      var u := t.(latch := Updated(s.latch, st, s.cfg));
      var q := Pass(u, order, ReleaseAll, now);
      FiredShape(t, st, order, now);
      PassEvolves(u, order, ReleaseAll, now);
      PassSettings(u, order, ReleaseAll, now);
      Relatched(s, u, q, p);
    } else {
      UnfiredShape(t, st, order, now);
      SameAside(s, p);
    }
  }

  lemma FiredShape(s: State, st: Power, order: seq<Id>, now: Time)
    requires Fires(s.latch, Sample(st, now, |s.holds|), s.cfg).Some?
    ensures var p := EvaluateCutouts(s, st, order, now);
            var q := Pass(s.(latch := Updated(s.latch, st, s.cfg)), order, ReleaseAll, now);
            && SameArming(q, p) && p.cfg == q.cfg && p.sleeps == q.sleeps && p.windows == q.windows
            && p.latch == Fires(s.latch, Sample(st, now, |s.holds|), s.cfg)
  {
    hide Pass, Fires, Updated;
  }

  lemma UnfiredShape(s: State, st: Power, order: seq<Id>, now: Time)
    requires Fires(s.latch, Sample(st, now, |s.holds|), s.cfg).None?
    ensures EvaluateCutouts(s, st, order, now) == s.(latch := Updated(s.latch, st, s.cfg))
  {
    hide Pass, Fires, Updated;
  }

  lemma PassSettings(s: State, order: seq<Id>, rule: Rule, now: Time)
    ensures SettingsStay(s, Pass(s, order, rule, now))
  {
    hide Pass, Framed;
    PassFrame(s, order, rule, now);
    FramedLatch(s, Pass(s, order, rule, now));
  }

  /** The latch plays no part in how windows and armings evolve. */
  lemma Relatched(s: State, u: State, q: State, p: State)
    requires SameArming(s, u) && Evolves(u, q, {}) && SameArming(q, p) && SettingsStay(s, p)
    ensures Evolves(s, p, {})
  {
    assert WindowsStay(u, q, {});
  }

  lemma HooksEvolve(s: State, t: State, on: bool, order: seq<Id>, now: Time)
    requires Lists(order, s.holds.Keys) && SameArming(s, t) && SettingsStay(s, t)
    ensures Evolves(s, SetHooks(t, on, order, now), {})
  {
    hide Evolves, Pass, Lists;
    if on {
      SameAside(s, SetHooks(t, on, order, now));
    } else {
      LoopRequestEvolves(s, t.(hooksOn := false), order, ReleaseAgents, now, SetHooks(t, on, order, now));
    }
  }

  lemma ReleaseEvolves(s: State, t: State, order: seq<Id>, now: Time)
    requires Lists(order, s.holds.Keys) && SameArming(s, t) && SettingsStay(s, t)
    ensures Evolves(s, SleepNow(t, order, now), {}) && Evolves(s, Pause(t, order, now), {})
  {
    hide Evolves, Pass, Lists;
    LoopRequestEvolves(s, t, order, ReleaseAll, now, SleepNow(t, order, now));
    LoopRequestEvolves(s, t.(paused := true), order, ReleaseAll, now, Pause(t, order, now));
  }

  lemma SweepEvolves(s: State, e: Event)
    requires Enabled(s, e)
    requires e.step.Sweep? || e.step.SettingHooks? || e.step.ReleasingAll? || e.step.Pausing?
    ensures Evolves(s, Do(s, e), {})
  {
    hide Evolves, Pass, SetHooks, SleepNow, Pause, Lists;
    var t := s.(clock := e.now);
    match e.step {
      case Sweep(order, rule) => LoopRequestEvolves(s, t, order, rule, e.now, Do(s, e));
      case SettingHooks(on, order) => HooksEvolve(s, t, on, order, e.now);
      case ReleasingAll(order) => ReleaseEvolves(s, t, order, e.now);
      case Pausing(order) => ReleaseEvolves(s, t, order, e.now);
    }
  }

  lemma SleepEvolves(s: State, e: Event)
    requires e.step.SleepingBack?
    ensures Evolves(s, Do(s, e).(sleepBackAt := s.sleepBackAt, sleeps := s.sleeps), {})
  {
    hide Evolves, MaybeSleepBack;
    SleepFrame(s.(clock := e.now), e.step.idle, e.now);
    SameAside(s, Do(s, e).(sleepBackAt := s.sleepBackAt, sleeps := s.sleeps));
  }

  lemma SleepFrame(s: State, idle: Option<Dur>, now: Time)
    ensures var p := MaybeSleepBack(s, idle, now); p.holds == s.holds && p.armings == s.armings
    ensures var p := MaybeSleepBack(s, idle, now); p.latch == s.latch && p.cfg == s.cfg && p.windows == s.windows
  {
    hide SleepWanted, Disarm, TakeSleep;
    DisarmFrame(s);
    TakeFrame(s, now);
  }

  lemma DisarmFrame(s: State)
    ensures Disarm(s).holds == s.holds && Disarm(s).armings == s.armings
    ensures Disarm(s).latch == s.latch && Disarm(s).cfg == s.cfg && Disarm(s).windows == s.windows
  {
  }

  lemma TakeFrame(s: State, now: Time)
    ensures var p := TakeSleep(s, now);
            && p.holds == s.holds && p.armings == s.armings && p.latch == s.latch && p.cfg == s.cfg
            && p.windows == s.windows
  {
  }

  function Marked(step: Step): set<string> {
    if step.Marking? then {step.slug} else {}
  }

  lemma JobRequestEvolves(s: State, e: Event)
    requires e.step.RemovingJob? || e.step.EnablingJob? || e.step.MarkingEnd?
    ensures Evolves(s, Do(s, e), {})
  {
    hide Evolves, Aside, RemoveJob, EnableJob, MarkEnd;
    var now, t := e.now, s.(clock := e.now);
    SameAside(s, t);
    match e.step {
      case RemovingJob(slug) => RemoveEvolves(t, slug, now);
      case EnablingJob(slug, on) => EnableEvolves(t, slug, on, now);
      case MarkingEnd(slug, exitCode) => EndMarkEvolves(t, slug, exitCode, now);
    }
    AsideEvolves(s, t, Do(s, e), {});
  }

  lemma EndMarkEvolves(s: State, slug: string, exitCode: int, now: Time)
    ensures Evolves(s, MarkEnd(s, slug, exitCode, now), {})
  {
    hide Evolves, EndHold;
    SameAside(s, s);
    CloseEvolves(s, JobId(slug), now, if exitCode == 0 then RanOk else RanFailed);
  }

  lemma MarkingEvolves(s: State, e: Event)
    requires e.step.Marking?
    ensures Evolves(s, Do(s, e), {e.step.slug})
  {
    hide Evolves, Aside, MarkStart;
    var t := s.(clock := e.now);
    SameAside(s, t);
    MarkEvolves(t, e.step.slug, e.step.pid, e.step.ceiling, e.now);
    AsideEvolves(s, t, Do(s, e), {e.step.slug});
  }

  lemma UserRequestEvolves(s: State, e: Event)
    requires e.step.KeepingAwake? || e.step.StartingRun? || e.step.EndingRun?
    ensures Evolves(s, Do(s, e), {})
  {
    hide Evolves, Aside, KeepAwakeFor, StartRun, EndHold;
    var now, t := e.now, s.(clock := e.now);
    SameAside(s, t);
    match e.step {
      case KeepingAwake(want) =>
        KeepAwakeAside(t, want, now);
        Unarmed(t, Do(s, e));
      case StartingRun(key, want) =>
        StartRunAside(t, key, want, now);
        Unarmed(t, Do(s, e));
      case EndingRun(id) => CloseEvolves(t, id, now, RanOk);
    }
    AsideEvolves(s, t, Do(s, e), {});
  }

  lemma OtherEvolves(s: State, e: Event)
    requires Enabled(s, e)
    requires e.step.LatePass? || e.step.RenewingRun?
    ensures Evolves(s, Do(s, e), {})
  {
    hide Evolves, Aside, LateAll, WithHold, Renewed, Lists;
    var now, t := e.now, s.(clock := e.now);
    SameAside(s, t);
    match e.step {
      case LatePass(order, records) =>
        LateFrame(t, order, records, now);
        SameAside(t, Do(s, e));
      case RenewingRun(id) =>
        if id in t.holds { UserHoldAside(t, id, Renewed(t.holds[id], now)); }
        SelfAside(t);
        Unarmed(t, Do(s, e));
    }
    AsideEvolves(s, t, Do(s, e), {});
  }

  lemma OpeningEvolves(s: State, e: Event)
    requires Enabled(s, e) && e.step.Opening?
    ensures Evolves(s, Do(s, e).(windows := s.windows), {})
  {
    hide Evolves, Aside, OpenDue, Lists;
    var t := s.(clock := e.now);
    SameAside(s, t);
    OfferEvolves(t, e.step.jobOrder, e.step.offers, e.now);
    AsideEvolves(s, t, Do(s, e).(windows := s.windows), {});
  }

  lemma SettingEvolves(s: State, e: Event)
    requires e.step.Syncing? || e.step.BookingWake? || e.step.PuttingJob? || e.step.SkippingJob? || e.step.SkippingAll?
             || e.step.SettingConfig? || e.step.Resuming?
    ensures SameArming(s, Do(s, e)) && Do(s, e).latch == s.latch && Do(s, e).sleeps == s.sleeps
    ensures Do(s, e).windows == s.windows
    ensures e.step.SettingConfig? || Do(s, e).cfg == s.cfg
    ensures e.step.Syncing? || Do(s, e).wantBlocked == s.wantBlocked
  {
  }

  /** What a step leaves, but for what only one kind of step may move. */
  function Fixed(s: State, e: Event): State {
    var p := Do(s, e);
    p.(latch := s.latch, cfg := s.cfg,
       sleepBackAt := if e.step.SleepingBack? then s.sleepBackAt else p.sleepBackAt,
       sleeps := if e.step.SleepingBack? then s.sleeps else p.sleeps,
       windows := if e.step.Opening? then s.windows else p.windows)
  }

  /** Every step arms a forced sleep at most once, and then leaves no hold open;
      it leaves every window it does not close the window it was; only a sample
      moves the latch, as Cutouts.LatchAfter says, and only setting it the
      configuration; a pending sleep stays until it is armed anew or due, and only
      checking it puts the machine to sleep; and only the loop over the jobs opens
      for a fire. */
  lemma StepEvolves(s: State, e: Event)
    requires Enabled(s, e)
    ensures Evolves(s, Fixed(s, e), Marked(e.step))
    ensures Do(s, e).latch == if e.step.Sampled?
            then LatchAfter(s.latch, Sample(e.step.st, e.now, |s.holds|), s.cfg) else s.latch
    ensures e.step.SettingConfig? || Do(s, e).cfg == s.cfg
  {
    hide Evolves, Do, Enabled, LatchAfter;
    var p := Do(s, e);
    if e.step.Sampled? {
      CutoutEvolves(s, e);
      EvolvesCfg(s, p.(latch := s.latch), {});
    } else if e.step.Sweep? || e.step.SettingHooks? || e.step.ReleasingAll? || e.step.Pausing? {
      SweepEvolves(s, e);
      EvolvesCfg(s, p, {});
    } else if e.step.Marking? {
      MarkingEvolves(s, e);
      EvolvesCfg(s, p, {e.step.slug});
    } else if e.step.RemovingJob? || e.step.EnablingJob? || e.step.MarkingEnd? {
      JobRequestEvolves(s, e);
      EvolvesCfg(s, p, {});
    } else if e.step.KeepingAwake? || e.step.StartingRun? || e.step.EndingRun? {
      UserRequestEvolves(s, e);
      EvolvesCfg(s, p, {});
    } else if e.step.Opening? {
      OpeningEvolves(s, e);
      EvolvesCfg(s, p.(windows := s.windows), {});
    } else if e.step.LatePass? || e.step.RenewingRun? {
      OtherEvolves(s, e);
      EvolvesCfg(s, p, {});
    } else if e.step.SleepingBack? {
      SleepEvolves(s, e);
      EvolvesCfg(s, p.(sleepBackAt := s.sleepBackAt, sleeps := s.sleeps), {});
    } else {
      SettingEvolves(s, e);
      SameAside(s, p.(latch := s.latch, cfg := s.cfg));
    }
  }

  lemma EvolvesCfg(s: State, p: State, marked: set<string>)
    requires Evolves(s, p, marked)
    ensures p.latch == s.latch && p.cfg == s.cfg
    ensures p.(latch := s.latch, cfg := s.cfg) == p
  {
  }
}
