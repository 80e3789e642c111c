// Two more properties of whole runs: the fire times of a job's scheduled
// windows, and the block asked of the helper.
module DaemonWindows {
  import opened Prelude
  import opened Configs
  import opened Cutouts
  import opened Ids
  import opened Runs
  import opened Holds
  import opened DaemonModel
  import opened DaemonPasses
  import opened DaemonInvariants
  import opened DaemonSteps
  import Text

  // ----- no fire is held for twice -----

  function OpenFire(s: State, slug: string): Option<Time> {
    if JobId(slug) in s.holds then Some(s.holds[JobId(slug)].fireAt) else None
  }

  /** The latest fire a job was held for: its open window's, or the served one. */
  function Latest(s: State, slug: string): Option<Time> {
    if OpenFire(s, slug).Some? then OpenFire(s, slug)
    else if slug in s.served then Some(s.served[slug])
    else None
  }

  /** A job's scheduled windows have strictly increasing fire times. */
  ghost predicate Increasing(s: State) {
    forall i, j :: 0 <= i < j < |s.windows| && s.windows[i].slug == s.windows[j].slug ==>
      s.windows[i].fire < s.windows[j].fire
  }

  ghost predicate Ordered(s: State) {
    && Increasing(s)
    && (forall i :: 0 <= i < |s.windows| ==>
          Latest(s, s.windows[i].slug).Some? && s.windows[i].fire <= Latest(s, s.windows[i].slug).value)
    && (forall slug :: OpenFire(s, slug).Some? && slug in s.served ==> s.served[slug] <= OpenFire(s, slug).value)
  }

  /** A wrapper that reports a start outside any window does not do so before a
      fire the job has already been served for. */
  predicate NoEarlyMark(s: State, e: Event) {
    e.step.Marking? && e.step.slug in s.jobs && JobId(e.step.slug) !in s.holds ==>
      (e.step.slug in s.served ==> s.served[e.step.slug] <= e.now)
  }

  lemma SameOrdered(s: State, p: State)
    requires Ordered(s) && p.windows == s.windows && p.served == s.served
    requires forall slug :: OpenFire(p, slug) == OpenFire(s, slug)
    ensures Ordered(p)
  {
    hide OpenFire;
    forall slug
      ensures Latest(p, slug) == Latest(s, slug)
    {
      assert OpenFire(p, slug) == OpenFire(s, slug);
    }
    assert forall slug :: OpenFire(p, slug).Some? ==> OpenFire(s, slug) == OpenFire(p, slug);
  }

  lemma OpenOrdered(s: State, slug: string, o: Offer, origin: Origin, now: Time)
    requires Ordered(s) && slug in s.jobs && JobId(slug) !in s.holds
    requires slug in s.served ==>
               if origin.Scheduled? then o.fire > s.served[slug] else o.fire >= s.served[slug]
    ensures Ordered(OpenJob(s, slug, o, origin, now))
  {
    var p := OpenJob(s, slug, o, origin, now);
    assert OpenFire(s, slug) == None && OpenFire(p, slug) == Some(o.fire);
    forall other | other != slug
      ensures OpenFire(p, other) == OpenFire(s, other) && Latest(p, other) == Latest(s, other)
    {
    }
    OpenedOrdered(s, p, slug, o.fire);
  }

  lemma OpenedOrdered(s: State, p: State, slug: string, fire: Time)
    requires Ordered(s) && OpenFire(s, slug) == None && OpenFire(p, slug) == Some(fire) && p.served == s.served
    requires forall other :: other != slug ==> OpenFire(p, other) == OpenFire(s, other)
    requires p.windows == s.windows || p.windows == s.windows + [Window(slug, fire)]
    requires slug in s.served ==> fire >= s.served[slug] && (p.windows != s.windows ==> fire > s.served[slug])
    ensures Ordered(p)
  {
    hide OpenFire;
    forall i | 0 <= i < |s.windows|
      ensures Latest(p, s.windows[i].slug).Some? && s.windows[i].fire <= Latest(p, s.windows[i].slug).value
      ensures s.windows[i].slug == slug ==> slug in s.served && s.windows[i].fire <= s.served[slug]
    {
      assert Latest(s, s.windows[i].slug).Some?;
      if s.windows[i].slug != slug { assert OpenFire(p, s.windows[i].slug) == OpenFire(s, s.windows[i].slug); }
    }
    forall other | OpenFire(p, other).Some? && other in p.served
      ensures p.served[other] <= OpenFire(p, other).value
    {
      if other != slug { assert OpenFire(p, other) == OpenFire(s, other); }
    }
  }

  lemma FinOrdered(s: State, id: Id, h: Hold, now: Time, outcome: Outcome)
    requires Ordered(s) && id in s.holds && h.fireAt == s.holds[id].fireAt
    ensures Ordered(Fin(s, id, h, now, outcome))
  {
    hide Arms, Finish, Ordered;
    var p := Fin(s, id, h, now, outcome);
    FinServes(s, id, h, now, outcome);
    if id.JobId? {
      assert OpenFire(s, id.slug) == Some(h.fireAt);
      ServedOrdered(s, p, id.slug, h.fireAt);
    } else {
      SameOrdered(s, p);
    }
  }

  lemma FinServes(s: State, id: Id, h: Hold, now: Time, outcome: Outcome)
    ensures var p := Fin(s, id, h, now, outcome);
            && p.windows == s.windows && p.holds == s.holds - {id}
            && p.served == if id.JobId? then s.served[id.slug := h.fireAt] else s.served
  {
    hide Fin, Finish;
    FinOfClosed(s, id, h, now, outcome);
  }

  lemma ServedOrdered(s: State, p: State, slug: string, fire: Time)
    requires Ordered(s) && OpenFire(s, slug) == Some(fire) && OpenFire(p, slug) == None
    requires forall other :: other != slug ==> OpenFire(p, other) == OpenFire(s, other)
    requires p.windows == s.windows && p.served == s.served[slug := fire]
    ensures Ordered(p)
  {
    hide OpenFire;
    forall other
      ensures Latest(p, other) == Latest(s, other)
    {
      if other != slug { assert OpenFire(p, other) == OpenFire(s, other); }
    }
    forall other | OpenFire(p, other).Some? && other in p.served
      ensures p.served[other] <= OpenFire(p, other).value
    {
      assert OpenFire(p, other) == OpenFire(s, other);
    }
  }

  lemma HoldOrdered(s: State, id: Id, h: Hold)
    requires Ordered(s) && (id.JobId? ==> id in s.holds && h.fireAt == s.holds[id].fireAt)
    ensures Ordered(WithHold(s, id, h)) && Ordered(Sync(WithHold(s, id, h)))
  {
    hide Ordered;
    forall slug
      ensures OpenFire(WithHold(s, id, h), slug) == OpenFire(s, slug)
    {
    }
    SameOrdered(s, WithHold(s, id, h));
    QuietOrdered(WithHold(s, id, h), Sync(WithHold(s, id, h)));
  }

  lemma QuietOrdered(s: State, p: State)
    requires Ordered(s) && p.windows == s.windows && p.served == s.served && p.holds == s.holds
    ensures Ordered(p)
  {
    hide Ordered;
    SameOrdered(s, p);
  }

  lemma OneOrdered(s: State, id: Id, rule: Rule, now: Time)
    requires Ordered(s)
    ensures Ordered(One(s, id, rule, now))
  {
    hide Ordered, Fin, Judge, Watch;
    if id in s.holds {
      JudgeKeepsWindow(rule, id, s.holds[id], now);
      match Judge(rule, id, s.holds[id], now)
      case Keep(h) =>
        HoldOrdered(s, id, h);
      case Close(h, outcome, watch) =>
        FinOrdered(s, id, h, now, outcome);
        WatchOrdered(Fin(s, id, h, now, outcome), id, h, now);
    }
  }

  lemma WatchOrdered(s: State, id: Id, h: Hold, now: Time)
    requires Ordered(s)
    ensures Ordered(Watch(s, id, h, now))
  {
    hide Ordered;
    QuietOrdered(s, Watch(s, id, h, now));
  }

  lemma {:induction false} PassOrdered(s: State, order: seq<Id>, rule: Rule, now: Time)
    requires Ordered(s)
    ensures Ordered(Pass(s, order, rule, now))
  {
    hide Ordered, One;
    if order != [] {
      var n := |order| - 1;
      PassOrdered(s, order[..n], rule, now);
      OneOrdered(Pass(s, order[..n], rule, now), order[n], rule, now);
    }
  }

  lemma {:induction false} OfferOrdered(s: State, order: seq<string>, offers: map<string, Offer>, now: Time)
    requires Ordered(s)
    ensures Ordered(OfferAll(s, order, offers, now))
  {
    hide Ordered, OpenJob;
    if order != [] {
      var n := |order| - 1;
      OfferOrdered(s, order[..n], offers, now);
      var p, slug := OfferAll(s, order[..n], offers, now), order[n];
      if slug in p.jobs && slug in offers && Due(p, slug, offers[slug].fire, now) {
        OpenOrdered(p, slug, offers[slug], Scheduled, now);
      }
    }
  }

  lemma CloseOrdered(s: State, id: Id, now: Time, outcome: Outcome)
    requires Ordered(s)
    ensures Ordered(CloseOpen(s, id, now, outcome)) && Ordered(Sync(CloseOpen(s, id, now, outcome)))
    ensures Ordered(EndHold(s, id, now, outcome))
  {
    hide Ordered, Fin, Sync;
    if id in s.holds { FinOrdered(s, id, s.holds[id], now, outcome); }
    SyncOrdered(CloseOpen(s, id, now, outcome));
  }

  lemma SyncOrdered(s: State)
    requires Ordered(s)
    ensures Ordered(Sync(s))
  {
    hide Ordered;
    QuietOrdered(s, Sync(s));
  }

  lemma RequestOrdered(s: State, e: Event)
    requires Ordered(s) && Enabled(s, e)
    requires e.step.RemovingJob? || e.step.EnablingJob? || e.step.KeepingAwake? || e.step.StartingRun?
             || e.step.RenewingRun? || e.step.EndingRun? || e.step.MarkingEnd?
    ensures Ordered(Do(s, e))
  {
    hide Ordered, Enabled, CloseOpen, EndHold, WithHold, Sync, InsertRun, UserHold, Renewed, Text.TrimSpace;
    var now, t := e.now, s.(clock := e.now);
    QuietOrdered(s, t);
    match e.step {
      case RemovingJob(slug) =>
        QuietOrdered(t, t.(jobs := t.jobs - {slug}));
        CloseOrdered(t.(jobs := t.jobs - {slug}), JobId(slug), now, CutOff);
      case EnablingJob(slug, on) => EnableOrdered(t, slug, on, now);
      case KeepingAwake(want) =>
        CloseOrdered(t, KeepAwake, now, RanOk);
        HoldOrdered(CloseOpen(t, KeepAwake, now, RanOk), KeepAwake, UserHold(now, ClampKeepAwake(want), ByUser));
      case StartingRun(key, want) => StartRunOrdered(t, key, want, now);
      case RenewingRun(id) => RenewOrdered(t, id, now, s, e);
      case EndingRun(id) => CloseOrdered(t, id, now, RanOk);
      case MarkingEnd(slug, exitCode) => CloseOrdered(t, JobId(slug), now, if exitCode == 0 then RanOk else RanFailed);
    }
  }

  lemma EnableOrdered(s: State, slug: string, on: bool, now: Time)
    requires Ordered(s)
    ensures Ordered(EnableJob(s, slug, on, now))
  {
    hide Ordered, CloseOpen, Sync;
    if slug in s.jobs {
      var t := s.(jobs := s.jobs[slug := s.jobs[slug].(enabled := on)]);
      QuietOrdered(s, t);
      CloseOrdered(t, JobId(slug), now, CutOff);
    }
  }

  lemma StartRunOrdered(s: State, key: string, want: Dur, now: Time)
    requires Ordered(s)
    ensures Ordered(StartRun(s, key, want, now))
  {
    hide Ordered, WithHold, Sync, UserHold, Text.TrimSpace;
    var k := Text.TrimSpace(key);
    if k != "" && Keyed(k) in s.holds {
      HoldOrdered(s, Keyed(k), Renewed(s.holds[Keyed(k)], now).(ceiling := Lease(k, want)));
    }
    var t := s.(runSeq := s.runSeq + 1);
    QuietOrdered(s, t);
    HoldOrdered(t, Counted(t.runSeq), UserHold(now, Lease(k, want), Wrapped));
    HoldOrdered(s, Keyed(k), UserHold(now, Lease(k, want), Wrapped));
  }

  lemma RenewOrdered(t: State, id: Id, now: Time, s: State, e: Event)
    requires Ordered(t) && Enabled(s, e) && e.step == RenewingRun(id)
    ensures Ordered(RenewRun(t, id, now))
  {
    hide Ordered, WithHold, Renewed;
    if id in t.holds { HoldOrdered(t, id, Renewed(t.holds[id], now)); }
  }

  /** A reported start keeps the order exactly when it is not an early one. */
  lemma MarkOrderedIff(s: State, e: Event)
    requires Ordered(s) && e.step.Marking?
    ensures Ordered(Do(s, e)) <==> NoEarlyMark(s, e)
  {
    hide Ordered, OpenJob, Begin;
    var now, t, slug := e.now, s.(clock := e.now), e.step.slug;
    QuietOrdered(s, t);
    if slug in s.jobs && JobId(slug) !in s.holds {
      var o := Offer(now, e.step.ceiling, false, false);
      var p := OpenJob(t, slug, o, AdHoc, now);
      if NoEarlyMark(s, e) { OpenOrdered(t, slug, o, AdHoc, now); }
      OpenJobFire(t, slug, o, now);
      BeginFire(p, slug, e.step.pid, now);
      if !NoEarlyMark(s, e) { LateServed(Do(s, e), slug); }
    } else if slug in s.jobs {
      BeginFire(t, slug, e.step.pid, now);
    }
  }

  lemma LateServed(s: State, slug: string)
    requires OpenFire(s, slug).Some? && slug in s.served && s.served[slug] > OpenFire(s, slug).value
    ensures !Ordered(s)
  {
  }

  lemma OpenJobFire(s: State, slug: string, o: Offer, now: Time)
    requires slug in s.jobs
    ensures JobId(slug) in OpenJob(s, slug, o, AdHoc, now).holds
    ensures OpenFire(OpenJob(s, slug, o, AdHoc, now), slug) == Some(o.fire)
    ensures OpenJob(s, slug, o, AdHoc, now).served == s.served
  {
  }

  lemma BeginFire(s: State, slug: string, pid: int, now: Time)
    requires JobId(slug) in s.holds
    ensures Ordered(s) ==> Ordered(Begin(s, JobId(slug), pid, now))
    ensures OpenFire(Begin(s, JobId(slug), pid, now), slug) == OpenFire(s, slug)
    ensures Begin(s, JobId(slug), pid, now).served == s.served
  {
    hide Ordered, Sync, WithHold;
    var h := s.holds[JobId(slug)].(started := Some(now), pid := pid);
    if Ordered(s) { HoldOrdered(s, JobId(slug), h); }
    BlocksFrame(s, JobId(slug), h);
  }

  lemma BlocksFrame(s: State, id: Id, h: Hold)
    ensures var p := WithHold(s, id, h); p.holds == s.holds[id := h] && p.served == s.served
    ensures var p := Sync(WithHold(s, id, h)); p.holds == s.holds[id := h] && p.served == s.served
  {
  }

  lemma LoopOrdered(s: State, e: Event)
    requires Ordered(s)
    requires e.step.Sampled? || e.step.Opening? || e.step.Sweep? || e.step.LatePass? || e.step.SleepingBack?
    ensures Ordered(Do(s, e))
  {
    hide Ordered, Pass, OfferAll, LateAll, EvaluateCutouts, MaybeSleepBack;
    var now, t := e.now, s.(clock := e.now);
    QuietOrdered(s, t);
    match e.step {
      case Sampled(st, order) => CutoutOrdered(t, st, order, now);
      case Opening(order, offers) => OfferOrdered(t, order, offers, now);
      case Sweep(order, rule) => PassOrdered(t, order, rule, now);
      case LatePass(order, records) =>
        LateFrame(t, order, records, now);
        QuietOrdered(t, Do(s, e));
      case SleepingBack(idle) => SleepOrdered(t, idle, now);
    }
  }

  lemma SleepOrdered(s: State, idle: Option<Dur>, now: Time)
    requires Ordered(s)
    ensures Ordered(MaybeSleepBack(s, idle, now))
  {
    hide Ordered, SleepWanted;
    QuietOrdered(s, Disarm(s));
    QuietOrdered(s, TakeSleep(s, now));
  }

  lemma CutoutOrdered(s: State, st: Power, order: seq<Id>, now: Time)
    requires Ordered(s)
    ensures Ordered(EvaluateCutouts(s, st, order, now))
  {
    hide Ordered, Pass, Fires, Updated;
    var u := s.(latch := Updated(s.latch, st, s.cfg));
    QuietOrdered(s, u);
    PassOrdered(u, order, ReleaseAll, now);
    if Fires(s.latch, Sample(st, now, |s.holds|), s.cfg).Some? {
      QuietOrdered(Pass(u, order, ReleaseAll, now), EvaluateCutouts(s, st, order, now));
    }
  }

  lemma ReleaseOrdered(s: State, e: Event)
    requires Ordered(s) && (e.step.SettingHooks? || e.step.ReleasingAll? || e.step.Pausing?)
    ensures Ordered(Do(s, e))
  {
    hide Ordered, SetHooks, SleepNow, Pause;
    var t := s.(clock := e.now);
    QuietOrdered(s, t);
    match e.step {
      case SettingHooks(on, order) => HooksOrdered(t, on, order, e.now);
      case ReleasingAll(order) => SleepNowOrdered(t, order, e.now);
      case Pausing(order) => PauseOrdered(t, order, e.now);
    }
  }

  lemma HooksOrdered(s: State, on: bool, order: seq<Id>, now: Time)
    requires Ordered(s)
    ensures Ordered(SetHooks(s, on, order, now))
  {
    hide Ordered, Pass, Sync;
    var t := s.(hooksOn := on);
    QuietOrdered(s, t);
    PassOrdered(t, order, ReleaseAgents, now);
    SyncOrdered(Pass(t, order, ReleaseAgents, now));
  }

  lemma SleepNowOrdered(s: State, order: seq<Id>, now: Time)
    requires Ordered(s)
    ensures Ordered(SleepNow(s, order, now))
  {
    hide Ordered, Pass, Sync;
    PassOrdered(s, order, ReleaseAll, now);
    SyncOrdered(Pass(s, order, ReleaseAll, now));
  }

  lemma PauseOrdered(s: State, order: seq<Id>, now: Time)
    requires Ordered(s)
    ensures Ordered(Pause(s, order, now))
  {
    hide Ordered, SleepNow;
    QuietOrdered(s, s.(paused := true));
    SleepNowOrdered(s.(paused := true), order, now);
    QuietOrdered(SleepNow(s.(paused := true), order, now), Pause(s, order, now));
  }

  lemma SettingOrdered(s: State, e: Event)
    requires Ordered(s)
    requires e.step.Syncing? || e.step.BookingWake? || e.step.PuttingJob? || e.step.SkippingJob? || e.step.SkippingAll?
             || e.step.SettingConfig? || e.step.Resuming?
    ensures Ordered(Do(s, e))
  {
    hide Ordered;
    QuietOrdered(s, Do(s, e));
  }

  lemma StepOrdered(s: State, e: Event)
    requires Ordered(s) && Enabled(s, e) && NoEarlyMark(s, e)
    ensures Ordered(Do(s, e))
  {
    hide Ordered, Do, Enabled, NoEarlyMark;
    if e.step.Marking? {
      MarkOrderedIff(s, e);
    } else if e.step.SettingHooks? || e.step.ReleasingAll? || e.step.Pausing? {
      ReleaseOrdered(s, e);
    } else if e.step.Sampled? || e.step.Opening? || e.step.Sweep? || e.step.LatePass? || e.step.SleepingBack? {
      LoopOrdered(s, e);
    } else if e.step.RemovingJob? || e.step.EnablingJob? || e.step.KeepingAwake? || e.step.StartingRun?
      || e.step.RenewingRun? || e.step.EndingRun? || e.step.MarkingEnd? {
      RequestOrdered(s, e);
    } else {
      SettingOrdered(s, e);
    }
  }

  // ----- the block asked of the helper -----

  /** The wanted block is on exactly while some hold is open. */
  ghost predicate Settled(s: State) {
    s.wantBlocked <==> s.holds != map[]
  }

  /** The two phases of the control loop that leave the push to a later one. */
  predicate Unsettling(step: Step) {
    step.Opening? || step.Sweep?
  }

  lemma SyncSettles(s: State)
    ensures Settled(Sync(s))
  {
  }

  lemma SameSettled(s: State, p: State)
    requires Settled(s) && p.wantBlocked == s.wantBlocked && (p.holds == map[] <==> s.holds == map[])
    ensures Settled(p)
  {
  }

  lemma CloseSettles(s: State, id: Id, now: Time, outcome: Outcome)
    requires Settled(s)
    ensures Settled(EndHold(s, id, now, outcome))
  {
    hide Settled, Fin, Sync;
    if id in s.holds { SyncSettles(Fin(s, id, s.holds[id], now, outcome)); }
  }

  lemma EnableSettles(s: State, slug: string, on: bool, now: Time)
    requires Settled(s)
    ensures Settled(EnableJob(s, slug, on, now)) && Settled(RemoveJob(s, slug, now))
  {
    hide Settled, CloseOpen, Sync;
    if slug in s.jobs {
      var jobs := s.jobs[slug := s.jobs[slug].(enabled := on)];
      SameSettled(s, s.(jobs := jobs));
      SyncSettles(CloseOpen(s.(jobs := jobs), JobId(slug), now, CutOff));
      SyncSettles(CloseOpen(s.(jobs := s.jobs - {slug}), JobId(slug), now, CutOff));
    }
  }

  lemma KeepAwakeSettles(s: State, want: Dur, now: Time)
    requires Settled(s)
    ensures Settled(KeepAwakeFor(s, want, now))
  {
    hide Settled, CloseOpen, WithHold, Sync, EndHold, UserHold;
    CloseSettles(s, KeepAwake, now, RanOk);
    SyncSettles(WithHold(CloseOpen(s, KeepAwake, now, RanOk), KeepAwake,
      UserHold(now, ClampKeepAwake(want), ByUser)));
  }

  lemma StartRunSettles(s: State, key: string, want: Dur, now: Time)
    requires Settled(s)
    ensures Settled(StartRun(s, key, want, now))
  {
    hide Settled, WithHold, Sync, UserHold, Renewed, Lease, Text.TrimSpace;
    var k := Text.TrimSpace(key);
    var t := s.(runSeq := s.runSeq + 1);
    SameSettled(s, t);
    SyncSettles(WithHold(t, Counted(t.runSeq), UserHold(now, Lease(k, want), Wrapped)));
    SyncSettles(WithHold(s, Keyed(k), UserHold(now, Lease(k, want), Wrapped)));
    if Keyed(k) in s.holds {
      ReplaceSettled(s, Keyed(k), Renewed(s.holds[Keyed(k)], now).(ceiling := Lease(k, want)));
    }
  }

  lemma ReplaceSettled(s: State, id: Id, h: Hold)
    requires Settled(s) && id in s.holds
    ensures Settled(WithHold(s, id, h))
  {
    assert id in WithHold(s, id, h).holds;
  }

  lemma MarkSettles(s: State, slug: string, pid: int, ceiling: Dur, now: Time)
    requires Settled(s)
    ensures Settled(MarkStart(s, slug, pid, ceiling, now))
  {
    hide Settled, WithHold, Sync, OpenJob;
    if slug in s.jobs {
      var id := JobId(slug);
      var o := Offer(now, ceiling, false, false);
      var t := if id in s.holds then s else OpenJob(s, slug, o, AdHoc, now);
      OpenJobFire(s, slug, o, now);
      SyncSettles(WithHold(t, id, t.holds[id].(started := Some(now), pid := pid)));
    }
  }

  lemma CutoutSettles(s: State, st: Power, order: seq<Id>, now: Time)
    requires Settled(s)
    ensures Settled(EvaluateCutouts(s, st, order, now))
  {
    hide Settled, Pass, Fires, Updated, Sync;
    var u := s.(latch := Updated(s.latch, st, s.cfg));
    SameSettled(s, u);
    SyncSettles(Pass(u, order, ReleaseAll, now).(latch := Fires(s.latch, Sample(st, now, |s.holds|), s.cfg)));
  }

  lemma HooksSettle(s: State, on: bool, order: seq<Id>, now: Time)
    requires Settled(s)
    ensures Settled(SetHooks(s, on, order, now))
  {
    hide Settled, Pass, Sync, Framed;
    var t := s.(hooksOn := on);
    var p := Pass(t, order, ReleaseAgents, now);
    SyncSettles(p);
    SameSettled(s, t);
    PassFrame(t, order, ReleaseAgents, now);
    FramedWant(t, p);
    if p.holds == t.holds { SameSettled(t, p); }
  }

  lemma FramedWant(s: State, p: State)
    requires Framed(s, p)
    ensures p.wantBlocked == s.wantBlocked
  {
  }

  lemma ReleaseSettles(s: State, order: seq<Id>, now: Time)
    ensures Settled(SleepNow(s, order, now)) && Settled(Pause(s, order, now))
  {
    hide Settled, Pass, Sync;
    SyncSettles(Pass(s, order, ReleaseAll, now));
    SyncSettles(Pass(s.(paused := true), order, ReleaseAll, now));
    SameSettled(SleepNow(s.(paused := true), order, now), Pause(s, order, now));
  }

  lemma RequestSettles(s: State, e: Event)
    requires Settled(s) && Enabled(s, e)
    requires e.step.RemovingJob? || e.step.EnablingJob? || e.step.KeepingAwake? || e.step.StartingRun?
             || e.step.RenewingRun? || e.step.EndingRun? || e.step.MarkingEnd? || e.step.Marking?
             || e.step.SettingHooks? || e.step.ReleasingAll? || e.step.Pausing? || e.step.Sampled?
    ensures Settled(Do(s, e))
  {
    hide Settled, RemoveJob, EnableJob, KeepAwakeFor, StartRun, WithHold, EndHold, MarkStart, SetHooks,
      SleepNow, Pause, EvaluateCutouts, Lists, Renewed;
    var now, t := e.now, s.(clock := e.now);
    SameSettled(s, t);
    match e.step {
      case RemovingJob(slug) => EnableSettles(t, slug, true, now);
      case EnablingJob(slug, on) => EnableSettles(t, slug, on, now);
      case KeepingAwake(want) => KeepAwakeSettles(t, want, now);
      case StartingRun(key, want) => StartRunSettles(t, key, want, now);
      case RenewingRun(id) => if id in t.holds { ReplaceSettled(t, id, Renewed(t.holds[id], now)); }
      case EndingRun(id) => CloseSettles(t, id, now, RanOk);
      case MarkingEnd(slug, exitCode) => CloseSettles(t, JobId(slug), now, if exitCode == 0 then RanOk else RanFailed);
      case Marking(slug, pid, ceiling) => MarkSettles(t, slug, pid, ceiling, now);
      case SettingHooks(on, order) => HooksSettle(t, on, order, now);
      case ReleasingAll(order) => ReleaseSettles(t, order, now);
      case Pausing(order) => ReleaseSettles(t, order, now);
      case Sampled(st, order) => CutoutSettles(t, st, order, now);
    }
  }

  lemma QuietSettles(s: State, e: Event)
    requires Settled(s) && Enabled(s, e)
    requires e.step.LatePass? || e.step.SleepingBack? || e.step.BookingWake? || e.step.PuttingJob?
             || e.step.SkippingJob? || e.step.SkippingAll? || e.step.SettingConfig? || e.step.Resuming?
    ensures Settled(Do(s, e))
  {
    hide Settled, LateAll, MaybeSleepBack, Enabled;
    var t := s.(clock := e.now);
    if e.step.LatePass? {
      LateFrame(t, e.step.order, e.step.records, e.now);
      SameSettled(s, Do(s, e));
    } else if e.step.SleepingBack? {
      SleepFrame(t, e.step.idle, e.now);
      SameSettled(s, Do(s, e));
    } else {
      SettingEvolves(s, e);
      SameSettled(s, Do(s, e));
    }
  }

  lemma SleepFrame(s: State, idle: Option<Dur>, now: Time)
    ensures MaybeSleepBack(s, idle, now).holds == s.holds
    ensures MaybeSleepBack(s, idle, now).wantBlocked == s.wantBlocked
  {
    hide SleepWanted, TakeSleep, Disarm;
    SleptFrame(s, now);
  }

  lemma SleptFrame(s: State, now: Time)
    ensures TakeSleep(s, now).holds == s.holds && TakeSleep(s, now).wantBlocked == s.wantBlocked
    ensures Disarm(s).holds == s.holds && Disarm(s).wantBlocked == s.wantBlocked
  {
  }

  lemma StepSettles(s: State, e: Event)
    requires Enabled(s, e)
    ensures e.step.Syncing? || (Settled(s) && !Unsettling(e.step)) ==> Settled(Do(s, e))
  {
    hide Settled, Enabled, Do;
    if e.step.Syncing? {
      SyncingSettles(s, e);
    } else if Settled(s) && !Unsettling(e.step) {
      if e.step.LatePass? || e.step.SleepingBack? || e.step.BookingWake? || e.step.PuttingJob?
        || e.step.SkippingJob? || e.step.SkippingAll? || e.step.SettingConfig? || e.step.Resuming? {
        QuietSettles(s, e);
      } else {
        RequestSettles(s, e);
      }
    }
  }

  lemma SyncingSettles(s: State, e: Event)
    requires e.step.Syncing?
    ensures Settled(Do(s, e))
  {
    hide Settled, Sync;
    SyncSettles(s.(clock := e.now));
  }

  /** Whole operations: nothing opened or swept is left without a later push. A
      request is one step; a tick and a poll end their holds' work with one. */
  ghost predicate Whole(run: seq<Event>) {
    forall i :: 0 <= i < |run| && Unsettling(run[i].step) ==> exists j :: i < j < |run| && run[j].step.Syncing?
  }

  /** After any sequence of whole operations the block asked of the helper is on
      exactly while some hold is open. */
  lemma {:induction false} BlockMatchesHolds(s: State, run: seq<Event>)
    requires IsRun(s, run) && Whole(run)
    requires Settled(s) || exists j :: 0 <= j < |run| && run[j].step.Syncing?
    ensures Settled(After(s, run))
    decreases |run|
  {
    hide Settled, Do, Enabled;
    if run != [] {
      StepSettles(s, run[0]);
      var t, rest := Do(s, run[0]), run[1..];
      if !Settled(t) {
        var j :| 0 < j < |run| && run[j].step.Syncing?;
        assert rest[j - 1] == run[j];
      }
      forall i | 0 <= i < |rest| && Unsettling(rest[i].step)
        ensures exists j :: i < j < |rest| && rest[j].step.Syncing?
      {
        assert run[i + 1] == rest[i];
        var j :| i + 1 < j < |run| && run[j].step.Syncing?;
        assert rest[j - 1] == run[j];
      }
      BlockMatchesHolds(t, rest);
    }
  }
}
