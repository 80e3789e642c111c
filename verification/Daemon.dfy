// The daemon itself: its fields, and the methods that change them. Each method
// is proved to do what the function of the same name says of its model.
//
// internal/daemon/daemon.go, handlers.go, keepawake.go, runhold.go, sleepback.go.
module DaemonObject {
  import opened Prelude
  import opened Configs
  import opened Cutouts
  import opened Ids
  import opened Runs
  import opened Holds
  import opened Schedules
  import M = DaemonModel
  import opened DaemonPasses
  import opened DaemonSteps
  import opened DaemonWindows
  import Text

  lemma ListsMore<T(!new)>(order: seq<T>, keys: set<T>, todo: set<T>, k: T)
    requires M.Lists(order, keys - todo) && k in todo && todo <= keys
    ensures M.Lists(order + [k], keys - (todo - {k}))
  {
    var longer := order + [k];
    forall x
      ensures x in longer <==> x in keys - (todo - {k})
    {
      assert x in longer <==> x in order || x == k;
    }
  }

  lemma LoopStart(s: M.State, rule: Rule, now: Time)
    ensures M.Lists([], s.holds.Keys - s.holds.Keys)
    ensures M.Pass(s, [], rule, now) == s
  {
  }

  lemma LoopStep(s: M.State, order: seq<Id>, todo: set<Id>, id: Id, rule: Rule, now: Time)
    requires M.Lists(order, s.holds.Keys - todo) && id in todo && todo <= s.holds.Keys
    ensures M.Lists(order + [id], s.holds.Keys - (todo - {id}))
    ensures M.Pass(s, order + [id], rule, now) == M.One(M.Pass(s, order, rule, now), id, rule, now)
  {
    ListsMore(order, s.holds.Keys, todo, id);
    assert (order + [id])[..|order|] == order;
  }

  lemma KeepSame(s: M.State, id: Id)
    requires id in s.holds
    ensures s.(holds := s.holds[id := s.holds[id]]) == s
  {
    assert s.holds[id := s.holds[id]] == s.holds;
  }

  lemma KeptIsSame(s: M.State, id: Id, now: Time)
    requires id in s.holds
    ensures M.Apply(s, id, Keep(s.holds[id]), now) == s
  {
    KeepSame(s, id);
  }

  /** It does not matter which comes first, closing or watching on. */
  lemma WatchFirst(s: M.State, id: Id, h: Hold, now: Time, outcome: Outcome)
    ensures M.Fin(M.Watch(s, id, h, now), id, h, now, outcome) == M.Watch(M.Fin(s, id, h, now, outcome), id, h, now)
  {
  }

  lemma ListAll<T(!new)>(keys: set<T>) returns (order: seq<T>)
    ensures M.Lists(order, keys)
  {
    if keys == {} {
      order := [];
    } else {
      var k :| k in keys;
      order := ListAll(keys - {k});
      order := order + [k];
    }
  }

  lemma OfferStart(s: M.State, offers: map<string, M.Offer>, now: Time)
    ensures M.Lists([], s.jobs.Keys - s.jobs.Keys)
    ensures M.OfferAll(s, [], offers, now) == s
  {
  }

  lemma OfferStep(s: M.State, order: seq<string>, todo: set<string>, slug: string, offers: map<string, M.Offer>,
      now: Time)
    requires M.Lists(order, s.jobs.Keys - todo) && slug in todo && todo <= s.jobs.Keys
    ensures M.Lists(order + [slug], s.jobs.Keys - (todo - {slug}))
    ensures M.OfferAll(s, order + [slug], offers, now) ==
            M.OfferOne(M.OfferAll(s, order, offers, now), slug, offers, now)
  {
    ListsMore(order, s.jobs.Keys, todo, slug);
    assert (order + [slug])[..|order|] == order;
  }

  lemma LateStart(s: M.State, records: map<string, Option<Record>>, now: Time)
    ensures M.Lists([], s.lateWatch.Keys - s.lateWatch.Keys)
    ensures M.LateAll(s, [], records, now) == s
  {
  }

  lemma LateStep(s: M.State, order: seq<Id>, todo: set<Id>, id: Id, records: map<string, Option<Record>>, now: Time)
    requires M.Lists(order, s.lateWatch.Keys - todo) && id in todo && todo <= s.lateWatch.Keys
    ensures M.Lists(order + [id], s.lateWatch.Keys - (todo - {id}))
    ensures M.LateAll(s, order + [id], records, now) == M.LateOne(M.LateAll(s, order, records, now), id, records, now)
  {
    ListsMore(order, s.lateWatch.Keys, todo, id);
    assert (order + [id])[..|order|] == order;
  }

  lemma LateOneKeys(s: M.State, id: Id, records: map<string, Option<Record>>, now: Time)
    ensures s.lateWatch.Keys - {id} <= M.LateOne(s, id, records, now).lateWatch.Keys
  {
    hide M.LateRun;
  }

  lemma WithHoldHas(s: M.State, id: Id, h: Hold)
    ensures M.WithHold(s, id, h).holds == s.holds[id := h]
  {
  }

  lemma InsertHas(s: M.State, id: Id, lease: Dur, now: Time)
    ensures id in M.InsertRun(s, id, lease, now).holds
  {
    hide M.UserHold;
    WithHoldHas(s, id, M.UserHold(now, lease, Wrapped));
  }

  lemma OpenJobHas(s: M.State, slug: string, o: M.Offer, now: Time)
    requires slug in s.jobs
    ensures JobId(slug) in M.OpenJob(s, slug, o, AdHoc, now).holds
  {
  }

  lemma PutIsThere(s: M.State, want: Dur, now: Time)
    requires want > 0 && s.latch.None?
    ensures var p := M.KeepAwakeFor(s, want, now);
            Ids.KeepAwake in p.holds && p.holds[Ids.KeepAwake] == M.UserHold(now, M.ClampKeepAwake(want), ByUser)
  {
    hide M.Fin, M.UserHold;
    var c := M.CloseOpen(s, Ids.KeepAwake, now, RanOk);
    WithHoldHas(c, Ids.KeepAwake, M.UserHold(now, M.ClampKeepAwake(want), ByUser));
  }

  lemma CutoutQuiet(s: M.State, st: Power, order: seq<Id>, now: Time)
    requires EvaluateCutout(st, s.cfg, |s.holds| > 0).None? || Updated(s.latch, st, s.cfg).Some?
    ensures M.EvaluateCutouts(s, st, order, now) == s.(latch := Updated(s.latch, st, s.cfg))
  {
    hide EvaluateCutout, Updated, M.Pass, M.Sync;
  }

  lemma CutoutFires(s: M.State, st: Power, order: seq<Id>, now: Time)
    requires EvaluateCutout(st, s.cfg, |s.holds| > 0).Some? && Updated(s.latch, st, s.cfg).None?
    ensures M.EvaluateCutouts(s, st, order, now) ==
            M.Sync(M.Pass(s.(latch := Updated(s.latch, st, s.cfg)), order, ReleaseAll, now)
                    .(latch := Some(Cutout(EvaluateCutout(st, s.cfg, |s.holds| > 0).value, now, |s.holds|))))
  {
    hide EvaluateCutout, Updated, M.Pass, M.Sync;
  }

  // ----- composing phases into runs -----

  ghost predicate RunsTo(s0: M.State, run: seq<M.Event>, s: M.State) {
    M.IsRun(s0, run) && s == M.After(s0, run)
  }

  lemma NoRun(s: M.State)
    ensures RunsTo(s, [], s)
  {
  }

  lemma {:induction false} RunJoin(s0: M.State, a: seq<M.Event>, s: M.State, b: seq<M.Event>, p: M.State)
    requires RunsTo(s0, a, s) && RunsTo(s, b, p)
    ensures RunsTo(s0, a + b, p)
    decreases |a|
  {
    hide M.Do, M.Enabled;
    if a == [] {
      assert a + b == b;
    } else {
      assert (a + b)[1..] == a[1..] + b;
      RunJoin(M.Do(s0, a[0]), a[1..], s, b, p);
    }
  }

  lemma RunMore(s0: M.State, run: seq<M.Event>, s: M.State, e: M.Event)
    requires RunsTo(s0, run, s) && M.Enabled(s, e)
    ensures RunsTo(s0, run + [e], M.Do(s, e))
  {
    hide M.Do, M.Enabled;
    var p := M.Do(s, e);
    assert [e][1..] == [];
    assert M.IsRun(p, [e][1..]) && M.After(p, [e][1..]) == p;
    assert M.After(s, [e]) == p;
    RunJoin(s0, run, s, [e], M.Do(s, e));
  }

  lemma RunSweep(s0: M.State, run: seq<M.Event>, s: M.State, order: seq<Id>, rule: Rule, now: Time)
    returns (more: seq<M.Event>, p: M.State)
    requires RunsTo(s0, run, s) && s.clock <= now && M.Lists(order, s.holds.Keys) && M.LoopRule(s, rule)
    ensures more == run + [M.Event(now, M.Sweep(order, rule))]
    ensures p == M.Pass(s.(clock := now), order, rule, now) && p.clock == now
    ensures p.cfg == s.cfg && p.observers == s.observers
    ensures RunsTo(s0, more, p)
  {
    hide RunsTo, M.Pass, M.Lists, Framed;
    var e := M.Event(now, M.Sweep(order, rule));
    RunMore(s0, run, s, e);
    PassFrame(s.(clock := now), order, rule, now);
    more, p := run + [e], M.Do(s, e);
    FramedFixed(s.(clock := now), p);
  }

  lemma FramedFixed(s: M.State, p: M.State)
    requires Framed(s, p)
    ensures p.clock == s.clock && p.cfg == s.cfg && p.observers == s.observers
  {
  }

  lemma RunLate(s0: M.State, run: seq<M.Event>, s: M.State, order: seq<Id>, records: map<string, Option<Record>>,
      now: Time) returns (more: seq<M.Event>, p: M.State)
    requires RunsTo(s0, run, s) && s.clock <= now && M.Lists(order, s.lateWatch.Keys)
    ensures more == run + [M.Event(now, M.LatePass(order, records))]
    ensures p == M.LateAll(s.(clock := now), order, records, now) && p.clock == now
    ensures p.cfg == s.cfg && p.observers == s.observers
    ensures RunsTo(s0, more, p)
  {
    hide RunsTo, M.LateAll, M.Lists;
    var e := M.Event(now, M.LatePass(order, records));
    RunMore(s0, run, s, e);
    LateFrame(s.(clock := now), order, records, now);
    more, p := run + [e], M.Do(s, e);
  }

  lemma RunSync(s0: M.State, run: seq<M.Event>, s: M.State, now: Time) returns (more: seq<M.Event>, p: M.State)
    requires RunsTo(s0, run, s) && s.clock <= now
    ensures more == run + [M.Event(now, M.Syncing)]
    ensures p == M.Sync(s.(clock := now)) && p.clock == now
    ensures RunsTo(s0, more, p)
  {
    hide RunsTo;
    var e := M.Event(now, M.Syncing);
    RunMore(s0, run, s, e);
    more, p := run + [e], M.Do(s, e);
  }

  lemma RunCutout(s0: M.State, run: seq<M.Event>, s: M.State, st: Power, order: seq<Id>, now: Time)
    returns (more: seq<M.Event>, p: M.State)
    requires RunsTo(s0, run, s) && s.clock <= now && M.Lists(order, s.holds.Keys)
    ensures more == run + [M.Event(now, M.Sampled(st, order))]
    ensures p == M.EvaluateCutouts(s.(clock := now), st, order, now)
    ensures RunsTo(s0, more, p)
  {
    hide RunsTo, M.EvaluateCutouts, M.Lists;
    var e := M.Event(now, M.Sampled(st, order));
    RunMore(s0, run, s, e);
    more, p := run + [e], M.Do(s, e);
  }

  lemma RunOpening(s0: M.State, run: seq<M.Event>, s: M.State, order: seq<string>, offers: map<string, M.Offer>,
      now: Time) returns (more: seq<M.Event>, p: M.State)
    requires RunsTo(s0, run, s) && s.clock <= now && M.Lists(order, s.jobs.Keys)
    ensures more == run + [M.Event(now, M.Opening(order, offers))]
    ensures p == M.OpenDue(s.(clock := now), order, offers, now)
    ensures RunsTo(s0, more, p)
  {
    hide RunsTo, M.OpenDue, M.Lists;
    var e := M.Event(now, M.Opening(order, offers));
    RunMore(s0, run, s, e);
    more, p := run + [e], M.Do(s, e);
  }

  lemma RunSleepBack(s0: M.State, run: seq<M.Event>, s: M.State, idle: Option<Dur>, now: Time)
    returns (more: seq<M.Event>, p: M.State)
    requires RunsTo(s0, run, s) && s.clock <= now
    ensures more == run + [M.Event(now, M.SleepingBack(idle))]
    ensures p == M.MaybeSleepBack(s.(clock := now), idle, now)
    ensures RunsTo(s0, more, p)
  {
    hide RunsTo, M.MaybeSleepBack;
    var e := M.Event(now, M.SleepingBack(idle));
    RunMore(s0, run, s, e);
    more, p := run + [e], M.Do(s, e);
  }

  /** A step but for the order in which its loop visits the map. */
  function Unordered(e: M.Event): M.Event {
    match e.step
    case Sampled(st, _) => M.Event(e.now, M.Sampled(st, []))
    case Opening(_, offers) => M.Event(e.now, M.Opening([], offers))
    case Sweep(_, rule) => M.Event(e.now, M.Sweep([], rule))
    case LatePass(_, records) => M.Event(e.now, M.LatePass([], records))
    case _ => e
  }

  /** The phases of a run, in order. */
  function Phases(run: seq<M.Event>): seq<M.Event> {
    if run == [] then [] else Phases(run[..|run| - 1]) + [Unordered(run[|run| - 1])]
  }

  lemma PhasesMore(run: seq<M.Event>, e: M.Event)
    ensures Phases(run + [e]) == Phases(run) + [Unordered(e)]
  {
    assert (run + [e])[..|run|] == run;
  }

  function DetectPhases(scan: Option<map<string, Option<int>>>, alive: set<int>, now: Time): seq<M.Event> {
    if scan.None? then []
    else [M.Event(now, M.Sweep([], Patterns(scan.value))), M.Event(now, M.Sweep([], DeadPids(alive)))]
  }

  lemma JoinTwo(s: seq<M.Event>, a: M.Event, b: M.Event)
    ensures s + [a] + [b] == s + [a, b]
  {
  }

  /** What the fast timer does: the process scan, if the process table can be read,
      and the pid fallback; the schedulers' records; completions after the window
      closed; the ceilings; and last the helper is told. */
  function PollPhases(scan: Option<map<string, Option<int>>>, alive: set<int>, records: map<string, Option<Record>>,
      cfg: Config, observers: set<string>, now: Time): seq<M.Event>
  {
    DetectPhases(scan, alive, now)
    + [M.Event(now, M.Sweep([], Records(records))), M.Event(now, M.LatePass([], records)),
       M.Event(now, M.Sweep([], Ceilings(cfg, observers))), M.Event(now, M.Syncing)]
  }

  lemma JoinPoll(s: seq<M.Event>, scan: Option<map<string, Option<int>>>, alive: set<int>,
      records: map<string, Option<Record>>, cfg: Config, observers: set<string>, now: Time)
    ensures s + DetectPhases(scan, alive, now) + [M.Event(now, M.Sweep([], Records(records)))]
            + [M.Event(now, M.LatePass([], records))] + [M.Event(now, M.Sweep([], Ceilings(cfg, observers)))]
            + [M.Event(now, M.Syncing)]
            == s + PollPhases(scan, alive, records, cfg, observers, now)
  {
    hide DetectPhases;
  }

  lemma EndsWhole(run: seq<M.Event>)
    requires run != [] && run[|run| - 1].step.Syncing?
    ensures Whole(run)
  {
  }

  lemma StillWhole(run: seq<M.Event>, e: M.Event)
    requires Whole(run) && !Unsettling(e.step)
    ensures Whole(run + [e])
  {
    var more := run + [e];
    forall i | 0 <= i < |more| && Unsettling(more[i].step)
      ensures exists j :: i < j < |more| && more[j].step.Syncing?
    {
      assert more[i] == run[i];
      var j :| i < j < |run| && run[j].step.Syncing?;
      assert more[j].step.Syncing?;
    }
  }

  // ----- requests -----

  datatype JobRequest =
    | JobsPut(slug: string, job: Job)
    | JobsRemove(slug: string)
    | JobsEnable(slug: string, on: bool)
    | SkipNext(slug: string, fire: Time)
    | MarkStartOp(slug: string, pid: int, ceiling: Dur)
    | MarkEndOp(slug: string, exitCode: int)

  datatype RunRequest =
    | KeepAwakeOp(want: Dur)
    | RunStart(key: string, want: Dur)
    | RunRenew(id: Id)
    | RunEnd(id: Id)

  datatype SettingRequest =
    | SleepNowOp
    | PauseOp
    | ResumeOp(next: Option<Time>)
    | AgentHooks(on: bool)
    | ConfigSet(cfg: Config)

  function JobStep(r: JobRequest): M.Step {
    match r
    case JobsPut(slug, job) => M.PuttingJob(slug, job)
    case JobsRemove(slug) => M.RemovingJob(slug)
    case JobsEnable(slug, on) => M.EnablingJob(slug, on)
    case SkipNext(slug, fire) => M.SkippingJob(slug, fire)
    case MarkStartOp(slug, pid, ceiling) => M.Marking(slug, pid, ceiling)
    case MarkEndOp(slug, exitCode) => M.MarkingEnd(slug, exitCode)
  }

  function RunStep(r: RunRequest): M.Step {
    match r
    case KeepAwakeOp(want) => M.KeepingAwake(want)
    case RunStart(key, want) => M.StartingRun(key, want)
    case RunRenew(id) => M.RenewingRun(id)
    case RunEnd(id) => M.EndingRun(id)
  }

  function SettingStep(r: SettingRequest, order: seq<Id>): M.Step {
    match r
    case SleepNowOp => M.ReleasingAll(order)
    case PauseOp => M.Pausing(order)
    case ResumeOp(next) => M.Resuming(next)
    case AgentHooks(on) => M.SettingHooks(on, order)
    case ConfigSet(cfg) => M.SettingConfig(cfg)
  }

  lemma DoJob(s: M.State, r: JobRequest, now: Time)
    requires s.clock <= now
    ensures M.Enabled(s, M.Event(now, JobStep(r)))
    ensures var t := s.(clock := now);
            M.Do(s, M.Event(now, JobStep(r))) ==
              match r
              case JobsPut(slug, job) => t.(jobs := t.jobs[slug := job])
              case JobsRemove(slug) => M.RemoveJob(t, slug, now)
              case JobsEnable(slug, on) => M.EnableJob(t, slug, on, now)
              case SkipNext(slug, fire) => t.(skips := t.skips.(jobs := t.skips.jobs[slug := fire]))
              case MarkStartOp(slug, pid, ceiling) => M.MarkStart(t, slug, pid, ceiling, now)
              case MarkEndOp(slug, exitCode) => M.MarkEnd(t, slug, exitCode, now)
  {
    hide M.EvaluateCutouts, M.OpenDue, M.Pass, M.LateAll, M.Sync, M.MaybeSleepBack, M.RemoveJob, M.EnableJob,
      M.SetHooks, M.SleepNow, M.Pause, M.KeepAwakeFor, M.StartRun, M.RenewRun, M.EndHold, M.MarkStart, M.MarkEnd;
  }

  lemma DoRun(s: M.State, r: RunRequest, now: Time)
    requires s.clock <= now && (r.RunRenew? || r.RunEnd? ==> r.id.Keyed? || r.id.Counted?)
    ensures M.Enabled(s, M.Event(now, RunStep(r)))
    ensures var t := s.(clock := now);
            M.Do(s, M.Event(now, RunStep(r))) ==
              match r
              case KeepAwakeOp(want) => M.KeepAwakeFor(t, want, now)
              case RunStart(key, want) => M.StartRun(t, key, want, now)
              case RunRenew(id) => M.RenewRun(t, id, now)
              case RunEnd(id) => M.EndHold(t, id, now, RanOk)
  {
    hide M.EvaluateCutouts, M.OpenDue, M.Pass, M.LateAll, M.Sync, M.MaybeSleepBack, M.RemoveJob, M.EnableJob,
      M.SetHooks, M.SleepNow, M.Pause, M.KeepAwakeFor, M.StartRun, M.RenewRun, M.EndHold, M.MarkStart, M.MarkEnd;
  }

  lemma DoSetting(s: M.State, r: SettingRequest, order: seq<Id>, now: Time)
    requires s.clock <= now && (r.ConfigSet? ==> Normal(r.cfg))
    requires r.ResumeOp? || r.ConfigSet? || M.Lists(order, s.holds.Keys)
    ensures M.Enabled(s, M.Event(now, SettingStep(r, order)))
    ensures var t := s.(clock := now);
            M.Do(s, M.Event(now, SettingStep(r, order))) ==
              match r
              case SleepNowOp => M.SleepNow(t, order, now)
              case PauseOp => M.Pause(t, order, now)
              case ResumeOp(next) => t.(paused := false, nextWake := next)
              case AgentHooks(on) => M.SetHooks(t, on, order, now)
              case ConfigSet(cfg) => t.(cfg := cfg)
  {
    hide M.EvaluateCutouts, M.OpenDue, M.Pass, M.LateAll, M.Sync, M.MaybeSleepBack, M.RemoveJob, M.EnableJob,
      M.SetHooks, M.SleepNow, M.Pause, M.KeepAwakeFor, M.StartRun, M.RenewRun, M.EndHold, M.MarkStart, M.MarkEnd,
      M.Lists, Normal;
  }

  class Daemon {
    var cfg: Config
    var hooksOn: bool
    const observers: set<string>
    var jobs: map<string, Job>
    var holds: map<Id, Hold>
    const latch: CutoutLatch
    var paused: bool
    var served: map<string, Time>
    var lateWatch: map<Id, M.Late>
    var skips: Skips
    var nextWake: Option<Time>
    var sleepBackAt: Option<Time>
    var runSeq: nat
    var wantBlocked: bool
    var runs: seq<M.Entry>
    var openings: nat
    ghost var clock: Time
    ghost var windows: seq<M.Window>
    ghost var armings: seq<M.Arming>
    ghost var sleeps: seq<M.Sleep>

    ghost function Model(): M.State
      reads this, latch
    {
      M.State(cfg, hooksOn, observers, jobs, holds, latch.active, paused, served, lateWatch, skips,
        nextWake, sleepBackAt, runSeq, wantBlocked, runs, clock, openings, windows, armings, sleeps)
    }

    /** New. */
    constructor (cfg: Config, observers: set<string>, jobs: map<string, Job>)
      requires Normal(cfg)
      ensures Model().Fresh() && Model().cfg == cfg && Model().jobs == jobs && fresh(latch)
    {
      this.cfg, this.observers, this.jobs := cfg, observers, jobs;
      latch := new CutoutLatch();
      hooksOn, paused, wantBlocked, holds := false, false, false, map[];
      served, lateWatch, skips := map[], map[], Skips(None, map[]);
      nextWake, sleepBackAt, runSeq, runs, openings := None, None, 0, [], 0;
      clock, windows, armings, sleeps := 0, [], [], [];
    }

    // ----- closing -----

    method ArmSleepBack(id: Id, h: Hold, now: Time, outcome: Outcome)
      modifies this`sleepBackAt, this`armings
      ensures Model() == if M.Arms(id, h, outcome) then M.Arm(old(Model()), id, h, now, outcome) else old(Model())
    {
      if id.Manual() { return; }
      if !h.Detected() { return; }
      if outcome != RanOk && outcome != RanFailed { return; }
      if !h.wokeMachine && !h.followsWake { return; }
      sleepBackAt := Some(now + M.SLEEP_BACK_GRACE);
      armings := armings + [M.Arming(now, id, h, outcome, |holds|)];
    }

    /** Drops the hold; a job's is served now, and its run recorded. */
    method DropHold(id: Id, h: Hold, now: Time, outcome: Outcome)
      modifies this`holds, this`served, this`runs
      ensures Model() == M.Closed(old(Model()), id, h, now, outcome)
    {
      hide Finish;
      holds := holds - {id};
      if id.Manual() { return; }
      served := served[id.slug := h.fireAt];
      runs := runs + [M.FromWindow(Finish(id.slug, h, now, outcome), h, now, cfg.maxCeiling)];
    }

    method FinishHold(id: Id, h: Hold, now: Time, outcome: Outcome)
      modifies this`holds, this`served, this`runs, this`sleepBackAt, this`armings
      ensures Model() == M.Fin(old(Model()), id, h, now, outcome)
    {
      hide M.Closed, M.Arms, M.Arm;
      DropHold(id, h, now, outcome);
      if holds == map[] { ArmSleepBack(id, h, now, outcome); }
    }

    // ----- the loops over the holds -----

    /** updatePatternHold, for a hold whose pattern compiled. */
    method UpdatePattern(id: Id, scan: map<string, Option<int>>, now: Time)
      requires id in holds
      modifies this`holds, this`served, this`runs, this`sleepBackAt, this`armings
      ensures Model() == M.Apply(old(Model()), id, JudgePattern(scan, id, old(holds[id]), now), now)
    {
      hide M.Fin;
      KeptIsSame(Model(), id, now);
      var h := holds[id];
      if !h.job.detection.ByPattern? || !id.JobId? || id.slug !in scan { return; }
      var matches := scan[id.slug];
      if !h.Detected() && matches.Some? {
        holds := holds[id := h.(started := Some(now), pid := matches.value)];
      } else if h.Detected() && matches.None? {
        FinishHold(id, h, now, RanOk);
      }
    }

    /** checkMarkedPIDs, for one hold. */
    method CheckPid(id: Id, alive: set<int>, now: Time)
      requires id in holds
      modifies this`holds, this`served, this`runs, this`sleepBackAt, this`armings
      ensures Model() == M.One(old(Model()), id, DeadPids(alive), now)
    {
      hide M.Fin;
      KeptIsSame(Model(), id, now);
      var h := holds[id];
      if h.job.detection != ByMark || !h.Detected() || h.pid <= 0 { return; }
      if h.pid !in alive { FinishHold(id, h, now, RanOk); }
    }

    method SetStart(id: Id, at: Time)
      requires id in holds
      modifies this`holds
      ensures Model() == old(Model()).(holds := old(holds)[id := old(holds[id]).(started := Some(at))])
    {
      holds := holds[id := holds[id].(started := Some(at))];
    }

    /** pollSchedulerState, for one job window with a readable record. */
    method ObserveRecord(id: Id, rec: Record, now: Time)
      requires id in holds
      modifies this`holds, this`served, this`runs, this`sleepBackAt, this`armings
      ensures Model() == M.Apply(old(Model()), id, JudgeRecord(rec, old(holds[id]), now), now)
    {
      hide M.Fin, InferredStart;
      KeptIsSame(Model(), id, now);
      var h := holds[id];
      if rec.running && !h.Detected() {
        SetStart(id, if rec.startedAt.None? || rec.startedAt.value > now then now else rec.startedAt.value);
      } else if !rec.running && rec.completedAt.Some? && rec.completedAt.value > h.openedAt {
        h := FinishedHold(h, rec);
        FinishHold(id, h, now, if rec.failed then RanFailed else RanOk);
      }
    }

    /** The start of a run whose end was reported, inferred if nobody saw it. */
    static method FinishedHold(h: Hold, rec: Record) returns (r: Hold)
      requires rec.completedAt.Some?
      ensures r == h.(started := Some(if h.Detected() then h.started.value else InferredStart(rec, h)),
                      ended := rec.completedAt)
    {
      r := h;
      if !h.Detected() {
        var at := h.fireAt;
        if at < h.openedAt || at > rec.completedAt.value { at := h.openedAt; }
        if rec.startedAt.Some? && rec.startedAt.value > at { at := rec.startedAt.value; }
        r := r.(started := Some(at));
      }
      r := r.(ended := rec.completedAt);
    }

    method WatchLate(id: Id, h: Hold, now: Time)
      modifies this`lateWatch
      ensures Model() == M.Watch(old(Model()), id, h, now)
    {
      lateWatch := lateWatch[id := M.Late(h.openedAt, h.fireAt, now, h.serial)];
    }

    /** enforceCeilings, for one hold. */
    method EnforceCeiling(id: Id, now: Time)
      requires id in holds
      modifies this`holds, this`served, this`runs, this`sleepBackAt, this`armings, this`lateWatch
      ensures Model() == M.Apply(old(Model()), id, JudgeCeiling(old(cfg), observers, old(holds[id]), now), now)
    {
      hide M.Fin, M.Watch;
      KeptIsSame(Model(), id, now);
      var h := holds[id];
      if !h.Expired(now) { return; }
      if !h.job.detection.Observable() && !h.Detected() {
        WatchFirst(Model(), id, h, now, RanOk);
        if h.job.source in observers { WatchLate(id, h, now); }
        FinishHold(id, h, now, RanOk);
      } else if h.Detected() && h.job.maxRuntime > 0 {
        FinishHold(id, h, now, HitCeiling);
      } else if h.Detected() && now < h.HardDeadline(cfg) {
        return;
      } else if h.Detected() {
        FinishHold(id, h, now, HitCeiling);
      } else {
        FinishHold(id, h, now, NeverDetected);
      }
    }

    /** What one of the loops does to one hold. */
    method Visit(id: Id, rule: Rule, now: Time)
      requires id in holds
      requires rule.Ceilings? ==> rule.cfg == cfg && rule.observers == observers
      modifies this`holds, this`served, this`runs, this`sleepBackAt, this`armings, this`lateWatch
      ensures Model() == M.One(old(Model()), id, rule, now)
      ensures old(holds.Keys) - {id} <= holds.Keys
    {
      hide M.Fin, JudgePattern, JudgeRecord, JudgeCeiling;
      OneFrame(Model(), id, rule, now);
      KeptIsSame(Model(), id, now);
      match rule {
        case ReleaseAll => FinishHold(id, holds[id], now, CutOff);
        case ReleaseAgents => if id.Keyed? { FinishHold(id, holds[id], now, RanOk); }
        case Patterns(scan) => UpdatePattern(id, scan, now);
        case DeadPids(alive) => CheckPid(id, alive, now);
        case Records(records) =>
          if id.JobId? && id.slug in records && records[id.slug].Some? {
            ObserveRecord(id, records[id.slug].value, now);
          }
        case Ceilings(_, _) => EnforceCeiling(id, now);
      }
    }

    /** Every loop over the hold map: each hold that was open is visited once,
        in whatever order the map yields them, while some are deleted. */
    method Sweep(rule: Rule, now: Time) returns (ghost order: seq<Id>)
      requires rule.Ceilings? ==> rule.cfg == cfg && rule.observers == observers
      modifies this`holds, this`served, this`runs, this`sleepBackAt, this`armings, this`lateWatch
      ensures M.Lists(order, old(holds.Keys))
      ensures Model() == M.Pass(old(Model()), order, rule, now)
    {
      hide M.One, M.Pass, M.Lists;
      order := [];
      LoopStart(Model(), rule, now);
      var todo := holds.Keys;
      while todo != {}
        invariant todo <= holds.Keys && todo <= old(holds.Keys)
        invariant M.Lists(order, old(holds.Keys) - todo)
        invariant Model() == M.Pass(old(Model()), order, rule, now)
        decreases todo
      {
        var id :| id in todo;
        LoopStep(old(Model()), order, todo, id, rule, now);
        Visit(id, rule, now);
        order, todo := order + [id], todo - {id};
      }
      assert old(holds.Keys) - todo == old(holds.Keys);
    }

    // ----- the phases of a tick -----

    method SyncSleepBlock()
      modifies this`wantBlocked
      ensures Model() == M.Sync(old(Model()))
    {
      wantBlocked := holds != map[];
    }

    method EvaluateCutouts(st: Power, now: Time) returns (ghost order: seq<Id>)
      modifies this`holds, this`served, this`runs, this`sleepBackAt, this`armings, this`lateWatch, this`wantBlocked,
        latch
      ensures M.Lists(order, old(holds.Keys))
      ensures Model() == M.EvaluateCutouts(old(Model()), st, order, now)
    {
      hide M.Pass, M.Lists, M.Sync, M.EvaluateCutouts, EvaluateCutout, Updated;
      ghost var s := Model();
      var released := |holds|;
      var cleared := latch.Update(st, cfg);
      var dec := EvaluateCutout(st, cfg, released > 0);
      if dec.None? || latch.Blocking() {
        order := ListAll(holds.Keys);
        CutoutQuiet(s, st, order, now);
      } else {
        order := FireCutout(dec.value, released, now);
        CutoutFires(s, st, order, now);
      }
    }

    method FireCutout(kind: Kind, released: nat, now: Time) returns (ghost order: seq<Id>)
      modifies this`holds, this`served, this`runs, this`sleepBackAt, this`armings, this`lateWatch, this`wantBlocked,
        latch
      ensures M.Lists(order, old(holds.Keys))
      ensures Model() == M.Sync(M.Pass(old(Model()), order, ReleaseAll, now)
                                 .(latch := Some(Cutout(kind, now, released))))
    {
      hide M.Pass, M.Lists;
      order := Sweep(ReleaseAll, now);
      var c := latch.Engage(kind, released, now);
      SyncSleepBlock();
    }

    /** openWindow, and openAdHocWindow for a start nobody expected. */
    method OpenWindow(slug: string, o: M.Offer, origin: Origin, now: Time)
      requires slug in jobs && JobId(slug) !in holds
      modifies this`holds, this`openings, this`windows
      ensures Model() == M.OpenJob(old(Model()), slug, o, origin, now)
    {
      var h := Hold(jobs[slug], o.fire, now, o.ceiling, DetectDeadlineFor(o.fire, o.ceiling),
        None, 0, None, o.wokeMachine, o.followsWake, origin, openings);
      holds := holds[JobId(slug) := h];
      openings := openings + 1;
      if origin == Scheduled { windows := windows + [M.Window(slug, o.fire)]; }
    }

    /** One turn of openDueWindows' loop. */
    method ConsiderJob(slug: string, offers: map<string, M.Offer>, now: Time)
      requires slug in jobs
      modifies this`holds, this`openings, this`windows
      ensures Model() == M.OfferOne(old(Model()), slug, offers, now)
    {
      hide M.OpenJob;
      if !jobs[slug].enabled { return; }
      if JobId(slug) in holds { return; }
      if slug !in offers { return; }
      var fire := offers[slug].fire;
      if slug in served && fire <= served[slug] { return; }
      var buffer := if jobs[slug].wakeBuffer > 0 then jobs[slug].wakeBuffer else cfg.wakeBuffer;
      if now < fire - buffer { return; }
      if now > DetectDeadlineFor(fire, 0) { return; }
      if skips.Skipped(slug, fire) { return; }
      OpenWindow(slug, offers[slug], Scheduled, now);
    }

    /** openDueWindows: nothing opens into a latched cutout or a pause. */
    method OpenDueWindows(offers: map<string, M.Offer>, now: Time) returns (ghost order: seq<string>)
      modifies this`holds, this`openings, this`windows
      ensures M.Lists(order, jobs.Keys)
      ensures Model() == M.OpenDue(old(Model()), order, offers, now)
    {
      hide M.OfferOne, M.OfferAll, M.Lists;
      if paused || latch.Blocking() {
        order := ListAll(jobs.Keys);
        return;
      }
      order := [];
      var todo := jobs.Keys;
      OfferStart(Model(), offers, now);
      while todo != {}
        invariant todo <= jobs.Keys
        invariant M.Lists(order, jobs.Keys - todo)
        invariant Model() == M.OfferAll(old(Model()), order, offers, now)
        decreases todo
      {
        var slug :| slug in todo;
        OfferStep(old(Model()), order, todo, slug, offers, now);
        ConsiderJob(slug, offers, now);
        order, todo := order + [slug], todo - {slug};
      }
      assert jobs.Keys - todo == jobs.Keys;
    }

    /** One turn of pollSchedulerState's second loop. */
    method CheckLate(id: Id, records: map<string, Option<Record>>, now: Time)
      requires id in lateWatch
      modifies this`lateWatch, this`runs
      ensures Model() == M.LateOne(old(Model()), id, records, now)
    {
      hide M.LateRun;
      var w := lateWatch[id];
      if now - w.closedAt > M.LATE_WATCH || !id.JobId? || id.slug !in jobs || id.slug !in records {
        lateWatch := lateWatch - {id};
        return;
      }
      var rec := records[id.slug];
      if rec.None? || rec.value.running || rec.value.completedAt.None?
         || rec.value.completedAt.value <= w.openedAt {
        return;
      }
      lateWatch := lateWatch - {id};
      runs := runs + [M.LateCompletion(M.LateRun(id.slug, jobs[id.slug], w, rec.value), w.serial)];
    }

    method PollLate(records: map<string, Option<Record>>, now: Time) returns (ghost order: seq<Id>)
      modifies this`lateWatch, this`runs
      ensures M.Lists(order, old(lateWatch.Keys))
      ensures Model() == M.LateAll(old(Model()), order, records, now)
    {
      hide M.LateOne, M.LateAll, M.Lists;
      order := [];
      var todo := lateWatch.Keys;
      LateStart(Model(), records, now);
      while todo != {}
        invariant todo <= lateWatch.Keys && todo <= old(lateWatch.Keys)
        invariant M.Lists(order, old(lateWatch.Keys) - todo)
        invariant Model() == M.LateAll(old(Model()), order, records, now)
        decreases todo
      {
        var id :| id in todo;
        LateStep(old(Model()), order, todo, id, records, now);
        LateOneKeys(Model(), id, records, now);
        CheckLate(id, records, now);
        order, todo := order + [id], todo - {id};
      }
      assert old(lateWatch.Keys) - todo == old(lateWatch.Keys);
    }

    /** maybeSleepBack: every check is a reason not to sleep. */
    method MaybeSleepBack(idle: Option<Dur>, now: Time) returns (slept: bool)
      modifies this`sleepBackAt, this`sleeps
      ensures Model() == M.MaybeSleepBack(old(Model()), idle, now)
      ensures slept <==> |sleeps| > |old(sleeps)|
    {
      slept := false;
      if sleepBackAt.None? || now < sleepBackAt.value { return; }
      sleepBackAt := None;
      if !cfg.sleepAfterWake { return; }
      if holds != map[] || paused { return; }
      if nextWake.Some? && nextWake.value - now < M.SLEEP_BACK_WAKE_MARGIN { return; }
      if idle.None? || idle.value < M.SLEEP_BACK_USER_IDLE { return; }
      sleeps := sleeps + [M.Sleep(now, |armings| - 1, |holds|, paused)];
      slept := true;
    }

    // ----- requests -----

    method PutHold(id: Id, h: Hold)
      modifies this`holds
      ensures Model() == M.WithHold(old(Model()), id, h)
    {
      holds := holds[id := h];
    }

    /** Closes one hold if it is open, and only then tells the helper. */
    method EndHold(id: Id, now: Time, outcome: Outcome) returns (wasOpen: bool)
      modifies this`holds, this`served, this`runs, this`sleepBackAt, this`armings, this`wantBlocked
      ensures wasOpen <==> id in old(holds)
      ensures Model() == M.EndHold(old(Model()), id, now, outcome)
    {
      hide M.Fin, M.Sync;
      wasOpen := id in holds;
      if !wasOpen { return; }
      FinishHold(id, holds[id], now, outcome);
      SyncSleepBlock();
    }

    method ReleaseJob(slug: string, now: Time)
      modifies this`holds, this`served, this`runs, this`sleepBackAt, this`armings, this`wantBlocked
      ensures Model() == M.ReleaseJob(old(Model()), slug, now)
    {
      hide M.Fin, M.Sync;
      if JobId(slug) in holds { FinishHold(JobId(slug), holds[JobId(slug)], now, CutOff); }
      SyncSleepBlock();
    }

    method RemoveJob(slug: string, now: Time) returns (known: bool)
      modifies this`jobs, this`holds, this`served, this`runs, this`sleepBackAt, this`armings, this`wantBlocked
      ensures known <==> slug in old(jobs)
      ensures Model() == M.RemoveJob(old(Model()), slug, now)
    {
      hide M.ReleaseJob;
      known := slug in jobs;
      if !known { return; }
      jobs := jobs - {slug};
      ReleaseJob(slug, now);
    }

    method EnableJob(slug: string, on: bool, now: Time) returns (known: bool)
      modifies this`jobs, this`holds, this`served, this`runs, this`sleepBackAt, this`armings, this`wantBlocked
      ensures known <==> slug in old(jobs)
      ensures Model() == M.EnableJob(old(Model()), slug, on, now)
    {
      hide M.ReleaseJob;
      known := slug in jobs;
      if !known { return; }
      jobs := jobs[slug := jobs[slug].(enabled := on)];
      if !on { ReleaseJob(slug, now); }
    }

    /** The user's own window is opened, replaced or, for a non-positive
        duration, cancelled; it is refused while a cutout is latched. */
    method KeepAwake(want: Dur, now: Time) returns (until: Option<Time>)
      modifies this`holds, this`served, this`runs, this`sleepBackAt, this`armings, this`wantBlocked
      ensures Model() == M.KeepAwakeFor(old(Model()), want, now)
      ensures until.Some? <==> want > 0 && latch.active.None?
      ensures until.Some? ==> Ids.KeepAwake in holds && until.value == holds[Ids.KeepAwake].Deadline()
    {
      hide M.Fin, M.Sync, M.WithHold;
      if want <= 0 {
        var _ := EndHold(Ids.KeepAwake, now, RanOk);
        return None;
      }
      if latch.Blocking() { return None; }
      var h := M.UserHold(now, M.ClampKeepAwake(want), ByUser);
      if Ids.KeepAwake in holds { FinishHold(Ids.KeepAwake, holds[Ids.KeepAwake], now, RanOk); }
      PutHold(Ids.KeepAwake, h);
      PutIsThere(old(Model()), want, now);
      until := Some(h.Deadline());
      SyncSleepBlock();
    }

    method OpenRunHold(id: Id, lease: Dur, now: Time)
      modifies this`holds, this`wantBlocked
      ensures Model() == M.InsertRun(old(Model()), id, lease, now)
    {
      hide M.Sync, M.WithHold;
      if id in holds { return; }
      PutHold(id, M.UserHold(now, lease, Wrapped));
      SyncSleepBlock();
    }

    /** The hold of a wrapped command or an agent's session is opened or, for a
        key that is open already, renewed. */
    method StartRun(rawKey: string, want: Dur, now: Time) returns (id: Option<Id>)
      modifies this`holds, this`runSeq, this`wantBlocked
      ensures Model() == M.StartRun(old(Model()), rawKey, want, now)
      ensures id.Some? ==> id.value in holds
    {
      hide M.InsertRun, M.WithHold, Text.TrimSpace;
      var key := Text.TrimSpace(rawKey);
      if key != "" && !hooksOn { return None; }
      var lease := M.Lease(key, want);
      if key != "" && Keyed(key) in holds {
        PutHold(Keyed(key), M.Renewed(holds[Keyed(key)], now).(ceiling := lease));
        WithHoldHas(old(Model()), Keyed(key), M.Renewed(old(holds)[Keyed(key)], now).(ceiling := lease));
        return Some(Keyed(key));
      }
      if latch.Blocking() { return None; }
      if key == "" {
        runSeq := runSeq + 1;
        InsertHas(Model(), Counted(runSeq), lease, now);
        OpenRunHold(Counted(runSeq), lease, now);
        return Some(Counted(runSeq));
      }
      InsertHas(Model(), Keyed(key), lease, now);
      OpenRunHold(Keyed(key), lease, now);
      return Some(Keyed(key));
    }

    method RenewRun(id: Id, now: Time) returns (held: bool)
      modifies this`holds
      ensures held <==> id in old(holds)
      ensures Model() == M.RenewRun(old(Model()), id, now)
    {
      held := id in holds;
      if !held { return; }
      var limit := holds[id].openedAt + M.MAX_RUN;
      var next := now;
      if next > limit { next := limit; }
      holds := holds[id := holds[id].(fireAt := next)];
    }

    /** markStart: a start reported with no window open opens one. */
    method MarkStart(slug: string, pid: int, ceiling: Dur, now: Time) returns (known: bool)
      modifies this`holds, this`openings, this`windows, this`wantBlocked
      ensures known <==> slug in jobs
      ensures Model() == M.MarkStart(old(Model()), slug, pid, ceiling, now)
    {
      hide M.OpenJob, M.Sync, M.WithHold;
      known := slug in jobs;
      if !known { return; }
      var id := JobId(slug);
      if id !in holds {
        OpenJobHas(Model(), slug, M.Offer(now, ceiling, false, false), now);
        OpenWindow(slug, M.Offer(now, ceiling, false, false), AdHoc, now);
      }
      PutHold(id, holds[id].(started := Some(now), pid := pid));
      SyncSleepBlock();
    }

    method MarkEnd(slug: string, exitCode: int, now: Time) returns (known: bool)
      modifies this`holds, this`served, this`runs, this`sleepBackAt, this`armings, this`wantBlocked
      ensures known <==> slug in jobs
      ensures Model() == M.MarkEnd(old(Model()), slug, exitCode, now)
    {
      hide M.EndHold;
      known := slug in jobs;
      if !known { return; }
      var outcome := RanOk;
      if exitCode != 0 { outcome := RanFailed; }
      var _ := EndHold(JobId(slug), now, outcome);
    }

    method SleepNow(now: Time) returns (released: nat, ghost order: seq<Id>)
      modifies this`holds, this`served, this`runs, this`sleepBackAt, this`armings, this`lateWatch, this`wantBlocked
      ensures released == |old(holds)| && M.Lists(order, old(holds.Keys))
      ensures Model() == M.SleepNow(old(Model()), order, now)
    {
      hide M.Pass, M.Lists, M.Sync;
      released := |holds|;
      order := Sweep(ReleaseAll, now);
      SyncSleepBlock();
    }

    /** setPaused: pausing releases everything and forgets the registered wake. */
    method Pause(now: Time) returns (ghost order: seq<Id>)
      modifies this`paused, this`holds, this`served, this`runs, this`sleepBackAt, this`armings, this`lateWatch,
        this`wantBlocked, this`nextWake
      ensures M.Lists(order, old(holds.Keys))
      ensures Model() == M.Pause(old(Model()), order, now)
    {
      hide M.Pass, M.Lists, M.SleepNow;
      paused := true;
      var released;
      released, order := SleepNow(now);
      nextWake := None;
    }

    method ReleaseAgentHolds(now: Time) returns (ghost order: seq<Id>)
      modifies this`holds, this`served, this`runs, this`sleepBackAt, this`armings, this`lateWatch, this`wantBlocked
      ensures M.Lists(order, old(holds.Keys))
      ensures Model() == M.ReleaseAgentHolds(old(Model()), order, now)
    {
      hide M.Pass, M.Lists, M.Sync;
      var before := holds;
      order := Sweep(ReleaseAgents, now);
      if holds != before { SyncSleepBlock(); }
    }

    /** The agent_hooks setting; switching it off releases what agents hold. */
    method SetHooks(on: bool, now: Time) returns (ghost order: seq<Id>)
      modifies this`hooksOn, this`holds, this`served, this`runs, this`sleepBackAt, this`armings, this`lateWatch,
        this`wantBlocked
      ensures M.Lists(order, old(holds.Keys))
      ensures Model() == M.SetHooks(old(Model()), on, order, now)
    {
      hide M.ReleaseAgentHolds, M.Lists;
      if on {
        hooksOn := true;
        order := ListAll(holds.Keys);
      } else {
        hooksOn := false;
        order := ReleaseAgentHolds(now);
      }
    }

    // ----- dispatching a request -----

    /** Each request is one enabled step of the model: requests about jobs, */
    method HandleJob(r: JobRequest, now: Time)
      requires clock <= now
      modifies this`clock, this`jobs, this`holds, this`served, this`runs, this`sleepBackAt, this`armings,
        this`wantBlocked, this`openings, this`windows, this`skips
      ensures M.Enabled(old(Model()), M.Event(now, JobStep(r)))
      ensures Model() == M.Do(old(Model()), M.Event(now, JobStep(r)))
    {
      hide M.Do, M.Enabled, M.RemoveJob, M.EnableJob, M.MarkStart, M.MarkEnd;
      DoJob(Model(), r, now);
      clock := now;
      var known := true;
      match r {
        case JobsPut(slug, job) => jobs := jobs[slug := job];
        case JobsRemove(slug) => known := RemoveJob(slug, now);
        case JobsEnable(slug, on) => known := EnableJob(slug, on, now);
        case SkipNext(slug, fire) => skips := skips.(jobs := skips.jobs[slug := fire]);
        case MarkStartOp(slug, pid, ceiling) => known := MarkStart(slug, pid, ceiling, now);
        case MarkEndOp(slug, exitCode) => known := MarkEnd(slug, exitCode, now);
      }
    }

    /** and requests about the user's own windows and commands, */
    method HandleRun(r: RunRequest, now: Time)
      requires clock <= now
      requires r.RunRenew? || r.RunEnd? ==> r.id.Keyed? || r.id.Counted?
      modifies this`clock, this`holds, this`served, this`runs, this`sleepBackAt, this`armings, this`wantBlocked,
        this`runSeq
      ensures M.Enabled(old(Model()), M.Event(now, RunStep(r)))
      ensures Model() == M.Do(old(Model()), M.Event(now, RunStep(r)))
    {
      hide M.Do, M.Enabled, M.KeepAwakeFor, M.StartRun, M.RenewRun, M.EndHold;
      DoRun(Model(), r, now);
      clock := now;
      match r {
        case KeepAwakeOp(want) => var until := KeepAwake(want, now);
        case RunStart(key, want) => var id := StartRun(key, want, now);
        case RunRenew(id) => var held := RenewRun(id, now);
        case RunEnd(id) => var wasOpen := EndHold(id, now, RanOk);
      }
    }

    /** those that release or suspend everything, */
    method HandleRelease(r: SettingRequest, now: Time) returns (ghost order: seq<Id>)
      requires clock <= now && (r.SleepNowOp? || r.PauseOp?)
      modifies this`clock, this`holds, this`served, this`runs, this`sleepBackAt, this`armings, this`lateWatch,
        this`wantBlocked, this`paused, this`nextWake
      ensures M.Enabled(old(Model()), M.Event(now, SettingStep(r, order)))
      ensures Model() == M.Do(old(Model()), M.Event(now, SettingStep(r, order)))
    {
      hide M.Do, M.Enabled, M.SleepNow, M.Pause, M.Lists;
      ghost var s := Model();
      clock := now;
      if r.PauseOp? {
        order := Pause(now);
      } else {
        var released;
        released, order := SleepNow(now);
      }
      DoSetting(s, r, order, now);
    }

    /** switching agent hooks, */
    method HandleHooks(on: bool, now: Time) returns (ghost order: seq<Id>)
      requires clock <= now
      modifies this`clock, this`holds, this`served, this`runs, this`sleepBackAt, this`armings, this`lateWatch,
        this`wantBlocked, this`hooksOn
      ensures M.Enabled(old(Model()), M.Event(now, SettingStep(AgentHooks(on), order)))
      ensures Model() == M.Do(old(Model()), M.Event(now, SettingStep(AgentHooks(on), order)))
    {
      hide M.Do, M.Enabled, M.SetHooks, M.Lists;
      ghost var s := Model();
      clock := now;
      order := SetHooks(on, now);
      DoSetting(s, AgentHooks(on), order, now);
    }

    /** and those that resume or change any other setting. */
    method HandleSetting(r: SettingRequest, now: Time)
      requires clock <= now && (r.ResumeOp? || r.ConfigSet?)
      requires r.ConfigSet? ==> Normal(r.cfg)
      modifies this`clock, this`paused, this`nextWake, this`cfg
      ensures M.Enabled(old(Model()), M.Event(now, SettingStep(r, [])))
      ensures Model() == M.Do(old(Model()), M.Event(now, SettingStep(r, [])))
    {
      hide M.Do, M.Enabled, Normal;
      DoSetting(Model(), r, [], now);
      clock := now;
      if r.ResumeOp? {
        paused, nextWake := false, r.next;
      } else {
        cfg := r.cfg;
      }
    }

    // ----- the control loop -----

    /** A phase of the loop, and the step by which it extends the run so far. */
    method SweepPhase(rule: Rule, now: Time, ghost s0: M.State, ghost run: seq<M.Event>)
      returns (ghost more: seq<M.Event>)
      requires RunsTo(s0, run, Model()) && clock <= now && M.LoopRule(Model(), rule)
      modifies this`holds, this`served, this`runs, this`sleepBackAt, this`armings, this`lateWatch, this`clock
      ensures RunsTo(s0, more, Model()) && clock == now
      ensures Phases(more) == Phases(run) + [M.Event(now, M.Sweep([], rule))]
    {
      hide RunsTo, M.Pass, M.Lists, Phases;
      ghost var s := Model();
      clock := now;
      ghost var order := Sweep(rule, now);
      ghost var p;
      more, p := RunSweep(s0, run, s, order, rule, now);
      PhasesMore(run, M.Event(now, M.Sweep(order, rule)));
    }

    method LatePhase(records: map<string, Option<Record>>, now: Time, ghost s0: M.State, ghost run: seq<M.Event>)
      returns (ghost more: seq<M.Event>)
      requires RunsTo(s0, run, Model()) && clock <= now
      modifies this`lateWatch, this`runs, this`clock
      ensures RunsTo(s0, more, Model()) && clock == now
      ensures Phases(more) == Phases(run) + [M.Event(now, M.LatePass([], records))]
    {
      hide RunsTo, M.LateAll, M.Lists, Phases;
      ghost var s := Model();
      clock := now;
      ghost var order := PollLate(records, now);
      ghost var p;
      more, p := RunLate(s0, run, s, order, records, now);
      PhasesMore(run, M.Event(now, M.LatePass(order, records)));
    }

    method SyncPhase(now: Time, ghost s0: M.State, ghost run: seq<M.Event>) returns (ghost more: seq<M.Event>)
      requires RunsTo(s0, run, Model()) && clock <= now
      modifies this`wantBlocked, this`clock
      ensures RunsTo(s0, more, Model()) && clock == now
      ensures more == run + [M.Event(now, M.Syncing)] && Phases(more) == Phases(run) + [M.Event(now, M.Syncing)]
    {
      hide RunsTo, M.Sync, Phases;
      ghost var s := Model();
      clock := now;
      SyncSleepBlock();
      ghost var p;
      more, p := RunSync(s0, run, s, now);
      PhasesMore(run, M.Event(now, M.Syncing));
    }

    method CutoutPhase(st: Power, now: Time, ghost s0: M.State) returns (ghost more: seq<M.Event>)
      requires RunsTo(s0, [], Model()) && clock <= now
      modifies this`holds, this`served, this`runs, this`sleepBackAt, this`armings, this`lateWatch, this`wantBlocked,
        this`clock, latch
      ensures RunsTo(s0, more, Model()) && clock == now && Phases(more) == [M.Event(now, M.Sampled(st, []))]
    {
      hide RunsTo, M.EvaluateCutouts, M.Lists;
      ghost var s := Model();
      clock := now;
      ghost var order := EvaluateCutouts(st, now);
      ghost var p;
      more, p := RunCutout(s0, [], s, st, order, now);
    }

    method OpenPhase(offers: map<string, M.Offer>, now: Time, ghost s0: M.State, ghost run: seq<M.Event>)
      returns (ghost more: seq<M.Event>)
      requires RunsTo(s0, run, Model()) && clock <= now
      modifies this`holds, this`openings, this`windows, this`clock
      ensures RunsTo(s0, more, Model()) && clock == now
      ensures Phases(more) == Phases(run) + [M.Event(now, M.Opening([], offers))]
    {
      hide RunsTo, M.OpenDue, M.Lists, Phases;
      ghost var s := Model();
      clock := now;
      ghost var order := OpenDueWindows(offers, now);
      ghost var p;
      more, p := RunOpening(s0, run, s, order, offers, now);
      PhasesMore(run, M.Event(now, M.Opening(order, offers)));
    }

    method SleepPhase(idle: Option<Dur>, now: Time, ghost s0: M.State, ghost run: seq<M.Event>)
      returns (slept: bool, ghost more: seq<M.Event>)
      requires RunsTo(s0, run, Model()) && clock <= now
      modifies this`sleepBackAt, this`sleeps, this`clock
      ensures RunsTo(s0, more, Model()) && clock == now
      ensures more == run + [M.Event(now, M.SleepingBack(idle))]
      ensures Phases(more) == Phases(run) + [M.Event(now, M.SleepingBack(idle))]
      ensures slept <==> |sleeps| > |old(sleeps)|
    {
      hide RunsTo, M.MaybeSleepBack, Phases;
      ghost var s := Model();
      clock := now;
      slept := MaybeSleepBack(idle, now);
      ghost var p;
      more, p := RunSleepBack(s0, run, s, idle, now);
      PhasesMore(run, M.Event(now, M.SleepingBack(idle)));
    }

    /** pollDetection. When the process table cannot be read nothing is decided by
        it. */
    method PollDetection(scan: Option<map<string, Option<int>>>, alive: set<int>, now: Time, ghost s0: M.State,
        ghost start: seq<M.Event>) returns (ghost run: seq<M.Event>)
      requires RunsTo(s0, start, Model()) && clock <= now
      modifies this`holds, this`served, this`runs, this`sleepBackAt, this`armings, this`lateWatch, this`clock
      ensures RunsTo(s0, run, Model()) && clock <= now
      ensures Phases(run) == Phases(start) + DetectPhases(scan, alive, now)
    {
      hide RunsTo, Phases;
      run := start;
      if scan.Some? {
        run := SweepPhase(Patterns(scan.value), now, s0, run);
        run := SweepPhase(DeadPids(alive), now, s0, run);
        JoinTwo(Phases(start), M.Event(now, M.Sweep([], Patterns(scan.value))),
                M.Event(now, M.Sweep([], DeadPids(alive))));
      }
    }

    /** What the fast timer does, and the middle of every tick. */
    method Poll(scan: Option<map<string, Option<int>>>, alive: set<int>, records: map<string, Option<Record>>,
        now: Time, ghost s0: M.State, ghost start: seq<M.Event>)
      returns (ghost run: seq<M.Event>)
      requires RunsTo(s0, start, Model()) && clock <= now
      modifies this`holds, this`served, this`runs, this`sleepBackAt, this`armings, this`lateWatch, this`wantBlocked,
        this`clock
      ensures RunsTo(s0, run, Model()) && clock == now && Whole(run)
      ensures Phases(run) == Phases(start) + PollPhases(scan, alive, records, cfg, observers, now)
    {
      hide RunsTo, Phases, DetectPhases, PollPhases, Whole;
      run := PollDetection(scan, alive, now, s0, start);
      run := SweepPhase(Records(records), now, s0, run);
      run := LatePhase(records, now, s0, run);
      run := SweepPhase(Ceilings(cfg, observers), now, s0, run);
      run := SyncPhase(now, s0, run);
      EndsWhole(run);
      JoinPoll(Phases(start), scan, alive, records, cfg, observers, now);
    }

    /** One pass of the control loop is one whole operation of the model: safety
        first, then the windows due, the fast timer's phases, and the sleep. */
    method Tick(st: Power, offers: map<string, M.Offer>, scan: Option<map<string, Option<int>>>, alive: set<int>,
        records: map<string, Option<Record>>, idle: Option<Dur>, now: Time)
      returns (slept: bool, ghost run: seq<M.Event>)
      requires clock <= now
      modifies this`holds, this`served, this`runs, this`sleepBackAt, this`armings, this`lateWatch, this`wantBlocked,
        this`clock, this`openings, this`windows, this`sleeps, latch
      ensures RunsTo(old(Model()), run, Model()) && Whole(run)
      ensures Phases(run) == [M.Event(now, M.Sampled(st, [])), M.Event(now, M.Opening([], offers))]
        + PollPhases(scan, alive, records, cfg, observers, now) + [M.Event(now, M.SleepingBack(idle))]
      ensures slept <==> |sleeps| > |old(sleeps)|
    {
      hide RunsTo, M.MaybeSleepBack, Whole, Phases, PollPhases;
      ghost var s0 := Model();
      NoRun(s0);
      run := CutoutPhase(st, now, s0);
      run := OpenPhase(offers, now, s0, run);
      run := Poll(scan, alive, records, now, s0, run);
      ghost var whole := run;
      slept, run := SleepPhase(idle, now, s0, run);
      StillWhole(whole, M.Event(now, M.SleepingBack(idle)));
      JoinTwo([], M.Event(now, M.Sampled(st, [])), M.Event(now, M.Opening([], offers)));
    }
  }
}
