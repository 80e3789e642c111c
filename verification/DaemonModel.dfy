// The daemon's state and its steps, as functions. A step is one stretch of work
// under the daemon's lock: a phase of the control loop's tick or poll, or a
// whole request from the CLI, the app or goguma-mark.
//
// internal/daemon/daemon.go, handlers.go, keepawake.go, runhold.go, wake.go,
// sleepback.go, setconfig.go.
module DaemonModel {
  import opened Prelude
  import opened Configs
  import opened Cutouts
  import opened Ids
  import opened Runs
  import opened Holds
  import opened Schedules
  import Text

  const RUN_LEASE: Dur := 90 * SECOND
  const AGENT_LEASE: Dur := 15 * MINUTE
  const MAX_LEASE: Dur := 30 * MINUTE
  const MAX_RUN: Dur := 12 * HOUR
  const MIN_KEEP_AWAKE: Dur := MINUTE
  const MAX_KEEP_AWAKE: Dur := 12 * HOUR
  const LATE_WATCH: Dur := HOUR
  const SLEEP_BACK_GRACE: Dur := 45 * SECOND
  const SLEEP_BACK_USER_IDLE: Dur := 2 * MINUTE
  const SLEEP_BACK_WAKE_MARGIN: Dur := 90 * SECOND

  /** A closed unobservable window whose scheduler may still report. */
  datatype Late = Late(openedAt: Time, firedAt: Time, closedAt: Time, serial: nat)

  /** A line of the run history. What follows the run is bookkeeping: the window
      it came from, as it was when it closed. */
  datatype Entry =
    | FromWindow(run: Run, hold: Hold, closed: Time, backstop: Dur)
    | LateCompletion(run: Run, serial: nat)

  /** Bookkeeping: one call to armSleepBack that took effect, with the window
      that closed and the number of holds left open. */
  datatype Arming = Arming(at: Time, id: Id, hold: Hold, outcome: Outcome, left: nat)

  /** Bookkeeping: a forced sleep, the arming it used up, and how many holds were
      open and whether the daemon was paused when the machine was told to. */
  datatype Sleep = Sleep(at: Time, arming: int, holds: nat, paused: bool)

  /** Bookkeeping: a window the scheduler path opened. */
  datatype Window = Window(slug: string, fire: Time)

  datatype State = State(
    cfg: Config,
    hooksOn: bool,               // cfg.AgentHooks
    observers: set<string>,
    jobs: map<string, Job>,
    holds: map<Id, Hold>,
    latch: Option<Cutout>,
    paused: bool,
    served: map<string, Time>,
    lateWatch: map<Id, Late>,
    skips: Skips,
    nextWake: Option<Time>,
    sleepBackAt: Option<Time>,
    runSeq: nat,
    wantBlocked: bool,           // the last state pushed to the helper
    runs: seq<Entry>,            // the history lines appended since the start
    // bookkeeping
    clock: Time,
    openings: nat,               // job windows opened so far
    windows: seq<Window>,
    armings: seq<Arming>,
    sleeps: seq<Sleep>)
  {
    /** A daemon that has just started: no hold survives a restart. */
    ghost predicate Fresh() {
      && Normal(cfg) && holds == map[] && latch == None && !paused && served == map[] && lateWatch == map[]
      && sleepBackAt == None && runSeq == 0 && !wantBlocked
      && runs == [] && openings == 0 && windows == [] && armings == [] && sleeps == []
    }
  }

  // ----- closing a hold -----

  /** Only a job goguma watched to its end, after a wake, earns a forced sleep. */
  predicate Arms(id: Id, h: Hold, outcome: Outcome) {
    !id.Manual() && h.Detected() && (outcome.RanOk? || outcome.RanFailed?) && (h.wokeMachine || h.followsWake)
  }

  function ClosedRun(s: State, slug: string, h: Hold, now: Time, outcome: Outcome): Entry {
    FromWindow(Finish(slug, h, now, outcome), h, now, s.cfg.maxCeiling)
  }

  /** Everything finishHoldLocked does but arming. */
  function Closed(s: State, id: Id, h: Hold, now: Time, outcome: Outcome): State {
    var left := s.holds - {id};
    if id.JobId? then
      s.(holds := left, served := s.served[id.slug := h.fireAt],
         runs := s.runs + [ClosedRun(s, id.slug, h, now, outcome)])
    else s.(holds := left)
  }

  /** finishHoldLocked: a forced sleep is considered only once nothing else is
      holding. */
  function Fin(s: State, id: Id, h: Hold, now: Time, outcome: Outcome): State {
    var c := Closed(s, id, h, now, outcome);
    if c.holds == map[] && Arms(id, h, outcome) then Arm(c, id, h, now, outcome) else c
  }

  function Arm(s: State, id: Id, h: Hold, now: Time, outcome: Outcome): State {
    s.(sleepBackAt := Some(now + SLEEP_BACK_GRACE), armings := s.armings + [Arming(now, id, h, outcome, |s.holds|)])
  }

  function Watch(s: State, id: Id, h: Hold, now: Time): State {
    s.(lateWatch := s.lateWatch[id := Late(h.openedAt, h.fireAt, now, h.serial)])
  }

  function Apply(s: State, id: Id, v: Verdict, now: Time): State {
    match v
    case Keep(h) => s.(holds := s.holds[id := h])
    case Close(h, outcome, watch) =>
      if watch then Watch(Fin(s, id, h, now, outcome), id, h, now) else Fin(s, id, h, now, outcome)
  }

  /** What one loop over the holds does to one of them. */
  function One(s: State, id: Id, rule: Rule, now: Time): State {
    if id !in s.holds then s else Apply(s, id, Judge(rule, id, s.holds[id], now), now)
  }

  /** One loop over the holds, in the order the map happened to yield them. */
  function Pass(s: State, order: seq<Id>, rule: Rule, now: Time): State {
    if order == [] then s
    else One(Pass(s, order[..|order| - 1], rule, now), order[|order| - 1], rule, now)
  }

  ghost predicate Distinct<T(!new)>(order: seq<T>) {
    forall i, j :: 0 <= i < j < |order| ==> order[i] != order[j]
  }

  /** Each key exactly once. */
  ghost predicate Lists<T(!new)>(order: seq<T>, keys: set<T>) {
    (forall k :: k in order <==> k in keys) && Distinct(order)
  }

  // ----- opening a hold -----

  /** What the scheduler path knows when it considers a job: the fire time, the
      learned ceiling, and whether the machine has just woken. */
  datatype Offer = Offer(fire: Time, ceiling: Dur, wokeMachine: bool, followsWake: bool)

  function Buffer(cfg: Config, job: Job): Dur {
    if job.wakeBuffer > 0 then job.wakeBuffer else cfg.wakeBuffer
  }

  /** Whether openDueWindows opens a window for this job now. */
  predicate Due(s: State, slug: string, fire: Time, now: Time)
    requires slug in s.jobs
  {
    && s.jobs[slug].enabled
    && JobId(slug) !in s.holds
    && (slug in s.served ==> fire > s.served[slug])
    && fire - Buffer(s.cfg, s.jobs[slug]) <= now <= DetectDeadlineFor(fire, 0)
    && !s.skips.Skipped(slug, fire)
  }

  function OpenJob(s: State, slug: string, o: Offer, origin: Origin, now: Time): State
    requires slug in s.jobs
  {
    var h := Hold(s.jobs[slug], o.fire, now, o.ceiling, DetectDeadlineFor(o.fire, o.ceiling),
                  None, 0, None, o.wokeMachine, o.followsWake, origin, s.openings);
    s.(holds := s.holds[JobId(slug) := h], openings := s.openings + 1,
       windows := if origin == Scheduled then s.windows + [Window(slug, o.fire)] else s.windows)
  }

  function OfferOne(s: State, slug: string, offers: map<string, Offer>, now: Time): State {
    if slug in s.jobs && slug in offers && Due(s, slug, offers[slug].fire, now)
    then OpenJob(s, slug, offers[slug], Scheduled, now)
    else s
  }

  function OfferAll(s: State, order: seq<string>, offers: map<string, Offer>, now: Time): State {
    if order == [] then s
    else OfferOne(OfferAll(s, order[..|order| - 1], offers, now), order[|order| - 1], offers, now)
  }

  function SyntheticJob(): Job {
    Job(Unwatched, 0, 0, false, false, "", "", "")
  }

  function UserHold(now: Time, ceiling: Dur, origin: Origin): Hold {
    Hold(SyntheticJob(), now, now, ceiling, now, None, 0, None, false, false, origin, 0)
  }

  function ClampKeepAwake(want: Dur): (d: Dur)
    ensures MIN_KEEP_AWAKE <= d <= MAX_KEEP_AWAKE
    ensures MIN_KEEP_AWAKE <= want <= MAX_KEEP_AWAKE ==> d == want
    ensures want < MINUTE ==> d == MINUTE
    ensures want > 12 * HOUR ==> d == 12 * HOUR
  {
    Max(MIN_KEEP_AWAKE, Min(want, MAX_KEEP_AWAKE))
  }

  function WithHold(s: State, id: Id, h: Hold): State {
    s.(holds := s.holds[id := h])
  }

  function Sync(s: State): State {
    s.(wantBlocked := s.holds != map[])
  }

  // ----- the control loop's phases -----

  /** The latch is updated first; then, if it does not block, a hazard releases
      every hold and latches. */
  function EvaluateCutouts(s: State, st: Power, order: seq<Id>, now: Time): State {
    var fired := Fires(s.latch, Sample(st, now, |s.holds|), s.cfg);
    var u := s.(latch := Updated(s.latch, st, s.cfg));
    if fired.None? then u else Sync(Pass(u, order, ReleaseAll, now).(latch := fired))
  }

  function OpenDue(s: State, order: seq<string>, offers: map<string, Offer>, now: Time): State {
    if s.paused || s.latch.Some? then s else OfferAll(s, order, offers, now)
  }

  /** The run a scheduler reports after the window closed. */
  function LateRun(slug: string, job: Job, w: Late, rec: Record): Run
    requires rec.completedAt.Some?
  {
    var done := rec.completedAt.value;
    var started := if rec.startedAt.None? || rec.startedAt.value < w.openedAt || rec.startedAt.value > done
                   then w.firedAt else rec.startedAt.value;
    Run(slug, w.openedAt, Some(started), Some(done), done - started, w.closedAt - w.openedAt,
        if rec.failed then RanFailed else RanOk, job.detection, false)
  }

  function LateOne(s: State, id: Id, records: map<string, Option<Record>>, now: Time): State {
    if id !in s.lateWatch then s
    else
      var w := s.lateWatch[id];
      var forgotten := s.(lateWatch := s.lateWatch - {id});
      if now - w.closedAt > LATE_WATCH then forgotten
      else if !id.JobId? || id.slug !in s.jobs || id.slug !in records then forgotten
      else
        var rec := records[id.slug];
        if rec.None? || rec.value.running || rec.value.completedAt.None? || rec.value.completedAt.value <= w.openedAt
        then s
        else forgotten.(runs := s.runs + [LateCompletion(LateRun(id.slug, s.jobs[id.slug], w, rec.value), w.serial)])
  }

  function LateAll(s: State, order: seq<Id>, records: map<string, Option<Record>>, now: Time): State {
    if order == [] then s
    else LateOne(LateAll(s, order[..|order| - 1], records, now), order[|order| - 1], records, now)
  }

  /** Whether a due sleep is still wanted; idle is None when it cannot be read. */
  predicate SleepWanted(s: State, idle: Option<Dur>, now: Time) {
    && s.cfg.sleepAfterWake
    && s.holds == map[] && !s.paused
    && (s.nextWake.Some? ==> s.nextWake.value - now >= SLEEP_BACK_WAKE_MARGIN)
    && idle.Some? && idle.value >= SLEEP_BACK_USER_IDLE
  }

  function Disarm(s: State): State {
    s.(sleepBackAt := None)
  }

  function TakeSleep(s: State, now: Time): State {
    s.(sleepBackAt := None, sleeps := s.sleeps + [Sleep(now, |s.armings| - 1, |s.holds|, s.paused)])
  }

  function MaybeSleepBack(s: State, idle: Option<Dur>, now: Time): State {
    if s.sleepBackAt.None? || now < s.sleepBackAt.value then s
    else if SleepWanted(s, idle, now) then TakeSleep(s, now)
    else Disarm(s)
  }

  // ----- requests -----

  /** A request closing one hold, if it is open. */
  function CloseOpen(s: State, id: Id, now: Time, outcome: Outcome): State {
    if id in s.holds then Fin(s, id, s.holds[id], now, outcome) else s
  }

  function ReleaseJob(s: State, slug: string, now: Time): State {
    Sync(CloseOpen(s, JobId(slug), now, CutOff))
  }

  function KeepAwakeFor(s: State, want: Dur, now: Time): State {
    if want <= 0 then EndHold(s, KeepAwake, now, RanOk)
    else if s.latch.Some? then s
    else Sync(WithHold(CloseOpen(s, KeepAwake, now, RanOk), KeepAwake, UserHold(now, ClampKeepAwake(want), ByUser)))
  }

  /** Closes the hold and tells the helper, or does nothing. */
  function EndHold(s: State, id: Id, now: Time, outcome: Outcome): State {
    if id in s.holds then Sync(Fin(s, id, s.holds[id], now, outcome)) else s
  }

  function Lease(key: string, want: Dur): (d: Dur)
    ensures 0 < d <= MAX_LEASE
    ensures 0 < want <= MAX_LEASE ==> d == want
    ensures want > 30 * MINUTE ==> d == 30 * MINUTE
    ensures want <= 0 ==> d == if key != "" then 15 * MINUTE else 90 * SECOND
  {
    if want > 0 then Min(want, MAX_LEASE) else if key != "" then AGENT_LEASE else RUN_LEASE
  }

  /** A hold renewed at now, never past its absolute bound. */
  function Renewed(h: Hold, now: Time): Hold {
    h.(fireAt := Min(now, h.openedAt + MAX_RUN))
  }

  /** StartRun: with hooks off an agent opens nothing, a keyed hold that is open
      is renewed, and otherwise one is opened unless a cutout is latched. */
  function StartRun(s: State, rawKey: string, want: Dur, now: Time): State {
    var key := Text.TrimSpace(rawKey);
    if key != "" && !s.hooksOn then s
    else if key != "" && Keyed(key) in s.holds then
      WithHold(s, Keyed(key), Renewed(s.holds[Keyed(key)], now).(ceiling := Lease(key, want)))
    else if s.latch.Some? then s
    else if key == "" then InsertRun(s.(runSeq := s.runSeq + 1), Counted(s.runSeq + 1), Lease(key, want), now)
    else InsertRun(s, Keyed(key), Lease(key, want), now)
  }

  function InsertRun(s: State, id: Id, lease: Dur, now: Time): State {
    if id in s.holds then s else Sync(WithHold(s, id, UserHold(now, lease, Wrapped)))
  }

  function RenewRun(s: State, id: Id, now: Time): State {
    if id in s.holds then WithHold(s, id, Renewed(s.holds[id], now)) else s
  }

  /** The wrapper reported a start: the window is opened if need be, and the
      start is now, whatever was seen before. */
  function MarkStart(s: State, slug: string, pid: int, ceiling: Dur, now: Time): State {
    if slug !in s.jobs then s
    else
      Begin(if JobId(slug) in s.holds then s
            else OpenJob(s, slug, Offer(now, ceiling, false, false), AdHoc, now), JobId(slug), pid, now)
  }

  function Begin(s: State, id: Id, pid: int, now: Time): State {
    if id in s.holds then Sync(WithHold(s, id, s.holds[id].(started := Some(now), pid := pid))) else s
  }

  function MarkEnd(s: State, slug: string, exitCode: int, now: Time): State {
    if slug !in s.jobs then s
    else EndHold(s, JobId(slug), now, if exitCode == 0 then RanOk else RanFailed)
  }

  function RemoveJob(s: State, slug: string, now: Time): State {
    if slug !in s.jobs then s else ReleaseJob(s.(jobs := s.jobs - {slug}), slug, now)
  }

  function EnableJob(s: State, slug: string, on: bool, now: Time): State {
    if slug !in s.jobs then s
    else
      var s1 := s.(jobs := s.jobs[slug := s.jobs[slug].(enabled := on)]);
      if on then s1 else ReleaseJob(s1, slug, now)
  }

  function ReleaseAgentHolds(s: State, order: seq<Id>, now: Time): State {
    var p := Pass(s, order, ReleaseAgents, now);
    if p.holds == s.holds then p else Sync(p)
  }

  function SetHooks(s: State, on: bool, order: seq<Id>, now: Time): State {
    if on then s.(hooksOn := true) else ReleaseAgentHolds(s.(hooksOn := false), order, now)
  }

  function SleepNow(s: State, order: seq<Id>, now: Time): State {
    Sync(Pass(s, order, ReleaseAll, now))
  }

  function Pause(s: State, order: seq<Id>, now: Time): State {
    SleepNow(s.(paused := true), order, now).(nextWake := None)
  }

  // ----- steps and runs -----

  datatype Step =
    | Sampled(st: Power, order: seq<Id>)
    | Opening(jobOrder: seq<string>, offers: map<string, Offer>)
    | Sweep(order: seq<Id>, rule: Rule)
    | LatePass(order: seq<Id>, records: map<string, Option<Record>>)
    | Syncing
    | SleepingBack(idle: Option<Dur>)
    | BookingWake(next: Option<Time>)
    | PuttingJob(slug: string, job: Job)
    | RemovingJob(slug: string)
    | EnablingJob(slug: string, on: bool)
    | SkippingJob(slug: string, fire: Time)
    | SkippingAll(fire: Time)
    | SettingConfig(cfg: Config)
    | SettingHooks(on: bool, order: seq<Id>)
    | ReleasingAll(order: seq<Id>)
    | Pausing(order: seq<Id>)
    | Resuming(next: Option<Time>)
    | KeepingAwake(want: Dur)
    | StartingRun(key: string, want: Dur)
    | RenewingRun(id: Id)
    | EndingRun(id: Id)
    | Marking(slug: string, pid: int, ceiling: Dur)
    | MarkingEnd(slug: string, exitCode: int)

  datatype Event = Event(now: Time, step: Step)

  function Do(s0: State, e: Event): State {
    var now := e.now;
    var s := s0.(clock := now);
    match e.step
    case Sampled(st, order) => EvaluateCutouts(s, st, order, now)
    case Opening(order, offers) => OpenDue(s, order, offers, now)
    case Sweep(order, rule) => Pass(s, order, rule, now)
    case LatePass(order, records) => LateAll(s, order, records, now)
    case Syncing => Sync(s)
    case SleepingBack(idle) => MaybeSleepBack(s, idle, now)
    case BookingWake(next) => s.(nextWake := next)
    case PuttingJob(slug, job) => s.(jobs := s.jobs[slug := job])
    case RemovingJob(slug) => RemoveJob(s, slug, now)
    case EnablingJob(slug, on) => EnableJob(s, slug, on, now)
    case SkippingJob(slug, fire) => s.(skips := s.skips.(jobs := s.skips.jobs[slug := fire]))
    case SkippingAll(fire) => s.(skips := s.skips.(all := Some(fire)))
    case SettingConfig(cfg) => s.(cfg := cfg)
    case SettingHooks(on, order) => SetHooks(s, on, order, now)
    case ReleasingAll(order) => SleepNow(s, order, now)
    case Pausing(order) => Pause(s, order, now)
    case Resuming(next) => s.(paused := false, nextWake := next)
    case KeepingAwake(want) => KeepAwakeFor(s, want, now)
    case StartingRun(key, want) => StartRun(s, key, want, now)
    case RenewingRun(id) => RenewRun(s, id, now)
    case EndingRun(id) => EndHold(s, id, now, RanOk)
    case Marking(slug, pid, ceiling) => MarkStart(s, slug, pid, ceiling, now)
    case MarkingEnd(slug, exitCode) => MarkEnd(s, slug, exitCode, now)
  }

  /** The rules the control loop itself sweeps with; the other two belong to the
      cutout and to requests. */
  ghost predicate LoopRule(s: State, rule: Rule) {
    match rule
    case ReleaseAll => false
    case ReleaseAgents => false
    case Ceilings(cfg, observers) => cfg == s.cfg && observers == s.observers
    case _ => true
  }

  /** The clock never goes back, every loop visits each key once, stored
      configurations are normalized, and run.renew and run.end name run holds. */
  ghost predicate Enabled(s: State, e: Event) {
    && e.now >= s.clock
    && match e.step
       case Sampled(_, order) => Lists(order, s.holds.Keys)
       case Opening(order, _) => Lists(order, s.jobs.Keys)
       case Sweep(order, rule) => Lists(order, s.holds.Keys) && LoopRule(s, rule)
       case LatePass(order, _) => Lists(order, s.lateWatch.Keys)
       case SettingConfig(cfg) => Normal(cfg)
       case SettingHooks(_, order) => Lists(order, s.holds.Keys)
       case ReleasingAll(order) => Lists(order, s.holds.Keys)
       case Pausing(order) => Lists(order, s.holds.Keys)
       case RenewingRun(id) => id.Keyed? || id.Counted?
       case EndingRun(id) => id.Keyed? || id.Counted?
       case _ => true
  }

  ghost predicate IsRun(s: State, run: seq<Event>)
    decreases |run|
  {
    run == [] || (Enabled(s, run[0]) && IsRun(Do(s, run[0]), run[1..]))
  }

  function After(s: State, run: seq<Event>): State
    decreases |run|
  {
    if run == [] then s else After(Do(s, run[0]), run[1..])
  }
}
