// internal/daemon/hold.go: one open wake window, and when it must close.
module Holds {
  import opened Prelude
  import opened Configs
  import opened Ids
  import opened Runs

  /** What the daemon reads of a registered job. */
  datatype Job = Job(
    detection: Detection,
    maxRuntime: Dur,
    wakeBuffer: Dur,
    enabled: bool,
    managed: bool,
    source: string,
    schedule: string,
    command: string)

  /** Which path opened a hold. Bookkeeping: the daemon itself never reads it. */
  datatype Origin = Scheduled | AdHoc | ByUser | Wrapped

  const DETECTION_GRACE: Dur := 2 * MINUTE

  function DetectDeadlineFor(fireAt: Time, ceiling: Dur): Time {
    fireAt + Max(ceiling, DETECTION_GRACE)
  }

  /** started is set exactly when the job has been detected. */
  datatype Hold = Hold(
    job: Job,
    fireAt: Time,
    openedAt: Time,
    ceiling: Dur,
    detectDeadline: Time,
    started: Option<Time>,
    pid: int,
    ended: Option<Time>,
    wokeMachine: bool,
    followsWake: bool,
    origin: Origin,
    serial: nat)                 // bookkeeping: counts job windows as they open
  {
    predicate Detected() { started.Some? }

    function Deadline(): Time {
      if !job.detection.Observable() then fireAt + ceiling
      else if Detected() then started.value + ceiling
      else detectDeadline
    }

    predicate Expired(now: Time) { now > Deadline() }

    function HardDeadline(cfg: Config): Time {
      (if Detected() then started.value else openedAt) + cfg.maxCeiling
    }

    /** The last moment any ceiling pass may leave this hold open. */
    function Bound(cfg: Config): Time {
      if Detected() then Max(detectDeadline, started.value + Max(ceiling, cfg.maxCeiling))
      else if job.detection.Observable() then detectDeadline
      else fireAt + ceiling
    }

    /** The same window, with at most its observations changed. */
    predicate SameWindow(h: Hold) {
      this == h.(started := started, pid := pid, ended := ended)
    }
  }

  /** The run recorded when a job's window closes. */
  function Finish(slug: string, h: Hold, now: Time, outcome: Outcome): Run {
    var end := if h.Detected() && h.ended.Some? && h.ended.value > h.started.value then h.ended.value else now;
    Run(slug, h.openedAt, h.started,
        if h.Detected() then Some(end) else None,
        if h.Detected() then end - h.started.value else 0,
        now - h.openedAt, outcome, h.job.detection, h.wokeMachine)
  }

  /** A recorded run is no longer than the window if the job started inside it
      and was not seen to end after it closed. */
  lemma RunFitsWindow(slug: string, h: Hold, now: Time, outcome: Outcome)
    requires h.Detected() && h.openedAt <= h.started.value <= now
    requires h.ended.Some? ==> h.ended.value <= now
    ensures 0 <= Finish(slug, h, now, outcome).duration <= Finish(slug, h, now, outcome).holdDuration
  {
  }

  // ----- what one pass over the holds decides about each of them -----

  /** A scheduler's own record of a run. */
  datatype Record = Record(running: bool, startedAt: Option<Time>, completedAt: Option<Time>, failed: bool)

  datatype Verdict =
    | Keep(hold: Hold)
    | Close(hold: Hold, outcome: Outcome, watch: bool)

  /** The loops of the daemon over its hold map. */
  datatype Rule =
    | ReleaseAll                                         // cutout, SleepNow, shutdown
    | ReleaseAgents                                      // releaseAgentHolds
    | Patterns(scan: map<string, Option<int>>)           // updatePatternHold, per compiled pattern
    | DeadPids(alive: set<int>)                          // checkMarkedPIDs
    | Records(records: map<string, Option<Record>>)      // pollSchedulerState, first pass
    | Ceilings(cfg: Config, observers: set<string>)      // enforceCeilings

  function Judge(rule: Rule, id: Id, h: Hold, now: Time): Verdict {
    match rule
    case ReleaseAll => Close(h, CutOff, false)
    case ReleaseAgents => if id.Keyed? then Close(h, RanOk, false) else Keep(h)
    case Patterns(scan) => JudgePattern(scan, id, h, now)
    case DeadPids(alive) =>
      if h.job.detection.ByMark? && h.Detected() && h.pid > 0 && h.pid !in alive
      then Close(h, RanOk, false) else Keep(h)
    case Records(records) =>
      if id.JobId? && id.slug in records && records[id.slug].Some?
      then JudgeRecord(records[id.slug].value, h, now) else Keep(h)
    case Ceilings(cfg, observers) => JudgeCeiling(cfg, observers, h, now)
  }

  function JudgePattern(scan: map<string, Option<int>>, id: Id, h: Hold, now: Time): Verdict {
    if !h.job.detection.ByPattern? || !id.JobId? || id.slug !in scan then Keep(h)
    else if !h.Detected() && scan[id.slug].Some? then
      Keep(h.(started := Some(now), pid := scan[id.slug].value))
    else if h.Detected() && scan[id.slug].None? then Close(h, RanOk, false)
    else Keep(h)
  }

  function JudgeRecord(rec: Record, h: Hold, now: Time): Verdict {
    if rec.running && !h.Detected() then
      Keep(h.(started := Some(if rec.startedAt.Some? && rec.startedAt.value <= now
                              then rec.startedAt.value else now)))
    else if !rec.running && rec.completedAt.Some? && rec.completedAt.value > h.openedAt then
      var started := if h.Detected() then h.started.value else InferredStart(rec, h);
      Close(h.(started := Some(started), ended := rec.completedAt),
            if rec.failed then RanFailed else RanOk, false)
    else Keep(h)
  }

  /** A start nobody saw is put at the fire time, unless that is impossible. */
  function InferredStart(rec: Record, h: Hold): Time
    requires rec.completedAt.Some?
  {
    var floor := if h.fireAt < h.openedAt || h.fireAt > rec.completedAt.value then h.openedAt else h.fireAt;
    if rec.startedAt.Some? && rec.startedAt.value > floor then rec.startedAt.value else floor
  }

  function JudgeCeiling(cfg: Config, observers: set<string>, h: Hold, now: Time): Verdict {
    if !h.Expired(now) then Keep(h)
    else if !h.job.detection.Observable() && !h.Detected() then Close(h, RanOk, h.job.source in observers)
    else if h.Detected() && h.job.maxRuntime > 0 then Close(h, HitCeiling, false)
    else if h.Detected() && now < h.HardDeadline(cfg) then Keep(h)
    else if h.Detected() then Close(h, HitCeiling, false)
    else Close(h, NeverDetected, false)
  }

  /** A pass changes nothing of a window but what was observed of the job. */
  lemma JudgeKeepsWindow(rule: Rule, id: Id, h: Hold, now: Time)
    ensures Judge(rule, id, h, now).hold.SameWindow(h)
    ensures !id.JobId? && !h.Detected() && !h.job.detection.Observable() ==> Judge(rule, id, h, now).hold == h
    ensures h.Detected() ==> Judge(rule, id, h, now).hold.started == h.started
  {
  }

  /** One process scan: when, and the process that matched the job's pattern. */
  datatype Look = Look(now: Time, pid: Option<int>)

  /** What pattern detection has decided about a window after these scans. */
  function Watched(slug: string, h: Hold, looks: seq<Look>): Verdict {
    if looks == [] then Keep(h)
    else
      var before, look := Watched(slug, h, looks[..|looks| - 1]), looks[|looks| - 1];
      if before.Close? then before else JudgePattern(map[slug := look.pid], JobId(slug), before.hold, look.now)
  }

  ghost predicate Matched(looks: seq<Look>) {
    exists i :: 0 <= i < |looks| && looks[i].pid.Some?
  }

  ghost predicate FirstMatch(looks: seq<Look>, i: int) {
    0 <= i < |looks| && looks[i].pid.Some? && forall j :: 0 <= j < i ==> looks[j].pid.None?
  }

  /** Some scan did not match after one that did. */
  ghost predicate Gone(looks: seq<Look>) {
    exists i, j :: 0 <= i < j < |looks| && looks[i].pid.Some? && looks[j].pid.None?
  }

  lemma WatchedMore(slug: string, h: Hold, looks: seq<Look>)
    requires looks != []
    ensures var n := |looks| - 1;
            var v, look := Watched(slug, h, looks[..n]), looks[n];
            v.hold.job.detection.ByPattern? ==>
              Watched(slug, h, looks) ==
              if v.Close? then v
              else if v.hold.Detected() then if look.pid.None? then Close(v.hold, RanOk, false) else Keep(v.hold)
              else if look.pid.None? then Keep(v.hold)
              else Keep(v.hold.(started := Some(look.now), pid := look.pid.value))
  {
    hide Watched;
    WatchedLast(slug, h, looks);
  }

  lemma WatchedLast(slug: string, h: Hold, looks: seq<Look>)
    requires looks != []
    ensures var v, look := Watched(slug, h, looks[..|looks| - 1]), looks[|looks| - 1];
            Watched(slug, h, looks) ==
            if v.Close? then v else JudgePattern(map[slug := look.pid], JobId(slug), v.hold, look.now)
  {
    hide JudgePattern;
  }

  /** Over any sequence of scans, a pattern window is detected exactly when one
      of them matched; and closed, as ok, exactly when a later one did not, so at
      the first such. */
  lemma {:induction false} PatternWindow(slug: string, h: Hold, looks: seq<Look>)
    requires h.job.detection.ByPattern? && !h.Detected()
    ensures var v := Watched(slug, h, looks);
            && (v.Close? <==> Gone(looks)) && (v.Close? ==> v.outcome == RanOk && !v.watch)
            && (v.hold.Detected() <==> Matched(looks))
            && v.hold.SameWindow(h) && (!v.hold.Detected() ==> v.hold == h)
            && (Gone(looks) ==> Matched(looks))
  {
    if looks != [] {
      hide Matched, Gone, Watched;
      PatternWindow(slug, h, looks[..|looks| - 1]);
      WatchedMore(slug, h, looks);
      MatchedMore(looks);
      GoneMore(looks);
    }
  }

  /** The start put down is that of the first scan that matched. */
  lemma {:induction false} PatternStart(slug: string, h: Hold, looks: seq<Look>, i: int)
    requires h.job.detection.ByPattern? && !h.Detected() && FirstMatch(looks, i)
    ensures Watched(slug, h, looks).hold == h.(started := Some(looks[i].now), pid := looks[i].pid.value)
  {
    var n := |looks| - 1;
    FirstMore(looks, i);
    hide Matched, Gone, Watched, FirstMatch;
    WatchedMore(slug, h, looks);
    PatternWindow(slug, h, looks[..n]);
    if i < n { PatternStart(slug, h, looks[..n], i); }
  }

  lemma MatchedMore(looks: seq<Look>)
    requires looks != []
    ensures var n := |looks| - 1; Matched(looks) <==> Matched(looks[..n]) || looks[n].pid.Some?
  {
    var n := |looks| - 1;
    if Matched(looks) && looks[n].pid.None? {
      var i :| 0 <= i < |looks| && looks[i].pid.Some?;
      assert looks[..n][i].pid.Some?;
    }
    if Matched(looks[..n]) {
      var i :| 0 <= i < n && looks[..n][i].pid.Some?;
      assert looks[i].pid.Some?;
    }
  }

  lemma FirstMore(looks: seq<Look>, i: int)
    requires looks != [] && FirstMatch(looks, i)
    ensures var n := |looks| - 1;
            if i < n then FirstMatch(looks[..n], i) && looks[..n][i] == looks[i] else i == n && !Matched(looks[..n])
  {
  }

  lemma GoneMore(looks: seq<Look>)
    requires looks != []
    ensures var n := |looks| - 1; Gone(looks) <==> Gone(looks[..n]) || (looks[n].pid.None? && Matched(looks[..n]))
  {
    var n := |looks| - 1;
    if Gone(looks) {
      var i, j :| 0 <= i < j < |looks| && looks[i].pid.Some? && looks[j].pid.None?;
      assert looks[..n][i].pid.Some?;
      if j < n { assert looks[..n][j].pid.None?; }
    }
    if Gone(looks[..n]) {
      var i, j :| 0 <= i < j < n && looks[..n][i].pid.Some? && looks[..n][j].pid.None?;
      assert looks[i].pid.Some? && looks[j].pid.None?;
    }
    if looks[n].pid.None? && Matched(looks[..n]) {
      var i :| 0 <= i < n && looks[..n][i].pid.Some?;
      assert looks[i].pid.Some?;
    }
  }

  /** A reported completion closes the window only if it is newer than it, and
      what it records then is a run that fits: not before the window opened, and
      not before the fire time unless the completion itself is. */
  lemma RecordVerdict(rec: Record, h: Hold, now: Time)
    requires rec.startedAt.Some? && rec.completedAt.Some? ==> rec.startedAt.value <= rec.completedAt.value
    ensures var v := JudgeRecord(rec, h, now);
            && (v.Close? <==> !rec.running && rec.completedAt.Some? && rec.completedAt.value > h.openedAt)
            && (v.Close? && !h.Detected() ==>
                  && h.openedAt <= v.hold.started.value <= rec.completedAt.value
                  && (h.openedAt <= h.fireAt <= rec.completedAt.value ==> v.hold.started.value >= h.fireAt)
                  && v.hold.ended == rec.completedAt)
            && (v.Keep? && v.hold != h ==> rec.running && !h.Detected() && v.hold.Detected())
            && (v.Keep? && v.hold != h ==> v.hold.started.value <= now)
  {
  }

  /** Exactly which holds a ceiling pass leaves open: those inside their
      deadline, and those seen running, with no limit a person typed, inside the
      backstop. */
  lemma CeilingVerdict(cfg: Config, observers: set<string>, h: Hold, now: Time)
    ensures JudgeCeiling(cfg, observers, h, now).Keep? <==>
      now <= h.Deadline()
      || (h.Detected() && h.job.maxRuntime <= 0 && now < h.started.value + cfg.maxCeiling)
    ensures JudgeCeiling(cfg, observers, h, now).hold == h
  {
  }

  /** Past its bound nothing survives a ceiling pass. */
  lemma CeilingBound(cfg: Config, observers: set<string>, h: Hold, now: Time)
    requires h.detectDeadline == DetectDeadlineFor(h.fireAt, h.ceiling) || !h.Detected()
    requires now > h.Bound(cfg)
    ensures JudgeCeiling(cfg, observers, h, now).Close?
  {
  }

  /** What being recorded as a ceiling hit takes: a job seen running, past a
      limit a person typed or past the backstop. */
  predicate CeilingEarned(h: Hold, now: Time, backstop: Dur) {
    h.Detected() && (h.job.maxRuntime > 0 || now >= h.started.value + backstop)
  }

  /** What an outcome says of the window it is recorded for is so: a ceiling hit
      was earned; a job called never-detected could have been, was not, and had
      until its deadline; and no window was slept through. */
  predicate Warranted(outcome: Outcome, h: Hold, now: Time, backstop: Dur) {
    match outcome
    case HitCeiling => CeilingEarned(h, now, backstop)
    case NeverDetected => h.job.detection.Observable() && !h.Detected() && now > h.detectDeadline
    case SleptThrough => false
    case _ => true
  }

  /** A loop closes with a warranted outcome, and goes on watching only for a
      window recorded as ok whose job nobody could see or saw. */
  lemma JudgeWarrants(rule: Rule, id: Id, h: Hold, now: Time, backstop: Dur)
    requires rule.Ceilings? ==> rule.cfg.maxCeiling == backstop
    ensures var v := Judge(rule, id, h, now);
            v.Close? ==> Warranted(v.outcome, v.hold, now, backstop)
    ensures var v := Judge(rule, id, h, now);
            v.Close? && v.watch ==> Unseen(v.hold) && v.outcome.RanOk?
  {
  }

  predicate Unseen(h: Hold) {
    !h.Detected() && !h.job.detection.Observable()
  }

  lemma CutOffIsEarned(cfg: Config, observers: set<string>, h: Hold, now: Time)
    requires JudgeCeiling(cfg, observers, h, now).Close?
    requires JudgeCeiling(cfg, observers, h, now).outcome == HitCeiling
    ensures now > h.Deadline() && CeilingEarned(h, now, cfg.maxCeiling)
  {
  }
}
