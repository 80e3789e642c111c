// What each loop over the holds leaves behind, told by the history it appends,
// the windows it leaves open and the sleeps it arms.
module DaemonHistory {
  import opened Prelude
  import opened Configs
  import Cutouts
  import opened Ids
  import opened Runs
  import opened Holds
  import opened DaemonModel
  import opened DaemonPasses
  import opened DaemonInvariants
  import opened DaemonSteps
  import opened DaemonRequests

  // ----- what a line says -----

  /** The line of a window of this job that closed in this state. */
  ghost predicate Line(e: Entry, slug: string, h: Hold, outcome: Outcome, now: Time) {
    e.FromWindow? && e.hold == h && e.closed == now && e.run.outcome == outcome && Tells(e.run, slug, h, now)
  }

  lemma ClosedLine(s: State, slug: string, h: Hold, now: Time, outcome: Outcome)
    ensures Line(ClosedRun(s, slug, h, now, outcome), slug, h, outcome, now)
  {
  }

  /** The lines added to a history. */
  function Added(s: State, p: State): seq<Entry>
    requires s.runs <= p.runs
  {
    p.runs[|s.runs|..]
  }

  // ----- any loop -----

  /** A job's window that a loop closes gets its line. */
  lemma PassAdds(s: State, order: seq<Id>, rule: Rule, now: Time, slug: string)
    requires Lists(order, s.holds.Keys) && JobId(slug) in s.holds
    ensures s.runs <= Pass(s, order, rule, now).runs
    ensures var v := Judge(rule, JobId(slug), s.holds[JobId(slug)], now);
            v.Close? ==>
              exists e :: e in Added(s, Pass(s, order, rule, now)) && Line(e, slug, v.hold, v.outcome, now)
  {
    hide Judge, Pass, Line, ClosedRun;
    PassLogs(s, order, rule, now);
    var v := Judge(rule, JobId(slug), s.holds[JobId(slug)], now);
    if v.Close? {
      ClosedLine(s, slug, v.hold, now, v.outcome);
      assert RunFor(s, JobId(slug), rule, now) == Some(ClosedRun(s, slug, v.hold, now, v.outcome));
    }
  }

  /** And every line it adds is such a window's. */
  lemma AddedByPass(s: State, order: seq<Id>, rule: Rule, now: Time, e: Entry)
    requires Lists(order, s.holds.Keys)
    ensures s.runs <= Pass(s, order, rule, now).runs
    ensures e in Added(s, Pass(s, order, rule, now)) ==>
              exists slug :: JobId(slug) in s.holds
                             && var v := Judge(rule, JobId(slug), s.holds[JobId(slug)], now);
                                v.Close? && Line(e, slug, v.hold, v.outcome, now)
  {
    hide Judge, Pass, Line, ClosedRun;
    PassLogs(s, order, rule, now);
    if e in Added(s, Pass(s, order, rule, now)) {
      var id :| id in order && id in s.holds && RunFor(s, id, rule, now) == Some(e);
      var v := Judge(rule, id, s.holds[id], now);
      ClosedLine(s, id.slug, v.hold, now, v.outcome);
    }
  }

  function AwaitedIn(s: State, id: Id): Option<Late> {
    if id in s.lateWatch then Some(s.lateWatch[id]) else None
  }

  lemma OneAwaits(s: State, key: Id, rule: Rule, now: Time, id: Id)
    requires key in s.holds
    ensures var v := Judge(rule, key, s.holds[key], now);
            AwaitedIn(One(s, key, rule, now), id) ==
            if key == id && v.Close? && v.watch
            then Some(Late(v.hold.openedAt, v.hold.fireAt, now, v.hold.serial)) else AwaitedIn(s, id)
  {
    hide Judge, Apply;
    ApplyAwaits(s, key, Judge(rule, key, s.holds[key], now), now);
  }

  lemma ApplyAwaits(s: State, id: Id, v: Verdict, now: Time)
    ensures Apply(s, id, v, now).lateWatch ==
            if v.Close? && v.watch
            then s.lateWatch[id := Late(v.hold.openedAt, v.hold.fireAt, now, v.hold.serial)] else s.lateWatch
  {
    hide Fin, Closed, Watch;
    if v.Close? {
      FinSummary(s, id, v.hold, now, v.outcome);
      WatchAwaits(Fin(s, id, v.hold, now, v.outcome), id, v.hold, now);
    }
  }

  lemma WatchAwaits(s: State, id: Id, h: Hold, now: Time)
    ensures Watch(s, id, h, now).lateWatch == s.lateWatch[id := Late(h.openedAt, h.fireAt, now, h.serial)]
  {
  }

  /** A loop leaves awaited what it closed and watches on, and what was. */
  lemma {:induction false} PassAwaits(s: State, order: seq<Id>, rule: Rule, now: Time, id: Id)
    requires Distinct(order) && id in s.holds
    ensures var v := Judge(rule, id, s.holds[id], now);
            AwaitedIn(Pass(s, order, rule, now), id) ==
            if id in order && v.Close? && v.watch
            then Some(Late(v.hold.openedAt, v.hold.fireAt, now, v.hold.serial)) else AwaitedIn(s, id)
  {
    hide Judge, One, AwaitedIn;
    if order != [] {
      var n := |order| - 1;
      assert order == order[..n] + [order[n]];
      var q := Pass(s, order[..n], rule, now);
      PassAwaits(s, order[..n], rule, now, id);
      PassHold(s, order[..n], rule, now, id);
      if order[n] in q.holds { OneAwaits(q, order[n], rule, now, id); } else { Absent(q, order[n], rule, now); }
    }
  }

  // ----- arming -----

  /** Closing a hold arms a forced sleep, due the grace later, exactly when it
      was the last and was a job's window, seen to run, recorded as ok or failed,
      after either kind of wake. */
  lemma FinArmsIff(s: State, id: Id, h: Hold, now: Time, outcome: Outcome)
    ensures var f := Fin(s, id, h, now, outcome);
            if s.holds - {id} == map[] && id.JobId? && h.started.Some? && outcome in {RanOk, RanFailed}
              && (h.wokeMachine || h.followsWake)
            then f.armings == s.armings + [Arming(now, id, h, outcome, 0)]
                 && f.sleepBackAt == Some(now + 45 * SECOND)
            else f.armings == s.armings && f.sleepBackAt == s.sleepBackAt
  {
    hide Finish;
  }

  /** The line of a window that earns a forced sleep. */
  predicate Earns(e: Entry) {
    && e.FromWindow? && e.hold.started.Some? && e.run.outcome in {RanOk, RanFailed}
    && (e.hold.wokeMachine || e.hold.followsWake)
  }

  /** The last line, if it earns one. */
  predicate LastEarns(p: State) {
    p.runs != [] && Earns(p.runs[|p.runs| - 1])
  }

  lemma OneArmsIff(s: State, id: Id, rule: Rule, now: Time)
    requires id in s.holds
    ensures var p := One(s, id, rule, now);
            && (p.armings != s.armings <==> p.holds == map[] && id.JobId? && LastEarns(p))
            && (p.armings != s.armings ==> p.sleepBackAt == Some(now + 45 * SECOND))
            && (p.armings == s.armings ==> p.sleepBackAt == s.sleepBackAt)
  {
    hide Judge, Fin, ClosedRun, Watch;
    OneFrame(s, id, rule, now);
    var v := Judge(rule, id, s.holds[id], now);
    if v.Close? {
      var f := Fin(s, id, v.hold, now, v.outcome);
      FinArmsIff(s, id, v.hold, now, v.outcome);
      FinLogs(s, id, v.hold, now, v.outcome);
      FinFrame(s, id, v.hold, now, v.outcome);
      if id.JobId? { ClosedRunSays(s, id.slug, v.hold, now, v.outcome); }
      WatchArming(f, id, v.hold, now);
    } else {
      assert id in One(s, id, rule, now).holds;
    }
  }

  lemma WatchArming(s: State, id: Id, h: Hold, now: Time)
    ensures var w := Watch(s, id, h, now);
            && w.armings == s.armings && w.sleepBackAt == s.sleepBackAt && w.holds == s.holds && w.runs == s.runs
  {
  }

  /** Nothing is armed while a hold is left. */
  lemma {:induction false} PassUnarmed(s: State, order: seq<Id>, rule: Rule, now: Time)
    requires Pass(s, order, rule, now).holds != map[]
    ensures Pass(s, order, rule, now).armings == s.armings && Pass(s, order, rule, now).sleepBackAt == s.sleepBackAt
  {
    hide One, Judge;
    if order != [] {
      var n := |order| - 1;
      var q, id := Pass(s, order[..n], rule, now), order[n];
      if id in q.holds {
        OneArmsIff(q, id, rule, now);
        PassUnarmed(s, order[..n], rule, now);
      } else {
        Absent(q, id, rule, now);
        PassUnarmed(s, order[..n], rule, now);
      }
    }
  }

  /** A loop arms exactly when it closes every hold, the last of them a job's
      whose line earns it. */
  lemma PassArmsIff(s: State, order: seq<Id>, rule: Rule, now: Time)
    requires Lists(order, s.holds.Keys)
    ensures var p := Pass(s, order, rule, now);
            && (p.armings != s.armings <==>
                  order != [] && p.holds == map[] && order[|order| - 1].JobId? && LastEarns(p))
            && (p.armings != s.armings ==> p.sleepBackAt == Some(now + 45 * SECOND))
            && (p.armings == s.armings ==> p.sleepBackAt == s.sleepBackAt)
  {
    hide One, Judge, LastEarns;
    if order != [] {
      var n := |order| - 1;
      assert order == order[..n] + [order[n]];
      var q, id := Pass(s, order[..n], rule, now), order[n];
      assert id in order;
      PassHold(s, order[..n], rule, now, id);
      assert id in q.holds;
      PassUnarmed(s, order[..n], rule, now);
      OneArmsIff(q, id, rule, now);
    }
  }

  // ----- enforceCeilings -----

  /** When a ceiling pass must close a job's window: past the fire time and its
      ceiling if nothing can see the job run, past its start and its ceiling if it
      was seen to, and otherwise past the moment it should have been seen by; but
      a job still running with no limit a person typed has up to the backstop. */
  predicate Over(h: Hold, cfg: Config, now: Time) {
    && now > (if !h.job.detection.Observable() then h.fireAt + h.ceiling
              else if h.started.Some? then h.started.value + h.ceiling
              else h.detectDeadline)
    && (h.started.Some? && h.job.maxRuntime <= 0 ==> now >= h.started.value + cfg.maxCeiling)
  }

  /** What such a window is recorded as: cut off at its ceiling exactly if the job
      was seen to run; never detected if it could have been; and otherwise ok. */
  function OverAs(h: Hold): Outcome {
    if h.started.Some? then HitCeiling
    else if h.job.detection.Observable() then NeverDetected
    else RanOk
  }

  lemma CeilingJudged(cfg: Config, observers: set<string>, id: Id, h: Hold, now: Time)
    ensures var v := Judge(Ceilings(cfg, observers), id, h, now);
            && v.hold == h && (v.Close? <==> Over(h, cfg, now))
            && (v.Close? ==> v.outcome == OverAs(h))
            && (v.Close? ==>
                  (v.watch <==> h.started.None? && !h.job.detection.Observable() && h.job.source in observers))
  {
  }

  /** A pass of the ceiling loop closes exactly the windows that are over, each
      with a line of its outcome, and leaves the others as they were; it goes on
      watching for the completions of those nobody could see, if their scheduler
      reports. */
  lemma CeilingPassCloses(s: State, order: seq<Id>, cfg: Config, observers: set<string>, now: Time, slug: string)
    requires Lists(order, s.holds.Keys) && JobId(slug) in s.holds
    ensures var id := JobId(slug);
            var h, p := s.holds[id], Pass(s, order, Ceilings(cfg, observers), now);
            && s.runs <= p.runs
            && (id !in p.holds <==> Over(h, cfg, now))
            && (id in p.holds ==> p.holds[id] == h)
            && (Over(h, cfg, now) ==> exists e :: e in Added(s, p) && Line(e, slug, h, OverAs(h), now))
            && AwaitedIn(p, id) ==
               if Over(h, cfg, now) && h.started.None? && !h.job.detection.Observable() && h.job.source in observers
               then Some(Late(h.openedAt, h.fireAt, now, h.serial)) else AwaitedIn(s, id)
  {
    hide Judge, Pass, Line, Over, OverAs, AwaitedIn, Added;
    var rule, id := Ceilings(cfg, observers), JobId(slug);
    CeilingJudged(cfg, observers, id, s.holds[id], now);
    PassHold(s, order, rule, now, id);
    PassAwaits(s, order, rule, now, id);
    PassAdds(s, order, rule, now, slug);
  }

  /** Every line a ceiling pass adds says the ceiling was hit exactly if the job
      was seen to run. So nothing truncated trains the estimator, and no job that
      is still running arms a sleep: a ceiling pass arms none at all. */
  lemma CeilingPassRecords(s: State, order: seq<Id>, cfg: Config, observers: set<string>, now: Time)
    requires Lists(order, s.holds.Keys)
    ensures var p := Pass(s, order, Ceilings(cfg, observers), now);
            && s.runs <= p.runs
            && (forall e :: e in Added(s, p) ==>
                  && e.FromWindow? && (e.run.outcome.HitCeiling? <==> e.hold.started.Some?)
                  && (e.hold.started.Some? ==> !e.run.outcome.TrainsEstimator()))
            && p.armings == s.armings && p.sleepBackAt == s.sleepBackAt
  {
    hide Judge, Pass, Tells, Over, LastEarns;
    var rule := Ceilings(cfg, observers);
    var p := Pass(s, order, rule, now);
    PassLogs(s, order, rule, now);
    forall e | e in Added(s, p)
      ensures e.FromWindow? && (e.run.outcome.HitCeiling? <==> e.hold.started.Some?)
      ensures e.hold.started.Some? ==> !e.run.outcome.TrainsEstimator() && !Earns(e)
    {
      AddedByPass(s, order, rule, now, e);
      var slug :| JobId(slug) in s.holds
                  && var v := Judge(rule, JobId(slug), s.holds[JobId(slug)], now);
                     v.Close? && Line(e, slug, v.hold, v.outcome, now);
      CeilingJudged(cfg, observers, JobId(slug), s.holds[JobId(slug)], now);
    }
    PassArmsIff(s, order, rule, now);
    if p.armings != s.armings { LastIsAdded(s, order, rule, now); }
  }

  /** The line a loop that arms ends with is one it added. */
  lemma LastIsAdded(s: State, order: seq<Id>, rule: Rule, now: Time)
    requires Lists(order, s.holds.Keys) && Pass(s, order, rule, now).armings != s.armings
    ensures s.runs <= Pass(s, order, rule, now).runs && Pass(s, order, rule, now).runs != []
    ensures var p := Pass(s, order, rule, now);
            p.runs[|p.runs| - 1] in Added(s, p) && Earns(p.runs[|p.runs| - 1])
  {
    hide Judge, Pass, Earns, Line;
    PassArmsIff(s, order, rule, now);
    var p, id := Pass(s, order, rule, now), order[|order| - 1];
    assert id in order;
    PassHold(s, order, rule, now, id);
    PassAdds(s, order, rule, now, id.slug);
    var e :| e in Added(s, p);
    assert p.runs[|p.runs| - 1] == Added(s, p)[|Added(s, p)| - 1];
  }

  // ----- pollSchedulerState -----

  /** A completion the scheduler reports of this window: the job is no longer
      running and finished after the window opened. */
  predicate Completion(rec: Record, h: Hold) {
    !rec.running && rec.completedAt.Some? && rec.completedAt.value > h.openedAt
  }

  /** The start of a run whose end was reported: as seen, and otherwise as
      reported, but not before it was due, or before the window opened if it was
      due before that or only after it finished. */
  function StartOf(rec: Record, h: Hold): Time
    requires rec.completedAt.Some?
  {
    var due := if h.openedAt <= h.fireAt <= rec.completedAt.value then h.fireAt else h.openedAt;
    if h.started.Some? then h.started.value
    else if rec.startedAt.Some? then Max(due, rec.startedAt.value)
    else due
  }

  /** A window that stays open starts when its scheduler says it runs, at the time
      it says unless that is still to come. */
  function SeenRunning(rec: Record, h: Hold, now: Time): Hold {
    if rec.running && h.started.None? then
      h.(started := Some(if rec.startedAt.Some? then Min(rec.startedAt.value, now) else now))
    else h
  }

  lemma RecordJudged(records: map<string, Option<Record>>, slug: string, h: Hold, now: Time)
    ensures var v := Judge(Records(records), JobId(slug), h, now);
            if slug in records && records[slug].Some? then
              var rec := records[slug].value;
              && (v.Close? <==> Completion(rec, h))
              && (v.Close? ==>
                    && v.hold == h.(started := Some(StartOf(rec, h)), ended := rec.completedAt)
                    && v.outcome == (if rec.failed then RanFailed else RanOk) && !v.watch)
              && (v.Keep? ==> v.hold == SeenRunning(rec, h, now))
            else v == Keep(h)
  {
  }

  /** A pass over the schedulers' records closes exactly the windows with a
      completion newer than they are, and leaves the others, but for a start now
      seen. What is recorded of a completion is failed exactly if the scheduler
      says so, ends when it says, unless that is before the start, and lasted from
      its start to its end. */
  lemma RecordsPassCloses(s: State, order: seq<Id>, records: map<string, Option<Record>>, now: Time, slug: string)
    requires Lists(order, s.holds.Keys) && JobId(slug) in s.holds
    ensures var id := JobId(slug);
            var h, p := s.holds[id], Pass(s, order, Records(records), now);
            && s.runs <= p.runs
            && (slug !in records || records[slug].None? ==> id in p.holds && p.holds[id] == h)
            && (slug in records && records[slug].Some? ==>
                  var rec := records[slug].value;
                  && (id !in p.holds <==> Completion(rec, h))
                  && (id in p.holds ==> p.holds[id] == SeenRunning(rec, h, now))
                  && (Completion(rec, h) ==> exists e :: e in Added(s, p) && Reported(e, slug, h, rec, now)))
            && AwaitedIn(p, id) == AwaitedIn(s, id)
  {
    hide Judge, Pass, Line, Completion, StartOf, SeenRunning, Reported, AwaitedIn;
    var rule, id := Records(records), JobId(slug);
    RecordJudged(records, slug, s.holds[id], now);
    PassHold(s, order, rule, now, id);
    PassAwaits(s, order, rule, now, id);
    PassAdds(s, order, rule, now, slug);
    var p := Pass(s, order, rule, now);
    if slug in records && records[slug].Some? && Completion(records[slug].value, s.holds[id]) {
      var v := Judge(rule, id, s.holds[id], now);
      var e :| e in Added(s, p) && Line(e, slug, v.hold, v.outcome, now);
      ReportedLine(e, slug, s.holds[id], records[slug].value, now, v.hold, v.outcome);
    }
  }

  /** The line of a completion the scheduler reported. */
  predicate Reported(e: Entry, slug: string, h: Hold, rec: Record, now: Time)
  {
    && e.FromWindow? && e.run.slug == slug && e.run.windowOpened == h.openedAt
    && Completion(rec, h)
    && (e.run.outcome == if rec.failed then RanFailed else RanOk)
    && e.run.started == Some(StartOf(rec, h))
    && e.run.ended == (if rec.completedAt.value > StartOf(rec, h) then rec.completedAt else Some(now))
    && e.run.duration == e.run.ended.value - StartOf(rec, h)
  }

  lemma ReportedLine(e: Entry, slug: string, h: Hold, rec: Record, now: Time, g: Hold, outcome: Outcome)
    requires Completion(rec, h) && Line(e, slug, g, outcome, now)
    requires g == h.(started := Some(StartOf(rec, h)), ended := rec.completedAt)
    requires outcome == if rec.failed then RanFailed else RanOk
    ensures Reported(e, slug, h, rec, now)
  {
    hide StartOf;
  }

  /** And such a pass adds no other line. */
  lemma RecordsPassRecords(s: State, order: seq<Id>, records: map<string, Option<Record>>, now: Time, e: Entry)
    requires Lists(order, s.holds.Keys)
    ensures s.runs <= Pass(s, order, Records(records), now).runs
    ensures e in Added(s, Pass(s, order, Records(records), now)) ==>
              exists slug :: JobId(slug) in s.holds && slug in records && records[slug].Some?
                             && Reported(e, slug, s.holds[JobId(slug)], records[slug].value, now)
  {
    hide Judge, Pass, Line, Completion, StartOf, SeenRunning, Reported;
    var rule := Records(records);
    AddedByPass(s, order, rule, now, e);
    if e in Added(s, Pass(s, order, rule, now)) {
      var slug :| JobId(slug) in s.holds
                  && var v := Judge(rule, JobId(slug), s.holds[JobId(slug)], now);
                     v.Close? && Line(e, slug, v.hold, v.outcome, now);
      var v := Judge(rule, JobId(slug), s.holds[JobId(slug)], now);
      RecordJudged(records, slug, s.holds[JobId(slug)], now);
      ReportedLine(e, slug, s.holds[JobId(slug)], records[slug].value, now, v.hold, v.outcome);
    }
  }

  // ----- completions after the window closed -----

  /** The line of a completion reported late: of the awaited window, failed
      exactly if the scheduler says so, from the start it reports, or the fire time
      if that is not inside the window and before the end, to the end it reports. */
  predicate ReportedLate(e: Entry, slug: string, job: Job, w: Late, rec: Record) {
    && !rec.running && rec.completedAt.Some? && rec.completedAt.value > w.openedAt
    && e.LateCompletion? && e.serial == w.serial
    && e.run.slug == slug && e.run.windowOpened == w.openedAt && e.run.holdDuration == w.closedAt - w.openedAt
    && (e.run.outcome == if rec.failed then RanFailed else RanOk)
    && e.run.ended == rec.completedAt && e.run.started.Some?
    && (e.run.started.value == if rec.startedAt.Some? && w.openedAt <= rec.startedAt.value <= rec.completedAt.value
                               then rec.startedAt.value else w.firedAt)
    && e.run.duration == rec.completedAt.value - e.run.started.value
    && e.run.detection == job.detection && !e.run.wokeMachine
  }

  /** The awaited window a line is the completion of. */
  ghost predicate LateOf(s: State, records: map<string, Option<Record>>, now: Time, slug: string, e: Entry) {
    && JobId(slug) in s.lateWatch && now - s.lateWatch[JobId(slug)].closedAt <= HOUR
    && slug in s.jobs && slug in records && records[slug].Some?
    && ReportedLate(e, slug, s.jobs[slug], s.lateWatch[JobId(slug)], records[slug].value)
  }

  lemma LateOneRecords(s: State, id: Id, records: map<string, Option<Record>>, now: Time)
    ensures var p := LateOne(s, id, records, now);
            if id.JobId? && Finished(s, records, now, id.slug)
            then |p.runs| == |s.runs| + 1 && p.runs[..|s.runs|] == s.runs
                 && LateOf(s, records, now, id.slug, p.runs[|s.runs|])
            else p.runs == s.runs
  {
  }

  /** An awaited window's completion is reported in time. */
  ghost predicate Finished(s: State, records: map<string, Option<Record>>, now: Time, slug: string) {
    && JobId(slug) in s.lateWatch && now - s.lateWatch[JobId(slug)].closedAt <= HOUR
    && slug in s.jobs && slug in records && records[slug].Some?
    && Newer(records[slug].value, s.lateWatch[JobId(slug)])
  }

  lemma SameFinished(s: State, q: State, records: map<string, Option<Record>>, now: Time, slug: string)
    requires q.jobs == s.jobs && AwaitedIn(q, JobId(slug)) == AwaitedIn(s, JobId(slug))
    ensures Finished(q, records, now, slug) == Finished(s, records, now, slug)
    ensures forall e :: LateOf(q, records, now, slug, e) == LateOf(s, records, now, slug, e)
  {
    hide ReportedLate, Newer;
  }

  /** A pass over the awaited windows adds a line for exactly those whose
      completion is reported, and says of each what the scheduler says. */
  lemma {:induction false} LatePassRecords(s: State, order: seq<Id>, records: map<string, Option<Record>>, now: Time)
    requires Distinct(order)
    ensures var p := LateAll(s, order, records, now);
            && s.runs <= p.runs
            && (forall e :: e in Added(s, p) ==>
                  exists slug :: JobId(slug) in order && LateOf(s, records, now, slug, e))
            && (forall slug :: JobId(slug) in order && Finished(s, records, now, slug) ==>
                  exists e :: e in Added(s, p) && LateOf(s, records, now, slug, e))
  {
    hide LateOne, LateOf, Finished, WorthAwaiting;
    if order != [] {
      var n := |order| - 1;
      var before, id := order[..n], order[n];
      assert order == before + [id];
      LatePassRecords(s, before, records, now);
      var q := LateAll(s, before, records, now);
      LatePassAwaits(s, before, records, now, id);
      LateOneRecords(q, id, records, now);
      if id.JobId? { SameFinished(s, q, records, now, id.slug); }
      LateAdded(s, before, id, records, now, q, LateAll(s, order, records, now));
    }
  }

  lemma LateAdded(s: State, before: seq<Id>, id: Id, records: map<string, Option<Record>>, now: Time, q: State,
      p: State)
    requires s.runs <= q.runs && id !in before
    requires forall e :: e in Added(s, q) ==>
               exists slug :: JobId(slug) in before && LateOf(s, records, now, slug, e)
    requires forall slug :: JobId(slug) in before && Finished(s, records, now, slug) ==>
               exists e :: e in Added(s, q) && LateOf(s, records, now, slug, e)
    requires if id.JobId? && Finished(s, records, now, id.slug)
             then |p.runs| == |q.runs| + 1 && p.runs[..|q.runs|] == q.runs
                  && LateOf(s, records, now, id.slug, p.runs[|q.runs|])
             else p.runs == q.runs
    ensures s.runs <= p.runs
    ensures forall e :: e in Added(s, p) ==>
              exists slug :: JobId(slug) in before + [id] && LateOf(s, records, now, slug, e)
    ensures forall slug :: JobId(slug) in before + [id] && Finished(s, records, now, slug) ==>
              exists e :: e in Added(s, p) && LateOf(s, records, now, slug, e)
  {
    hide LateOf, Finished;
    var n := |s.runs|;
    assert p.runs[n..] == q.runs[n..] + p.runs[|q.runs|..];
    forall e | e in Added(s, p)
      ensures exists slug :: JobId(slug) in before + [id] && LateOf(s, records, now, slug, e)
    {
      if e in Added(s, q) {
        var slug :| JobId(slug) in before && LateOf(s, records, now, slug, e);
        assert JobId(slug) in before + [id];
      } else {
        assert e == p.runs[|q.runs|] && JobId(id.slug) in before + [id];
      }
    }
    forall slug | JobId(slug) in before + [id] && Finished(s, records, now, slug)
      ensures exists e :: e in Added(s, p) && LateOf(s, records, now, slug, e)
    {
      if JobId(slug) == id {
        assert p.runs[|q.runs|] == Added(s, p)[|q.runs| - n];
      } else {
        var e :| e in Added(s, q) && LateOf(s, records, now, slug, e);
        assert e in Added(s, p);
      }
    }
  }

  // ----- the other two loops -----

  /** A process scan closes exactly the pattern windows of jobs seen before whose
      process is gone, as ok, and sees the start of those that match first now. */
  lemma PatternsPassCloses(s: State, order: seq<Id>, scan: map<string, Option<int>>, now: Time, slug: string)
    requires Lists(order, s.holds.Keys) && JobId(slug) in s.holds
    ensures var id := JobId(slug);
            var h, p := s.holds[id], Pass(s, order, Patterns(scan), now);
            var scanned := h.job.detection.ByPattern? && slug in scan;
            && s.runs <= p.runs
            && (id !in p.holds <==> scanned && h.started.Some? && scan[slug].None?)
            && (id !in p.holds ==> exists e :: e in Added(s, p) && Line(e, slug, h, RanOk, now))
            && (id in p.holds ==>
                  p.holds[id] == (if scanned && h.started.None? && scan[slug].Some?
                                  then h.(started := Some(now), pid := scan[slug].value) else h))
            && AwaitedIn(p, id) == AwaitedIn(s, id)
  {
    hide Pass, Line, AwaitedIn, Added;
    var rule, id := Patterns(scan), JobId(slug);
    PassHold(s, order, rule, now, id);
    PassAwaits(s, order, rule, now, id);
    PassAdds(s, order, rule, now, slug);
  }

  /** The pid fallback closes exactly the windows of marked jobs whose process is
      gone, as ok. */
  lemma DeadPidsPassCloses(s: State, order: seq<Id>, alive: set<int>, now: Time, slug: string)
    requires Lists(order, s.holds.Keys) && JobId(slug) in s.holds
    ensures var id := JobId(slug);
            var h, p := s.holds[id], Pass(s, order, DeadPids(alive), now);
            && s.runs <= p.runs
            && (id !in p.holds <==> h.job.detection.ByMark? && h.started.Some? && h.pid > 0 && h.pid !in alive)
            && (id !in p.holds ==> exists e :: e in Added(s, p) && Line(e, slug, h, RanOk, now))
            && (id in p.holds ==> p.holds[id] == h)
            && AwaitedIn(p, id) == AwaitedIn(s, id)
  {
    hide Pass, Line, AwaitedIn, Added;
    var rule, id := DeadPids(alive), JobId(slug);
    PassHold(s, order, rule, now, id);
    PassAwaits(s, order, rule, now, id);
    PassAdds(s, order, rule, now, slug);
  }

  // ----- a job that is removed or disabled -----

  /** Its window, if open, is recorded as cut off, and nothing else is. */
  lemma RemovingRecords(s: State, slug: string, now: Time)
    requires slug in s.jobs
    ensures CutOffOnly(s, RemoveJob(s, slug, now), slug, now)
    ensures CutOffOnly(s, EnableJob(s, slug, false, now), slug, now)
    ensures EnableJob(s, slug, true, now).runs == s.runs && EnableJob(s, slug, true, now).holds == s.holds
    ensures slug in EnableJob(s, slug, true, now).jobs && EnableJob(s, slug, true, now).jobs[slug].enabled
  {
    hide CutOffOnly, ReleaseJob;
    ReleaseRecords(s, s.(jobs := s.jobs - {slug}), slug, now);
    ReleaseRecords(s, s.(jobs := s.jobs[slug := s.jobs[slug].(enabled := false)]), slug, now);
  }

  ghost predicate CutOffOnly(s: State, p: State, slug: string, now: Time) {
    if JobId(slug) in s.holds then
      |p.runs| == |s.runs| + 1 && s.runs <= p.runs
      && Line(p.runs[|s.runs|], slug, s.holds[JobId(slug)], CutOff, now)
    else p.runs == s.runs
  }

  lemma ReleaseRecords(s: State, t: State, slug: string, now: Time)
    requires t.holds == s.holds && t.runs == s.runs
    ensures CutOffOnly(s, ReleaseJob(t, slug, now), slug, now)
  {
    hide Fin, ClosedRun, Line, Sync;
    SyncLedger(CloseOpen(t, JobId(slug), now, CutOff));
    if JobId(slug) in t.holds {
      FinLogs(t, JobId(slug), t.holds[JobId(slug)], now, CutOff);
      ClosedLine(t, slug, t.holds[JobId(slug)], now, CutOff);
    }
  }

  // ----- arming, over every kind of step -----

  /** The hold a step closes last, if it closes any. */
  function LastId(step: Step): Option<Id> {
    match step
    case Sampled(_, order) => LastOf(order)
    case Sweep(order, _) => LastOf(order)
    case SettingHooks(_, order) => LastOf(order)
    case ReleasingAll(order) => LastOf(order)
    case Pausing(order) => LastOf(order)
    case RemovingJob(slug) => Some(JobId(slug))
    case EnablingJob(slug, _) => Some(JobId(slug))
    case MarkingEnd(slug, _) => Some(JobId(slug))
    case KeepingAwake(_) => Some(KeepAwake)
    case EndingRun(id) => Some(id)
    case _ => None
  }

  function LastOf(order: seq<Id>): Option<Id> {
    if order == [] then None else Some(order[|order| - 1])
  }

  /** It arms exactly when it closes the last hold, and last of all a job's whose
      line earns it. */
  ghost predicate ArmsAsItShould(s: State, p: State, last: Option<Id>, now: Time) {
    && (p.armings != s.armings <==>
          s.holds != map[] && p.holds == map[] && last.Some? && last.value.JobId? && LastEarns(p))
    && (p.armings != s.armings ==> p.sleepBackAt == Some(now + 45 * SECOND))
  }

  /** The same holds, armings, pending sleep and history. */
  predicate SameLedger(s: State, p: State) {
    SameArming(s, p) && p.runs == s.runs
  }

  lemma LoopArms(s: State, t: State, order: seq<Id>, rule: Rule, now: Time, p: State)
    requires Lists(order, s.holds.Keys) && SameLedger(s, t) && SameLedger(Pass(t, order, rule, now), p)
    ensures ArmsAsItShould(s, p, LastOf(order), now)
  {
    hide Pass, LastEarns;
    PassArmsIff(t, order, rule, now);
    var q := Pass(t, order, rule, now);
    assert LastEarns(p) == LastEarns(q) by { SameEarns(q, p); }
    assert order == [] <==> s.holds == map[] by {
      if order != [] { assert order[0] in s.holds; }
    }
  }

  lemma SameEarns(s: State, p: State)
    requires p.runs == s.runs
    ensures LastEarns(p) == LastEarns(s)
  {
  }

  lemma CloseArms(s: State, t: State, id: Id, now: Time, outcome: Outcome, p: State)
    requires SameLedger(s, t) && SameLedger(CloseOpen(t, id, now, outcome), p)
    ensures ArmsAsItShould(s, p, Some(id), now)
  {
    hide Fin, ClosedRun;
    if id in t.holds {
      var h := t.holds[id];
      FinArmsIff(t, id, h, now, outcome);
      FinLogs(t, id, h, now, outcome);
      FinFrame(t, id, h, now, outcome);
      if id.JobId? { ClosedRunSays(t, id.slug, h, now, outcome); }
    }
  }

  lemma StillArms(s: State, p: State, last: Option<Id>, now: Time)
    requires p.armings == s.armings && (p.holds == s.holds || last.None? || !last.value.JobId?)
    ensures ArmsAsItShould(s, p, last, now)
  {
  }

  lemma SyncLedger(s: State)
    ensures SameLedger(s, Sync(s))
  {
  }

  lemma LoopStepArms(s: State, e: Event)
    requires Enabled(s, e)
    requires e.step.Sweep? || e.step.SettingHooks? || e.step.ReleasingAll? || e.step.Pausing?
    ensures ArmsAsItShould(s, Do(s, e), LastId(e.step), e.now)
  {
    hide Pass, Lists, ArmsAsItShould;
    var now, t := e.now, s.(clock := e.now);
    match e.step {
      case Sweep(order, rule) => LoopArms(s, t, order, rule, now, Do(s, e));
      case SettingHooks(on, order) =>
        if on { StillArms(s, Do(s, e), LastId(e.step), now); }
        else { LoopArms(s, t.(hooksOn := false), order, ReleaseAgents, now, Do(s, e)); }
      case ReleasingAll(order) => LoopArms(s, t, order, ReleaseAll, now, Do(s, e));
      case Pausing(order) => LoopArms(s, t.(paused := true), order, ReleaseAll, now, Do(s, e));
    }
  }

  lemma SampleArms(s: State, e: Event)
    requires Enabled(s, e) && e.step.Sampled?
    ensures ArmsAsItShould(s, Do(s, e), LastId(e.step), e.now)
  {
    hide Pass, Lists, ArmsAsItShould, EvaluateCutouts, Cutouts.Fires, Cutouts.Updated, Do;
    DoSample(s, e);
    var now, t, st, order := e.now, s.(clock := e.now), e.step.st, e.step.order;
    ListsSame(s, e);
    if Cutouts.Fires(t.latch, Cutouts.Sample(st, now, |t.holds|), t.cfg).Some? {
      FiredShape(t, st, order, now);
      FiredRuns(t, st, order, now);
      LoopArms(s, t.(latch := Cutouts.Updated(t.latch, st, t.cfg)), order, ReleaseAll, now, Do(s, e));
    } else {
      UnfiredShape(t, st, order, now);
      StillArms(s, Do(s, e), LastId(e.step), now);
    }
  }

  lemma ListsSame(s: State, e: Event)
    requires Enabled(s, e) && e.step.Sampled?
    ensures Lists(e.step.order, s.holds.Keys)
  {
  }

  lemma FiredRuns(s: State, st: Cutouts.Power, order: seq<Id>, now: Time)
    requires Cutouts.Fires(s.latch, Cutouts.Sample(st, now, |s.holds|), s.cfg).Some?
    ensures EvaluateCutouts(s, st, order, now).runs ==
            Pass(s.(latch := Cutouts.Updated(s.latch, st, s.cfg)), order, ReleaseAll, now).runs
  {
    hide Pass, Cutouts.Fires, Cutouts.Updated;
  }

  lemma CloseStepArms(s: State, e: Event)
    requires e.step.RemovingJob? || e.step.EnablingJob? || e.step.MarkingEnd?
    ensures ArmsAsItShould(s, Do(s, e), LastId(e.step), e.now)
  {
    hide ArmsAsItShould, RemoveJob, EnableJob, MarkEnd;
    var now, t := e.now, s.(clock := e.now);
    match e.step {
      case RemovingJob(slug) => RemoveArms(s, t, slug, now);
      case EnablingJob(slug, on) => EnableArms(s, t, slug, on, now);
      case MarkingEnd(slug, exitCode) => EndArms(s, t, slug, exitCode, now);
    }
  }

  lemma RemoveArms(s: State, t: State, slug: string, now: Time)
    requires SameLedger(s, t)
    ensures ArmsAsItShould(s, RemoveJob(t, slug, now), Some(JobId(slug)), now)
  {
    hide ArmsAsItShould, CloseOpen, Sync;
    if slug in t.jobs {
      var u := t.(jobs := t.jobs - {slug});
      SyncLedger(CloseOpen(u, JobId(slug), now, CutOff));
      CloseArms(s, u, JobId(slug), now, CutOff, RemoveJob(t, slug, now));
    } else {
      StillArms(s, t, Some(JobId(slug)), now);
    }
  }

  lemma EnableArms(s: State, t: State, slug: string, on: bool, now: Time)
    requires SameLedger(s, t)
    ensures ArmsAsItShould(s, EnableJob(t, slug, on, now), Some(JobId(slug)), now)
  {
    hide ArmsAsItShould, CloseOpen, Sync;
    if slug in t.jobs && !on {
      var u := t.(jobs := t.jobs[slug := t.jobs[slug].(enabled := on)]);
      SyncLedger(CloseOpen(u, JobId(slug), now, CutOff));
      CloseArms(s, u, JobId(slug), now, CutOff, EnableJob(t, slug, on, now));
    } else {
      StillArms(s, EnableJob(t, slug, on, now), Some(JobId(slug)), now);
    }
  }

  lemma EndArms(s: State, t: State, slug: string, exitCode: int, now: Time)
    requires SameLedger(s, t)
    ensures ArmsAsItShould(s, MarkEnd(t, slug, exitCode, now), Some(JobId(slug)), now)
  {
    hide ArmsAsItShould, Fin, Sync;
    var outcome := if exitCode == 0 then RanOk else RanFailed;
    if slug in t.jobs && JobId(slug) in t.holds {
      SyncLedger(CloseOpen(t, JobId(slug), now, outcome));
      CloseArms(s, t, JobId(slug), now, outcome, MarkEnd(t, slug, exitCode, now));
    } else {
      StillArms(s, t, Some(JobId(slug)), now);
    }
  }

  lemma UserStepArms(s: State, e: Event)
    requires Enabled(s, e)
    requires e.step.KeepingAwake? || e.step.EndingRun? || e.step.StartingRun? || e.step.RenewingRun?
    ensures ArmsAsItShould(s, Do(s, e), LastId(e.step), e.now)
  {
    hide ArmsAsItShould, KeepAwakeFor, EndHold, StartRun, WithHold, Renewed;
    var now, t := e.now, s.(clock := e.now);
    match e.step {
      case KeepingAwake(want) => KeepAwakeAside(t, want, now);
      case EndingRun(id) => EndManualAside(t, id, now, RanOk);
      case StartingRun(key, want) => StartRunAside(t, key, want, now);
      case RenewingRun(id) => if id in t.holds { UserHoldAside(t, id, Renewed(t.holds[id], now)); }
    }
    StillArms(s, Do(s, e), LastId(e.step), now);
  }

  lemma OtherStepArms(s: State, e: Event)
    requires Enabled(s, e) && (e.step.Opening? || e.step.LatePass? || e.step.SleepingBack? || e.step.Marking?)
    ensures ArmsAsItShould(s, Do(s, e), LastId(e.step), e.now)
  {
    hide ArmsAsItShould, OfferAll, LateAll, MaybeSleepBack, MarkStart;
    var now, t := e.now, s.(clock := e.now);
    match e.step {
      case Opening(order, offers) => OfferFrame(t, order, offers, now);
      case LatePass(order, records) => LateFrame(t, order, records, now);
      case SleepingBack(idle) => SleepFrame(t, idle, now);
      case Marking(slug, pid, ceiling) => MarkFrame(t, slug, pid, ceiling, now);
    }
    StillArms(s, Do(s, e), LastId(e.step), now);
  }

  lemma MarkFrame(s: State, slug: string, pid: int, ceiling: Dur, now: Time)
    ensures MarkStart(s, slug, pid, ceiling, now).armings == s.armings
  {
    hide OpenJob, Begin;
    if slug in s.jobs {
      var o := Offer(now, ceiling, false, false);
      if JobId(slug) in s.holds {
        BeginHolds(s, JobId(slug), pid, now);
      } else {
        OpenEvolves(s, slug, o, AdHoc, now);
        BeginHolds(OpenJob(s, slug, o, AdHoc, now), JobId(slug), pid, now);
      }
    }
  }

  /** Every step, of any kind, arms a forced sleep exactly when it closes the last
      hold and, last of all, a job's window that was seen to run, is recorded as ok
      or failed, and followed either kind of wake; the sleep is then due 45 seconds
      later. */
  lemma ArmsIff(s: State, e: Event)
    requires Enabled(s, e)
    ensures var p, last := Do(s, e), LastId(e.step);
            && (p.armings != s.armings <==>
                  s.holds != map[] && p.holds == map[] && last.Some? && last.value.JobId? && LastEarns(p))
            && (p.armings != s.armings ==> p.sleepBackAt == Some(e.now + 45 * SECOND))
  {
    hide Do, Enabled, LastEarns, LastId;
    assert ArmsAsItShould(s, Do(s, e), LastId(e.step), e.now) by {
      if e.step.Sampled? {
        SampleArms(s, e);
      } else if e.step.Sweep? || e.step.SettingHooks? || e.step.ReleasingAll? || e.step.Pausing? {
        LoopStepArms(s, e);
      } else if e.step.RemovingJob? || e.step.EnablingJob? || e.step.MarkingEnd? {
        CloseStepArms(s, e);
      } else if e.step.KeepingAwake? || e.step.EndingRun? || e.step.StartingRun? || e.step.RenewingRun? {
        UserStepArms(s, e);
      } else if e.step.Opening? || e.step.LatePass? || e.step.SleepingBack? || e.step.Marking? {
        OtherStepArms(s, e);
      } else {
        SettingEvolves(s, e);
        StillArms(s, Do(s, e), LastId(e.step), e.now);
      }
    }
  }
}
