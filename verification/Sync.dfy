// internal/daemon/sync.go: the job set follows the schedulers it watches.
module Sync {
  import opened Prelude
  import opened Ids
  import opened Runs
  import opened Holds
  import M = DaemonModel
  import opened DaemonPasses
  import opened DaemonWindows
  import opened DaemonObject

  /** An entry found in a scheduler, under the id its name would be given. */
  datatype Entry = Entry(source: string, slug: string, schedule: string, command: string)

  /** An entry the scan recommends, with the best detection that needs nothing
      from the user; valid says whether a job made of it validates. */
  datatype Candidate = Candidate(entry: Entry, detection: Detection, valid: bool)

  /** One scan: what was found, what is recommended, which sources could be read
      cleanly, and how often a schedule fires if it parses at all. */
  datatype Scan = Scan(
    entries: seq<Entry>,
    candidates: seq<Candidate>,
    readOk: set<string>,
    gap: string -> Option<Dur>)

  function Slugs(entries: seq<Entry>): set<string> {
    set i | 0 <= i < |entries| :: entries[i].slug
  }

  // ----- adopting -----

  predicate Adoptable(c: Candidate, sources: set<string>) {
    c.entry.source in sources && c.valid
  }

  function AdoptedJob(c: Candidate): Job {
    Job(c.detection, 0, 0, true, true, c.entry.source, c.entry.schedule, c.entry.command)
  }

  /** Known jobs stay; an unknown id goes to the first candidate that can have it. */
  function Adopted(jobs: map<string, Job>, cs: seq<Candidate>, sources: set<string>): map<string, Job> {
    if cs == [] then jobs
    else
      var before, c := Adopted(jobs, cs[..|cs| - 1], sources), cs[|cs| - 1];
      if Adoptable(c, sources) && c.entry.slug !in before then before[c.entry.slug := AdoptedJob(c)] else before
  }

  /** The first candidate that can have an id. */
  function FirstFor(cs: seq<Candidate>, sources: set<string>, slug: string): Option<Candidate> {
    if cs == [] then None
    else if cs[0].entry.slug == slug && Adoptable(cs[0], sources) then Some(cs[0])
    else FirstFor(cs[1..], sources, slug)
  }

  lemma {:induction false} FirstOfMore(cs: seq<Candidate>, c: Candidate, sources: set<string>, slug: string)
    ensures FirstFor(cs + [c], sources, slug) ==
              if FirstFor(cs, sources, slug).Some? then FirstFor(cs, sources, slug)
              else FirstFor([c], sources, slug)
  {
    if cs == [] {
      assert cs + [c] == [c];
    } else {
      FirstOfMore(cs[1..], c, sources, slug);
      assert (cs + [c])[1..] == cs[1..] + [c];
    }
  }

  lemma {:induction false} AdoptionIsExact(jobs: map<string, Job>, cs: seq<Candidate>, sources: set<string>,
      slug: string)
    ensures var a, first := Adopted(jobs, cs, sources), FirstFor(cs, sources, slug);
            if slug in jobs then slug in a && a[slug] == jobs[slug]
            else (slug in a <==> first.Some?) && (slug in a ==> a[slug] == AdoptedJob(first.value))
  {
    hide FirstFor;
    if cs == [] {
      assert FirstFor([], sources, slug) == None by { NoneFirst(sources, slug); }
    } else {
      var n := |cs| - 1;
      AdoptionIsExact(jobs, cs[..n], sources, slug);
      assert cs == cs[..n] + [cs[n]];
      FirstOfMore(cs[..n], cs[n], sources, slug);
      OnlyFirst(cs[n], sources, slug);
    }
  }

  /** So an unknown id becomes a job exactly of the first candidate of its name
      from a watched source that validates: enabled, managed, with no maximum or
      buffer of its own. */
  lemma FirstIsAdopted(jobs: map<string, Job>, cs: seq<Candidate>, sources: set<string>, i: nat)
    requires i < |cs| && cs[i].entry.slug !in jobs && cs[i].entry.source in sources && cs[i].valid
    requires forall k :: 0 <= k < i && cs[k].entry.slug == cs[i].entry.slug ==>
               cs[k].entry.source !in sources || !cs[k].valid
    ensures var a, c := Adopted(jobs, cs, sources), cs[i];
            && c.entry.slug in a
            && a[c.entry.slug] == Job(c.detection, 0, 0, true, true, c.entry.source, c.entry.schedule, c.entry.command)
  {
    AdoptionIsExact(jobs, cs, sources, cs[i].entry.slug);
    FirstForIs(cs, sources, i);
  }

  lemma {:induction false} FirstForIs(cs: seq<Candidate>, sources: set<string>, i: nat)
    requires i < |cs| && cs[i].entry.source in sources && cs[i].valid
    requires forall k :: 0 <= k < i && cs[k].entry.slug == cs[i].entry.slug ==>
               cs[k].entry.source !in sources || !cs[k].valid
    ensures FirstFor(cs, sources, cs[i].entry.slug) == Some(cs[i])
  {
    if i > 0 { FirstForIs(cs[1..], sources, i - 1); }
  }

  /** And no other is added. */
  lemma {:induction false} OnlyCandidatesAreAdopted(jobs: map<string, Job>, cs: seq<Candidate>, sources: set<string>,
      slug: string)
    requires slug !in jobs && slug in Adopted(jobs, cs, sources)
    ensures exists i :: 0 <= i < |cs| && cs[i].entry.slug == slug && cs[i].entry.source in sources && cs[i].valid
  {
    var n := |cs| - 1;
    if slug in Adopted(jobs, cs[..n], sources) {
      OnlyCandidatesAreAdopted(jobs, cs[..n], sources, slug);
      var i :| 0 <= i < n && cs[..n][i].entry.slug == slug && cs[..n][i].entry.source in sources && cs[..n][i].valid;
      assert cs[i] == cs[..n][i];
    }
  }

  lemma NoneFirst(sources: set<string>, slug: string)
    ensures FirstFor([], sources, slug) == None
  {
  }

  lemma OnlyFirst(c: Candidate, sources: set<string>, slug: string)
    ensures FirstFor([c], sources, slug) == if c.entry.slug == slug && Adoptable(c, sources) then Some(c) else None
  {
  }

  // ----- a sync is a run of requests about jobs -----

  /** Registering a job, as one step of the daemon's model. */
  method Put(d: Daemon, slug: string, job: Job, now: Time, ghost s0: M.State, ghost run: seq<M.Event>)
    returns (ghost more: seq<M.Event>)
    requires RunsTo(s0, run, d.Model()) && Whole(run) && d.clock <= now
    modifies d
    ensures RunsTo(s0, more, d.Model()) && Whole(more) && d.clock == now
    ensures d.jobs == old(d.jobs)[slug := job] && d.holds == old(d.holds) && d.cfg == old(d.cfg)
  {
    hide RunsTo, Whole, M.Do, M.Enabled;
    ghost var e := M.Event(now, JobStep(JobsPut(slug, job)));
    DoJob(d.Model(), JobsPut(slug, job), now);
    RunMore(s0, run, d.Model(), e);
    StillWhole(run, e);
    d.HandleJob(JobsPut(slug, job), now);
    more := run + [e];
  }

  /** Removing one. */
  method Drop(d: Daemon, slug: string, now: Time, ghost s0: M.State, ghost run: seq<M.Event>)
    returns (ghost more: seq<M.Event>)
    requires RunsTo(s0, run, d.Model()) && Whole(run) && d.clock <= now && slug in d.jobs
    modifies d
    ensures RunsTo(s0, more, d.Model()) && Whole(more) && d.clock == now
    ensures d.jobs == old(d.jobs) - {slug} && d.holds == old(d.holds) - {JobId(slug)} && d.cfg == old(d.cfg)
  {
    hide RunsTo, Whole, M.Do, M.Enabled, M.RemoveJob;
    ghost var e := M.Event(now, JobStep(JobsRemove(slug)));
    DoJob(d.Model(), JobsRemove(slug), now);
    RunMore(s0, run, d.Model(), e);
    StillWhole(run, e);
    RemoveFrame(d.Model().(clock := now), slug, now);
    d.HandleJob(JobsRemove(slug), now);
    more := run + [e];
  }

  lemma NothingYet(s: M.State)
    ensures RunsTo(s, [], s) && Whole([])
  {
    NoRun(s);
  }

  lemma RunsOn(s0: M.State, a: seq<M.Event>, s: M.State, b: seq<M.Event>, p: M.State)
    requires RunsTo(s0, a, s) && RunsTo(s, b, p) && Whole(a) && Whole(b)
    ensures RunsTo(s0, a + b, p) && Whole(a + b)
  {
    hide RunsTo;
    RunJoin(s0, a, s, b, p);
    forall i | 0 <= i < |a + b| && Unsettling((a + b)[i].step)
      ensures exists j :: i < j < |a + b| && (a + b)[j].step.Syncing?
    {
      if i < |a| {
        var j :| i < j < |a| && a[j].step.Syncing?;
        assert (a + b)[j] == a[j];
      } else {
        var j :| i - |a| < j < |b| && b[j].step.Syncing?;
        assert (a + b)[|a| + j] == b[j];
      }
    }
  }

  method AdoptNew(d: Daemon, cs: seq<Candidate>, sources: set<string>, now: Time)
    returns (adopted: nat, ghost run: seq<M.Event>)
    requires d.clock <= now
    modifies d
    ensures RunsTo(old(d.Model()), run, d.Model()) && Whole(run) && d.clock <= now
    ensures d.jobs == Adopted(old(d.jobs), cs, sources) && d.holds == old(d.holds) && d.cfg == old(d.cfg)
    ensures |d.jobs| == |old(d.jobs)| + adopted
  {
    hide RunsTo, Whole;
    adopted, run := 0, [];
    NothingYet(d.Model());
    var k := 0;
    while k < |cs|
      invariant k <= |cs|
      invariant RunsTo(old(d.Model()), run, d.Model()) && Whole(run) && d.clock <= now
      invariant d.jobs == Adopted(old(d.jobs), cs[..k], sources) && d.holds == old(d.holds) && d.cfg == old(d.cfg)
      invariant |d.jobs| == |old(d.jobs)| + adopted
    {
      var c := cs[k];
      assert cs[..k + 1][..k] == cs[..k];
      if c.entry.source in sources && c.entry.slug !in d.jobs && c.valid {
        run := Put(d, c.entry.slug, AdoptedJob(c), now, old(d.Model()), run);
        adopted := adopted + 1;
      }
      k := k + 1;
    }
    assert cs[..k] == cs;
  }

  // ----- updating and retiring -----

  /** Only jobs goguma adopted itself, from sources it watches, are touched. */
  predicate Followed(job: Job, sources: set<string>) {
    job.managed && job.source in sources
  }

  /** The last entry found for a job of a source. */
  function LatestEntry(entries: seq<Entry>, source: string, slug: string): Option<Entry> {
    if entries == [] then None
    else
      var e := entries[|entries| - 1];
      if e.source == source && e.slug == slug then Some(e) else LatestEntry(entries[..|entries| - 1], source, slug)
  }

  datatype Change = Stays | Becomes(job: Job) | Retires

  /** What a sync does with one registered job when its entry has changed: only
      goguma's own adoptions from watched sources are touched, a schedule that
      no longer parses leaves the working one, and one that fires too often
      retires the job. */
  function ChangeOf(slug: string, job: Job, scan: Scan, sources: set<string>, floor: Dur): Change {
    var e := LatestEntry(scan.entries, job.source, slug);
    if !Followed(job, sources) || e.None? then Stays
    else if e.value.schedule == job.schedule && e.value.command == job.command then Stays
    else if scan.gap(e.value.schedule).None? then Stays
    else if 0 < scan.gap(e.value.schedule).value <= floor then Retires
    else Becomes(job.(schedule := e.value.schedule, command := e.value.command))
  }

  /** A job goguma adopted, whose source was read cleanly and no longer has it. */
  predicate Vanished(slug: string, job: Job, scan: Scan, sources: set<string>) {
    Followed(job, sources) && job.source in scan.readOk && slug !in Slugs(scan.entries)
  }

  /** Retiring a job closes its window and no other. */
  lemma RemoveFrame(s: M.State, slug: string, now: Time)
    requires slug in s.jobs
    ensures var p := M.RemoveJob(s, slug, now);
            p.jobs == s.jobs - {slug} && p.holds == s.holds - {JobId(slug)} && p.cfg == s.cfg && p.clock == s.clock
  {
    hide M.Fin, Framed;
    var t := s.(jobs := s.jobs - {slug});
    if JobId(slug) in s.holds {
      var f := M.Fin(t, JobId(slug), t.holds[JobId(slug)], now, CutOff);
      FinFrame(t, JobId(slug), t.holds[JobId(slug)], now, CutOff);
      assert f.jobs == t.jobs && f.cfg == t.cfg && f.clock == t.clock by { FramedJobs(t, f); }
      SyncSame(f);
    } else {
      SyncSame(t);
      assert s.holds - {JobId(slug)} == s.holds;
    }
  }

  lemma FramedJobs(s: M.State, p: M.State)
    requires Framed(s, p)
    ensures p.jobs == s.jobs && p.cfg == s.cfg && p.clock == s.clock
  {
  }

  lemma SyncSame(s: M.State)
    ensures var p := M.Sync(s); p.jobs == s.jobs && p.holds == s.holds && p.cfg == s.cfg && p.clock == s.clock
  {
  }

  /** Only windows of removed jobs are closed. */
  ghost predicate WindowsFollow(jobs: map<string, Job>, holds: map<Id, Hold>, jobs': map<string, Job>,
      holds': map<Id, Hold>)
  {
    && (forall id :: id in holds' <==> id in holds && !(id.JobId? && id.slug in jobs && id.slug !in jobs'))
    && (forall id :: id in holds' ==> holds'[id] == holds[id])
  }

  lemma FollowNone(jobs: map<string, Job>, holds: map<Id, Hold>)
    ensures WindowsFollow(jobs, holds, jobs, holds)
  {
  }

  lemma FollowMore(jobs: map<string, Job>, holds: map<Id, Hold>, jobs': map<string, Job>, holds': map<Id, Hold>,
      slug: string, job: Job)
    requires WindowsFollow(jobs, holds, jobs', holds') && slug in jobs && slug in jobs'
    ensures WindowsFollow(jobs, holds, jobs' - {slug}, holds' - {JobId(slug)})
    ensures WindowsFollow(jobs, holds, jobs'[slug := job], holds')
  {
  }

  method UpdateChanged(d: Daemon, scan: Scan, sources: set<string>, now: Time) returns (ghost run: seq<M.Event>)
    requires d.clock <= now
    modifies d
    ensures RunsTo(old(d.Model()), run, d.Model()) && Whole(run) && d.clock <= now && d.cfg == old(d.cfg)
    ensures forall slug :: slug in d.jobs <==>
              && slug in old(d.jobs)
              && !ChangeOf(slug, old(d.jobs)[slug], scan, sources, old(d.cfg).minImportInterval).Retires?
    ensures forall slug :: slug in d.jobs ==>
              d.jobs[slug] == Updated(slug, old(d.jobs)[slug], scan, sources, old(d.cfg).minImportInterval)
    ensures WindowsFollow(old(d.jobs), old(d.holds), d.jobs, d.holds)
  {
    hide RunsTo, Whole, WindowsFollow;
    var floor := d.cfg.minImportInterval;
    var todo := d.jobs.Keys;
    run := [];
    NothingYet(d.Model());
    FollowNone(d.jobs, d.holds);
    while todo != {}
      invariant RunsTo(old(d.Model()), run, d.Model()) && Whole(run) && d.clock <= now
      invariant d.cfg == old(d.cfg) && todo <= d.jobs.Keys <= old(d.jobs).Keys
      invariant forall slug :: slug in todo ==> d.jobs[slug] == old(d.jobs)[slug]
      invariant forall slug :: slug in old(d.jobs) && slug !in todo ==>
                  (slug in d.jobs <==> !ChangeOf(slug, old(d.jobs)[slug], scan, sources, floor).Retires?)
      invariant forall slug :: slug in d.jobs && slug !in todo ==>
                  d.jobs[slug] == Updated(slug, old(d.jobs)[slug], scan, sources, floor)
      invariant WindowsFollow(old(d.jobs), old(d.holds), d.jobs, d.holds)
      decreases todo
    {
      var slug :| slug in todo;
      var j := d.jobs[slug];
      todo := todo - {slug};
      var e := LatestEntry(scan.entries, j.source, slug);
      if !j.managed || j.source !in sources || e.None? { continue; }
      if e.value.schedule == j.schedule && e.value.command == j.command { continue; }
      var gap := scan.gap(e.value.schedule);
      if gap.None? { continue; }
      var changed := j.(schedule := e.value.schedule, command := e.value.command);
      FollowMore(old(d.jobs), old(d.holds), d.jobs, d.holds, slug, changed);
      if 0 < gap.value <= floor {
        run := Drop(d, slug, now, old(d.Model()), run);
        continue;
      }
      run := Put(d, slug, changed, now, old(d.Model()), run);
    }
  }

  /** A job that a change does not retire, after it. */
  function Updated(slug: string, job: Job, scan: Scan, sources: set<string>, floor: Dur): Job {
    var c := ChangeOf(slug, job, scan, sources, floor);
    if c.Becomes? then c.job else job
  }

  method RetireVanished(d: Daemon, scan: Scan, sources: set<string>, now: Time)
    returns (retired: nat, ghost run: seq<M.Event>)
    requires d.clock <= now
    modifies d
    ensures RunsTo(old(d.Model()), run, d.Model()) && Whole(run) && d.clock <= now && d.cfg == old(d.cfg)
    ensures forall slug :: slug in d.jobs <==>
                           slug in old(d.jobs) && !Vanished(slug, old(d.jobs)[slug], scan, sources)
    ensures forall slug :: slug in d.jobs ==> d.jobs[slug] == old(d.jobs)[slug]
    ensures WindowsFollow(old(d.jobs), old(d.holds), d.jobs, d.holds)
    ensures |d.jobs| + retired == |old(d.jobs)|
  {
    hide RunsTo, Whole, WindowsFollow;
    retired, run := 0, [];
    NothingYet(d.Model());
    FollowNone(d.jobs, d.holds);
    var todo := d.jobs.Keys;
    while todo != {}
      invariant RunsTo(old(d.Model()), run, d.Model()) && Whole(run) && d.clock <= now
      invariant d.cfg == old(d.cfg) && todo <= d.jobs.Keys <= old(d.jobs).Keys
      invariant forall slug :: slug in d.jobs ==> d.jobs[slug] == old(d.jobs)[slug]
      invariant forall slug :: slug in old(d.jobs) && slug !in todo ==>
                  (slug in d.jobs <==> !Vanished(slug, old(d.jobs)[slug], scan, sources))
      invariant WindowsFollow(old(d.jobs), old(d.holds), d.jobs, d.holds)
      invariant |d.jobs| + retired == |old(d.jobs)|
      decreases todo
    {
      var slug :| slug in todo;
      var j := d.jobs[slug];
      todo := todo - {slug};
      if !j.managed || j.source !in sources { continue; }
      if j.source !in scan.readOk { continue; }
      if slug in Slugs(scan.entries) { continue; }
      FollowMore(old(d.jobs), old(d.holds), d.jobs, d.holds, slug, j);
      run := Drop(d, slug, now, old(d.Model()), run);
      retired := retired + 1;
    }
  }

  /** What a sync leaves of the jobs there are once it has adopted: all but those
      that changed to fire too often and those that vanished. */
  predicate SyncKeeps(slug: string, job: Job, scan: Scan, sources: set<string>, floor: Dur) {
    !ChangeOf(slug, job, scan, sources, floor).Retires? && !Vanished(slug, job, scan, sources)
  }

  lemma StillVanished(slug: string, job: Job, scan: Scan, sources: set<string>, floor: Dur)
    ensures Vanished(slug, Updated(slug, job, scan, sources, floor), scan, sources)
            == Vanished(slug, job, scan, sources)
  {
  }

  lemma WindowsFollowOn(a: map<string, Job>, h: map<Id, Hold>, b: map<string, Job>, i: map<Id, Hold>,
      c: map<string, Job>, j: map<Id, Hold>)
    requires WindowsFollow(a, h, b, i) && WindowsFollow(b, i, c, j) && c.Keys <= b.Keys <= a.Keys
    ensures WindowsFollow(a, h, c, j)
  {
  }

  /** A whole sync, as one run of requests about jobs: exactly the jobs adopted
      or already there are left that no change retires and that have not
      vanished, each in step with its entry; and exactly the others' windows are
      closed. */
  method SyncProviders(d: Daemon, scan: Scan, sources: set<string>, now: Time) returns (ghost run: seq<M.Event>)
    requires d.clock <= now
    modifies d
    ensures RunsTo(old(d.Model()), run, d.Model()) && Whole(run) && d.clock <= now
    ensures sources == {} ==> run == []
    ensures var jobs, floor := Adopted(old(d.jobs), scan.candidates, sources), old(d.cfg).minImportInterval;
            sources != {} ==>
              && (forall slug :: slug in d.jobs <==> slug in jobs && SyncKeeps(slug, jobs[slug], scan, sources, floor))
              && (forall slug :: slug in d.jobs ==> d.jobs[slug] == Updated(slug, jobs[slug], scan, sources, floor))
              && WindowsFollow(jobs, old(d.holds), d.jobs, d.holds)
  {
    hide RunsTo, Whole, ChangeOf, Vanished, Adopted, WindowsFollow;
    run := [];
    NothingYet(d.Model());
    if sources == {} { return; }
    ghost var s0 := d.Model();
    var floor := d.cfg.minImportInterval;
    ghost var more: seq<M.Event>;
    var adopted;
    adopted, run := AdoptNew(d, scan.candidates, sources, now);
    ghost var s1 := d.Model();
    more := UpdateChanged(d, scan, sources, now);
    ghost var s2 := d.Model();
    RunsOn(s0, run, s1, more, s2);
    run := run + more;
    var retired;
    retired, more := RetireVanished(d, scan, sources, now);
    RunsOn(s0, run, s2, more, d.Model());
    run := run + more;
    forall slug | slug in s1.jobs
      ensures Vanished(slug, Updated(slug, s1.jobs[slug], scan, sources, floor), scan, sources)
              == Vanished(slug, s1.jobs[slug], scan, sources)
    {
      StillVanished(slug, s1.jobs[slug], scan, sources, floor);
    }
    WindowsFollowOn(s1.jobs, s1.holds, s2.jobs, s2.holds, d.jobs, d.holds);
  }

  /** What a sync does with a job whose entry changed. It retires it exactly if
      goguma adopted it, from a source it watches, and the changed schedule, which
      parses, repeats within the floor; a change that it follows takes over the
      schedule and the command and nothing else. */
  lemma ChangeIs(slug: string, job: Job, scan: Scan, sources: set<string>, floor: Dur, e: Entry)
    requires LatestEntry(scan.entries, job.source, slug) == Some(e)
    ensures var c, after := ChangeOf(slug, job, scan, sources, floor), Updated(slug, job, scan, sources, floor);
            var follows := job.managed && job.source in sources
                           && (e.schedule != job.schedule || e.command != job.command)
                           && scan.gap(e.schedule).Some?;
            var often := scan.gap(e.schedule).Some? && 0 < scan.gap(e.schedule).value <= floor;
            && (c.Retires? <==> follows && often)
            && (!c.Retires? ==>
                  after == if follows then job.(schedule := e.schedule, command := e.command) else job)
  {
  }

  /** A job a person registered, or of a source that is not watched, is never
      touched by a sync. */
  lemma OthersAreLeft(slug: string, job: Job, scan: Scan, sources: set<string>, floor: Dur)
    requires !Followed(job, sources)
    ensures SyncKeeps(slug, job, scan, sources, floor) && Updated(slug, job, scan, sources, floor) == job
  {
  }

  /** An adopted job that is gone from its own source, though that was read
      cleanly, is retired exactly when no source has an entry of its name. */
  lemma GoneIsRetiredIff(slug: string, job: Job, scan: Scan, sources: set<string>, floor: Dur)
    requires Followed(job, sources) && job.source in scan.readOk
    requires forall i :: 0 <= i < |scan.entries| && scan.entries[i].source == job.source ==>
               scan.entries[i].slug != slug
    ensures !SyncKeeps(slug, job, scan, sources, floor) <==>
              forall i :: 0 <= i < |scan.entries| ==> scan.entries[i].slug != slug
    ensures SyncKeeps(slug, job, scan, sources, floor) ==> Updated(slug, job, scan, sources, floor) == job
  {
    NoLatest(scan.entries, job.source, slug);
  }

  /** A job of a source that could not be read is not retired for being gone. */
  lemma UnreadIsKept(slug: string, job: Job, scan: Scan, sources: set<string>, floor: Dur)
    requires job.source !in scan.readOk && LatestEntry(scan.entries, job.source, slug) == None
    ensures SyncKeeps(slug, job, scan, sources, floor) && Updated(slug, job, scan, sources, floor) == job
  {
  }

  lemma {:induction false} NoLatest(entries: seq<Entry>, source: string, slug: string)
    requires forall i :: 0 <= i < |entries| && entries[i].source == source ==> entries[i].slug != slug
    ensures LatestEntry(entries, source, slug) == None
  {
    if entries != [] { NoLatest(entries[..|entries| - 1], source, slug); }
  }

  /** What is left of a sync is in step with the last entry of its source,
      unless that does not parse. */
  lemma LeftInStep(slug: string, job: Job, scan: Scan, sources: set<string>, floor: Dur)
    requires Followed(job, sources) && SyncKeeps(slug, job, scan, sources, floor)
    ensures var e, after := LatestEntry(scan.entries, job.source, slug), Updated(slug, job, scan, sources, floor);
            && Followed(after, sources) && after.source == job.source
            && (e.Some? && scan.gap(e.value.schedule).Some? ==>
                  after.schedule == e.value.schedule && after.command == e.value.command)
  {
  }
}
