// What every step of the daemon keeps, and what therefore holds in every run.
module DaemonPasses {
  import opened Prelude
  import opened Configs
  import opened Ids
  import opened Runs
  import opened Holds
  import opened Schedules
  import opened DaemonModel

  /** All a loop over the holds may change. */
  predicate Framed(s: State, p: State) {
    p == s.(holds := p.holds, served := p.served, runs := p.runs, sleepBackAt := p.sleepBackAt,
            armings := p.armings, lateWatch := p.lateWatch)
  }

  lemma FinFrame(s: State, id: Id, h: Hold, now: Time, outcome: Outcome)
    ensures Framed(s, Fin(s, id, h, now, outcome))
    ensures Fin(s, id, h, now, outcome).holds == s.holds - {id}
  {
  }

  lemma OneFrame(s: State, id: Id, rule: Rule, now: Time)
    ensures Framed(s, One(s, id, rule, now))
    ensures One(s, id, rule, now).holds ==
              if id !in s.holds then s.holds
              else if Judge(rule, id, s.holds[id], now).Close? then s.holds - {id}
              else s.holds[id := Judge(rule, id, s.holds[id], now).hold]
  {
    hide Judge, Fin, Framed, Watch;
    FramedSelf(s);
    if id in s.holds {
      var v := Judge(rule, id, s.holds[id], now);
      if v.Close? {
        var f := Fin(s, id, v.hold, now, v.outcome);
        FinFrame(s, id, v.hold, now, v.outcome);
        WatchFrame(f, id, v.hold, now);
        FramedTrans(s, f, Watch(f, id, v.hold, now));
      } else {
        KeepFrame(s, id, v.hold);
      }
    }
  }

  lemma WatchFrame(s: State, id: Id, h: Hold, now: Time)
    ensures Framed(s, Watch(s, id, h, now)) && Watch(s, id, h, now).holds == s.holds
  {
  }

  lemma KeepFrame(s: State, id: Id, h: Hold)
    ensures Framed(s, s.(holds := s.holds[id := h]))
  {
  }

  lemma FramedTrans(s: State, p: State, q: State)
    requires Framed(s, p) && Framed(p, q)
    ensures Framed(s, q)
  {
  }

  lemma {:induction false} PassFrame(s: State, order: seq<Id>, rule: Rule, now: Time)
    ensures Framed(s, Pass(s, order, rule, now))
  {
    hide One, Framed;
    if order == [] {
      assert Framed(s, s) by { FramedSelf(s); }
    } else {
      var p := Pass(s, order[..|order| - 1], rule, now);
      PassFrame(s, order[..|order| - 1], rule, now);
      OneFrame(p, order[|order| - 1], rule, now);
      FramedTrans(s, p, Pass(s, order, rule, now));
    }
  }

  lemma FramedSelf(s: State)
    ensures Framed(s, s)
  {
  }

  /** Where a loop leaves one hold, whatever order the map yields them in: each
      is judged once, on what it was before the loop. */
  lemma {:induction false} PassHold(s: State, order: seq<Id>, rule: Rule, now: Time, id: Id)
    requires Distinct(order)
    ensures var p := Pass(s, order, rule, now);
            if id in s.holds && id in order && Judge(rule, id, s.holds[id], now).Close? then id !in p.holds
            else if id in s.holds && id in order then
              id in p.holds && p.holds[id] == Judge(rule, id, s.holds[id], now).hold
            else if id in s.holds then id in p.holds && p.holds[id] == s.holds[id]
            else id !in p.holds
  {
    hide Judge, One;
    if order != [] {
      var n := |order| - 1;
      assert order == order[..n] + [order[n]];
      var p := Pass(s, order[..n], rule, now);
      PassHold(s, order[..n], rule, now, id);
      OneFrame(p, order[n], rule, now);
    }
  }

  /** So the holds a loop leaves do not depend on the order. */
  lemma PassOrder(s: State, a: seq<Id>, b: seq<Id>, rule: Rule, now: Time)
    requires Lists(a, s.holds.Keys) && Lists(b, s.holds.Keys)
    ensures Pass(s, a, rule, now).holds == Pass(s, b, rule, now).holds
  {
    hide Pass, Judge;
    forall id: Id
      ensures id in Pass(s, a, rule, now).holds <==> id in Pass(s, b, rule, now).holds
      ensures id in Pass(s, a, rule, now).holds ==>
                Pass(s, a, rule, now).holds[id] == Pass(s, b, rule, now).holds[id]
    {
      PassHold(s, a, rule, now, id);
      PassHold(s, b, rule, now, id);
    }
  }

  lemma ReleaseAllEmpties(s: State, order: seq<Id>, now: Time)
    requires Lists(order, s.holds.Keys)
    ensures Pass(s, order, ReleaseAll, now).holds == map[]
  {
    hide Pass;
    var p := Pass(s, order, ReleaseAll, now);
    forall id: Id
      ensures id !in p.holds
    {
      PassHold(s, order, ReleaseAll, now, id);
    }
  }

  // ----- openDueWindows -----

  lemma {:induction false} OfferFrame(s: State, order: seq<string>, offers: map<string, Offer>, now: Time)
    ensures var p := OfferAll(s, order, offers, now);
            p == s.(holds := p.holds, openings := p.openings, windows := p.windows)
  {
    hide Due;
    if order != [] { OfferFrame(s, order[..|order| - 1], offers, now); }
  }

  /** The window opened for an offer: for its fire and as long as its ceiling,
      opened now and unseen, and not given up for at least two minutes. */
  predicate IsOffered(h: Hold, job: Job, o: Offer, now: Time) {
    h == Hold(job, o.fire, now, o.ceiling, o.fire + Max(o.ceiling, 2 * MINUTE), None, 0, None,
              o.wokeMachine, o.followsWake, Scheduled, h.serial)
  }

  /** The loop over the jobs opens exactly the windows that are due, each for
      the fire it was offered, and touches no hold that was open. */
  lemma {:induction false} OfferHold(s: State, order: seq<string>, offers: map<string, Offer>, now: Time, id: Id)
    requires Distinct(order)
    ensures var p := OfferAll(s, order, offers, now);
            if id in s.holds then id in p.holds && p.holds[id] == s.holds[id]
            else if id.JobId? && id.slug in order && id.slug in s.jobs && id.slug in offers
              && Due(s, id.slug, offers[id.slug].fire, now) then
              id in p.holds && IsOffered(p.holds[id], s.jobs[id.slug], offers[id.slug], now)
            else id !in p.holds
  {
    hide Due, OfferOne;
    if order != [] {
      var n := |order| - 1;
      assert order == order[..n] + [order[n]];
      var p, slug := OfferAll(s, order[..n], offers, now), order[n];
      OfferHold(s, order[..n], offers, now, id);
      OfferHold(s, order[..n], offers, now, JobId(slug));
      OfferFrame(s, order[..n], offers, now);
      if slug in s.jobs && slug in offers { SameDue(s, p, slug, offers[slug].fire, now); }
      OfferOneHold(p, slug, offers, now, id);
    }
  }

  /** Whether a job is due does not depend on the other jobs' holds. */
  lemma SameDue(s: State, p: State, slug: string, fire: Time, now: Time)
    requires slug in s.jobs
    requires p == s.(holds := p.holds, openings := p.openings, windows := p.windows)
    requires JobId(slug) in p.holds <==> JobId(slug) in s.holds
    ensures Due(p, slug, fire, now) == Due(s, slug, fire, now)
  {
  }

  lemma OfferOneHold(s: State, slug: string, offers: map<string, Offer>, now: Time, id: Id)
    ensures var p := OfferOne(s, slug, offers, now);
            if slug in s.jobs && slug in offers && Due(s, slug, offers[slug].fire, now) && id == JobId(slug) then
              id !in s.holds && id in p.holds && IsOffered(p.holds[id], s.jobs[slug], offers[slug], now)
            else (id in p.holds <==> id in s.holds) && (id in s.holds ==> p.holds[id] == s.holds[id])
  {
  }
}

module DaemonInvariants {
  import opened Prelude
  import opened Configs
  import opened Cutouts
  import opened Ids
  import opened Runs
  import opened Holds
  import opened Schedules
  import opened DaemonModel
  import opened DaemonPasses

  // ----- every open hold -----

  /** A hold is of the shape its id says: a job's window belongs to a registered
      job and gives up on time; the user's own window is bounded; a run hold
      never outlives its absolute bound. Under a latched cutout only windows a
      wrapped job opened itself are left, and no scheduled one under a pause. */
  ghost predicate HoldOk(s: State, id: Id, h: Hold) {
    && h.openedAt <= s.clock
    && (s.latch.Some? ==> h.origin.AdHoc?)
    && (s.paused ==> !h.origin.Scheduled?)
    && match id
       case JobId(slug) =>
         && slug in s.jobs && (h.origin.Scheduled? || h.origin.AdHoc?)
         && h.detectDeadline == DetectDeadlineFor(h.fireAt, h.ceiling)
       case KeepAwake =>
         h == UserHold(h.openedAt, h.ceiling, ByUser) && MIN_KEEP_AWAKE <= h.ceiling <= MAX_KEEP_AWAKE
       case Keyed(_) => RunHoldOk(h)
       case Counted(n) => RunHoldOk(h) && 0 < n <= s.runSeq
  }

  ghost predicate RunHoldOk(h: Hold) {
    && h == UserHold(h.openedAt, h.ceiling, Wrapped).(fireAt := h.fireAt)
    && h.openedAt <= h.fireAt <= h.openedAt + MAX_RUN
    && 0 < h.ceiling <= MAX_LEASE
  }

  ghost predicate HoldsOk(s: State) {
    && (forall id :: id in s.holds ==> HoldOk(s, id, s.holds[id]))
    && (s.latch.Some? ==> s.latch.value.released > 0)
  }

  // ----- windows and runs -----

  /** Where the window with some serial number is: still open, or recorded. */
  datatype Place = Held(id: Id) | Logged(i: nat)

  function SerialAt(s: State, p: Place): Option<nat> {
    match p
    case Held(id) => if id in s.holds && id.JobId? then Some(s.holds[id].serial) else None
    case Logged(i) => if i < |s.runs| && s.runs[i].FromWindow? then Some(s.runs[i].hold.serial) else None
  }

  ghost predicate Placed(s: State, k: nat) {
    exists p :: SerialAt(s, p) == Some(k)
  }

  /** Every job window ever opened is in exactly one place: open, or closed with
      exactly one run recorded for it. */
  ghost predicate Accounted(s: State) {
    && (forall p :: SerialAt(s, p).Some? ==> SerialAt(s, p).value < s.openings)
    && (forall p, q :: SerialAt(s, p).Some? && SerialAt(s, p) == SerialAt(s, q) ==> p == q)
    && (forall k: nat :: k < s.openings ==> Placed(s, k))
  }

  // ----- forced sleeps -----

  ghost predicate Earned(a: Arming) {
    && a.hold.Detected() && (a.outcome.RanOk? || a.outcome.RanFailed?)
    && (a.hold.wokeMachine || a.hold.followsWake)
    && !a.id.Manual() && a.left == 0
  }

  /** A pending sleep stands for the latest arming, still unused; every sleep
      used its own arming, the grace period after it. */
  ghost predicate SleepsOk(s: State) {
    && (forall a :: a in s.armings ==> Earned(a))
    && (forall i :: 0 <= i < |s.sleeps| ==>
          && 0 <= s.sleeps[i].arming < |s.armings|
          && s.sleeps[i].holds == 0 && !s.sleeps[i].paused
          && s.sleeps[i].at >= s.armings[s.sleeps[i].arming].at + SLEEP_BACK_GRACE)
    && (forall i, j :: 0 <= i < j < |s.sleeps| ==> s.sleeps[i].arming < s.sleeps[j].arming)
    && (s.sleepBackAt.Some? ==>
          && s.armings != []
          && s.sleepBackAt.value == s.armings[|s.armings| - 1].at + SLEEP_BACK_GRACE
          && forall i :: 0 <= i < |s.sleeps| ==> s.sleeps[i].arming < |s.armings| - 1)
  }

  /** A run tells the story of its window: opened when it was, over when it
      closed, as long as the job was seen to run, and up to the reported end if
      that lies after the start. */
  ghost predicate Tells(run: Run, slug: string, h: Hold, closed: Time) {
    && run.slug == slug && run.windowOpened == h.openedAt && run.started == h.started
    && run.detection == h.job.detection && run.wokeMachine == h.wokeMachine
    && run.holdDuration == closed - h.openedAt
    && (h.started.None? ==> run.ended == None && run.duration == 0)
    && (h.started.Some? ==> run.ended.Some? && run.duration == run.ended.value - h.started.value)
    && (h.started.Some? && h.ended.Some? && h.ended.value > h.started.value ==> run.ended == h.ended)
    && (h.started.Some? && !(h.ended.Some? && h.ended.value > h.started.value) ==> run.ended == Some(closed))
  }

  /** Every run recorded for a window tells its story, and has an outcome it
      warrants. */
  ghost predicate OutcomesOk(s: State) {
    forall i :: 0 <= i < |s.runs| && s.runs[i].FromWindow? ==>
      && Warranted(s.runs[i].run.outcome, s.runs[i].hold, s.runs[i].closed, s.runs[i].backstop)
      && Tells(s.runs[i].run, s.runs[i].run.slug, s.runs[i].hold, s.runs[i].closed)
  }

  // ----- late completions -----

  /** The run recorded for job slug's window with serial number k, if nobody
      could see or saw that job run. */
  predicate UnseenClose(e: Entry, slug: string, k: nat) {
    e.FromWindow? && e.hold.serial == k && e.run.slug == slug && e.run.outcome.RanOk? && Unseen(e.hold)
  }

  ghost predicate ClosedUnseen(runs: seq<Entry>, slug: string, k: nat) {
    exists i :: 0 <= i < |runs| && UnseenClose(runs[i], slug, k)
  }

  predicate LateFor(e: Entry, k: nat) {
    e.LateCompletion? && e.serial == k
  }

  ghost predicate Completed(runs: seq<Entry>, k: nat) {
    exists i :: 0 <= i < |runs| && LateFor(runs[i], k)
  }

  /** Only windows closed unseen are awaited or completed late, and each is
      completed late at most once. */
  ghost predicate LatesOk(s: State) {
    && (forall slug :: JobId(slug) in s.lateWatch ==>
          var k := s.lateWatch[JobId(slug)].serial; ClosedUnseen(s.runs, slug, k) && !Completed(s.runs, k))
    && (forall i :: 0 <= i < |s.runs| && s.runs[i].LateCompletion? ==>
          ClosedUnseen(s.runs, s.runs[i].run.slug, s.runs[i].serial))
    && (forall i, j :: 0 <= i < j < |s.runs| && s.runs[i].LateCompletion? && s.runs[j].LateCompletion? ==>
          s.runs[i].serial != s.runs[j].serial)
  }

  // ----- the tally -----

  function WindowRuns(runs: seq<Entry>): nat {
    if runs == [] then 0
    else WindowRuns(runs[..|runs| - 1]) + (if runs[|runs| - 1].FromWindow? then 1 else 0)
  }

  function OpenWindows(holds: map<Id, Hold>): set<Id> {
    set id | id in holds && id.JobId?
  }

  /** As many job windows were opened as are open or have a run recorded. */
  ghost predicate Tallied(s: State) {
    |OpenWindows(s.holds)| + WindowRuns(s.runs) == s.openings
  }

  ghost predicate Books(s: State) {
    Accounted(s) && SleepsOk(s) && OutcomesOk(s) && LatesOk(s) && Tallied(s)
  }

  ghost predicate Invariant(s: State) {
    HoldsOk(s) && Books(s)
  }

  // ----- accounting: the three ways serial numbers move -----

  lemma SameSerials(s: State, s': State)
    requires Accounted(s) && s'.openings == s.openings
    requires forall p :: SerialAt(s', p) == SerialAt(s, p)
    ensures Accounted(s')
  {
    hide SerialAt;
    forall k: nat | k < s'.openings
      ensures Placed(s', k)
    {
      assert Placed(s, k);
      var p :| SerialAt(s, p) == Some(k);
      assert SerialAt(s', p) == Some(k);
    }
  }

  lemma MovedSerial(s: State, s': State, from: Place, to: Place)
    requires Accounted(s) && s'.openings == s.openings && from != to
    requires SerialAt(s, to) == None && SerialAt(s', to) == SerialAt(s, from) && SerialAt(s', from) == None
    requires forall p :: p != from && p != to ==> SerialAt(s', p) == SerialAt(s, p)
    ensures Accounted(s')
  {
    hide SerialAt;
    forall k: nat | k < s'.openings
      ensures Placed(s', k)
    {
      assert Placed(s, k);
      var p :| SerialAt(s, p) == Some(k);
      assert SerialAt(s', if p == from then to else p) == Some(k);
    }
  }

  lemma NewSerial(s: State, s': State, to: Place)
    requires Accounted(s) && s'.openings == s.openings + 1
    requires SerialAt(s, to) == None && SerialAt(s', to) == Some(s.openings)
    requires forall p :: p != to ==> SerialAt(s', p) == SerialAt(s, p)
    ensures Accounted(s')
  {
    hide SerialAt;
    forall k: nat | k < s'.openings
      ensures Placed(s', k)
    {
      if k < s.openings {
        assert Placed(s, k);
        var p :| SerialAt(s, p) == Some(k);
        assert SerialAt(s', p) == Some(k);
      } else {
        assert SerialAt(s', to) == Some(k);
      }
    }
  }

  lemma FinSummary(s: State, id: Id, h: Hold, now: Time, outcome: Outcome)
    ensures var c := Closed(s, id, h, now, outcome);
            && c.sleepBackAt == s.sleepBackAt && c.armings == s.armings && c.sleeps == s.sleeps
            && c.openings == s.openings && c.holds == s.holds - {id} && c.latch == s.latch && c.cfg == s.cfg
            && c.lateWatch == s.lateWatch && c.windows == s.windows
            && c.runs == if id.JobId? then s.runs + [ClosedRun(s, id.slug, h, now, outcome)] else s.runs
    ensures var c, f := Closed(s, id, h, now, outcome), Fin(s, id, h, now, outcome);
            && f.holds == c.holds && f.openings == c.openings && f.runs == c.runs
            && f.latch == c.latch && f.cfg == c.cfg && f.lateWatch == c.lateWatch && f.windows == c.windows
  {
    hide Finish, Arms;
    FinOfClosed(s, id, h, now, outcome);
  }

  lemma FinOfClosed(s: State, id: Id, h: Hold, now: Time, outcome: Outcome)
    ensures var c, f := Closed(s, id, h, now, outcome), Fin(s, id, h, now, outcome);
            && f.holds == c.holds && f.openings == c.openings && f.runs == c.runs
            && f.served == c.served && f.windows == c.windows && f.latch == c.latch && f.cfg == c.cfg
            && f.lateWatch == c.lateWatch
  {
    hide Closed, Arms, Arm;
    ArmFrame(Closed(s, id, h, now, outcome), id, h, now, outcome);
  }

  lemma ArmFrame(s: State, id: Id, h: Hold, now: Time, outcome: Outcome)
    ensures var a := Arm(s, id, h, now, outcome);
            && a.holds == s.holds && a.openings == s.openings && a.runs == s.runs
            && a.served == s.served && a.windows == s.windows && a.latch == s.latch && a.cfg == s.cfg
            && a.lateWatch == s.lateWatch
  {
  }

  lemma FinAccounted(s: State, id: Id, h: Hold, now: Time, outcome: Outcome)
    requires Accounted(s) && id in s.holds && h.serial == s.holds[id].serial
    ensures Accounted(Fin(s, id, h, now, outcome))
  {
    hide Accounted, Fin, Finish;
    var f := Fin(s, id, h, now, outcome);
    FinSummary(s, id, h, now, outcome);
    if id.JobId? {
      MovedSerial(s, f, Held(id), Logged(|s.runs|));
    } else {
      SameSerials(s, f);
    }
  }

  // ----- sleeps -----

  lemma ArmingKeepsSleeps(s: State, s': State, a: Arming)
    requires SleepsOk(s) && Earned(a)
    requires s'.armings == s.armings + [a] && s'.sleeps == s.sleeps
    requires s'.sleepBackAt == Some(a.at + SLEEP_BACK_GRACE)
    ensures SleepsOk(s')
  {
    forall b | b in s'.armings
      ensures Earned(b)
    {
      assert b in s.armings || b == a;
    }
    assert forall i :: 0 <= i < |s.sleeps| ==> s'.armings[s.sleeps[i].arming] == s.armings[s.sleeps[i].arming];
  }

  lemma FinSleeps(s: State, id: Id, h: Hold, now: Time, outcome: Outcome)
    requires SleepsOk(s)
    ensures SleepsOk(Fin(s, id, h, now, outcome))
  {
    hide SleepsOk, Closed;
    var c, f := Closed(s, id, h, now, outcome), Fin(s, id, h, now, outcome);
    FinSummary(s, id, h, now, outcome);
    if c.holds == map[] && Arms(id, h, outcome) {
      ArmingKeepsSleeps(s, f, Arming(now, id, h, outcome, 0));
    } else {
      SameSleeps(s, f);
    }
  }

  lemma SameSleeps(s: State, s': State)
    requires SleepsOk(s)
    requires s'.armings == s.armings && s'.sleeps == s.sleeps && s'.sleepBackAt == s.sleepBackAt
    ensures SleepsOk(s')
  {
  }

  // ----- outcomes, late completions and the tally -----

  lemma SameOutcomes(s: State, s': State)
    requires OutcomesOk(s) && s'.runs == s.runs
    ensures OutcomesOk(s')
  {
  }

  lemma FinOutcomes(s: State, id: Id, h: Hold, now: Time, outcome: Outcome)
    requires OutcomesOk(s) && Warranted(outcome, h, now, s.cfg.maxCeiling)
    ensures OutcomesOk(Fin(s, id, h, now, outcome))
  {
    hide Fin, Closed, Warranted, ClosedRun, Tells;
    FinSummary(s, id, h, now, outcome);
    if id.JobId? {
      ClosedRunSays(s, id.slug, h, now, outcome);
      ClosedRunTells(s, id.slug, h, now, outcome);
    }
  }

  lemma ClosedRunSays(s: State, slug: string, h: Hold, now: Time, outcome: Outcome)
    ensures var e := ClosedRun(s, slug, h, now, outcome);
            && e.FromWindow? && e.hold == h && e.closed == now && e.backstop == s.cfg.maxCeiling
            && e.run.outcome == outcome && e.run.slug == slug
  {
  }

  lemma ClosedRunTells(s: State, slug: string, h: Hold, now: Time, outcome: Outcome)
    ensures Tells(ClosedRun(s, slug, h, now, outcome).run, slug, h, now)
  {
  }

  /** What is recorded stays recorded. */
  lemma StillRecorded(runs: seq<Entry>, more: seq<Entry>, slug: string, k: nat)
    requires runs <= more
    ensures ClosedUnseen(runs, slug, k) ==> ClosedUnseen(more, slug, k)
    ensures Completed(runs, k) ==> Completed(more, k)
  {
    if ClosedUnseen(runs, slug, k) {
      var i :| 0 <= i < |runs| && UnseenClose(runs[i], slug, k);
      assert UnseenClose(more[i], slug, k);
    }
    if Completed(runs, k) {
      var i :| 0 <= i < |runs| && LateFor(runs[i], k);
      assert LateFor(more[i], k);
    }
  }

  ghost predicate Fewer(a: map<Id, Late>, b: map<Id, Late>) {
    forall id :: id in a ==> id in b && a[id] == b[id]
  }

  lemma SameLates(s: State, s': State)
    requires LatesOk(s) && s'.runs == s.runs && Fewer(s'.lateWatch, s.lateWatch)
    ensures LatesOk(s')
  {
  }

  /** Recording a window's run completes nothing late. */
  lemma LoggedLates(s: State, s': State, e: Entry)
    requires LatesOk(s) && e.FromWindow? && s'.runs == s.runs + [e] && s'.lateWatch == s.lateWatch
    ensures LatesOk(s')
  {
    hide UnseenClose, ClosedUnseen;
    forall k: nat, slug: string
      ensures ClosedUnseen(s.runs, slug, k) ==> ClosedUnseen(s'.runs, slug, k)
      ensures Completed(s'.runs, k) ==> Completed(s.runs, k)
    {
      StillRecorded(s.runs, s'.runs, slug, k);
      NoNewCompletion(s.runs, e, k);
    }
  }

  lemma NoNewCompletion(runs: seq<Entry>, e: Entry, k: nat)
    requires !LateFor(e, k)
    ensures Completed(runs + [e], k) ==> Completed(runs, k)
  {
    if Completed(runs + [e], k) {
      var i :| 0 <= i < |runs + [e]| && LateFor((runs + [e])[i], k);
      assert i < |runs| && LateFor(runs[i], k);
    }
  }

  lemma FinLates(s: State, id: Id, h: Hold, now: Time, outcome: Outcome)
    requires LatesOk(s)
    ensures LatesOk(Fin(s, id, h, now, outcome))
  {
    hide LatesOk, Fin, Closed, ClosedRun;
    var f := Fin(s, id, h, now, outcome);
    FinSummary(s, id, h, now, outcome);
    if id.JobId? {
      ClosedRunSays(s, id.slug, h, now, outcome);
      LoggedLates(s, f, ClosedRun(s, id.slug, h, now, outcome));
    } else {
      SameLates(s, f);
    }
  }

  /** A window still open has no run recorded. */
  lemma OpenIsUnlogged(s: State, id: Id, i: nat)
    requires Accounted(s) && id.JobId? && id in s.holds && i < |s.runs| && s.runs[i].FromWindow?
    ensures s.runs[i].hold.serial != s.holds[id].serial
  {
    assert SerialAt(s, Logged(i)) == Some(s.runs[i].hold.serial);
    assert SerialAt(s, Held(id)) == Some(s.holds[id].serial);
  }

  /** So it has not been completed late. */
  lemma OpenNotCompleted(s: State, id: Id)
    requires Accounted(s) && LatesOk(s) && id.JobId? && id in s.holds
    ensures !Completed(s.runs, s.holds[id].serial)
  {
    hide Accounted;
    forall i | 0 <= i < |s.runs|
      ensures !LateFor(s.runs[i], s.holds[id].serial)
    {
      if s.runs[i].LateCompletion? {
        var j :| 0 <= j < |s.runs| && UnseenClose(s.runs[j], s.runs[i].run.slug, s.runs[i].serial);
        OpenIsUnlogged(s, id, j);
      }
    }
  }

  /** A window closed unseen may be awaited. */
  lemma WatchLates(s: State, id: Id, h: Hold, now: Time)
    requires LatesOk(s)
    requires id.JobId? ==> ClosedUnseen(s.runs, id.slug, h.serial) && !Completed(s.runs, h.serial)
    ensures LatesOk(Watch(s, id, h, now))
  {
    hide ClosedUnseen, Completed;
  }

  lemma SameTally(s: State, s': State)
    requires Tallied(s) && s'.runs == s.runs && s'.openings == s.openings
    requires forall id :: SerialAt(s', Held(id)) == SerialAt(s, Held(id))
    ensures Tallied(s')
  {
    hide WindowRuns;
    forall id: Id
      ensures id in OpenWindows(s'.holds) <==> id in OpenWindows(s.holds)
    {
      assert SerialAt(s', Held(id)) == SerialAt(s, Held(id));
    }
    assert OpenWindows(s'.holds) == OpenWindows(s.holds);
  }

  lemma OneMoreRun(runs: seq<Entry>, e: Entry)
    ensures WindowRuns(runs + [e]) == WindowRuns(runs) + (if e.FromWindow? then 1 else 0)
  {
    assert (runs + [e])[..|runs|] == runs;
  }

  lemma FinTally(s: State, id: Id, h: Hold, now: Time, outcome: Outcome)
    requires Tallied(s) && id in s.holds
    ensures Tallied(Fin(s, id, h, now, outcome))
  {
    hide Fin, Closed, ClosedRun, WindowRuns;
    var f := Fin(s, id, h, now, outcome);
    FinSummary(s, id, h, now, outcome);
    if id.JobId? {
      var e := ClosedRun(s, id.slug, h, now, outcome);
      ClosedRunSays(s, id.slug, h, now, outcome);
      OneMoreRun(s.runs, e);
      assert OpenWindows(f.holds) == OpenWindows(s.holds) - {id};
    } else {
      assert OpenWindows(f.holds) == OpenWindows(s.holds);
    }
  }

  // ----- the books, through a close and through a loop -----

  /** Nothing the books look at changes, but that less may be awaited. */
  lemma SameBooks(s: State, s': State)
    requires Books(s)
    requires s'.openings == s.openings && s'.runs == s.runs && Fewer(s'.lateWatch, s.lateWatch)
    requires forall id :: SerialAt(s', Held(id)) == SerialAt(s, Held(id))
    requires s'.armings == s.armings && s'.sleeps == s.sleeps && s'.sleepBackAt == s.sleepBackAt
    ensures Books(s')
  {
    hide Accounted, SleepsOk, OutcomesOk, LatesOk, Tallied;
    forall p
      ensures SerialAt(s', p) == SerialAt(s, p)
    {
      if p.Held? { assert SerialAt(s', Held(p.id)) == SerialAt(s, Held(p.id)); }
    }
    SameSerials(s, s');
    SameSleeps(s, s');
    SameOutcomes(s, s');
    SameLates(s, s');
    SameTally(s, s');
  }

  lemma FinBooks(s: State, id: Id, h: Hold, now: Time, outcome: Outcome)
    requires Books(s) && id in s.holds && h.serial == s.holds[id].serial
    requires Warranted(outcome, h, now, s.cfg.maxCeiling)
    ensures Books(Fin(s, id, h, now, outcome))
  {
    hide Accounted, SleepsOk, OutcomesOk, LatesOk, Tallied, Fin, Warranted;
    FinOutcomes(s, id, h, now, outcome);
    FinAccounted(s, id, h, now, outcome);
    FinSleeps(s, id, h, now, outcome);
    FinLates(s, id, h, now, outcome);
    FinTally(s, id, h, now, outcome);
  }

  /** Closing an unseen window and watching for its late completion. */
  lemma WatchBooks(s: State, id: Id, h: Hold, now: Time)
    requires Books(s) && id in s.holds && h.serial == s.holds[id].serial && Unseen(h)
    ensures Books(Watch(Fin(s, id, h, now, RanOk), id, h, now))
  {
    hide Accounted, SleepsOk, OutcomesOk, LatesOk, Tallied, Fin, ClosedRun, ClosedUnseen, Completed;
    var f := Fin(s, id, h, now, RanOk);
    FinBooks(s, id, h, now, RanOk);
    if id.JobId? {
      OpenNotCompleted(s, id);
      FinSummary(s, id, h, now, RanOk);
      FinUnseen(s, id, h, now);
      ClosedRunSays(s, id.slug, h, now, RanOk);
      NoNewCompletion(s.runs, ClosedRun(s, id.slug, h, now, RanOk), h.serial);
    }
    WatchLates(f, id, h, now);
    WatchAside(f, id, h, now);
  }

  lemma FinUnseen(s: State, id: Id, h: Hold, now: Time)
    requires id.JobId? && Unseen(h)
    ensures ClosedUnseen(s.runs + [ClosedRun(s, id.slug, h, now, RanOk)], id.slug, h.serial)
  {
    hide Finish;
    var runs := s.runs + [ClosedRun(s, id.slug, h, now, RanOk)];
    ClosedRunSays(s, id.slug, h, now, RanOk);
    assert UnseenClose(runs[|s.runs|], id.slug, h.serial);
  }

  lemma WatchAside(s: State, id: Id, h: Hold, now: Time)
    requires Books(s) && LatesOk(Watch(s, id, h, now))
    ensures Books(Watch(s, id, h, now))
  {
    hide Accounted, SleepsOk, OutcomesOk, LatesOk, Tallied;
    var w := Watch(s, id, h, now);
    SameSerials(s, w);
    SameSleeps(s, w);
    SameOutcomes(s, w);
    SameTally(s, w);
  }

  lemma OneBooks(s: State, id: Id, rule: Rule, now: Time)
    requires Books(s) && (rule.Ceilings? ==> rule.cfg == s.cfg)
    ensures Books(One(s, id, rule, now))
  {
    hide Books, Fin, Judge, Warranted, Watch, Unseen;
    if id in s.holds {
      JudgeWarrants(rule, id, s.holds[id], now, s.cfg.maxCeiling);
      JudgeKeepsWindow(rule, id, s.holds[id], now);
      match Judge(rule, id, s.holds[id], now)
      case Keep(h) =>
        SameBooks(s, s.(holds := s.holds[id := h]));
      case Close(h, outcome, watch) =>
        FinBooks(s, id, h, now, outcome);
        if watch { WatchBooks(s, id, h, now); }
    }
  }

  lemma {:induction false} PassBooks(s: State, order: seq<Id>, rule: Rule, now: Time)
    requires Books(s) && (rule.Ceilings? ==> rule.cfg == s.cfg)
    ensures Books(Pass(s, order, rule, now))
  {
    hide Books, One, Framed;
    if order != [] {
      PassFrame(s, order[..|order| - 1], rule, now);
      FramedLatch(s, Pass(s, order[..|order| - 1], rule, now));
      PassBooks(s, order[..|order| - 1], rule, now);
      OneBooks(Pass(s, order[..|order| - 1], rule, now), order[|order| - 1], rule, now);
    }
  }

  lemma OpenBooks(s: State, slug: string, o: Offer, origin: Origin, now: Time)
    requires Books(s) && slug in s.jobs && JobId(slug) !in s.holds
    ensures Books(OpenJob(s, slug, o, origin, now))
  {
    hide Accounted, SleepsOk, OutcomesOk, LatesOk;
    var s' := OpenJob(s, slug, o, origin, now);
    NewSerial(s, s', Held(JobId(slug)));
    SameSleeps(s, s');
    SameOutcomes(s, s');
    SameLates(s, s');
    assert OpenWindows(s'.holds) == OpenWindows(s.holds) + {JobId(slug)};
  }

  // ----- the holds, through a loop -----

  /** Fewer holds, a later clock, a cleared latch or a resume break no hold. */
  lemma HoldsShrink(s: State, s': State)
    requires HoldsOk(s)
    requires s'.clock >= s.clock && s'.runSeq >= s.runSeq
    requires (s'.latch == None || s'.latch == s.latch) && (s'.paused ==> s.paused)
    requires forall id :: id in s'.holds ==>
               id in s.holds && s'.holds[id] == s.holds[id] && (id.JobId? ==> id.slug in s'.jobs)
    ensures HoldsOk(s')
  {
  }

  lemma PassHoldsOk(s: State, order: seq<Id>, rule: Rule, now: Time)
    requires HoldsOk(s) && Lists(order, s.holds.Keys)
    ensures HoldsOk(Pass(s, order, rule, now))
  {
    hide HoldsOk, Pass, Judge, Framed;
    var p := Pass(s, order, rule, now);
    PassFrame(s, order, rule, now);
    forall id | id in p.holds
      ensures HoldOk(s, id, p.holds[id])
    {
      PassHold(s, order, rule, now, id);
      JudgeKeepsWindow(rule, id, s.holds[id], now);
      ObservedHold(s, id, p.holds[id]);
    }
    HoldsOkIn(s, p);
  }

  /** What a hold of any other kind than a job's shows never changes. */
  lemma ObservedHold(s: State, id: Id, h: Hold)
    requires HoldsOk(s) && id in s.holds && h.SameWindow(s.holds[id])
    requires !id.JobId? && !s.holds[id].Detected() && !s.holds[id].job.detection.Observable() ==> h == s.holds[id]
    ensures HoldOk(s, id, h)
  {
    assert HoldOk(s, id, s.holds[id]);
  }

  lemma HoldsOkIn(s: State, p: State)
    requires Framed(s, p) && HoldsOk(s)
    requires forall id :: id in p.holds ==> HoldOk(s, id, p.holds[id])
    ensures HoldsOk(p)
  {
    forall id | id in p.holds
      ensures HoldOk(p, id, p.holds[id])
    {
      assert HoldOk(s, id, p.holds[id]);
    }
  }

  // ----- every step -----

  lemma QuietKeeps(s: State, s': State)
    requires Invariant(s)
    requires s'.holds == s.holds && s'.runs == s.runs && s'.openings == s.openings
    requires Fewer(s'.lateWatch, s.lateWatch)
    requires s'.armings == s.armings && s'.sleeps == s.sleeps && s'.sleepBackAt == s.sleepBackAt
    requires s'.clock >= s.clock && s'.runSeq >= s.runSeq && s.jobs.Keys <= s'.jobs.Keys
    requires (s'.latch == None || s'.latch == s.latch) && (s'.paused ==> s.paused)
    ensures Invariant(s')
  {
    hide Books, HoldsOk;
    assert HoldsOk(s) && Books(s);
    SameBooks(s, s');
    JobsStay(s);
    HoldsShrink(s, s');
  }

  lemma JobsStay(s: State)
    requires HoldsOk(s)
    ensures forall id :: id in s.holds && id.JobId? ==> id.slug in s.jobs
  {
    forall id | id in s.holds && id.JobId?
      ensures id.slug in s.jobs
    {
      assert HoldOk(s, id, s.holds[id]);
    }
  }

  lemma SweepKeeps(s: State, order: seq<Id>, rule: Rule, now: Time)
    requires Invariant(s) && (rule.Ceilings? ==> rule.cfg == s.cfg) && Lists(order, s.holds.Keys)
    ensures Invariant(Pass(s, order, rule, now))
  {
    hide Books, HoldsOk, Pass;
    PassBooks(s, order, rule, now);
    PassHoldsOk(s, order, rule, now);
  }

  lemma NoHoldsOk(s: State)
    requires s.holds == map[] && (s.latch.Some? ==> s.latch.value.released > 0)
    ensures HoldsOk(s)
  {
  }

  lemma CutoutKeeps(s: State, st: Power, order: seq<Id>, now: Time)
    requires Invariant(s) && Lists(order, s.holds.Keys)
    ensures Invariant(EvaluateCutouts(s, st, order, now))
  {
    hide Books, HoldsOk, Pass, Fires, Lists, Recovered;
    var u := s.(latch := Updated(s.latch, st, s.cfg));
    QuietKeeps(s, u);
    if Fires(s.latch, Sample(st, now, |s.holds|), s.cfg).Some? {
      var p := Pass(u, order, ReleaseAll, now);
      PassBooks(u, order, ReleaseAll, now);
      ReleaseAllEmpties(u, order, now);
      SameBooks(p, EvaluateCutouts(s, st, order, now));
      NoHoldsOk(EvaluateCutouts(s, st, order, now));
    }
  }

  lemma OpenKeeps(s: State, slug: string, o: Offer, origin: Origin, now: Time)
    requires Invariant(s) && slug in s.jobs && JobId(slug) !in s.holds && now <= s.clock
    requires origin.AdHoc? || (origin.Scheduled? && !s.paused && s.latch.None?)
    ensures Invariant(OpenJob(s, slug, o, origin, now))
  {
    hide Books;
    OpenBooks(s, slug, o, origin, now);
  }

  lemma {:induction false} OfferAllKeeps(s: State, order: seq<string>, offers: map<string, Offer>, now: Time)
    requires Invariant(s) && !s.paused && s.latch.None? && now <= s.clock
    ensures var s' := OfferAll(s, order, offers, now);
            Invariant(s') && s'.paused == s.paused && s'.latch == s.latch && s'.clock == s.clock
  {
    hide Invariant, Due;
    if order != [] {
      var n := |order| - 1;
      OfferAllKeeps(s, order[..n], offers, now);
      var t, slug := OfferAll(s, order[..n], offers, now), order[n];
      if slug in t.jobs && slug in offers && Due(t, slug, offers[slug].fire, now) {
        DueIsFree(t, slug, offers[slug].fire, now);
        OpenKeeps(t, slug, offers[slug], Scheduled, now);
      }
    }
  }

  lemma DueIsFree(s: State, slug: string, fire: Time, now: Time)
    requires slug in s.jobs && Due(s, slug, fire, now)
    ensures JobId(slug) !in s.holds
  {
  }

  /** No two jobs await the same window. */
  lemma AwaitedOnce(s: State, a: string, b: string)
    requires Accounted(s) && LatesOk(s) && a != b && JobId(a) in s.lateWatch && JobId(b) in s.lateWatch
    ensures s.lateWatch[JobId(a)].serial != s.lateWatch[JobId(b)].serial
  {
    var k, m := s.lateWatch[JobId(a)].serial, s.lateWatch[JobId(b)].serial;
    var i :| 0 <= i < |s.runs| && UnseenClose(s.runs[i], a, k);
    var j :| 0 <= j < |s.runs| && UnseenClose(s.runs[j], b, m);
    assert SerialAt(s, Logged(i)) == Some(k) && SerialAt(s, Logged(j)) == Some(m);
  }

  /** Recording a late completion ends the wait for it. */
  lemma CompletedLates(s: State, s': State, slug: string, e: Entry)
    requires Accounted(s) && LatesOk(s) && JobId(slug) in s.lateWatch
    requires e.LateCompletion? && e.run.slug == slug && e.serial == s.lateWatch[JobId(slug)].serial
    requires s'.runs == s.runs + [e] && s'.lateWatch == s.lateWatch - {JobId(slug)}
    ensures LatesOk(s')
  {
    hide UnseenClose, ClosedUnseen, Accounted;
    forall other | JobId(other) in s'.lateWatch
      ensures ClosedUnseen(s'.runs, other, s.lateWatch[JobId(other)].serial)
      ensures !Completed(s'.runs, s.lateWatch[JobId(other)].serial)
    {
      AwaitedOnce(s, slug, other);
      StillRecorded(s.runs, s'.runs, other, s.lateWatch[JobId(other)].serial);
      NoNewCompletion(s.runs, e, s.lateWatch[JobId(other)].serial);
    }
    forall i | 0 <= i < |s'.runs| && s'.runs[i].LateCompletion?
      ensures ClosedUnseen(s'.runs, s'.runs[i].run.slug, s'.runs[i].serial)
      ensures i < |s.runs| ==> s'.runs[i].serial != e.serial
    {
      if i < |s.runs| { assert !LateFor(s.runs[i], e.serial); }
      StillRecorded(s.runs, s'.runs, s'.runs[i].run.slug, s'.runs[i].serial);
    }
  }

  lemma LateLogged(s: State, s': State, slug: string, e: Entry)
    requires Invariant(s) && JobId(slug) in s.lateWatch
    requires e.LateCompletion? && e.run.slug == slug && e.serial == s.lateWatch[JobId(slug)].serial
    requires s'.runs == s.runs + [e] && s'.lateWatch == s.lateWatch - {JobId(slug)}
    requires s' == s.(lateWatch := s'.lateWatch, runs := s'.runs)
    ensures Invariant(s')
  {
    hide SleepsOk, HoldsOk, Accounted, OutcomesOk, LatesOk, WindowRuns;
    SameSerials(s, s');
    SameSleeps(s, s');
    LoggedOutcomes(s, s', e);
    CompletedLates(s, s', slug, e);
    OneMoreRun(s.runs, e);
    JobsStay(s);
    HoldsShrink(s, s');
  }

  lemma LoggedOutcomes(s: State, s': State, e: Entry)
    requires OutcomesOk(s) && e.LateCompletion? && s'.runs == s.runs + [e]
    ensures OutcomesOk(s')
  {
  }

  lemma {:induction false} LateAllKeeps(s: State, order: seq<Id>, records: map<string, Option<Record>>, now: Time)
    requires Invariant(s)
    ensures Invariant(LateAll(s, order, records, now))
  {
    hide Invariant, LateRun;
    if order != [] {
      var n := |order| - 1;
      LateAllKeeps(s, order[..n], records, now);
      LateOneKeeps(LateAll(s, order[..n], records, now), order[n], records, now);
    }
  }

  lemma LateOneKeeps(s: State, id: Id, records: map<string, Option<Record>>, now: Time)
    requires Invariant(s)
    ensures Invariant(LateOne(s, id, records, now))
  {
    hide Invariant, LateRun;
    var s' := LateOne(s, id, records, now);
    if s'.runs == s.runs {
      QuietKeeps(s, s');
    } else {
      LateRunSlug(id.slug, s.jobs[id.slug], s.lateWatch[id], records[id.slug].value);
      LateLogged(s, s', id.slug, s'.runs[|s.runs|]);
    }
  }

  lemma LateRunSlug(slug: string, job: Job, w: Late, rec: Record)
    requires rec.completedAt.Some?
    ensures LateRun(slug, job, w, rec).slug == slug
  {
  }

  /** A sleep uses the pending arming, which no earlier sleep used. */
  lemma SleepingBooks(s: State, s': State, now: Time)
    requires SleepsOk(s) && s.sleepBackAt.Some? && now >= s.sleepBackAt.value
    requires s'.sleepBackAt == None && s'.armings == s.armings
    requires s'.sleeps == s.sleeps || s'.sleeps == s.sleeps + [Sleep(now, |s.armings| - 1, 0, false)]
    ensures SleepsOk(s')
  {
  }

  lemma SleepingKeeps(s: State, idle: Option<Dur>, now: Time)
    requires Invariant(s)
    ensures Invariant(MaybeSleepBack(s, idle, now))
  {
    hide Invariant, SleepWanted, Disarm, TakeSleep;
    if s.sleepBackAt.Some? && now >= s.sleepBackAt.value {
      SleepSettled(s, Disarm(s), now);
      if SleepWanted(s, idle, now) {
        WantedIsQuiet(s, idle, now);
        SleepSettled(s, TakeSleep(s, now), now);
      }
    }
  }

  lemma WantedIsQuiet(s: State, idle: Option<Dur>, now: Time)
    requires SleepWanted(s, idle, now)
    ensures s.holds == map[] && !s.paused
  {
  }

  lemma SleepSettled(s: State, p: State, now: Time)
    requires Invariant(s) && s.sleepBackAt.Some? && now >= s.sleepBackAt.value
    requires p == Disarm(s) || (p == TakeSleep(s, now) && s.holds == map[] && !s.paused)
    ensures Invariant(p)
  {
    hide Accounted, HoldsOk, SleepsOk, OutcomesOk, LatesOk, Tallied;
    SleepingBooks(s, p, now);
    SameAccount(s, p);
    SameOutcomes(s, p);
    SameLates(s, p);
    SameTally(s, p);
  }

  lemma SameAccount(s: State, s': State)
    requires Accounted(s) && HoldsOk(s)
    requires s'.holds == s.holds && s'.runs == s.runs && s'.openings == s.openings
    requires s'.clock == s.clock && s'.runSeq == s.runSeq && s'.jobs == s.jobs
    requires s'.latch == s.latch && s'.paused == s.paused
    ensures Accounted(s') && HoldsOk(s')
  {
    hide Accounted, HoldsOk;
    SameSerials(s, s');
    JobsStay(s);
    HoldsShrink(s, s');
  }

  /** The outcomes requests close with. */
  predicate Plain(outcome: Outcome) {
    outcome.RanOk? || outcome.RanFailed? || outcome.CutOff?
  }

  /** Closing one hold in a request; the job behind it may be gone already. */
  lemma ClosingKeeps(s: State, id: Id, now: Time, outcome: Outcome)
    requires Books(s) && id in s.holds && Plain(outcome)
    requires HoldsOk(s.(holds := s.holds - {id}))
    ensures Invariant(Fin(s, id, s.holds[id], now, outcome))
    ensures Invariant(Sync(Fin(s, id, s.holds[id], now, outcome)))
  {
    hide Books, HoldsOk, Fin, Framed;
    var f := Fin(s, id, s.holds[id], now, outcome);
    FinBooks(s, id, s.holds[id], now, outcome);
    FinFrame(s, id, s.holds[id], now, outcome);
    FramedHolds(s.(holds := s.holds - {id}), f);
    QuietKeeps(f, Sync(f));
  }

  lemma FramedHolds(s: State, p: State)
    requires HoldsOk(s) && Framed(s, p) && p.holds == s.holds
    ensures HoldsOk(p)
  {
    HoldsOkIn(s, p);
  }

  /** Closing one hold changes nothing about the others. */
  lemma Without(s: State, id: Id)
    requires HoldsOk(s)
    ensures HoldsOk(s.(holds := s.holds - {id}))
  {
    hide HoldsOk;
    JobsStay(s);
    HoldsShrink(s, s.(holds := s.holds - {id}));
  }

  lemma FinKeeps(s: State, id: Id, now: Time, outcome: Outcome)
    requires Invariant(s) && id in s.holds && Plain(outcome)
    ensures Invariant(Fin(s, id, s.holds[id], now, outcome))
    ensures Invariant(Sync(Fin(s, id, s.holds[id], now, outcome)))
  {
    hide Books, HoldsOk, Fin, Sync;
    Without(s, id);
    ClosingKeeps(s, id, now, outcome);
  }

  lemma CloseKeeps(s: State, id: Id, now: Time, outcome: Outcome)
    requires Invariant(s) && Plain(outcome)
    ensures Invariant(CloseOpen(s, id, now, outcome)) && Invariant(Sync(CloseOpen(s, id, now, outcome)))
    ensures Invariant(EndHold(s, id, now, outcome))
  {
    hide Invariant, Fin, Sync;
    if id in s.holds { FinKeeps(s, id, now, outcome); }
    SyncKeeps(CloseOpen(s, id, now, outcome));
  }

  lemma RemoveKeeps(s: State, slug: string, now: Time)
    requires Invariant(s)
    ensures Invariant(RemoveJob(s, slug, now))
  {
    hide Books, HoldsOk, Fin, Sync;
    if slug in s.jobs {
      var t := s.(jobs := s.jobs - {slug});
      var id := JobId(slug);
      SameBooks(s, t);
      JobsStay(s);
      if id in s.holds {
        HoldsShrink(s, t.(holds := t.holds - {id}));
        ClosingKeeps(t, id, now, CutOff);
      } else {
        HoldsShrink(s, t);
        SyncKeeps(t);
      }
    }
  }

  lemma EnableKeeps(s: State, slug: string, on: bool, now: Time)
    requires Invariant(s)
    ensures Invariant(EnableJob(s, slug, on, now))
  {
    hide Invariant, CloseOpen, Sync;
    if slug in s.jobs {
      var t := s.(jobs := s.jobs[slug := s.jobs[slug].(enabled := on)]);
      QuietKeeps(s, t);
      CloseKeeps(t, JobId(slug), now, CutOff);
    }
  }

  /** Inserting or replacing a hold that is not a job's. */
  lemma UserInsertKeeps(s: State, id: Id, h: Hold)
    requires Invariant(s) && !id.JobId? && HoldOk(s, id, h)
    ensures Invariant(WithHold(s, id, h)) && Invariant(Sync(WithHold(s, id, h)))
  {
    hide Books, HoldsOk, HoldOk, Sync;
    SameBooks(s, WithHold(s, id, h));
    InsertOk(s, id, h);
    SyncKeeps(WithHold(s, id, h));
  }

  lemma InsertOk(s: State, id: Id, h: Hold)
    requires HoldsOk(s) && HoldOk(s, id, h)
    ensures HoldsOk(s.(holds := s.holds[id := h]))
  {
    var t := s.(holds := s.holds[id := h]);
    forall k | k in t.holds
      ensures HoldOk(t, k, t.holds[k])
    {
      assert k != id ==> HoldOk(s, k, s.holds[k]);
    }
  }

  lemma KeepAwakeKeeps(s: State, want: Dur, now: Time)
    requires Invariant(s) && now <= s.clock
    ensures Invariant(KeepAwakeFor(s, want, now))
  {
    hide Invariant, CloseOpen, EndHold, Sync, WithHold, UserHold;
    CloseKeeps(s, KeepAwake, now, RanOk);
    if want > 0 && s.latch.None? {
      var t := CloseOpen(s, KeepAwake, now, RanOk);
      var h := UserHold(now, ClampKeepAwake(want), ByUser);
      CloseFrame(s, KeepAwake, now, RanOk);
      KeepAwakeOk(t, ClampKeepAwake(want), now);
      UserInsertKeeps(t, KeepAwake, h);
    }
  }

  lemma KeepAwakeOk(s: State, ceiling: Dur, now: Time)
    requires now <= s.clock && s.latch.None? && MIN_KEEP_AWAKE <= ceiling <= MAX_KEEP_AWAKE
    ensures HoldOk(s, KeepAwake, UserHold(now, ceiling, ByUser))
  {
  }

  lemma CloseFrame(s: State, id: Id, now: Time, outcome: Outcome)
    ensures CloseOpen(s, id, now, outcome).clock == s.clock && CloseOpen(s, id, now, outcome).latch == s.latch
    ensures CloseOpen(s, id, now, outcome).holds == s.holds - {id}
  {
    hide Fin, Framed;
    if id in s.holds {
      FinFrame(s, id, s.holds[id], now, outcome);
      FramedLatch(s, Fin(s, id, s.holds[id], now, outcome));
    }
  }

  lemma InsertRunKeeps(s: State, id: Id, lease: Dur, now: Time)
    requires Invariant(s) && now <= s.clock && s.latch.None? && 0 < lease <= MAX_LEASE
    requires id.Keyed? || (id.Counted? && 0 < id.n <= s.runSeq)
    ensures Invariant(InsertRun(s, id, lease, now))
  {
    hide Invariant, Sync, WithHold;
    var h := UserHold(now, lease, Wrapped);
    assert HoldOk(s, id, h);
    UserInsertKeeps(s, id, h);
  }

  lemma StartRunKeeps(s: State, key: string, want: Dur, now: Time)
    requires Invariant(s) && now == s.clock
    ensures Invariant(StartRun(s, key, want, now))
  {
    hide Invariant, InsertRun, Text.TrimSpace;
    var k := Text.TrimSpace(key);
    if k != "" && !s.hooksOn {
    } else if k != "" && Keyed(k) in s.holds {
      RenewedOk(s, Keyed(k), Lease(k, want), now);
      UserInsertKeeps(s, Keyed(k), Renewed(s.holds[Keyed(k)], now).(ceiling := Lease(k, want)));
    } else if s.latch.None? {
      if k == "" {
        QuietKeeps(s, s.(runSeq := s.runSeq + 1));
        InsertRunKeeps(s.(runSeq := s.runSeq + 1), Counted(s.runSeq + 1), Lease(k, want), now);
      } else {
        InsertRunKeeps(s, Keyed(k), Lease(k, want), now);
      }
    }
  }

  /** However often it is renewed a run hold keeps its bounds. */
  lemma RenewedOk(s: State, id: Id, lease: Dur, now: Time)
    requires Invariant(s) && id in s.holds && (id.Keyed? || id.Counted?) && now == s.clock
    requires 0 < lease <= MAX_LEASE
    ensures HoldOk(s, id, Renewed(s.holds[id], now))
    ensures HoldOk(s, id, Renewed(s.holds[id], now).(ceiling := lease))
  {
    assert HoldOk(s, id, s.holds[id]);
  }

  lemma RenewKeeps(s: State, id: Id, now: Time)
    requires Invariant(s) && (id.Keyed? || id.Counted?) && now == s.clock
    ensures Invariant(RenewRun(s, id, now))
  {
    hide Invariant, HoldOk, Renewed, WithHold;
    if id in s.holds {
      RenewedOk(s, id, RUN_LEASE, now);
      UserInsertKeeps(s, id, Renewed(s.holds[id], now));
    }
  }

  lemma MarkStartKeeps(s: State, slug: string, pid: int, ceiling: Dur, now: Time)
    requires Invariant(s) && now <= s.clock
    ensures Invariant(MarkStart(s, slug, pid, ceiling, now))
  {
    hide Invariant, OpenJob, Begin;
    if slug in s.jobs {
      var o := Offer(now, ceiling, false, false);
      if JobId(slug) in s.holds {
        BeginKeeps(s, JobId(slug), pid, now);
      } else {
        OpenKeeps(s, slug, o, AdHoc, now);
        BeginKeeps(OpenJob(s, slug, o, AdHoc, now), JobId(slug), pid, now);
      }
    }
  }

  lemma BeginKeeps(s: State, id: Id, pid: int, now: Time)
    requires Invariant(s) && id.JobId?
    ensures Invariant(Begin(s, id, pid, now))
  {
    hide Invariant, Sync, WithHold;
    if id in s.holds {
      StartedKeeps(s, id, s.holds[id].(started := Some(now), pid := pid));
    }
  }

  lemma StartedKeeps(s: State, id: Id, h: Hold)
    requires Invariant(s) && id in s.holds && id.JobId? && h.SameWindow(s.holds[id])
    ensures Invariant(Sync(WithHold(s, id, h)))
  {
    hide Books, HoldsOk, Sync;
    SameBooks(s, WithHold(s, id, h));
    ObservedHold(s, id, h);
    InsertOk(s, id, h);
    SyncKeeps(WithHold(s, id, h));
  }

  lemma MarkEndKeeps(s: State, slug: string, exitCode: int, now: Time)
    requires Invariant(s)
    ensures Invariant(MarkEnd(s, slug, exitCode, now))
  {
    hide Invariant, EndHold;
    CloseKeeps(s, JobId(slug), now, if exitCode == 0 then RanOk else RanFailed);
  }

  lemma HooksKeep(s: State, on: bool, order: seq<Id>, now: Time)
    requires Invariant(s) && Lists(order, s.holds.Keys)
    ensures Invariant(SetHooks(s, on, order, now))
  {
    hide Invariant, Pass;
    var t := s.(hooksOn := on);
    QuietKeeps(s, t);
    SweepKeeps(t, order, ReleaseAgents, now);
    var p := Pass(t, order, ReleaseAgents, now);
    QuietKeeps(p, Sync(p));
  }

  /** SleepNow, and pausing, leave no hold at all. */
  lemma ReleasingKeeps(s: State, order: seq<Id>, now: Time, pausing: bool)
    requires Invariant(s) && Lists(order, s.holds.Keys)
    ensures var s' := if pausing then Pause(s, order, now) else SleepNow(s, order, now);
            Invariant(s') && s'.holds == map[]
  {
    hide Books, HoldsOk, Pass, Lists, Framed;
    var t := if pausing then s.(paused := true) else s;
    SameBooks(s, t);
    var p := Pass(t, order, ReleaseAll, now);
    PassBooks(t, order, ReleaseAll, now);
    ReleaseAllEmpties(t, order, now);
    var s' := if pausing then Pause(s, order, now) else SleepNow(s, order, now);
    SameBooks(p, s');
    assert s'.latch == s.latch by {
      PassFrame(t, order, ReleaseAll, now);
      FramedLatch(t, p);
    }
    assert HoldsOk(s) && (s.latch.Some? ==> s.latch.value.released > 0) by { LatchReleased(s); }
    NoHoldsOk(s');
  }

  lemma FramedLatch(s: State, p: State)
    requires Framed(s, p)
    ensures p.latch == s.latch && p.paused == s.paused && p.jobs == s.jobs && p.clock == s.clock && p.cfg == s.cfg
    ensures p.sleeps == s.sleeps && p.windows == s.windows
  {
  }

  lemma LatchReleased(s: State)
    requires HoldsOk(s)
    ensures s.latch.Some? ==> s.latch.value.released > 0
  {
  }

  /** A step of the control loop. */
  predicate LoopStep(step: Step) {
    step.Sampled? || step.Opening? || step.Sweep? || step.LatePass? || step.SleepingBack?
  }

  lemma LoopKeeps(s: State, e: Event)
    requires Invariant(s) && Enabled(s, e) && LoopStep(e.step)
    ensures Invariant(Do(s, e))
  {
    hide Invariant, EvaluateCutouts, OfferAll, Pass, LateAll, MaybeSleepBack, Lists;
    var now, t := e.now, s.(clock := e.now);
    QuietKeeps(s, t);
    match e.step {
      case Sampled(st, order) => CutoutKeeps(t, st, order, now);
      case Opening(order, offers) =>
        if !t.paused && t.latch.None? { OfferAllKeeps(t, order, offers, now); }
      case Sweep(order, rule) => SweepKeeps(t, order, rule, now);
      case LatePass(order, records) => LateAllKeeps(t, order, records, now);
      case SleepingBack(idle) => SleepingKeeps(t, idle, now);
    }
  }

  lemma JobStepKeeps(s: State, e: Event)
    requires Invariant(s) && Enabled(s, e)
    requires e.step.RemovingJob? || e.step.EnablingJob? || e.step.Marking? || e.step.MarkingEnd?
    ensures Invariant(Do(s, e))
  {
    hide Invariant, RemoveJob, EnableJob, MarkStart, MarkEnd;
    var now, t := e.now, s.(clock := e.now);
    QuietKeeps(s, t);
    match e.step {
      case RemovingJob(slug) => RemoveKeeps(t, slug, now);
      case EnablingJob(slug, on) => EnableKeeps(t, slug, on, now);
      case Marking(slug, pid, ceiling) => MarkStartKeeps(t, slug, pid, ceiling, now);
      case MarkingEnd(slug, exitCode) => MarkEndKeeps(t, slug, exitCode, now);
    }
  }

  lemma UserStepKeeps(s: State, e: Event)
    requires Invariant(s) && Enabled(s, e)
    requires e.step.SettingHooks? || e.step.ReleasingAll? || e.step.Pausing? || e.step.KeepingAwake?
             || e.step.StartingRun? || e.step.RenewingRun? || e.step.EndingRun?
    ensures Invariant(Do(s, e))
  {
    hide Invariant, SetHooks, SleepNow, Pause, KeepAwakeFor, StartRun, RenewRun, EndHold, Lists;
    var now, t := e.now, s.(clock := e.now);
    QuietKeeps(s, t);
    match e.step {
      case SettingHooks(on, order) => HooksKeep(t, on, order, now);
      case ReleasingAll(order) => ReleasingKeeps(t, order, now, false);
      case Pausing(order) => ReleasingKeeps(t, order, now, true);
      case KeepingAwake(want) => KeepAwakeKeeps(t, want, now);
      case StartingRun(key, want) => StartRunKeeps(t, key, want, now);
      case RenewingRun(id) => RenewKeeps(t, id, now);
      case EndingRun(id) => CloseKeeps(t, id, now, RanOk);
    }
  }

  lemma ClockMoves(s: State, e: Event)
    requires Enabled(s, e)
    ensures e.now >= s.clock
  {
  }

  lemma SyncKeeps(s: State)
    requires Invariant(s)
    ensures Invariant(Sync(s))
  {
    hide Invariant;
    QuietKeeps(s, Sync(s));
  }

  lemma SettingStepKeeps(s: State, e: Event)
    requires Invariant(s) && Enabled(s, e)
    requires e.step.PuttingJob? || e.step.SkippingJob? || e.step.SkippingAll? || e.step.SettingConfig?
    ensures Invariant(Do(s, e))
  {
    hide Invariant, Enabled, EvaluateCutouts, OpenDue, Pass, LateAll, MaybeSleepBack, RemoveJob, EnableJob,
      SetHooks, SleepNow, Pause, KeepAwakeFor, StartRun, RenewRun, EndHold, MarkStart, MarkEnd, Sync;
    ClockMoves(s, e);
    var t := s.(clock := e.now);
    QuietKeeps(s, t);
    match e.step {
      case PuttingJob(slug, job) => QuietKeeps(t, t.(jobs := t.jobs[slug := job]));
      case SkippingJob(slug, fire) => QuietKeeps(t, t.(skips := t.skips.(jobs := t.skips.jobs[slug := fire])));
      case SkippingAll(fire) => QuietKeeps(t, t.(skips := t.skips.(all := Some(fire))));
      case SettingConfig(cfg) => QuietKeeps(t, t.(cfg := cfg));
    }
  }

  lemma QuietStepKeeps(s: State, e: Event)
    requires Invariant(s) && Enabled(s, e)
    requires e.step.Syncing? || e.step.BookingWake? || e.step.Resuming?
    ensures Invariant(Do(s, e))
  {
    hide Invariant, Enabled, EvaluateCutouts, OpenDue, Pass, LateAll, MaybeSleepBack, RemoveJob, EnableJob,
      SetHooks, SleepNow, Pause, KeepAwakeFor, StartRun, RenewRun, EndHold, MarkStart, MarkEnd, Sync;
    ClockMoves(s, e);
    var t := s.(clock := e.now);
    QuietKeeps(s, t);
    match e.step {
      case Syncing => SyncKeeps(t);
      case BookingWake(next) => QuietKeeps(t, t.(nextWake := next));
      case Resuming(next) => QuietKeeps(t, t.(paused := false, nextWake := next));
    }
  }

  lemma StepKeeps(s: State, e: Event)
    requires Invariant(s) && Enabled(s, e)
    ensures Invariant(Do(s, e))
  {
    hide Invariant, Do, Enabled;
    if LoopStep(e.step) {
      LoopKeeps(s, e);
    } else if e.step.Syncing? || e.step.BookingWake? || e.step.Resuming? {
      QuietStepKeeps(s, e);
    } else if e.step.PuttingJob? || e.step.SkippingJob? || e.step.SkippingAll? || e.step.SettingConfig? {
      SettingStepKeeps(s, e);
    } else if e.step.RemovingJob? || e.step.EnablingJob? || e.step.Marking? || e.step.MarkingEnd? {
      JobStepKeeps(s, e);
    } else {
      UserStepKeeps(s, e);
    }
  }

  // ----- every run -----

  lemma StartKeeps(s: State)
    requires s.Fresh()
    ensures Invariant(s)
  {
    assert forall p :: SerialAt(s, p) == None;
  }

  lemma {:induction false} RunKeeps(s: State, run: seq<Event>)
    requires Invariant(s) && IsRun(s, run)
    ensures Invariant(After(s, run))
    decreases |run|
  {
    hide Invariant, Do, Enabled;
    if run != [] {
      StepKeeps(s, run[0]);
      RunKeeps(Do(s, run[0]), run[1..]);
    }
  }
}
