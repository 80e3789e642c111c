// When the daemon opens a window for a fire, over every step and every run.
module DaemonOpenings {
  import opened Prelude
  import opened Ids
  import opened Runs
  import opened Holds
  import opened DaemonModel
  import opened DaemonPasses
  import opened DaemonInvariants
  import opened DaemonSteps
  import opened DaemonTheorems

  /** A window for this fire of the job may open now: the job is enabled, the user
      has skipped the fire neither for all jobs nor for this one, it is later than
      the one the job was last served for, and now is no earlier than the job's
      buffer before it, or the configured one if the job has none, and no later
      than two minutes past it. */
  predicate Timely(s: State, slug: string, fire: Time, now: Time) {
    && slug in s.jobs && s.jobs[slug].enabled
    && !(s.skips.all.Some? && fire <= s.skips.all.value)
    && !(slug in s.skips.jobs && fire <= s.skips.jobs[slug])
    && (slug in s.served ==> fire > s.served[slug])
    && fire - (if s.jobs[slug].wakeBuffer > 0 then s.jobs[slug].wakeBuffer else s.cfg.wakeBuffer) <= now
    && now <= fire + 2 * MINUTE
  }

  lemma DueIff(s: State, slug: string, fire: Time, now: Time)
    requires slug in s.jobs
    ensures Due(s, slug, fire, now) <==> Timely(s, slug, fire, now) && JobId(slug) !in s.holds
  {
  }

  /** The scheduler path opens for no job while the daemon is paused or a cutout
      is latched; otherwise exactly for those it is offered a timely fire of and
      holds no window for, each as offered; and it changes no hold that was open. */
  lemma OpeningOpens(s: State, e: Event, slug: string)
    requires Enabled(s, e) && e.step.Opening? && JobId(slug) !in s.holds
    ensures JobId(slug) in Do(s, e).holds <==>
              && !s.paused && s.latch.None? && slug in e.step.offers
              && Timely(s, slug, e.step.offers[slug].fire, e.now)
    ensures JobId(slug) in Do(s, e).holds ==>
              && slug in s.jobs && slug in e.step.offers
              && IsOffered(Do(s, e).holds[JobId(slug)], s.jobs[slug], e.step.offers[slug], e.now)
    ensures forall id :: id in s.holds ==> id in Do(s, e).holds && Do(s, e).holds[id] == s.holds[id]
  {
    hide OfferAll, Timely, Due, IsOffered;
    var t, offers := s.(clock := e.now), e.step.offers;
    if slug in s.jobs && slug in offers {
      DueIff(t, slug, offers[slug].fire, e.now);
    }
    if slug in offers { ClockAside(s, e.now, slug, offers[slug].fire); }
    forall id: Id
      ensures id in s.holds && !s.paused && s.latch.None? ==>
                id in OfferAll(t, e.step.jobOrder, offers, e.now).holds
                && OfferAll(t, e.step.jobOrder, offers, e.now).holds[id] == s.holds[id]
    {
      OfferHold(t, e.step.jobOrder, offers, e.now, id);
    }
    OfferHold(t, e.step.jobOrder, offers, e.now, JobId(slug));
  }

  lemma ClockAside(s: State, now: Time, slug: string, fire: Time)
    ensures Timely(s.(clock := now), slug, fire, now) == Timely(s, slug, fire, now)
    ensures Timely(s, slug, fire, now) ==> slug in s.jobs
  {
  }

  /** A skip of a job's fires, or of all fires, up to an instant is honoured: no
      fire up to it is timely any more, and which other fires are is unchanged. */
  lemma SkipIsHonoured(s: State, t: Time, upTo: Time, slug: string, fire: Time, now: Time, other: string)
    ensures var p := Do(s, Event(t, SkippingJob(slug, upTo)));
            && (Timely(p, slug, fire, now) <==>
                  Timely(s.(skips := s.skips.(jobs := s.skips.jobs - {slug})), slug, fire, now) && fire > upTo)
            && (other != slug ==> Timely(p, other, fire, now) == Timely(s, other, fire, now))
    ensures Timely(Do(s, Event(t, SkippingAll(upTo))), slug, fire, now) <==>
              Timely(s.(skips := s.skips.(all := None)), slug, fire, now) && fire > upTo
  {
  }

  /** What the loop over the jobs adds to the windows opened for a fire. */
  lemma {:induction false} OfferWindows(s: State, order: seq<string>, offers: map<string, Offer>, now: Time)
    requires Distinct(order)
    ensures var p := OfferAll(s, order, offers, now);
            && s.windows <= p.windows
            && (forall w :: w in p.windows[|s.windows|..] ==>
                  && w.slug in order && w.slug in s.jobs && w.slug in offers
                  && w.fire == offers[w.slug].fire && Due(s, w.slug, w.fire, now))
            && (forall slug :: slug in order && slug in s.jobs && slug in offers
                               && Due(s, slug, offers[slug].fire, now) ==>
                  Window(slug, offers[slug].fire) in p.windows[|s.windows|..])
  {
    hide Due;
    if order != [] {
      var n := |order| - 1;
      assert order == order[..n] + [order[n]];
      var q, slug := OfferAll(s, order[..n], offers, now), order[n];
      OfferWindows(s, order[..n], offers, now);
      OfferHold(s, order[..n], offers, now, JobId(slug));
      OfferFrame(s, order[..n], offers, now);
      if slug in s.jobs && slug in offers { SameDue(s, q, slug, offers[slug].fire, now); }
      var p := OfferAll(s, order, offers, now);
      assert p.windows[|s.windows|..] == q.windows[|s.windows|..] + p.windows[|q.windows|..];
    }
  }

  /** Every fire a step opens for was timely then, with the daemon neither paused
      nor under a latched cutout and no window open for the job. */
  lemma OpenedTimely(s: State, e: Event, i: nat)
    requires Enabled(s, e) && |s.windows| <= i < |Do(s, e).windows|
    ensures s.windows <= Do(s, e).windows
    ensures var w := Do(s, e).windows[i];
            !s.paused && s.latch.None? && JobId(w.slug) !in s.holds && Timely(s, w.slug, w.fire, e.now)
  {
    hide Do, Enabled, Timely;
    StepEvolves(s, e);
    if e.step.Opening? {
      DoOpening(s, e);
      var t, w := s.(clock := e.now), Do(s, e).windows[i];
      OrderIsDistinct(s, e);
      OfferWindows(t, e.step.jobOrder, e.step.offers, e.now);
      assert w in Do(s, e).windows[|s.windows|..] by { assert w == Do(s, e).windows[|s.windows|..][i - |s.windows|]; }
      DueIff(t, w.slug, w.fire, e.now);
      ClockAside(s, e.now, w.slug, w.fire);
    }
  }

  lemma DoOpening(s: State, e: Event)
    requires e.step.Opening?
    ensures Do(s, e) == if s.paused || s.latch.Some? then s.(clock := e.now)
                        else OfferAll(s.(clock := e.now), e.step.jobOrder, e.step.offers, e.now)
  {
    hide OfferAll;
  }

  lemma OrderIsDistinct(s: State, e: Event)
    requires Enabled(s, e) && e.step.Opening?
    ensures Distinct(e.step.jobOrder)
  {
  }

  /** No step takes back a fire opened for. */
  lemma WindowsGrow(s: State, e: Event)
    requires Enabled(s, e)
    ensures s.windows <= Do(s, e).windows
  {
    hide Do, Enabled, Timely;
    StepEvolves(s, e);
    if e.step.Opening? {
      DoOpening(s, e);
      OrderIsDistinct(s, e);
      OfferWindows(s.(clock := e.now), e.step.jobOrder, e.step.offers, e.now);
    }
  }

  /** So in every run each window the schedule opened was opened at a step at
      which its fire was timely. */
  lemma {:induction false} EveryWindowWasTimely(s: State, run: seq<Event>, j: nat, i: nat)
    requires IsRun(s, run) && j <= |run| && |s.windows| <= i < |StateAt(s, run, j).windows|
    ensures exists m :: 0 <= m < j && run[m].step.Opening?
                        && var t, w := StateAt(s, run, m), StateAt(s, run, j).windows[i];
                           && !t.paused && t.latch.None? && JobId(w.slug) !in t.holds
                           && Timely(t, w.slug, w.fire, run[m].now)
  {
    hide Do, IsRun, After, StateAt, Enabled, Timely;
    if j == 0 {
      AfterNone(s, run);
    } else {
      NextState(s, run, j - 1);
      var t := StateAt(s, run, j - 1);
      WindowsGrow(t, run[j - 1]);
      if i < |t.windows| {
        EveryWindowWasTimely(s, run, j - 1, i);
      } else {
        OpenedTimely(t, run[j - 1], i);
        StepEvolves(t, run[j - 1]);
      }
    }
  }
}
