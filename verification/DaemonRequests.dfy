// What each request and each loop leaves behind, stated outright.
module DaemonRequests {
  import opened Prelude
  import opened Configs
  import opened Cutouts
  import opened Ids
  import opened Runs
  import opened Holds
  import opened DaemonModel
  import opened DaemonPasses
  import opened DaemonInvariants
  import opened DaemonSteps
  import opened DaemonWindows
  import Text

  /** Every hold but one is as it was. */
  ghost predicate OthersStay(s: State, p: State, id: Id) {
    forall other :: other != id ==>
      (other in p.holds <==> other in s.holds) && (other in s.holds ==> p.holds[other] == s.holds[other])
  }

  // ----- the runs a loop records -----

  /** The run a loop records for one hold, if it closes a job's window. */
  function RunFor(s: State, id: Id, rule: Rule, now: Time): (r: Option<Entry>)
    requires id in s.holds
    ensures r.Some? ==> id.JobId? && r.value.FromWindow?
  {
    var v := Judge(rule, id, s.holds[id], now);
    if id.JobId? && v.Close? then Some(ClosedRun(s, id.slug, v.hold, now, v.outcome)) else None
  }

  /** What a loop over these holds has appended: a run for each job window it
      closed and nothing else; and those jobs are served for those fires. */
  ghost predicate Logged(s: State, order: seq<Id>, rule: Rule, now: Time, p: State) {
    && s.runs <= p.runs
    && (forall id :: id in order && id in s.holds && RunFor(s, id, rule, now).Some? ==>
          && RunFor(s, id, rule, now).value in p.runs[|s.runs|..]
          && id.slug in p.served && p.served[id.slug] == RunFor(s, id, rule, now).value.hold.fireAt)
    && (forall e :: e in p.runs[|s.runs|..] ==> Recorded(s, order, rule, now, e))
  }

  /** The entry is the run of one of these holds. */
  ghost predicate Recorded(s: State, order: seq<Id>, rule: Rule, now: Time, e: Entry) {
    exists id :: id in order && id in s.holds && RunFor(s, id, rule, now) == Some(e)
  }

  lemma FinLogs(s: State, id: Id, h: Hold, now: Time, outcome: Outcome)
    ensures var f := Fin(s, id, h, now, outcome);
            && f.runs == (if id.JobId? then s.runs + [ClosedRun(s, id.slug, h, now, outcome)] else s.runs)
            && f.served == (if id.JobId? then s.served[id.slug := h.fireAt] else s.served)
  {
    hide Finish;
    FinSummary(s, id, h, now, outcome);
    FinOfClosed(s, id, h, now, outcome);
  }

  lemma OneLogs(s: State, id: Id, rule: Rule, now: Time)
    requires id in s.holds
    ensures var p, r := One(s, id, rule, now), RunFor(s, id, rule, now);
            && p.runs == (if r.Some? then s.runs + [r.value] else s.runs)
            && p.served == (if r.Some? then s.served[id.slug := r.value.hold.fireAt] else s.served)
  {
    hide Judge, Fin, ClosedRun, Watch;
    var v := Judge(rule, id, s.holds[id], now);
    if v.Close? {
      FinLogs(s, id, v.hold, now, v.outcome);
      WatchLogs(Fin(s, id, v.hold, now, v.outcome), id, v.hold, now);
      if id.JobId? { ClosedRunSays(s, id.slug, v.hold, now, v.outcome); }
    }
  }

  lemma WatchLogs(s: State, id: Id, h: Hold, now: Time)
    ensures Watch(s, id, h, now).runs == s.runs && Watch(s, id, h, now).served == s.served
  {
  }

  lemma {:induction false} PassLogs(s: State, order: seq<Id>, rule: Rule, now: Time)
    requires Distinct(order)
    ensures Logged(s, order, rule, now, Pass(s, order, rule, now))
  {
    hide One, Judge, RunFor, Framed;
    if order != [] {
      var n := |order| - 1;
      var before, id := order[..n], order[n];
      assert order == before + [id];
      PassLogs(s, before, rule, now);
      var q := Pass(s, before, rule, now);
      PassHold(s, before, rule, now, id);
      if id in s.holds {
        OneLogs(q, id, rule, now);
        PassFrame(s, before, rule, now);
        FramedLatch(s, q);
        SameRunFor(s, q, id, rule, now);
        LoggedMore(s, before, id, rule, now, q, One(q, id, rule, now));
      } else {
        assert One(q, id, rule, now) == q by { Absent(q, id, rule, now); }
        LoggedNone(s, before, id, rule, now, q);
      }
    }
  }

  lemma Absent(s: State, id: Id, rule: Rule, now: Time)
    requires id !in s.holds
    ensures One(s, id, rule, now) == s
  {
  }

  lemma SameRunFor(s: State, q: State, id: Id, rule: Rule, now: Time)
    requires id in s.holds && id in q.holds && q.holds[id] == s.holds[id] && q.cfg == s.cfg
    ensures RunFor(q, id, rule, now) == RunFor(s, id, rule, now)
  {
  }

  lemma LoggedNone(s: State, order: seq<Id>, id: Id, rule: Rule, now: Time, q: State)
    requires Logged(s, order, rule, now, q) && id !in s.holds
    ensures Logged(s, order + [id], rule, now, q)
  {
    hide RunFor, Recorded;
    forall e | e in q.runs[|s.runs|..]
      ensures Recorded(s, order + [id], rule, now, e)
    {
      RecordedStill(s, order, id, rule, now, e);
    }
  }

  lemma LoggedMore(s: State, order: seq<Id>, id: Id, rule: Rule, now: Time, q: State, p: State)
    requires Logged(s, order, rule, now, q) && id in s.holds && id !in order
    requires var r := RunFor(s, id, rule, now);
             && p.runs == (if r.Some? then q.runs + [r.value] else q.runs)
             && p.served == (if r.Some? then q.served[id.slug := r.value.hold.fireAt] else q.served)
    ensures Logged(s, order + [id], rule, now, p)
  {
    hide RunFor, Logged;
    var r, longer, n := RunFor(s, id, rule, now), order + [id], |s.runs|;
    assert s.runs <= q.runs by { LoggedSays(s, order, rule, now, q); }
    assert p.runs[n..] == if r.Some? then q.runs[n..] + [r.value] else q.runs[n..];
    forall k | k in longer && k in s.holds && RunFor(s, k, rule, now).Some?
      ensures RunFor(s, k, rule, now).value in p.runs[n..]
      ensures k.slug in p.served && p.served[k.slug] == RunFor(s, k, rule, now).value.hold.fireAt
    {
      if k == id {
        assert p.runs[n..][|p.runs[n..]| - 1] == r.value;
      } else {
        LoggedHas(s, order, rule, now, q, k);
      }
    }
    forall e | e in p.runs[n..]
      ensures Recorded(s, longer, rule, now, e)
    {
      if e in q.runs[n..] {
        LoggedFor(s, order, rule, now, q, e);
        RecordedStill(s, order, id, rule, now, e);
      } else {
        assert id in longer && RunFor(s, id, rule, now) == Some(e);
      }
    }
    LoggedIf(s, longer, rule, now, p);
  }

  lemma LoggedSays(s: State, order: seq<Id>, rule: Rule, now: Time, p: State)
    requires Logged(s, order, rule, now, p)
    ensures s.runs <= p.runs
  {
  }

  lemma LoggedHas(s: State, order: seq<Id>, rule: Rule, now: Time, p: State, k: Id)
    requires Logged(s, order, rule, now, p) && k in order && k in s.holds && RunFor(s, k, rule, now).Some?
    ensures s.runs <= p.runs && RunFor(s, k, rule, now).value in p.runs[|s.runs|..]
    ensures k.slug in p.served && p.served[k.slug] == RunFor(s, k, rule, now).value.hold.fireAt
  {
    hide RunFor;
  }

  lemma LoggedFor(s: State, order: seq<Id>, rule: Rule, now: Time, p: State, e: Entry)
    requires Logged(s, order, rule, now, p) && s.runs <= p.runs && e in p.runs[|s.runs|..]
    ensures Recorded(s, order, rule, now, e)
  {
    hide RunFor, Recorded;
  }

  lemma RecordedStill(s: State, order: seq<Id>, id: Id, rule: Rule, now: Time, e: Entry)
    requires Recorded(s, order, rule, now, e)
    ensures Recorded(s, order + [id], rule, now, e)
  {
    hide RunFor;
    var k :| k in order && k in s.holds && RunFor(s, k, rule, now) == Some(e);
    assert k in order + [id];
  }

  lemma LoggedIf(s: State, order: seq<Id>, rule: Rule, now: Time, p: State)
    requires s.runs <= p.runs
    requires forall k :: k in order && k in s.holds && RunFor(s, k, rule, now).Some? ==>
               && RunFor(s, k, rule, now).value in p.runs[|s.runs|..]
               && k.slug in p.served && p.served[k.slug] == RunFor(s, k, rule, now).value.hold.fireAt
    requires forall e :: e in p.runs[|s.runs|..] ==> Recorded(s, order, rule, now, e)
    ensures Logged(s, order, rule, now, p)
  {
    hide RunFor, Recorded;
  }

  /** A firing cutout, SleepNow and a pause close everything: every job window
      that was open is recorded as cut off and no other run is, and sleep is no
      longer blocked. */
  lemma ReleasingRecords(s: State, order: seq<Id>, now: Time, slug: string)
    requires Lists(order, s.holds.Keys) && JobId(slug) in s.holds
    ensures SleepNow(s, order, now).holds == map[] && !SleepNow(s, order, now).wantBlocked
    ensures s.runs <= SleepNow(s, order, now).runs
    ensures ClosedRun(s, slug, s.holds[JobId(slug)], now, CutOff) in SleepNow(s, order, now).runs[|s.runs|..]
    ensures forall e :: e in SleepNow(s, order, now).runs[|s.runs|..] ==> e.FromWindow? && e.run.outcome.CutOff?
  {
    hide Pass, Finish;
    PassLogs(s, order, ReleaseAll, now);
    ReleaseAllEmpties(s, order, now);
    var p := Pass(s, order, ReleaseAll, now);
    assert Sync(p).runs == p.runs;
    assert RunFor(s, JobId(slug), ReleaseAll, now).Some?;
    forall e | e in p.runs[|s.runs|..]
      ensures e.FromWindow? && e.run.outcome.CutOff?
    {
      var id :| id in order && id in s.holds && RunFor(s, id, ReleaseAll, now) == Some(e);
      FinishOutcome(id.slug, s.holds[id], now, CutOff);
    }
  }

  /** A cutout that fires leaves no hold, asks for no block and latches with the
      number of holds it released; one that does not leaves every hold alone. */
  lemma CutoutReleases(s: State, st: Power, order: seq<Id>, now: Time)
    requires Lists(order, s.holds.Keys)
    ensures var p := EvaluateCutouts(s, st, order, now);
            var still := s.latch.Some? && !Receded(s.latch.value.kind, st, s.cfg);
            if s.holds != map[] && st.lidClosed && (TooHot(st, s.cfg) || TooFlat(st, s.cfg)) && !still then
              && p.holds == map[] && !p.wantBlocked
              && p.latch == Some(Cutout(if TooHot(st, s.cfg) then Thermal else LowBattery, now, |s.holds|))
            else
              p.holds == s.holds && p.runs == s.runs && p.latch == if still then s.latch else None
  {
    hide Pass;
    var u := s.(latch := Updated(s.latch, st, s.cfg));
    ReleaseAllEmpties(u, order, now);
    assert s.holds != map[] <==> |s.holds| > 0;
  }

  /** The machine reports heat, or is at or above the limit. */
  predicate TooHot(st: Power, cfg: Config) {
    st.thermalWarn || (st.tempC.Some? && st.tempC.value >= cfg.thermalCutoutC)
  }

  /** The machine runs on a known battery, at or below the limit. */
  predicate TooFlat(st: Power, cfg: Config) {
    !st.onAC && st.batteryPct >= 0 && st.batteryPct <= cfg.lowBatteryCutoutPct
  }

  /** The lid is open, or the hazard that latched is past by its margin. */
  predicate Receded(kind: Kind, st: Power, cfg: Config) {
    || !st.lidClosed
    || (kind.Thermal? && !st.thermalWarn
        && (st.tempC.Some? ==> st.tempC.value + cfg.rearmMarginC <= cfg.thermalCutoutC))
    || (kind.LowBattery? && (st.onAC || st.batteryPct - cfg.rearmMarginPct >= cfg.lowBatteryCutoutPct))
  }

  lemma FinishOutcome(slug: string, h: Hold, now: Time, outcome: Outcome)
    ensures Finish(slug, h, now, outcome).outcome == outcome && Finish(slug, h, now, outcome).slug == slug
  {
  }

  // ----- wrapped jobs -----

  /** A reported start leaves the job's window open and detected as of now, the
      same window if one was open and otherwise a new one for this moment; and
      sleep is blocked. */
  lemma MarkStartOpens(s: State, slug: string, pid: int, ceiling: Dur, now: Time)
    requires slug in s.jobs
    ensures var p, id := MarkStart(s, slug, pid, ceiling, now), JobId(slug);
            && p.wantBlocked && id in p.holds
            && (id in s.holds ==> p.holds[id] == s.holds[id].(started := Some(now), pid := pid))
            && (id !in s.holds ==>
                  p.holds[id] == Hold(s.jobs[slug], now, now, ceiling, now + Max(ceiling, 2 * MINUTE), Some(now), pid,
                                      None, false, false, AdHoc, p.holds[id].serial))
            && OthersStay(s, p, id) && p.runs == s.runs
  {
    hide Begin;
    var o := Offer(now, ceiling, false, false);
    var t := if JobId(slug) in s.holds then s else OpenJob(s, slug, o, AdHoc, now);
    if JobId(slug) !in s.holds { OpenEvolves(s, slug, o, AdHoc, now); }
    BeginHolds(t, JobId(slug), pid, now);
    BeginPushes(t, JobId(slug), pid, now);
  }

  lemma BeginPushes(s: State, id: Id, pid: int, now: Time)
    requires id in s.holds
    ensures Begin(s, id, pid, now).wantBlocked && Begin(s, id, pid, now).runs == s.runs
  {
    var h := s.holds[id].(started := Some(now), pid := pid);
    assert id in WithHold(s, id, h).holds;
  }

  /** A reported exit closes exactly that job's window, and records one run: ok
      exactly for exit code zero, as long as the start last reported says. */
  lemma MarkEndRecords(s: State, slug: string, exitCode: int, now: Time)
    requires slug in s.jobs && JobId(slug) in s.holds
    ensures var p, h := MarkEnd(s, slug, exitCode, now), s.holds[JobId(slug)];
            && p.holds == s.holds - {JobId(slug)} && p.served == s.served[slug := h.fireAt]
            && |p.runs| == |s.runs| + 1 && s.runs <= p.runs
            && var run := p.runs[|s.runs|].run;
               && run.slug == slug && run.windowOpened == h.openedAt && run.holdDuration == now - h.openedAt
               && (run.outcome == if exitCode == 0 then RanOk else RanFailed)
               && (h.Detected() && h.ended.None? ==> run.duration == now - h.started.value && run.ended == Some(now))
  {
    hide Fin;
    var outcome := if exitCode == 0 then RanOk else RanFailed;
    FinLogs(s, JobId(slug), s.holds[JobId(slug)], now, outcome);
    FinFrame(s, JobId(slug), s.holds[JobId(slug)], now, outcome);
    SyncKeepsRuns(Fin(s, JobId(slug), s.holds[JobId(slug)], now, outcome));
  }

  lemma SyncKeepsRuns(s: State)
    ensures Sync(s).runs == s.runs && Sync(s).served == s.served && Sync(s).holds == s.holds && Sync(s).jobs == s.jobs
    ensures Sync(s).wantBlocked == (s.holds != map[])
  {
  }

  /** Removing or disabling a job closes its window and no other. */
  lemma RemovingCloses(s: State, slug: string, now: Time)
    requires slug in s.jobs
    ensures RemoveJob(s, slug, now).holds == s.holds - {JobId(slug)}
    ensures RemoveJob(s, slug, now).jobs == s.jobs - {slug}
    ensures EnableJob(s, slug, false, now).holds == s.holds - {JobId(slug)}
    ensures slug in EnableJob(s, slug, false, now).jobs && !EnableJob(s, slug, false, now).jobs[slug].enabled
  {
    hide Fin, Framed, Sync;
    Released(s.(jobs := s.jobs - {slug}), slug, now);
    Released(s.(jobs := s.jobs[slug := s.jobs[slug].(enabled := false)]), slug, now);
  }

  lemma Released(s: State, slug: string, now: Time)
    ensures ReleaseJob(s, slug, now).holds == s.holds - {JobId(slug)} && ReleaseJob(s, slug, now).jobs == s.jobs
  {
    hide Fin, Framed, Sync;
    CloseFrame(s, JobId(slug), now, CutOff);
    var c := CloseOpen(s, JobId(slug), now, CutOff);
    SyncKeepsRuns(c);
    if JobId(slug) in s.holds {
      FinFrame(s, JobId(slug), s.holds[JobId(slug)], now, CutOff);
      FramedLatch(s, c);
    }
  }

  // ----- the user's own window -----

  /** keep-awake for a while: refused under a latched cutout; cancelled by a
      non-positive time; otherwise the window ends the clamped time from now,
      whatever was open before, and sleep is blocked. */
  lemma KeepAwakeGrants(s: State, want: Dur, now: Time)
    ensures var p := KeepAwakeFor(s, want, now);
            && (want <= 0 ==> KeepAwake !in p.holds)
            && (want > 0 && s.latch.Some? ==> p == s)
            && (want > 0 && s.latch.None? ==>
                  KeepAwake in p.holds && p.holds[KeepAwake].Deadline() == now + ClampKeepAwake(want) && p.wantBlocked)
            && OthersStay(s, p, KeepAwake) && p.runs == s.runs
  {
    hide Fin, WithHold, Sync;
    if want <= 0 {
      if KeepAwake in s.holds { ManualCloses(s, KeepAwake, now); }
    } else if s.latch.None? {
      var c := CloseOpen(s, KeepAwake, now, RanOk);
      CloseFrame(s, KeepAwake, now, RanOk);
      if KeepAwake in s.holds { ManualCloses(s, KeepAwake, now); }
      Inserted(c, KeepAwake, UserHold(now, ClampKeepAwake(want), ByUser));
    }
  }

  lemma ManualCloses(s: State, id: Id, now: Time)
    requires id.Manual() && id in s.holds
    ensures var f := Fin(s, id, s.holds[id], now, RanOk);
            f.runs == s.runs && f.holds == s.holds - {id} && Sync(f).runs == s.runs && Sync(f).holds == s.holds - {id}
  {
    hide Fin;
    FinLogs(s, id, s.holds[id], now, RanOk);
    FinFrame(s, id, s.holds[id], now, RanOk);
    SyncKeepsRuns(Fin(s, id, s.holds[id], now, RanOk));
  }

  lemma Inserted(s: State, id: Id, h: Hold)
    ensures WithHold(s, id, h).holds == s.holds[id := h] && WithHold(s, id, h).runs == s.runs
    ensures var p := Sync(WithHold(s, id, h)); p.holds == s.holds[id := h] && p.runs == s.runs && p.wantBlocked
  {
    assert id in s.holds[id := h];
  }

  // ----- wrapped commands and agents -----

  /** run.start with a key: refused while hooks are off, and under a latched
      cutout unless the session already holds; otherwise the session's hold ends
      one lease from now, or at the absolute bound plus a lease. */
  lemma KeyedStartHolds(s: State, rawKey: string, want: Dur, now: Time)
    requires Text.TrimSpace(rawKey) != ""
    ensures var p, id := StartRun(s, rawKey, want, now), Keyed(Text.TrimSpace(rawKey));
            && (!s.hooksOn || (s.latch.Some? && id !in s.holds) ==> p == s)
            && (s.hooksOn && (s.latch.None? || id in s.holds) ==>
                  && id in p.holds && p.holds[id].ceiling == Lease(Text.TrimSpace(rawKey), want)
                  && p.holds[id].fireAt == (if id in s.holds then Min(now, s.holds[id].openedAt + 12 * HOUR) else now)
                  && p.holds[id].openedAt == (if id in s.holds then s.holds[id].openedAt else now))
  {
    hide Text.TrimSpace, Sync, Lease;
    var k := Text.TrimSpace(rawKey);
    if Keyed(k) in s.holds {
      Inserted(s, Keyed(k), Renewed(s.holds[Keyed(k)], now).(ceiling := Lease(k, want)));
    } else {
      Inserted(s, Keyed(k), UserHold(now, Lease(k, want), Wrapped));
    }
  }

  /** An anonymous run.start: refused under a latched cutout, otherwise a hold
      under the next number that ends one lease from now. */
  lemma CountedStartHolds(s: State, want: Dur, now: Time)
    requires Counted(s.runSeq + 1) !in s.holds
    ensures var p, id := StartRun(s, "", want, now), Counted(s.runSeq + 1);
            && (s.latch.Some? ==> p == s)
            && (s.latch.None? ==>
                  && p.runSeq == s.runSeq + 1 && id in p.holds && p.wantBlocked
                  && p.holds[id].Deadline() == now + Lease("", want))
  {
    hide Lease, InsertRun;
    var t := s.(runSeq := s.runSeq + 1);
    InsertedRun(t, Counted(t.runSeq), Lease("", want), now);
    assert Text.TrimSpace("") == "";
  }

  lemma InsertedRun(s: State, id: Id, lease: Dur, now: Time)
    requires id !in s.holds
    ensures var p := InsertRun(s, id, lease, now);
            && p.holds == s.holds[id := UserHold(now, lease, Wrapped)] && p.wantBlocked && p.runSeq == s.runSeq
            && p.holds[id].Deadline() == now + lease
  {
    hide WithHold, Sync;
    Inserted(s, id, UserHold(now, lease, Wrapped));
    InsertedNumber(s, id, UserHold(now, lease, Wrapped));
  }

  lemma InsertedNumber(s: State, id: Id, h: Hold)
    ensures Sync(WithHold(s, id, h)).runSeq == s.runSeq
  {
  }

  /** run.renew starts the lease anew from now, but not past twelve hours after
      the hold opened, or does nothing if it is not open. */
  lemma RenewMoves(s: State, id: Id, now: Time)
    ensures var p := RenewRun(s, id, now);
            && (id !in s.holds ==> p == s)
            && (id in s.holds ==>
                  && id in p.holds && OthersStay(s, p, id)
                  && p.holds[id] == s.holds[id].(fireAt := Min(now, s.holds[id].openedAt + 12 * HOUR)))
  {
  }

  /** Pausing leaves no hold, no block and no wake to come. */
  lemma PauseLeaves(s: State, order: seq<Id>, now: Time)
    requires Lists(order, s.holds.Keys)
    ensures var p := Pause(s, order, now); p.paused && p.holds == map[] && !p.wantBlocked && p.nextWake == None
  {
    hide Pass, Framed;
    var t := s.(paused := true);
    ReleaseAllEmpties(t, order, now);
    PassFrame(t, order, ReleaseAll, now);
    FramedLatch(t, Pass(t, order, ReleaseAll, now));
  }

  /** Switching agent hooks off closes exactly the agents' holds. */
  lemma HooksOffCloses(s: State, order: seq<Id>, now: Time, id: Id)
    requires Lists(order, s.holds.Keys)
    ensures var p := SetHooks(s, false, order, now);
            && !p.hooksOn
            && (id in p.holds <==> id in s.holds && !id.Keyed?)
            && (id in p.holds ==> p.holds[id] == s.holds[id])
  {
    hide Pass, Framed, Sync;
    var t := s.(hooksOn := false);
    PassHold(t, order, ReleaseAgents, now, id);
    PassFrame(t, order, ReleaseAgents, now);
    var p := Pass(t, order, ReleaseAgents, now);
    HooksFramed(t, p);
    SyncKeepsRuns(p);
    SyncHooks(p);
  }

  lemma HooksFramed(s: State, p: State)
    requires Framed(s, p)
    ensures p.hooksOn == s.hooksOn
  {
  }

  lemma SyncHooks(s: State)
    ensures Sync(s).hooksOn == s.hooksOn
  {
  }

  // ----- late completions -----

  /** A closed window is worth awaiting until an hour has passed, its job or its
      scheduler's record is gone, or a newer completion is reported. */
  predicate WorthAwaiting(s: State, id: Id, w: Late, records: map<string, Option<Record>>, now: Time) {
    && now - w.closedAt <= HOUR
    && id.JobId? && id.slug in s.jobs && id.slug in records
    && !(records[id.slug].Some? && Newer(records[id.slug].value, w))
  }

  predicate Newer(rec: Record, w: Late) {
    !rec.running && rec.completedAt.Some? && rec.completedAt.value > w.openedAt
  }

  lemma LateOneAwaits(s: State, key: Id, records: map<string, Option<Record>>, now: Time)
    ensures var p := LateOne(s, key, records, now);
            && p.jobs == s.jobs
            && p.lateWatch == if key in s.lateWatch && !WorthAwaiting(s, key, s.lateWatch[key], records, now)
                              then s.lateWatch - {key} else s.lateWatch
  {
    hide LateRun;
  }

  lemma SameWorth(s: State, p: State, id: Id, w: Late, records: map<string, Option<Record>>, now: Time)
    requires p.jobs == s.jobs
    ensures WorthAwaiting(p, id, w, records, now) == WorthAwaiting(s, id, w, records, now)
  {
  }

  /** After a pass over the awaited windows exactly those still worth awaiting
      are left, whatever the order. */
  lemma {:induction false} LatePassAwaits(s: State, order: seq<Id>, records: map<string, Option<Record>>, now: Time,
                                          id: Id)
    ensures var p := LateAll(s, order, records, now);
            && (id in p.lateWatch <==>
                  id in s.lateWatch && (id in order ==> WorthAwaiting(s, id, s.lateWatch[id], records, now)))
            && (id in p.lateWatch ==> p.lateWatch[id] == s.lateWatch[id])
            && p.jobs == s.jobs
  {
    hide LateOne, WorthAwaiting;
    if order != [] {
      var n := |order| - 1;
      assert order == order[..n] + [order[n]];
      LatePassAwaits(s, order[..n], records, now, id);
      var q := LateAll(s, order[..n], records, now);
      LateOneAwaits(q, order[n], records, now);
      if id in q.lateWatch { SameWorth(s, q, id, q.lateWatch[id], records, now); }
    }
  }

  /** The run recorded late does not end before it starts exactly when the
      scheduler reported a start inside the window, or the job finished after
      it was due: unlike in an open window, nothing else keeps the fire time
      from lying after the completion. */
  lemma LateRunFitsIff(slug: string, job: Job, w: Late, rec: Record)
    requires rec.completedAt.Some? && rec.completedAt.value > w.openedAt
    ensures var run := LateRun(slug, job, w, rec);
            run.duration >= 0 <==>
              (rec.startedAt.Some? && w.openedAt <= rec.startedAt.value <= rec.completedAt.value)
              || w.firedAt <= rec.completedAt.value
  {
  }
}
