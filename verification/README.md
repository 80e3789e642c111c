# goguma, modelled in Dafny

goguma decides when a laptop may sleep. It wakes the machine before a scheduled
job, holds sleep off while the job runs, and lets go as soon as it can. Most of
the project is about the daemon that does this and the privileged helper it
drives; the rest is the small algorithms they lean on. Times and durations are
whole nanoseconds, as Go counts them. Nothing here was executed.

## How it is laid out

- `Holds`, `DaemonPasses`, `DaemonModel`: one open wake window, and the daemon's state with
  everything that may happen to it under its lock, as functions. A *step* is one
  phase of the control loop's tick or poll, or one whole request. A *run* is any
  sequence of steps, so requests may come between the phases of a tick.
- `DaemonObject`: the daemon as a class with the fields the program keeps. Every
  method is proved equal to the function of the same name in `DaemonModel`;
  loops over the hold map visit the holds in an order nobody chooses. The six
  loops over that map share one loop, `Sweep`, and differ in `Visit`.
- `DaemonInvariants`, `DaemonSteps`, `DaemonWindows`, `DaemonTheorems`: what each
  step keeps, and what therefore holds in every run from a fresh start.
- `DaemonRequests`: what each request and loop leaves behind, stated outright.
  `DaemonHistory`: what each loop closes, as what, and which steps arm a forced
  sleep. `DaemonOpenings`: which fires are opened for. `DaemonSleeps`: what
  becomes of a pending forced sleep.
- `Ownership`: a second, finer model in which openers take an OS assertion
  outside the lock and insert or give it back inside it, for every interleaving.
- `HelperLink`, `HelperService`: the one-slot link to the helper in every
  interleaving, and the helper's wake schedule, dead-man switch and recovery.
- `Wakes`, `SleepAccounting`: choosing the wake, agreeing with the window later
  opened, inferring sleep and recording what was slept through.
- `Cutouts`, `Estimator`, `Configs`, `Durations`, `Journal`, `Slugs`, `Crontab`,
  `Sync`: the kernels, in the form the program gives them.

`Hold`, `State` and the history lines carry a few fields the program does not
have: which path opened a window, serial numbers, and the lists of openings,
armings and forced sleeps. Their comments call them bookkeeping. No branch of
the model reads them; they are what the theorems over whole runs speak about.

## Assumptions

- `updatePatternHold` finishes a hold it picked before taking the lock. Choosing
  and finishing are one step here; `Ownership.StaleFinishSafeIff` says exactly
  what happens otherwise.
- `run.renew` and `run.end` name run holds (ids returned by `run.start` or built
  from its key).
- The times handed to the daemon's steps arrive in order. That is more than the
  wall clock never going back: a tick carries the time its ticker sent
  (internal/daemon/daemon.go:305), and a request reads the clock before it takes
  the lock, so that one could be overtaken by the other.
- Appending to the history succeeds. A source that keeps run records has a
  non-empty name.
- A call to the helper that fails has had no effect, though one that timed out
  may in truth have been carried out.
- Configurations in use have been through `Normalize`.
- `Next` is any function that gives the least fire strictly after an instant, or
  the zero time, before every fire, when there is none; the repeating gap is
  modelled in full. A schedule is parsed after the sleep it is walked for has
  ended. The refusal of a schedule with no fire to come is modelled for those
  given in plain English too, for which `ParseAt` leaves it out: they name
  intervals, or times of the day, week or month, and always fire again.
- Learned ceilings enter the daemon's model as arbitrary durations.

## Where the code and its documentation differ

The code is what is modelled.

- `ParseDuration` is described as the inverse of `HumanDuration`. It is, on
  exactly the durations `Durations.RoundTripIff` describes.
- `disarmSleepBack` is documented as called on every new hold, resume or pause;
  only `maybeSleepBack` calls it. A hold opened and closed again, or a pause
  lifted, before the grace ends cancels nothing
  (`DaemonSleeps.KeepAwakeCancelsNothing`, `DaemonSleeps.PauseCancelsNothing`);
  what decides is only what holds when the sleep is due
  (`DaemonSleeps.SleepDecidedWhenDue`).
- The wake-up and the window are said to be for the same fire. They are exactly
  when the scheduler announces that fire, or has no announcement left at the wake
  and no other fire lies within the two buffers before it
  (`Wakes.BookedIsConsideredIff`, `Wakes.WakeFindsEarlierFire`).
- A served fire is said to be done. It is reopened when a wrapper reports a
  start, and finishes, before the fire time (`DaemonTheorems.EarlyMarkReopens`).
- `run.start` trims its key and `run.end` does not (`DaemonTheorems.EndByKeyIff`).
- Ceilings are said to be clamped; an explicit maximum and the cold-start default
  are not (`Estimator.CeilingInRangeIff`). `Normalize` can leave a window that
  never learns (`Estimator.NeverLearns`), and repairs some fields silently.
- `ReplaceCrontabCommand` is said to leave comments and environment assignments
  alone and to rewrite only what is still a job. It looks for a schedule and the
  wanted command only: what it rewrites is no job exactly when it is a comment or
  an assignment (`Crontab.RewritesNoJobIff`). A job commented out in the meantime
  is one such line (`Crontab.CommentedOutIsRewritten`), and there are assignments
  that are (`Crontab.AssignmentIsRewritten`).
- A wrapper whose path had to be quoted is not recognised again. Where it has a
  space and what comes before the space is itself named like the wrapper, it is,
  but the job is then called by the next word (`Crontab.WrapIsSeenIff`,
  `Crontab.SpacedPathIsSeenIff`).
- A job gone from its source is said to be retired. It is kept as long as another
  source has an entry of its name (`Sync.GoneIsRetiredIff`).
- A late completion is said to use the same floor for its start as one inside the
  window; without the check that the job was due by then it may start after it
  ends (`DaemonRequests.LateRunFitsIff`).
- The walk past skipped fires stops after ten; past that a wake is booked for a
  skipped fire (`Wakes.WalkFindsUnskipped`, `Wakes.SkippedWakeIsBooked`).

## Model

| member | source | states |
|---|---|---|
| DaemonTheorems.OneRunPerWindow | internal/daemon/daemon.go:676-724 | in every run, every job window ever opened is in exactly one place: still open, or recorded by exactly one run |
| DaemonTheorems.WindowsAddUp | internal/daemon/daemon.go:676-724 | in every run, the runs recorded for windows and the job windows still open add up to the job windows ever opened, so closing anything else records none |
| DaemonTheorems.JobHoldsAreRegistered | internal/daemon/handlers.go:75-103 | in every run, every window that is not the user's own belongs to a registered job |
| DaemonTheorems.WantedBlockMatchesHolds | internal/daemon/daemon.go:775-799 | after any sequence of whole operations the helper is asked to block sleep exactly while some hold is open |
| DaemonTheorems.LatchAndPauseHold | internal/daemon/daemon.go:384-387 | in every run, a latched cutout had released a hold, and under it every open hold came from mark.start; under a pause none was opened by the schedule |
| DaemonTheorems.RunHoldsAreBounded | internal/daemon/runhold.go:39-71 | in every run, a run hold renews to at most twelve hours after it opened, with a lease of at most thirty minutes |
| DaemonTheorems.RunHoldsEnd | internal/daemon/runhold.go:214-232 | a run hold is gone after the first ceiling pass one lease past its last renewal, and so after twelve hours and a lease |
| DaemonTheorems.NothingOutlivesItsBound | internal/daemon/daemon.go:603-667 | any hold is gone after one ceiling pass past its bound: the detect deadline, or start plus the later of ceiling and backstop |
| DaemonTheorems.BoundStays | internal/daemon/hold.go:86-110 | once a job is seen to start, no step of any run but another mark.start for it moves that bound while its window is open |
| DaemonTheorems.CeilingHitsAreEarned | internal/daemon/daemon.go:635-661 | in every run, a run recorded as a ceiling hit without an explicit maximum had run at least the backstop past its start |
| DaemonTheorems.NeverDetectedIsTrue | internal/daemon/daemon.go:603-667 | in every run, a run recorded as never detected could have been detected, was not, and had until its deadline; no window is recorded as slept through |
| DaemonTheorems.RunsTellTheirWindows | internal/daemon/hold.go:148-172 | in every run, a recorded run was opened when its window was, over when it closed, started when the job was seen to, ended at the reported end if later than that and otherwise at the close, and lasted from start to end |
| DaemonTheorems.LateCompletionsAreDue | internal/daemon/daemon.go:1057-1113 | in every run, a completion recorded late is for a window of that job recorded as ok with nobody able to see it run, no window is completed late twice, and none still awaited has been |
| DaemonTheorems.SleepsAreEarned | internal/daemon/sleepback.go:112-186 | in every run, each forced sleep came with no hold open and not paused, and used up its own arming, made the grace earlier by closing a detected job window as ok or failed, after a wake, leaving no hold |
| DaemonSleeps.PendingSleepStays | internal/daemon/sleepback.go:58-107 | a pending sleep stays for the same moment through every run that neither checks it nor arms anew, whatever is opened, paused or resumed in it |
| DaemonSleeps.SleepsIffQuiet | internal/daemon/sleepback.go:112-186 | a step, of any kind, puts the machine to sleep exactly when it checks a pending sleep that is due with nothing held, not paused, nobody at the machine and no wake about to fire; then once |
| DaemonSleeps.EverySleepWasQuiet | internal/daemon/sleepback.go:112-186 | in every run, each forced sleep was taken at such a step, at its time |
| DaemonSleeps.SleepDecidedWhenDue | internal/daemon/sleepback.go:112-186 | so at its first check after it is due the machine is put to sleep exactly when a sleep is wanted then, and it is disarmed either way |
| DaemonSleeps.KeepAwakeCancelsNothing | internal/daemon/sleepback.go:101-107 | keep-awake opened and cancelled before the grace ends: the forced sleep still comes |
| DaemonSleeps.PauseCancelsNothing | internal/daemon/sleepback.go:101-107 | a pause and a resume before the grace ends: the forced sleep still comes |
| DaemonHistory.ArmsIff | internal/daemon/sleepback.go:58-99 | a step, of any kind, arms a forced sleep exactly when it closes the last hold and, last of all, a job's window seen to run, recorded as ok or failed, after either kind of wake; it is then due 45 seconds later |
| DaemonHistory.PassArmsIff | internal/daemon/daemon.go:683-691 | so does a loop over the holds, whatever it closes and in whatever order |
| DaemonHistory.CeilingPassCloses | internal/daemon/daemon.go:603-667 | a ceiling pass closes exactly the windows past the fire, the start or the detection deadline that bounds them, save jobs still running with no explicit maximum inside the backstop; each is recorded as what it is, and exactly the unseen ones of reporting schedulers are watched on |
| DaemonHistory.CeilingPassRecords | internal/daemon/daemon.go:635-661 | every run a ceiling pass records is a ceiling hit exactly if the job was seen to run, so none truncated trains the estimator, and it arms no sleep |
| DaemonHistory.RecordsPassCloses | internal/daemon/daemon.go:960-1049 | a pass over the schedulers' records closes exactly the windows with a newer completion, recorded as failed exactly if it says so, from the inferred start to the reported end; a start it reports is seen, and nothing else changes |
| DaemonHistory.RecordsPassRecords | internal/daemon/daemon.go:1011-1048 | and it records nothing else |
| DaemonHistory.LatePassRecords | internal/daemon/daemon.go:1051-1113 | a pass over the awaited windows records a run for exactly those whose completion is reported within the hour, with the outcome and the times reported |
| DaemonHistory.PatternsPassCloses | internal/daemon/daemon.go:540-567 | a process scan closes exactly the windows of pattern jobs seen before and gone now, as ok, and marks those that match first now as started |
| DaemonHistory.DeadPidsPassCloses | internal/daemon/daemon.go:571-583 | the pid fallback closes exactly the windows of marked jobs whose process is gone, as ok |
| DaemonHistory.RemovingRecords | internal/daemon/handlers.go:510-518 | removing or disabling a job records its open window as cut off and nothing else |
| DaemonOpenings.OpeningOpens | internal/daemon/daemon.go:384-446 | the loop over the jobs opens a window exactly for a job that is enabled and has none, offered a fire that is not skipped, later than the last served, within the job's buffer and not more than two minutes past, with the daemon not paused and no cutout latched; and opens it as offered |
| DaemonOpenings.EveryWindowWasTimely | internal/daemon/daemon.go:411-443 | in every run, each window the schedule opened was opened at a step at which all of that held |
| DaemonOpenings.SkipIsHonoured | internal/daemon/daemon.go:436-443 | a skip rules out exactly the fires up to it, for the job or for all |
| DaemonTheorems.ArmingLeavesNoHold | internal/daemon/daemon.go:687-691 | a step arms a forced sleep at most once and then leaves no hold open |
| DaemonTheorems.RunRequestsKeepToThemselves | internal/daemon/runhold.go:92-256 | run.start, run.renew and run.end neither change, open nor close any hold but the one they name |
| DaemonTheorems.NumbersAreNew | internal/daemon/runhold.go:166-172 | in every run, the next anonymous run's id is not that of an open hold |
| DaemonTheorems.EndByKeyIff | internal/daemon/handlers.go:197-206 | ending by the key that was started closes the hold exactly when the key has no surrounding space |
| DaemonTheorems.ScheduledWindowsIncrease | internal/daemon/daemon.go:411-426 | without early mark.starts, the fire times of a job's scheduled windows strictly increase in every run |
| DaemonTheorems.EarlyMarkReopens | internal/daemon/handlers.go:475-508 | a job served ahead of its fire, then marked and finished before it, is due for the same fire again |
| DaemonTheorems.FiringsAreApart | internal/daemon/cutout.go:160-218 | in every run, between two firings of a kind lies a sample with the lid open or that hazard recovered by its margin, or a configuration change |
| DaemonTheorems.ConfigStaysNormal | internal/daemon/setconfig.go:147-163 | in every run, the configuration in use is a normalized one |
| DaemonRequests.PassLogs | internal/daemon/daemon.go:676-724 | a loop over the holds records a run for each job window it closed, serves those fires, and records nothing else |
| DaemonRequests.ReleasingRecords | internal/daemon/wake.go:257-268 | releasing everything records every open job window as cut off and nothing else, and stops blocking sleep |
| DaemonRequests.CutoutReleases | internal/daemon/daemon.go:801-835 | with the lid closed, something held and the machine hot or flat, unless a hazard latched earlier has not receded by its margin, every hold goes, no block is asked for, and heat before battery is latched with the number released; otherwise every hold stays and the latch clears exactly if its hazard receded |
| DaemonRequests.MarkStartOpens | internal/daemon/handlers.go:400-437 | a reported start leaves the same window started now, or a new one for now that follows no wake, with sleep blocked and nothing else changed |
| DaemonRequests.MarkEndRecords | internal/daemon/handlers.go:440-471 | a reported exit closes exactly that window and records one run, ok exactly for exit code zero, from the last reported start |
| DaemonRequests.RemovingCloses | internal/daemon/handlers.go:510-518 | removing or disabling a job closes its window and no other |
| DaemonRequests.KeepAwakeGrants | internal/daemon/keepawake.go:59-133 | keep-awake is refused under a latch, cancels for a non-positive time, and otherwise ends the clamped time from now |
| DaemonRequests.KeyedStartHolds | internal/daemon/runhold.go:92-149 | an agent's start is refused with hooks off or a latch it does not already hold under, and otherwise ends one lease from now within the absolute bound |
| DaemonRequests.CountedStartHolds | internal/daemon/runhold.go:152-206 | a wrapped command's start is refused under a latch and otherwise ends one lease from now under a new number |
| DaemonRequests.RenewMoves | internal/daemon/runhold.go:214-232 | a renewal starts the lease anew from now, at most twelve hours after the hold opened, and touches nothing else |
| DaemonRequests.PauseLeaves | internal/daemon/handlers.go:520-536 | a pause leaves no hold, no block and no wake to come |
| DaemonRequests.HooksOffCloses | internal/daemon/runhold.go:344-363 | switching agent hooks off closes exactly the keyed holds |
| DaemonRequests.LatePassAwaits | internal/daemon/daemon.go:1051-1113 | a pass leaves awaited exactly the closed windows for which no hour has passed, whose job and scheduler are there and report no newer completion, whatever the order |
| DaemonRequests.LateRunFitsIff | internal/daemon/daemon.go:1078-1098 | a run recorded late does not end before it starts exactly when its start was reported inside the window or it finished after it was due |
| Holds.PatternWindow | internal/daemon/daemon.go:540-567 | over any sequence of scans a pattern window is detected exactly when one matched, and closed as ok exactly when a later one did not |
| Holds.PatternStart | internal/daemon/daemon.go:540-567 | and the start and process put down are those of the first scan that matched |
| Holds.RecordVerdict | internal/daemon/daemon.go:985-1044 | a completion closes a window only if newer than it, and an inferred start lies between the opening, or the fire time, and the completion |
| DaemonTheorems.Reached | internal/daemon/daemon.go:339-381 | every state of every run satisfies the invariants of holds, accounting and forced sleeps |
| DaemonWindows.MarkOrderedIff | internal/daemon/handlers.go:400-437 | a reported start keeps every job's fires in order exactly when it is not before the fire the job was last served for |
| DaemonWindows.StepOrdered | internal/daemon/daemon.go:683-686 | every other step keeps each job's fires in order and its served fire no later than its open one |
| DaemonWindows.StepSettles | internal/daemon/daemon.go:775-799 | every request, and every phase but opening and sweeping, keeps the wanted block equal to some hold being open; a push restores it |
| DaemonWindows.BlockMatchesHolds | internal/daemon/daemon.go:299-318 | the wanted block is equal to some hold being open after any run in which nothing opened or swept lacks a later push |
| DaemonSteps.StepEvolves | internal/daemon/daemon.go:603-724 | every step arms at most once and last, leaves a pending sleep alone unless it is checked, and leaves each window it does not close the same window, with its start unless marked again |
| DaemonInvariants.StepKeeps | internal/daemon/daemon.go:339-381 | every step keeps the shape of every hold, the one-run-per-window accounting and tally, the late completions, the sleep chain, and that recorded outcomes are warranted |
| DaemonInvariants.RunKeeps | internal/daemon/daemon.go:258-336 | every run from a state with those properties ends in one |
| DaemonInvariants.PassHoldsOk | internal/daemon/daemon.go:603-667 | every loop over the holds keeps the shape of those it leaves |
| DaemonInvariants.RenewedOk | internal/daemon/runhold.go:214-232 | a renewal, whenever it comes, keeps a run hold within its absolute bound |
| DaemonInvariants.ReleasingKeeps | internal/daemon/wake.go:257-268 | releasing everything, and pausing, leave no hold and keep the invariants |
| DaemonPasses.PassHold | internal/daemon/daemon.go:603-667 | a loop over the holds judges each one once, on what it was before the loop, whatever the order |
| DaemonPasses.PassOrder | internal/daemon/daemon.go:603-667 | the holds a loop leaves do not depend on the order the map yields them in |
| DaemonPasses.OfferHold | internal/daemon/daemon.go:384-446 | openDueWindows opens exactly the windows that are due, each for its own fire, and leaves every open hold alone |
| Holds.CeilingVerdict | internal/daemon/daemon.go:603-667 | a ceiling pass leaves exactly the holds inside their deadline, and those running inside the backstop with no explicit maximum |
| Holds.CeilingBound | internal/daemon/daemon.go:603-667 | a ceiling pass leaves no hold past its bound |
| Holds.CutOffIsEarned | internal/daemon/daemon.go:635-661 | a ceiling pass records a ceiling hit only past the deadline and past an explicit maximum or the backstop |
| Holds.JudgeKeepsWindow | internal/daemon/daemon.go:540-583 | no loop changes more of a window than what was observed of the job, nor a start already seen |
| Holds.RunFitsWindow | internal/daemon/hold.go:148-172 | a recorded run is no longer than its window, given a start inside it and an end not after it |
| DaemonObject.Daemon.FinishHold | internal/daemon/daemon.go:676-724 | the hold goes, a job's fire is served and its run recorded, and a sleep is armed only if nothing is left |
| DaemonObject.Daemon.ArmSleepBack | internal/daemon/sleepback.go:58-99 | arms exactly for a job's window, detected, ended ok or failed, after a wake |
| DaemonObject.Daemon.Sweep | internal/daemon/daemon.go:603-667 | a loop that deletes from the map it ranges over does what the pass over some listing of it does |
| DaemonObject.Daemon.EnforceCeiling | internal/daemon/daemon.go:606-665 | one turn of enforceCeilings, late watch included |
| DaemonObject.Daemon.UpdatePattern | internal/daemon/daemon.go:540-567 | one turn of pattern detection |
| DaemonObject.Daemon.CheckPid | internal/daemon/daemon.go:571-583 | one turn of the pid fallback |
| DaemonObject.Daemon.ObserveRecord | internal/daemon/daemon.go:980-1048 | one turn of reading a scheduler's own record |
| DaemonObject.Daemon.FinishedHold | internal/daemon/daemon.go:1011-1038 | the start inferred for a run whose end was reported |
| DaemonObject.Daemon.PollLate | internal/daemon/daemon.go:1051-1113 | the completions still awaited after their windows closed |
| DaemonObject.Daemon.EvaluateCutouts | internal/daemon/daemon.go:801-835 | the latch is updated, and a hazard it does not block releases everything and latches, with the number released |
| DaemonObject.Daemon.OpenDueWindows | internal/daemon/daemon.go:384-446 | the loop over the jobs opens what the model opens, and nothing under a pause or a latched cutout |
| DaemonObject.Daemon.ConsiderJob | internal/daemon/daemon.go:388-445 | one turn of that loop |
| DaemonObject.Daemon.OpenWindow | internal/daemon/daemon.go:448-492 | the window opened, for a fire or for a start nobody expected |
| DaemonObject.Daemon.MaybeSleepBack | internal/daemon/sleepback.go:112-186 | sleeps exactly when every check passes, and disarms once due whatever they say |
| DaemonObject.Daemon.Tick | internal/daemon/daemon.go:339-381 | one pass of the control loop is one whole operation of the model: cutouts, windows due, process scan and pids, records, late completions, ceilings, the push to the helper and the pending sleep, in that order |
| DaemonObject.Daemon.Poll | internal/daemon/daemon.go:296-319 | the fast timer is one whole operation of exactly its phases, in order |
| DaemonObject.Daemon.HandleJob | internal/daemon/handlers.go:51-104 | each request about a job is one enabled step of the model |
| DaemonObject.Daemon.HandleRun | internal/daemon/handlers.go:161-213 | each request about the user's window, a wrapped command or an agent is one enabled step of the model |
| DaemonObject.Daemon.HandleRelease | internal/daemon/handlers.go:158-171 | releasing everything and pausing are each one enabled step of the model |
| DaemonObject.Daemon.HandleHooks | internal/daemon/setconfig.go:165-191 | switching agent hooks is one enabled step of the model |
| DaemonObject.Daemon.HandleSetting | internal/daemon/setconfig.go:137-163 | resuming, and setting anything else, is one enabled step of the model |
| DaemonObject.Daemon.KeepAwake | internal/daemon/keepawake.go:59-133 | opens, replaces or cancels the user's window, refused under a latched cutout, and reports its end |
| DaemonObject.Daemon.StartRun | internal/daemon/runhold.go:92-149 | opens or renews the hold of a command or an agent's session |
| DaemonObject.Daemon.OpenRunHold | internal/daemon/runhold.go:152-206 | inserts a run hold unless its id is open |
| DaemonObject.Daemon.RenewRun | internal/daemon/runhold.go:214-232 | moves the lease, clamped to the absolute bound |
| DaemonObject.Daemon.EndHold | internal/daemon/runhold.go:235-256 | closes a hold by id, or does nothing |
| DaemonObject.Daemon.ReleaseAgentHolds | internal/daemon/runhold.go:344-363 | closes every keyed hold and no other |
| DaemonObject.Daemon.SetHooks | internal/daemon/setconfig.go:172-182 | switching agent hooks off releases what agents hold |
| DaemonObject.Daemon.MarkStart | internal/daemon/handlers.go:400-437 | a reported start detects the job, opening a window if none is open |
| DaemonObject.Daemon.MarkEnd | internal/daemon/handlers.go:440-471 | a reported exit closes the window as ok or failed |
| DaemonObject.Daemon.RemoveJob | internal/daemon/handlers.go:75-89 | removing a job closes its window |
| DaemonObject.Daemon.EnableJob | internal/daemon/handlers.go:91-104 | disabling a job closes its window |
| DaemonObject.Daemon.SleepNow | internal/daemon/wake.go:257-268 | releases every hold and counts them |
| DaemonObject.Daemon.Pause | internal/daemon/handlers.go:520-536 | releases everything and forgets the registered wake |
| DaemonModel.ClampKeepAwake | internal/daemon/keepawake.go:200-209 | the window is one minute to twelve hours, and a request in that range is granted as asked |
| DaemonModel.Lease | internal/daemon/runhold.go:118-124 | a lease is positive and at most thirty minutes, and a request in that range is granted as asked |
| Ownership.EveryAssertionHasOneOwner | internal/daemon/daemon.go:466-491 | in every interleaving each unreleased assertion has exactly one owner: an open hold, or an opener that has not reached its locked insert |
| Ownership.NothingIsStranded | internal/daemon/daemon.go:676-683 | with no hold and no opener left, every assertion was released exactly once |
| Ownership.InsertDoes | internal/daemon/daemon.go:466-491 | an opener whose hold is open already gives its assertion back, and otherwise its hold is open with it; KeepAwake gives back what it replaced and takes a display assertion exactly if the setting is on and one is granted |
| Ownership.CloseAndSettingDo | internal/daemon/keepawake.go:137-198 | closing a hold gives back what it held, and the display setting reaches the user's window at once and no other |
| Ownership.StepKeepsInvariant | internal/daemon/keepawake.go:86-107 | acquiring, inserting, yielding, replacing, closing and changing the display setting all keep that ownership, and nothing is released twice |
| Ownership.RunKeepsInvariant | internal/daemon/runhold.go:178-197 | every interleaving of those steps keeps single ownership |
| Ownership.StaleFinishSafeIff | internal/daemon/daemon.go:504-567 | finishing a hold picked before the lock is safe exactly when the map now holds the same assertions under its id |
| HelperLink.NoLostUpdate | internal/daemon/helperlink.go:70-122 | in every interleaving, with the channel empty, the pump waiting and nobody between store and nudge, the last snapshot is what is wanted now and no full refresh is left untaken |
| HelperLink.DeliveryIsBounded | internal/daemon/helperlink.go:91-113 | once callers stop, every interleaving is bounded and can only stop delivered |
| HelperLink.StepKeepsInvariant | internal/daemon/helperlink.go:70-122 | anything not yet taken has a token, a nudge or the pump on its way, after every step |
| HelperLink.HelperConn.Push | internal/daemon/helperlink.go:70-75 | stores the wanted block and nudges, in the steps of the model |
| HelperLink.HelperConn.Repush | internal/daemon/helperlink.go:84-89 | asks for a full refresh and nudges, in the steps of the model |
| HelperLink.HelperConn.Reconcile | internal/daemon/helperlink.go:116-170 | pushes the snapshot, then a pending cancel before any re-assertion |
| HelperLink.HelperConn.ScheduleWake | internal/daemon/helperlink.go:255-269 | a wake is remembered only if the helper took it |
| HelperLink.HelperConn.CancelWake | internal/daemon/helperlink.go:285-297 | a cancel the helper never heard stays pending, so no stray wake is left unnoticed |
| HelperService.Service.ScheduleWake | internal/helper/service.go:242-302 | on success the OS holds the wake; if no call failed it is our only entry, exactly once; other owners' entries never change |
| HelperService.Service.CancelOthers | internal/helper/service.go:250-266 | the loop that cancels all but the wanted entry, and counts it |
| HelperService.Service.CollapseDuplicates | internal/helper/service.go:268-286 | duplicates collapse to one though a cancel may remove one or all |
| HelperService.Service.CancelWake | internal/helper/service.go:311-334 | with no failed call none of our entries is left |
| HelperService.Service.VerifyWake | internal/helper/service.go:338-354 | whether a wake of ours is registered within a second |
| HelperService.Service.Recover | internal/helper/service.go:115-132 | clears a block left over from an earlier process |
| HelperService.Service.SetSleepBlocked | internal/helper/service.go:210-222 | the record follows the kernel, and a request counts as contact |
| HelperService.Service.CheckDeadMan | internal/helper/service.go:387-402 | clears the block of a daemon that has gone |
| HelperService.Service.Shutdown | internal/helper/service.go:409-426 | clears the block and leaves the wake |
| HelperService.KernelMatchesRecord | internal/helper/service.go:210-222 | in every run, the kernel matches the record while the helper runs |
| HelperService.NoStrandedBlock | internal/helper/service.go:374-426 | once the daemon is silent and its connections are closed the kernel is free after the first restart, clean stop or check sixty seconds past contact, and stays free |
| HelperService.BlockIsKept | internal/helper/service.go:387-402 | while the helper hears of the daemon less than sixty seconds before each check, the kernel is always as the daemon last asked |
| Wakes.NextWakeTarget | internal/daemon/wake.go:150-200 | the earliest wake any enabled job can be booked for, for that job's next fire by its announcement or its schedule past the skipped ones; none exactly when no job can |
| Wakes.PlannedFire | internal/daemon/wake.go:179-188 | the scheduler's announced fire or the schedule's, walked past skipped ones |
| Wakes.WakeFireIff | internal/daemon/wake.go:170-188 | what the walk finds is, counting from the announcement still to come or else the schedule's next fire, the first fire not skipped, or the tenth after if all before it are, and nothing else is |
| Wakes.WakeFireIs | internal/daemon/wake.go:170-188 | so with an unskipped fire to come the wake is for the announcement, if that is to come and not skipped, and otherwise for a fire of the schedule with all before it skipped |
| Wakes.WalkFindsUnskipped | internal/daemon/wake.go:182-188 | with an unskipped fire to come the walk ends at the first such, exactly when one it can reach is not skipped |
| Wakes.SkippedWakeIsBooked | internal/daemon/wake.go:182-188 | a repeating job skipped past its next eleven fires: a wake is booked for the eleventh |
| Wakes.AgreeIff | internal/daemon/daemon.go:400-412 | every tick between a wake and its fire finds that fire in the schedule exactly when no other lies within the two buffers before it |
| Wakes.BookedIsConsideredIff | internal/daemon/daemon.go:400-412 | every tick between a booked wake and its fire considers that fire exactly when it is the announced one, or no announcement is left at the wake and no other fire lies within the two buffers |
| Wakes.WakeFindsEarlierFire | internal/daemon/daemon.go:400-412 | an hourly job with buffers of fifty and twenty minutes: the tick at the wake considers the fire an hour before the one the wake is for |
| Wakes.WakeOpensItsWindow | internal/daemon/daemon.go:384-446 | then such a tick opens the window for exactly the fire of the target nextWakeTarget chose |
| Schedules.AnchoredIsNext | internal/schedule/schedule.go:399-419 | a repeating gap answers the least fire strictly after any instant, whoever asks |
| SleepAccounting.SleepsAreDisjoint | internal/daemon/wake.go:284-331 | an inferred sleep lies between two ticks and lasts at least a minute, so two never overlap |
| SleepAccounting.SleptIff | internal/daemon/wake.go:284-321 | a sleep is inferred exactly when the jump less the busy time is a minute and four ticks or more, ends now and is that long |
| SleepAccounting.SleepClock.SleepGap | internal/daemon/wake.go:284-321 | the gap since the last tick less the busy time, which is claimed once |
| SleepAccounting.SleepClock.Tick | internal/daemon/wake.go:323-340 | the sleeps logged over any sequence of ticks stay in order and disjoint |
| SleepAccounting.RecordedIff | internal/daemon/wake.go:371-423 | where the schedule fires after the job's creation and still at or after the wake, a fire gets a slept-through run exactly when it lies in the interval after the creation, is neither served nor skipped, has none in its minute, and is the first of its minute |
| SleepAccounting.RecordingIsIdempotent | internal/daemon/wake.go:392-402 | going over the same interval, or a part of it, again records nothing |
| SleepAccounting.WalkIsExact | internal/daemon/wake.go:391-421 | the walk over the fires appends in time order and covers every fire owed |
| SleepAccounting.WalkEndsIff | internal/schedule/schedule.go:146-163 | why the parser refuses a schedule with no fire to come: the walk from the first fire after any instant reaches the wake exactly when some fire is at or after it |
| SleepAccounting.ParsedLasts | internal/schedule/schedule.go:146-163 | over a schedule that parses once the sleep has ended, some fire is at or after the wake, so the walk ends |
| SleepAccounting.JobRecordedIff | internal/daemon/wake.go:371-423 | one job's turn records nothing unless it is enabled and its schedule parses, and then exactly the fires so described; a creation dated after the parse needs a fire after it |
| SleepAccounting.History.RecordJob | internal/daemon/wake.go:371-421 | for every job the loop ends and does that walk, or nothing if the job is disabled or its schedule does not parse |
| SleepAccounting.History.RecordSleptThrough | internal/daemon/wake.go:371-423 | each job gets its own turn, and no other history changes |
| SleepAccounting.History.Seen | internal/store/history.go:69-83 | whether a run is recorded in the fire's minute |
| Cutouts.EvaluateCutout | internal/daemon/cutout.go:29-72 | fires exactly when something is held with the lid closed and the machine is hot or flat, and names a hazard that holds |
| Cutouts.CutoutLatch.Update | internal/daemon/cutout.go:190-218 | clears exactly when the lid is open or the latched hazard recovered by its margin |
| Cutouts.CutoutLatch.Engage | internal/daemon/cutout.go:176-186 | what fired is latched, with its time and the number of holds released |
| Cutouts.MarginSeparates | internal/config/config.go:292-311 | recovery by a normalized margin excludes the hazard |
| Cutouts.WakeRefusedIffUnsafe | internal/daemon/cutout.go:110-158 | a wake is refused exactly when the run could take the battery to where the cutout releases it |
| Estimator.P95IsKthSmallest | internal/estimate/estimate.go:198-212 | the percentile is the ceil(19n/20)-th smallest duration |
| Estimator.KthSmallestUnique | internal/estimate/estimate.go:198-212 | being the k-th smallest pins the value down, so the percentile is a function of the durations as a multiset |
| Estimator.StatisticsPermute | internal/estimate/estimate.go:198-225 | neither statistic depends on the order |
| Estimator.TypicalAtMostP95 | internal/estimate/estimate.go:41-135 | the typical duration never exceeds the percentile |
| Estimator.CeilingInRangeIff | internal/estimate/estimate.go:227-235 | the ceiling is within bounds exactly when learned or the configured value happens to be |
| Estimator.LearnedCeilingIs | internal/estimate/estimate.go:131-132 | a learned ceiling is the percentile times the multiplier to the nanosecond, or the nearer bound, and no less than the percentile or the maximum |
| Estimator.EstimateIs | internal/estimate/estimate.go:41-135 | which durations the estimate is of, the most recent up to the window, and which value is used when there are too few or a maximum is set |
| Estimator.OneRunTrains | internal/estimate/estimate.go:182-193 | one run, wherever it lies, adds its duration exactly if seen to its end and not empty, and for an unwatchable job recorded under the same detection |
| Estimator.ColdStartMayExceedMaximum | internal/estimate/estimate.go:41-135 | a configuration in which a cold-start ceiling exceeds the maximum |
| Estimator.NeverLearns | internal/config/config.go:284-289 | a window shorter than the runs required never learns |
| Estimator.OtherRunsAreIgnored | internal/estimate/estimate.go:182-193 | a run that does not train changes nothing, wherever in the history it lies |
| Estimator.OldHistoryIsForgotten | internal/estimate/estimate.go:41-135 | once recent runs fill the window, older history has no say in the ceiling |
| Estimator.Compute | internal/estimate/estimate.go:41-135 | the filtering, windowing and sorting return exactly the estimate the properties below and above are about |
| Estimator.Percentile95 | internal/estimate/estimate.go:198-212 | sorting a copy in place and indexing it gives the percentile, or zero of nothing |
| Estimator.Median | internal/estimate/estimate.go:214-225 | sorting a copy in place gives the middle element, or the mean of the middle two |
| Estimator.CompletedDurations | internal/estimate/estimate.go:182-193 | the loop keeps the durations of the runs that train, oldest first |
| Configs.Settings.Normalize | internal/config/config.go:235-316 | every field ends in range, a configuration in range is left alone, and a safety threshold changes only when out of range and is then reported |
| Configs.Settings.NormalizeDurations | internal/config/config.go:235-274 | every duration ends in its range, zero meaning absent except for the import interval, and those in range are left alone |
| Configs.Settings.NormalizeEstimator | internal/config/config.go:280-289 | the estimator's settings end in range, but for a window of two with three runs required; those in range are left alone |
| Configs.Settings.NormalizeCutouts | internal/config/config.go:290-316 | thresholds and margins end in range, margins positive, and a changed threshold is reported |
| Configs.ClampDurIsNearest | internal/config/config.go:239-251 | a value that is present moves as little as its range allows |
| Durations.RoundTripIff | internal/model/duration.go:88-196 | parsing inverts printing exactly on whole numbers of the smallest unit printed |
| Durations.RoundTripLoss | internal/model/duration.go:147-196 | a round trip loses less than one unit shown, towards zero, or at most half a tenth of a second below a minute |
| Durations.ParseHuman | internal/model/duration.go:88-196 | parsing what was printed gives the value shown, for all but the most negative duration |
| Durations.ParseHumanMin | internal/model/duration.go:147-155 | the most negative one prints as text that does not parse |
| Durations.ParseDuration | internal/model/duration.go:88-141 | the loop computes the signed sum of the terms |
| Durations.TermIsWorth | internal/model/duration.go:104-134 | a term of any of the eight units, with any decimals, adds its number times the unit, truncated to a nanosecond, to what follows |
| Journal.IntervalsAreSleep | internal/power/sleeplog_linux.go:261-288 | a time is inside an interval exactly when the last edge by then is a suspend and some resume is later |
| Journal.IntervalsSeparated | internal/power/sleeplog_linux.go:261-288 | the intervals are in order, not empty and disjoint |
| Journal.RepeatedEdge | internal/power/sleeplog_linux.go:244-260 | an edge directly after another of its kind changes nothing |
| Journal.StableSortSorts | internal/power/sleeplog_linux.go:261-268 | the sort is the stable one |
| Journal.BuildSleepIntervals | internal/power/sleeplog_linux.go:261-288 | the loop over the sorted copy, with its one open suspend, outputs exactly that pairing |
| Slugs.SlugWellFormed | internal/model/job.go:271-290 | a slug has only slug runes, no doubled dash, and alphanumeric ends |
| Slugs.SlugFixedIff | internal/model/job.go:271-290 | a name is its own slug exactly when it has that shape |
| Slugs.SlugIdempotent | internal/model/job.go:271-290 | slugging a slug changes nothing |
| Slugs.SlugKeepsLetters | internal/model/job.go:271-290 | slugging loses and reorders no letter or digit of the lower-cased name |
| Slugs.Slug | internal/model/job.go:271-290 | the loop over the builder, with its memory of the last dash, writes the slug |
| Ids.SlugsAreNotReserved | internal/model/job.go:136-141 | no name a user can type yields a reserved id |
| Ids.RenderInjective | internal/model/job.go:244-268 | job slugs, the keep-awake id, keyed ids and counted ids are pairwise disjoint, and keyed and counted ids injective |
| Ids.RenderKinds | internal/daemon/hold.go:125-127 | the prefix tests on ids decide exactly the kind of hold |
| Crontab.RewriteReparses | internal/scan/crontab.go:250-272 | rewriting a found entry and scanning again gives the same entries with only that command and its name changed |
| Crontab.RewriteTouchesOneLine | internal/scan/crontab.go:250-272 | a rewrite that succeeds changes one line, and every other line stays byte-identical |
| Crontab.RewrittenIff | internal/scan/crontab.go:250-272 | a rewrite succeeds exactly when the line is there, splits, and still has the wanted command |
| Crontab.EntriesSay | internal/scan/crontab.go:29-64 | an entry has its line's schedule and command, its command's name, and the flags its schedule calls for |
| Crontab.SplitRebuiltIff | internal/scan/crontab.go:67-127 | a schedule put before a replacement splits again the same way, unless five fields are followed by what could be a sixth |
| Crontab.RewrittenLineParses | internal/scan/crontab.go:29-64 | a rewritten line parses to its old schedule and new command |
| Crontab.WrappedLineKeepsItsName | internal/scan/crontab.go:137-176 | a wrapped line is scanned under the slug written into it, whatever the command, if the path needs no quotes |
| Crontab.RewritesNoJobIff | internal/scan/crontab.go:250-272 | what a rewrite accepts is no job of the scan's exactly when the line is a comment or an assignment |
| Crontab.CommentedOutIsRewritten | internal/scan/crontab.go:240-272 | any five-field job commented out since the scan is rewritten under the command it had |
| Crontab.AssignmentIsRewritten | internal/scan/crontab.go:240-272 | an environment assignment that is rewritten |
| Crontab.SpacedPathIsSeenIff | internal/scan/crontab.go:137-176 | where the wrapper path has a space, the scan sees the line as wrapped exactly when what lies before the space is a path ending in the wrapper's name, without redirection, and a separator follows in what it reads, but not at once; the name is then the word after the space |
| Crontab.WrapIsSeenIff | internal/cli/import.go:538-558 | where the wrapper path holds no space, the scan sees the line as wrapped exactly when the path needs no quotes |
| Crontab.SplitCrontabLine | internal/scan/crontab.go:67-110 | the loop over words finds where the schedule ends and the command starts, keeping the command's own spacing |
| Crontab.ParseCrontab | internal/scan/crontab.go:29-64 | the loop over lines finds exactly the entries of the lines that parse, with their line numbers |
| Crontab.ReplaceCrontabCommand | internal/scan/crontab.go:250-272 | the rewrite, refused unless the line still holds the wanted command |
| Sync.AdoptionIsExact | internal/daemon/sync.go:113-199 | known jobs stay as they are, and an unknown id goes to the first candidate that can have it |
| Sync.FirstIsAdopted | internal/daemon/sync.go:113-199 | an unknown id becomes a job of the first candidate of its name from a watched source that validates, enabled and managed |
| Sync.OnlyCandidatesAreAdopted | internal/daemon/sync.go:113-199 | and nothing else becomes a job |
| Sync.AdoptNew | internal/daemon/sync.go:113-199 | the loop over candidates is a run of requests that leaves exactly the job set so described, and counts the additions |
| Sync.UpdateChanged | internal/daemon/sync.go:281-353 | a run of requests after which each job stays, has followed its changed entry, or is gone for firing too often, and exactly the windows of those gone are closed |
| Sync.RetireVanished | internal/daemon/sync.go:361-407 | a run of requests that removes exactly the adopted jobs of cleanly read sources of whose name no source has an entry, with their windows and no other |
| Sync.SyncProviders | internal/daemon/sync.go:33-58 | a run of requests that leaves exactly the jobs adopted or already there that no change retires and that have not vanished, in step with their entries, and closes exactly the others' windows |
| Sync.ChangeIs | internal/daemon/sync.go:281-353 | a changed entry retires its job exactly if goguma adopted it from a watched source and the new schedule repeats within the floor; otherwise schedule and command follow, or, if it does not parse, nothing does |
| Sync.GoneIsRetiredIff | internal/daemon/sync.go:362-385 | an adopted job gone from its own cleanly read source is retired exactly when no source has an entry of its name, and otherwise stays as it was |
| Sync.UnreadIsKept | internal/daemon/sync.go:362-385 | a job missing from a source that could not be read stays as it was |
| Sync.LeftInStep | internal/daemon/sync.go:281-353 | an adopted job that is left has the schedule and command of its source's last entry, if that parses |

## Left out

- Platform calls (`pmset`, `systemd-inhibit`, IOKit, `ps`): nondeterministic
  operations that may fail; sockets, JSON, webhooks, advisories, logging, the
  CLI, the app and the site: plumbing.
- Cron expressions and daylight saving: a schedule is known by its fires only.
- Floating point: temperatures, the multiplier and the percentile rank are exact.
- 64-bit overflow of parsed duration sums, and of instants.
- `sort.Slice` and `sort.SliceStable`: modelled by what they promise.
- Reason and detail strings, pids and exit codes in runs, battery levels, and the
  job statistics shown to the user.
- The history file's trimming to its last lines and failures to append.
- Agent sightings (`agentsSeen`): shown to the user, never held for.
- `markEnded` and `extended`: the first is set only on a hold being closed, the
  second only decides a log line.
- Registering the wake with the OS (`scheduleNextWake`), and a wake registered
  by a job change while paused: the registered wake enters as a value.
- Shutdown: the same release of every hold as `SleepNow`.
- A request landing between the helper's `ScheduleWake` and the pump's own
  re-assertion: the two are atomic here.
- DaemonTheorems.LatchAndPauseHold: mark.start is not refused under a latch or a pause, as in the code.
- DaemonTheorems.NothingOutlivesItsBound: speaks of the start last reported, because a repeated mark.start moves it.
- DaemonModel.RenewRun: an id that is not a run hold's is assumed not to be renewed.
