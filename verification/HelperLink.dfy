// internal/daemon/helperlink.go: the daemon's side of the helper. Any thread
// records what it wants and nudges; one pump goroutine delivers it.
module HelperLink {
  import opened Prelude

  /** The desired sleep-block state. */
  datatype Want = Want(blocked: bool, reason: string)

  // ----- the protocol, step by step -----

  /** Where the pump goroutine is: blocked on the channel, between taking its
      token and the locked snapshot, or calling the helper. */
  datatype Pump = Waiting | Taken | Calling(snap: Want)

  datatype Link = Link(
    want: Want,           // wantBlocked and blockReason
    wantFull: bool,       // a full refresh was asked for
    dirty: bool,          // the one-slot channel holds a token
    nudging: set<nat>,    // callers between their store and their nudge
    pump: Pump,
    last: Want,           // the snapshot of the last reconcile
    lastOk: bool,         // whether its call to the helper succeeded
    helper: Want)         // what the helper was last told

  datatype Action =
    | StorePush(caller: nat, want: Want)
    | StoreRepush(caller: nat)
    | Nudge(caller: nat)
    | Take
    | Snapshot
    | Called(ok: bool)

  predicate Enabled(s: Link, a: Action) {
    match a
    case StorePush(c, _) => c !in s.nudging
    case StoreRepush(c) => c !in s.nudging
    case Nudge(c) => c in s.nudging
    case Take => s.pump.Waiting? && s.dirty
    case Snapshot => s.pump.Taken?
    case Called(_) => s.pump.Calling?
  }

  function Step(s: Link, a: Action): Link
    requires Enabled(s, a)
  {
    match a
    case StorePush(c, w) => s.(want := w, nudging := s.nudging + {c})
    case StoreRepush(c) => s.(wantFull := true, nudging := s.nudging + {c})
    case Nudge(c) => s.(dirty := true, nudging := s.nudging - {c})
    case Take => s.(dirty := false, pump := Taken)
    case Snapshot => s.(wantFull := false, last := s.want, pump := Calling(s.want))
    case Called(ok) =>
      s.(pump := Waiting, lastOk := ok, helper := if ok then s.pump.snap else s.helper)
  }

  ghost predicate IsRun(s: Link, run: seq<Action>)
    decreases |run|
  {
    run == [] || (Enabled(s, run[0]) && IsRun(Step(s, run[0]), run[1..]))
  }

  function After(s: Link, run: seq<Action>): Link
    requires IsRun(s, run)
    decreases |run|
  {
    if run == [] then s else After(Step(s, run[0]), run[1..])
  }

  const START: Link := Link(Want(false, ""), false, false, {}, Waiting, Want(false, ""), true, Want(false, ""))

  /** Anything not yet snapshotted has a token, a nudge or the pump on its way. */
  ghost predicate Invariant(s: Link) {
    && ((s.want == s.last && !s.wantFull) || s.dirty || s.nudging != {} || s.pump.Taken?)
    && (s.pump.Calling? ==> s.pump.snap == s.last)
    && (!s.pump.Calling? && s.lastOk ==> s.helper == s.last)
  }

  predicate Quiescent(s: Link) {
    s.pump.Waiting? && !s.dirty && s.nudging == {}
  }


  lemma StepKeepsInvariant(s: Link, a: Action)
    requires Invariant(s) && Enabled(s, a)
    ensures Invariant(Step(s, a))
  {
  }

  lemma {:induction false} RunKeepsInvariant(s: Link, run: seq<Action>)
    requires Invariant(s) && IsRun(s, run)
    ensures Invariant(After(s, run))
    decreases |run|
  {
    if run != [] {
      StepKeepsInvariant(s, run[0]);
      RunKeepsInvariant(Step(s, run[0]), run[1..]);
    }
  }

  /** No lost update: in every interleaving, once the channel is empty, the
      pump waits and no caller is between its store and its nudge, the last
      snapshot is what is wanted now, no full refresh is left untaken, and if
      the last call got through, the helper has been told exactly that. */
  lemma NoLostUpdate(run: seq<Action>)
    requires IsRun(START, run) && Quiescent(After(START, run))
    ensures After(START, run).last == After(START, run).want
    ensures !After(START, run).wantFull
    ensures After(START, run).lastOk ==> After(START, run).helper == After(START, run).want
  {
    RunKeepsInvariant(START, run);
  }

  // ----- delivery -----

  predicate Internal(a: Action) {
    !a.StorePush? && !a.StoreRepush?
  }

  /** Bounds the steps left before the link is quiescent. */
  function Work(s: Link): nat {
    4 * |s.nudging| + (if s.dirty then 3 else 0)
    + match s.pump case Waiting => 0 case Taken => 2 case Calling(_) => 1
  }

  lemma InternalStepWorks(s: Link, a: Action)
    requires Internal(a) && Enabled(s, a)
    ensures Work(Step(s, a)) < Work(s)
    ensures Step(s, a).want == s.want
  {
    if a.Nudge? {
      assert s.nudging == (s.nudging - {a.caller}) + {a.caller};
    }
  }

  /** Once callers stop storing, every interleaving of nudges and pump steps is
      bounded, keeps the wanted state, and where it can go no further has
      delivered it. */
  lemma {:induction false} DeliveryIsBounded(s: Link, run: seq<Action>)
    requires Invariant(s) && IsRun(s, run)
    requires forall i :: 0 <= i < |run| ==> Internal(run[i])
    ensures |run| + Work(After(s, run)) <= Work(s)
    ensures After(s, run).want == s.want
    ensures (forall a :: Internal(a) ==> !Enabled(After(s, run), a)) ==>
      Quiescent(After(s, run)) && After(s, run).last == s.want
    decreases |run|
  {
    if run == [] {
      StuckIsQuiescent(s);
    } else {
      InternalStepWorks(s, run[0]);
      StepKeepsInvariant(s, run[0]);
      DeliveryIsBounded(Step(s, run[0]), run[1..]);
    }
  }

  lemma StuckIsQuiescent(s: Link)
    requires Invariant(s)
    ensures (forall a :: Internal(a) ==> !Enabled(s, a)) ==> Quiescent(s) && s.last == s.want
  {
    if forall a :: Internal(a) ==> !Enabled(s, a) {
      assert !Enabled(s, Take) && !Enabled(s, Snapshot) && !Enabled(s, Called(true));
      if s.nudging != {} {
        var c :| c in s.nudging;
        assert Enabled(s, Nudge(c));
      }
    }
  }

  // ----- the object -----

  /** A call to the helper about its wake. */
  datatype Ask = WakeAt(at: Time, kind: bool) | CancelIt

  /** The link's fields. The steps of Push, Repush and reconcile that take the
      mutex are methods of their own, each one action of the protocol. */
  class HelperConn {
    var wantBlocked: bool
    var blockReason: string
    var wantFull: bool
    var dirty: bool
    var scheduledAt: Option<Time>
    var scheduledKind: bool
    var cancelPending: bool

    ghost var nudging: set<nat>
    ghost var pump: Pump
    ghost var last: Want
    ghost var lastOk: bool
    ghost var helper: Want
    ghost var helperHolds: bool          // the helper holds a wake of ours
    ghost var told: seq<Want>            // every block pushed to the helper
    ghost var asked: seq<Ask>            // every wake it was asked for, or to cancel

    ghost function State(): Link
      reads this
    {
      Link(Want(wantBlocked, blockReason), wantFull, dirty, nudging, pump, last, lastOk, helper)
    }

    /** A wake the helper holds is either the one we want or one whose cancel
        is still pending: no cancel is lost. */
    ghost predicate NoStrayWake()
      reads this
    {
      && (helperHolds ==> scheduledAt.Some? || cancelPending)
      && (cancelPending ==> scheduledAt.None?)
    }

    constructor ()
      ensures State() == START && NoStrayWake()
    {
      wantBlocked, blockReason, wantFull, dirty := false, "", false, false;
      scheduledAt, scheduledKind, cancelPending := None, false, false;
      nudging, pump, last, lastOk, helper := {}, Waiting, Want(false, ""), true, Want(false, "");
      helperHolds, told, asked := false, [], [];
    }

    method StoreWant(ghost caller: nat, blocked: bool, reason: string)
      requires caller !in nudging
      modifies this`wantBlocked, this`blockReason, this`nudging
      ensures State() == Step(old(State()), StorePush(caller, Want(blocked, reason)))
    {
      wantBlocked, blockReason := blocked, reason;
      nudging := nudging + {caller};
    }

    method StoreFull(ghost caller: nat)
      requires caller !in nudging
      modifies this`wantFull, this`nudging
      ensures State() == Step(old(State()), StoreRepush(caller))
    {
      wantFull := true;
      nudging := nudging + {caller};
    }

    /** A send that never blocks: a full channel already wakes the pump. */
    method SendNudge(ghost caller: nat)
      requires caller in nudging
      modifies this`dirty, this`nudging
      ensures State() == Step(old(State()), Nudge(caller))
    {
      if !dirty { dirty := true; }
      nudging := nudging - {caller};
    }

    method Push(ghost caller: nat, blocked: bool, reason: string)
      requires caller !in nudging
      modifies this`wantBlocked, this`blockReason, this`dirty, this`nudging
      ensures State() == old(State()).(want := Want(blocked, reason), dirty := true)
    {
      StoreWant(caller, blocked, reason);
      SendNudge(caller);
    }

    method Repush(ghost caller: nat)
      requires caller !in nudging
      modifies this`wantFull, this`dirty, this`nudging
      ensures State() == old(State()).(wantFull := true, dirty := true)
    {
      StoreFull(caller);
      SendNudge(caller);
    }

    method TakeToken()
      requires pump.Waiting? && dirty
      modifies this`dirty, this`pump
      ensures State() == Step(old(State()), Take)
    {
      dirty, pump := false, Taken;
    }

    /** The locked snapshot at the head of reconcile. */
    method TakeSnapshot() returns (full: bool)
      requires pump.Taken?
      modifies this`wantFull, this`last, this`pump
      ensures State() == Step(old(State()), Snapshot)
      ensures full == old(wantFull)
    {
      full := wantFull;
      wantFull := false;
      last := Want(wantBlocked, blockReason);
      pump := Calling(last);
    }

    /** The call that pushes the snapshot to the helper. */
    method CallHelper() returns (ok: bool)
      requires pump.Calling?
      modifies this`pump, this`lastOk, this`helper, this`told
      ensures State() == Step(old(State()), Called(ok))
      ensures told == old(told) + [old(pump).snap]
    {
      told := told + [pump.snap];
      ok := *;
      if ok { helper := pump.snap; }
      lastOk, pump := ok, Waiting;
    }

    /** reconcile: snapshot, call, then settle the wake. A failed sleep-block
        call ends the turn; a pending cancel goes before any re-assertion; and
        a re-assertion carries the kind the wake was registered with. */
    method Reconcile(now: Time)
      requires pump.Taken? && NoStrayWake()
      modifies this`wantFull, this`last, this`pump, this`lastOk, this`helper, this`helperHolds, this`cancelPending,
        this`told, this`asked
      ensures NoStrayWake()
      ensures State() == Step(Step(old(State()), Snapshot), Called(lastOk))
      ensures cancelPending ==> old(cancelPending)
      ensures !lastOk ==> cancelPending == old(cancelPending)
      ensures told == old(told) + [Want(wantBlocked, blockReason)]
      ensures asked == old(asked) +
        if !lastOk then []
        else if old(cancelPending) then [CancelIt]
        else if old(wantFull) && scheduledAt.Some? && scheduledAt.value > now
        then [WakeAt(scheduledAt.value, scheduledKind)] else []
    {
      var full := TakeSnapshot();
      var at, kind, cancel := scheduledAt, scheduledKind, cancelPending;
      var ok := CallHelper();
      if !ok { return; }
      SettleWake(full, at, kind, cancel, now);
    }

    /** The second half of reconcile, about the wake. */
    method SettleWake(full: bool, at: Option<Time>, kind: bool, cancel: bool, now: Time)
      requires NoStrayWake() && at == scheduledAt && kind == scheduledKind && cancel == cancelPending
      modifies this`helperHolds, this`cancelPending, this`asked
      ensures NoStrayWake()
      ensures cancelPending ==> cancel
      ensures asked == old(asked) +
        if cancel then [CancelIt]
        else if full && at.Some? && at.value > now then [WakeAt(at.value, kind)] else []
    {
      if cancel {
        asked := asked + [CancelIt];
        var cancelled: bool := *;
        if cancelled { helperHolds, cancelPending := false, false; }
        return;
      }
      if full && at.Some? && at.value > now {
        var scheduled: bool := *;
        if scheduled { helperHolds := true; }
        asked := asked + [WakeAt(at.value, kind)];
      }
    }

    method ScheduleWake(at: Time, useWakeOrPowerOn: bool) returns (ok: bool)
      requires NoStrayWake()
      modifies this`scheduledAt, this`scheduledKind, this`cancelPending, this`helperHolds, this`asked
      ensures NoStrayWake() && asked == old(asked) + [WakeAt(at, useWakeOrPowerOn)]
      ensures ok ==> scheduledAt == Some(at) && scheduledKind == useWakeOrPowerOn && !cancelPending
      ensures !ok ==> scheduledAt == old(scheduledAt) && cancelPending == old(cancelPending)
      ensures !ok ==> scheduledKind == old(scheduledKind)
    {
      asked := asked + [WakeAt(at, useWakeOrPowerOn)];
      ok := *;
      if !ok { return; }
      helperHolds := true;
      scheduledAt, scheduledKind := Some(at), useWakeOrPowerOn;
      cancelPending := false;
    }

    /** The intent is remembered before the call, so a cancel the helper never
        heard stays pending. */
    method CancelWake() returns (ok: bool)
      requires NoStrayWake()
      modifies this`scheduledAt, this`cancelPending, this`helperHolds, this`asked
      ensures NoStrayWake() && scheduledAt == None && asked == old(asked) + [CancelIt]
      ensures cancelPending <==> !ok
    {
      scheduledAt := None;
      cancelPending := true;
      asked := asked + [CancelIt];
      ok := *;
      if ok {
        helperHolds := false;
        cancelPending := false;
      }
    }
  }
}
