// internal/helper/service.go: the privileged helper. It reconciles the OS wake
// schedule against unreliable calls, and keeps the kernel's sleep block from
// outliving the daemon.
module HelperService {
  import opened Prelude

  datatype WakeEntry = WakeEntry(at: Time, powerOn: bool, owner: string)

  const WAKE_OWNER_TAG := "goguma"
  const LEGACY_WAKE_OWNER_TAG := "wakeguard"

  /** Registered by this program, under its present or its previous name. */
  predicate Own(e: WakeEntry) {
    e.owner == WAKE_OWNER_TAG || e.owner == LEGACY_WAKE_OWNER_TAG
  }

  const DEAD_MAN_TIMEOUT: Dur := 60 * SECOND

  /** The operating system as the helper sees it. Every call may fail, and a
      failed call has no effect; a cancel may remove one or all of the entries
      that match exactly. */
  class Platform {
    var blocked: bool
    var wakes: multiset<WakeEntry>
    ghost var failures: nat

    method SetBlocked(v: bool) returns (ok: bool)
      modifies this`blocked, this`failures
      ensures ok ==> blocked == v && failures == old(failures)
      ensures !ok ==> blocked == old(blocked) && failures == old(failures) + 1
    {
      ok := *;
      if ok { blocked := v; } else { failures := failures + 1; }
    }

    method ReadBlocked() returns (ok: bool, v: bool)
      modifies this`failures
      ensures ok ==> v == blocked && failures == old(failures)
      ensures !ok ==> failures == old(failures) + 1
    {
      ok, v := *, blocked;
      if !ok { failures := failures + 1; }
    }

    method ScheduleAt(at: Time, powerOn: bool) returns (ok: bool)
      modifies this`wakes, this`failures
      ensures ok ==> wakes == old(wakes) + multiset{WakeEntry(at, powerOn, WAKE_OWNER_TAG)}
      ensures ok ==> failures == old(failures)
      ensures !ok ==> wakes == old(wakes) && failures == old(failures) + 1
    {
      ok := *;
      if ok {
        wakes := wakes + multiset{WakeEntry(at, powerOn, WAKE_OWNER_TAG)};
      } else {
        failures := failures + 1;
      }
    }

    method CancelAt(e: WakeEntry) returns (ok: bool)
      modifies this`wakes, this`failures
      ensures ok ==> wakes == old(wakes) - multiset{e} || wakes == old(wakes)[e := 0]
      ensures ok ==> failures == old(failures)
      ensures !ok ==> wakes == old(wakes) && failures == old(failures) + 1
    {
      ok := *;
      if ok {
        var all: bool := *;
        if all { wakes := wakes[e := 0]; } else { wakes := wakes - multiset{e}; }
      } else {
        failures := failures + 1;
      }
    }

    /** Lists the entries registered by this program, in some order. */
    method ListWakes() returns (ok: bool, list: seq<WakeEntry>)
      modifies this`failures
      ensures ok ==> (forall e :: multiset(list)[e] == if Own(e) then wakes[e] else 0)
      ensures ok ==> failures == old(failures)
      ensures !ok ==> list == [] && failures == old(failures) + 1
    {
      ok, list := *, [];
      if !ok {
        failures := failures + 1;
        return;
      }
      var rest := wakes;
      while rest != multiset{}
        invariant forall e :: multiset(list)[e] + (if Own(e) then rest[e] else 0) == if Own(e) then wakes[e] else 0
        decreases |rest|
      {
        var e :| e in rest;
        if Own(e) { list := list + [e]; }
        rest := rest - multiset{e};
      }
    }
  }

  class Service {
    const os: Platform
    var blocked: bool
    var scheduledAt: Option<Time>
    var useWakeOrPwr: bool
    var lastContact: Time
    var connections: nat

    constructor (os: Platform, now: Time)
      ensures this.os == os && State() == Helper(true, os.blocked, false, now, 0)
      ensures scheduledAt == None
    {
      this.os := os;
      blocked, scheduledAt, useWakeOrPwr, lastContact, connections := false, None, false, now, 0;
    }

    /** The block-related state, with the kernel's half of it. */
    function State(): Helper
      reads this, os
    {
      Helper(true, os.blocked, blocked, lastContact, connections)
    }

    // ----- the wake schedule -----

    /** Registers a wake, replacing any previous one. On success the OS holds
        the wake whatever else failed, and when no call failed it is the only
        entry of ours, exactly once. Other owners' entries are never touched. */
    method ScheduleWake(at: Time, useWakeOrPowerOn: bool) returns (ok: bool)
      modifies this`scheduledAt, this`useWakeOrPwr, os`wakes, os`failures
      ensures forall e: WakeEntry :: e.owner !in {"goguma", "wakeguard"} ==> os.wakes[e] == old(os.wakes)[e]
      ensures ok ==> os.wakes[WakeEntry(at, useWakeOrPowerOn, "goguma")] >= 1
      ensures ok && os.failures == old(os.failures) ==>
        forall e: WakeEntry :: e.owner in {"goguma", "wakeguard"} ==>
          os.wakes[e] == if e == WakeEntry(at, useWakeOrPowerOn, "goguma") then 1 else 0
      ensures forall e :: e != WakeEntry(at, useWakeOrPowerOn, WAKE_OWNER_TAG) ==> os.wakes[e] <= old(os.wakes)[e]
      ensures !ok ==> os.failures > old(os.failures)
      ensures ok ==> scheduledAt == Some(at) && useWakeOrPwr == useWakeOrPowerOn
      ensures !ok ==> scheduledAt == old(scheduledAt) && useWakeOrPwr == old(useWakeOrPwr)
    {
      var want := WakeEntry(at, useWakeOrPowerOn, WAKE_OWNER_TAG);
      var readSchedule, existing := os.ListWakes();
      var matching := CancelOthers(existing, want);
      if matching > 1 {
        CollapseDuplicates(want, matching);
        matching := 0;
      }
      if matching == 0 || !readSchedule {
        var scheduled := os.ScheduleAt(at, useWakeOrPowerOn);
        if !scheduled { return false; }
      }
      scheduledAt, useWakeOrPwr := Some(at), useWakeOrPowerOn;
      return true;
    }

    /** The first loop of ScheduleWake: cancels every listed entry but the one
        wanted, which it counts. */
    method CancelOthers(existing: seq<WakeEntry>, want: WakeEntry) returns (matching: nat)
      requires forall e :: e in existing ==> Own(e)
      modifies os`wakes, os`failures
      ensures matching == multiset(existing)[want]
      ensures os.wakes[want] == old(os.wakes)[want]
      ensures forall e :: os.wakes[e] <= old(os.wakes)[e]
      ensures forall e :: !Own(e) ==> os.wakes[e] == old(os.wakes)[e]
      ensures os.failures >= old(os.failures)
      ensures os.failures == old(os.failures) ==>
        forall e :: e != want && multiset(existing)[e] >= old(os.wakes)[e] ==> os.wakes[e] == 0
    {
      matching := 0;
      for i := 0 to |existing|
        invariant matching == multiset(existing[..i])[want]
        invariant os.wakes[want] == old(os.wakes)[want]
        invariant forall e :: os.wakes[e] <= old(os.wakes)[e]
        invariant forall e :: !Own(e) ==> os.wakes[e] == old(os.wakes)[e]
        invariant os.failures >= old(os.failures)
        invariant os.failures == old(os.failures) ==> forall e :: e != want ==>
          os.wakes[e] == 0 || os.wakes[e] + multiset(existing[..i])[e] <= old(os.wakes)[e]
      {
        var e := existing[i];
        assert existing[..i + 1] == existing[..i] + [e];
        if e == want {
          matching := matching + 1;
        } else {
          var _ := os.CancelAt(e);
        }
      }
      assert existing[..|existing|] == existing;
    }

    /** Cancels as many times as there were duplicates, stopping at a failure:
        one cancel may remove one of them or all. */
    method CollapseDuplicates(want: WakeEntry, matching: nat)
      modifies os`wakes, os`failures
      ensures forall e :: e != want ==> os.wakes[e] == old(os.wakes)[e]
      ensures os.wakes[want] <= old(os.wakes)[want]
      ensures os.failures >= old(os.failures)
      ensures os.failures == old(os.failures) && matching >= old(os.wakes)[want] ==> os.wakes[want] == 0
    {
      for i := 0 to matching
        invariant forall e :: e != want ==> os.wakes[e] == old(os.wakes)[e]
        invariant os.failures == old(os.failures)
        invariant os.wakes[want] == 0 || os.wakes[want] + i <= old(os.wakes)[want]
      {
        var ok := os.CancelAt(want);
        if !ok { break; }
      }
    }

    /** Removes our scheduled wake. With no failed call none of our entries is
        left; other owners' entries are never touched. */
    method CancelWake() returns (ok: bool)
      modifies this`scheduledAt, os`wakes, os`failures
      ensures forall e: WakeEntry :: e.owner !in {"goguma", "wakeguard"} ==> os.wakes[e] == old(os.wakes)[e]
      ensures forall e :: os.wakes[e] <= old(os.wakes)[e]
      ensures os.failures == old(os.failures) ==>
        ok && forall e: WakeEntry :: e.owner in {"goguma", "wakeguard"} ==> os.wakes[e] == 0
      ensures ok && old(scheduledAt) == None ==> os.failures == old(os.failures)
      ensures ok && old(scheduledAt).Some? ==>
        var e := WakeEntry(old(scheduledAt).value, useWakeOrPwr, WAKE_OWNER_TAG);
        os.wakes[e] == 0 || os.wakes[e] < old(os.wakes)[e]
      ensures !ok ==> os.failures > old(os.failures)
      ensures scheduledAt == None
    {
      var at := scheduledAt;
      scheduledAt := None;
      var listed, existing := os.ListWakes();
      if !listed {
        if at.Some? {
          ok := os.CancelAt(WakeEntry(at.value, useWakeOrPwr, WAKE_OWNER_TAG));
          return;
        }
        return false;
      }
      assert forall e :: e in existing ==> e in multiset(existing);
      ok := CancelListed(existing);
    }

    method CancelListed(existing: seq<WakeEntry>) returns (ok: bool)
      requires forall e :: e in existing ==> Own(e)
      modifies os`wakes, os`failures
      ensures forall e :: os.wakes[e] <= old(os.wakes)[e]
      ensures forall e :: !Own(e) ==> os.wakes[e] == old(os.wakes)[e]
      ensures ok <==> os.failures == old(os.failures)
      ensures os.failures >= old(os.failures)
      ensures ok ==> forall e :: multiset(existing)[e] >= old(os.wakes)[e] ==> os.wakes[e] == 0
    {
      for i := 0 to |existing|
        invariant forall e :: os.wakes[e] <= old(os.wakes)[e]
        invariant forall e :: !Own(e) ==> os.wakes[e] == old(os.wakes)[e]
        invariant os.failures == old(os.failures)
        invariant forall e :: os.wakes[e] == 0 || os.wakes[e] + multiset(existing[..i])[e] <= old(os.wakes)[e]
      {
        var e := existing[i];
        assert existing[..i + 1] == existing[..i] + [e];
        assert multiset(existing[..i + 1]) == multiset(existing[..i]) + multiset{e};
        var cancelled := os.CancelAt(e);
        if !cancelled { return false; }
      }
      assert existing[..|existing|] == existing;
      return true;
    }

    /** Whether a wake under our present name is registered within a second. */
    method VerifyWake(t: Time) returns (ok: bool, registered: bool)
      modifies os`failures
      ensures ok <==> os.failures == old(os.failures)
      ensures ok ==> (registered <==> exists e :: e in os.wakes && e.owner == "goguma" && -SECOND < e.at - t < SECOND)
    {
      var listed, entries := os.ListWakes();
      if !listed { return false, false; }
      for i := 0 to |entries|
        invariant forall j :: 0 <= j < i ==> !Near(entries[j], t)
      {
        if Near(entries[i], t) {
          assert entries[i] in multiset(entries);
          assert entries[i] in os.wakes;
          return true, true;
        }
      }
      assert forall e :: e in os.wakes && Own(e) ==> e in multiset(entries);
      assert forall e :: e in os.wakes && Own(e) ==> !Near(e, t);
      return true, false;
    }

    // ----- the sleep block -----

    /** Clears a block left over from a previous run. */
    method Recover()
      modifies this`blocked, os`blocked, os`failures
      ensures os.failures == old(os.failures) ==> !os.blocked
      ensures os.failures == old(os.failures) && !old(blocked) ==> !blocked
      ensures os.failures > old(os.failures) ==> os.blocked == old(os.blocked) && blocked == old(blocked)
    {
      var read, isBlocked := os.ReadBlocked();
      if !read || !isBlocked { return; }
      var cleared := os.SetBlocked(false);
      if !cleared { return; }
      blocked := false;
    }

    /** Any request from the daemon counts as contact. */
    method Touch(now: Time)
      modifies this`lastContact
      ensures State() == Step(old(State()), now, Request(None))
    {
      lastContact := now;
    }

    method SetSleepBlocked(now: Time, v: bool) returns (ok: bool)
      modifies this`lastContact, this`blocked, os`blocked, os`failures
      ensures State() == Step(old(State()), now, Request(if ok then Some(v) else None))
      ensures ok <==> os.failures == old(os.failures)
    {
      Touch(now);
      ok := os.SetBlocked(v);
      if !ok { return; }
      blocked := v;
    }

    method ConnectionOpened(now: Time)
      modifies this`connections, this`lastContact
      ensures State() == Step(old(State()), now, Opened)
    {
      connections := connections + 1;
      lastContact := now;
    }

    method ConnectionClosed(now: Time)
      modifies this`connections
      ensures State() == Step(old(State()), now, Closed)
    {
      if connections > 0 { connections := connections - 1; }
    }

    /** Clears a stranded block if the daemon has gone away. */
    method CheckDeadMan(now: Time)
      modifies this`blocked, os`blocked, os`failures
      ensures os.failures == old(os.failures) ==> State() == Step(old(State()), now, Check)
      ensures os.failures > old(os.failures) ==> State() == old(State())
    {
      if !blocked || connections > 0 || now - lastContact < DEAD_MAN_TIMEOUT { return; }
      var ok := os.SetBlocked(false);
      if ok { blocked := false; }
    }

    /** Clears the block on the way out; a scheduled wake is left in place. */
    method Shutdown(now: Time)
      modifies os`blocked, os`failures
      ensures os.failures == old(os.failures) ==> os.blocked == Step(old(State()), now, Stop).kernel
      ensures os.wakes == old(os.wakes)
    {
      if blocked {
        var _ := os.SetBlocked(false);
      }
    }
  }

  predicate Near(e: WakeEntry, t: Time) {
    e.owner == WAKE_OWNER_TAG && -SECOND < e.at - t < SECOND
  }

  // ----- the sleep block across processes -----

  /** The helper process and the kernel setting it owns. */
  datatype Helper = Helper(
    running: bool,
    kernel: bool,
    blocked: bool,
    lastContact: Time,
    conns: nat)

  /** What can happen to it. A restart builds a new service and recovers; a
      crash leaves the kernel setting behind. */
  datatype Event =
    | Request(asked: Option<bool>)
    | Opened
    | Closed
    | Check
    | Crash
    | Restart
    | Stop

  /** One event, with the platform calls it makes succeeding. */
  function Step(h: Helper, now: Time, e: Event): Helper {
    if e.Restart? then Helper(true, false, false, now, 0)
    else if !h.running then h
    else
      match e
      case Request(None) => h.(lastContact := now)
      case Request(Some(v)) => h.(lastContact := now, blocked := v, kernel := v)
      case Opened => h.(conns := h.conns + 1, lastContact := now)
      case Closed => if h.conns > 0 then h.(conns := h.conns - 1) else h
      case Check =>
        if h.blocked && h.conns == 0 && now - h.lastContact >= DEAD_MAN_TIMEOUT
        then h.(blocked := false, kernel := false) else h
      case Crash => h.(running := false)
      case Stop => h.(running := false, kernel := h.kernel && !h.blocked)
      case Restart => h
  }

  datatype Timed = Timed(at: Time, event: Event)

  /** The state after a run. */
  function After(h: Helper, run: seq<Timed>): Helper {
    if run == [] then h else Step(After(h, run[..|run| - 1]), run[|run| - 1].at, run[|run| - 1].event)
  }

  /** While the helper runs, the kernel matches its record. */
  ghost predicate Matches(h: Helper) {
    h.running ==> h.kernel == h.blocked
  }

  lemma {:induction false} KernelMatchesRecord(h: Helper, run: seq<Timed>)
    requires Matches(h)
    ensures Matches(After(h, run))
  {
    if run != [] {
      KernelMatchesRecord(h, run[..|run| - 1]);
    }
  }

  /** No word from the daemon: no request and no new connection. */
  ghost predicate Silent(run: seq<Timed>) {
    forall i :: 0 <= i < |run| ==> !run[i].event.Request? && !run[i].event.Opened?
  }

  /** Step i frees the kernel: a restart, a clean stop, or a check made by a
      running helper a full timeout after the last contact. */
  ghost predicate Frees(h: Helper, run: seq<Timed>, i: nat)
    requires i < |run|
  {
    || run[i].event.Restart?
    || (run[i].event.Stop? && After(h, run[..i]).running)
    || (run[i].event.Check? && After(h, run[..i]).running && run[i].at - h.lastContact >= 60 * SECOND)
  }

  lemma {:induction false} SilenceKeeps(h: Helper, run: seq<Timed>)
    requires Matches(h) && h.conns == 0 && Silent(run)
    ensures After(h, run).conns == 0
    ensures After(h, run).kernel ==> h.kernel && After(h, run).lastContact == h.lastContact
    ensures After(h, run).kernel && After(h, run).running ==> After(h, run).blocked
  {
    KernelMatchesRecord(h, run);
    if run != [] {
      var n := |run| - 1;
      SilenceKeeps(h, run[..n]);
      KernelMatchesRecord(h, run[..n]);
      assert !run[n].event.Request? && !run[n].event.Opened?;
    }
  }

  /** No stranded block. Once the daemon has gone quiet with its connections
      closed, the kernel is free after the first restart, clean stop, or check
      at least 60 seconds past the last contact, and it stays free. */
  lemma {:induction false} NoStrandedBlock(h: Helper, run: seq<Timed>, i: nat)
    requires Matches(h) && h.conns == 0 && Silent(run)
    requires i < |run| && Frees(h, run, i)
    ensures !After(h, run).kernel
  {
    var n := |run| - 1;
    SilenceKeeps(h, run[..n]);
    KernelMatchesRecord(h, run[..n]);
    assert !run[n].event.Request? && !run[n].event.Opened?;
    if i < n {
      assert run[..n][..i] == run[..i];
      NoStrandedBlock(h, run[..n], i);
    }
  }

  /** The run keeps the daemon in touch: whenever the dead-man check comes
      round, a connection is open or the last contact is under 60 seconds old. */
  ghost predicate InTouch(h: Helper, run: seq<Timed>) {
    forall i :: 0 <= i < |run| && run[i].event.Check? && After(h, run[..i]).running ==>
      After(h, run[..i]).conns > 0 || run[i].at - After(h, run[..i]).lastContact < 60 * SECOND
  }

  /** What the daemon last asked of the helper process now running. */
  function Asked(h: Helper, run: seq<Timed>): bool {
    if run == [] then h.kernel
    else
      var before, e := run[..|run| - 1], run[|run| - 1].event;
      if e.Restart? then false
      else if e.Request? && e.asked.Some? && After(h, before).running then e.asked.value
      else Asked(h, before)
  }

  /** The block of a daemon that stays in touch is never taken away. */
  lemma {:induction false} KeptInTouch(h: Helper, run: seq<Timed>)
    requires Matches(h) && h.running && InTouch(h, run)
    ensures After(h, run).running ==> After(h, run).kernel == Asked(h, run)
  {
    if run != [] {
      var n := |run| - 1;
      var before := run[..n];
      assert InTouch(h, before) by {
        forall i | 0 <= i < n
          ensures before[..i] == run[..i]
        {
        }
      }
      KeptInTouch(h, before);
      KernelMatchesRecord(h, before);
      if run[n].event.Check? && After(h, before).running {
        assert run[..n] == before;
      }
    }
  }

  /** What the helper counts as word from the daemon; it starts its life so. */
  predicate Contact(e: Event) {
    e.Request? || e.Opened? || e.Restart?
  }

  /** Times do not go back. */
  ghost predicate InOrder(h: Helper, run: seq<Timed>) {
    && (forall i :: 0 <= i < |run| ==> h.lastContact <= run[i].at)
    && (forall i, j :: 0 <= i < j < |run| ==> run[i].at <= run[j].at)
  }

  /** The daemon is heard of less than 60 seconds before each check. */
  ghost predicate Heard(h: Helper, run: seq<Timed>) {
    forall i :: 0 <= i < |run| && run[i].event.Check? ==>
      || run[i].at - h.lastContact < 60 * SECOND
      || exists j :: 0 <= j < i && Contact(run[j].event) && run[i].at - run[j].at < 60 * SECOND
  }

  /** The last contact never moves back. */
  lemma {:induction false} ContactStays(h: Helper, run: seq<Timed>)
    requires InOrder(h, run)
    ensures After(h, run).lastContact >= h.lastContact
    ensures run != [] ==> After(h, run).lastContact <= Max(h.lastContact, run[|run| - 1].at)
  {
    if run != [] { ContactStays(h, run[..|run| - 1]); }
  }

  /** A running helper remembers every contact, even one made while it was down:
      it has restarted since. */
  lemma {:induction false} ContactIsLate(h: Helper, run: seq<Timed>, j: nat)
    requires InOrder(h, run) && j < |run| && Contact(run[j].event) && After(h, run).running
    ensures After(h, run).lastContact >= run[j].at
  {
    var n := |run| - 1;
    var before := run[..n];
    if j < n {
      assert before[j] == run[j];
      if After(h, before).running { ContactIsLate(h, before, j); ContactStays(h, run); }
    }
  }

  /** The block of a daemon heard of at least every 60 seconds is never taken
      away: the kernel is always as the daemon last asked. */
  lemma BlockIsKept(h: Helper, run: seq<Timed>)
    requires Matches(h) && h.running && InOrder(h, run) && Heard(h, run)
    ensures After(h, run).running ==> After(h, run).kernel == Asked(h, run)
  {
    hide After;
    forall i | 0 <= i < |run| && run[i].event.Check? && After(h, run[..i]).running
      ensures run[i].at - After(h, run[..i]).lastContact < 60 * SECOND
    {
      ContactStays(h, run[..i]);
      if run[i].at - h.lastContact >= 60 * SECOND {
        var j :| 0 <= j < i && Contact(run[j].event) && run[i].at - run[j].at < 60 * SECOND;
        ContactIsLate(h, run[..i], j);
      }
    }
    KeptInTouch(h, run);
  }
}
