// Who owns each OS power assertion, in every interleaving of the daemon's
// openers and closers. An opener takes its assertion outside the lock and then,
// in one locked step, either inserts its hold or gives the assertion back.
//
// internal/daemon/daemon.go: openWindow, finishHoldLocked;
// internal/daemon/handlers.go: openAdHocWindow; internal/daemon/keepawake.go:
// KeepAwake, syncKeepAwakeDisplayLocked; internal/daemon/runhold.go: openRunHold.
module Ownership {
  import opened Prelude
  import opened Ids

  /** An assertion handle; the platform never hands out the same one twice. */
  type Token = nat

  datatype Held = Held(idle: Option<Token>, display: Option<Token>)

  /** An opener between acquiring and its locked insert. KeepAwake replacing the
      hold it finds; every other opener yields to it. */
  datatype Opening = Opening(id: Id, replacing: bool, idle: Option<Token>)

  datatype State = State(
    next: Token,                 // tokens below this have been handed out
    released: multiset<Token>,   // how often Release was called on each
    holds: map<Id, Held>,
    openers: map<nat, Opening>,
    keepDisplay: bool)           // cfg.KeepDisplayAwake

  datatype Action =
    | Acquire(thread: nat, id: Id, replacing: bool, ok: bool)
    | Insert(thread: nat, displayOk: bool)
    | Finish(id: Id)
    | SetKeepDisplay(on: bool, displayOk: bool)

  predicate Enabled(s: State, a: Action) {
    match a
    case Acquire(t, id, replacing, _) => t !in s.openers && (replacing <==> id == KeepAwake)
    case Insert(t, _) => t in s.openers
    case Finish(id) => id in s.holds
    case SetKeepDisplay(_, _) => true
  }

  function Drop(released: multiset<Token>, t: Option<Token>): multiset<Token> {
    if t.None? then released else released + multiset{t.value}
  }

  function FinishHold(s: State, id: Id): State
    requires id in s.holds
  {
    s.(released := Drop(Drop(s.released, s.holds[id].idle), s.holds[id].display),
       holds := s.holds - {id})
  }

  /** Holds the display assertion exactly while the setting is on and the
      manual window is open; displayOk says whether the platform grants one. */
  function SyncDisplay(s: State, displayOk: bool): State {
    if KeepAwake !in s.holds then s
    else
      var h := s.holds[KeepAwake];
      if s.keepDisplay && h.display.None? && displayOk then
        s.(next := s.next + 1, holds := s.holds[KeepAwake := h.(display := Some(s.next))])
      else if !s.keepDisplay && h.display.Some? then
        s.(released := Drop(s.released, h.display), holds := s.holds[KeepAwake := h.(display := None)])
      else s
  }

  function InsertHold(s: State, t: nat, displayOk: bool): State
    requires t in s.openers
  {
    var o := s.openers[t];
    var s1 := s.(openers := s.openers - {t});
    if o.id in s.holds && !o.replacing then
      s1.(released := Drop(s.released, o.idle))
    else
      var s2 := if o.id in s.holds then FinishHold(s1, o.id) else s1;
      var s3 := s2.(holds := s2.holds[o.id := Held(o.idle, None)]);
      if o.replacing then SyncDisplay(s3, displayOk) else s3
  }

  function Step(s: State, a: Action): State
    requires Enabled(s, a)
  {
    match a
    case Acquire(t, id, replacing, ok) =>
      s.(next := if ok then s.next + 1 else s.next,
         openers := s.openers[t := Opening(id, replacing, if ok then Some(s.next) else None)])
    case Insert(t, displayOk) => InsertHold(s, t, displayOk)
    case Finish(id) => FinishHold(s, id)
    case SetKeepDisplay(on, displayOk) => SyncDisplay(s.(keepDisplay := on), displayOk)
  }

  // ----- what each step does -----

  /** An opener whose hold is open already keeps out of the way and gives its
      assertion back; otherwise its hold is open with that assertion, whatever hold
      KeepAwake replaced is given back, and the user's own window has a display
      assertion exactly if the setting is on and the platform grants one. */
  lemma InsertDoes(s: State, t: nat, displayOk: bool)
    requires t in s.openers && (s.openers[t].replacing <==> s.openers[t].id == KeepAwake)
    ensures var o, p := s.openers[t], Step(s, Insert(t, displayOk));
            && p.openers == s.openers - {t}
            && (forall id :: id != o.id ==>
                  (id in p.holds <==> id in s.holds) && (id in s.holds ==> p.holds[id] == s.holds[id]))
            && (o.id in s.holds && o.id != KeepAwake ==>
                  p.holds == s.holds && p.released == Drop(s.released, o.idle))
            && (o.id !in s.holds || o.id == KeepAwake ==>
                  && o.id in p.holds && p.holds[o.id].idle == o.idle
                  && (p.holds[o.id].display.Some? <==> o.id == KeepAwake && s.keepDisplay && displayOk)
                  && p.released == if o.id in s.holds
                                   then Drop(Drop(s.released, s.holds[o.id].idle), s.holds[o.id].display)
                                   else s.released)
  {
  }

  /** Closing a hold gives back what it held; a change of the display setting
      reaches the user's window at once, and no other. */
  lemma CloseAndSettingDo(s: State, id: Id, on: bool, displayOk: bool)
    ensures id in s.holds ==>
              var p := Step(s, Finish(id));
              && p.holds == s.holds - {id} && p.openers == s.openers
              && p.released == Drop(Drop(s.released, s.holds[id].idle), s.holds[id].display)
    ensures var p := Step(s, SetKeepDisplay(on, displayOk));
            && p.keepDisplay == on && p.openers == s.openers
            && (forall k :: k in p.holds <==> k in s.holds)
            && (forall k :: k in s.holds && k != KeepAwake ==> p.holds[k] == s.holds[k])
            && (KeepAwake in s.holds ==>
                  && p.holds[KeepAwake].idle == s.holds[KeepAwake].idle
                  && (p.holds[KeepAwake].display.Some? <==> on && (s.holds[KeepAwake].display.Some? || displayOk)))
  {
  }

  // ----- ownership -----

  datatype Owner = IdleOf(id: Id) | DisplayOf(id: Id) | Opener(thread: nat)

  /** The token in an owner's hands. */
  function Owned(s: State, o: Owner): Option<Token> {
    match o
    case IdleOf(id) => if id in s.holds then s.holds[id].idle else None
    case DisplayOf(id) => if id in s.holds then s.holds[id].display else None
    case Opener(t) => if t in s.openers then s.openers[t].idle else None
  }

  /** Handed out and not yet released. */
  predicate Live(s: State, t: Token) {
    t < s.next && s.released[t] == 0
  }

  /** Every live assertion has an owner, every owned one is live and has only
      that owner, and none is ever released twice. */
  ghost predicate Invariant(s: State) {
    && (forall t: Token :: Live(s, t) ==> exists o :: Owned(s, o) == Some(t))
    && (forall o :: Owned(s, o).Some? ==> Live(s, Owned(s, o).value))
    && (forall o, p :: Owned(s, o).Some? && Owned(s, o) == Owned(s, p) ==> o == p)
    && (forall t: Token :: s.released[t] <= 1 && (t >= s.next ==> s.released[t] == 0))
  }

  const START: State := State(0, multiset{}, map[], map[], false)

  lemma StartInvariant()
    ensures Invariant(START)
  {
    assert forall o :: Owned(START, o) == None;
  }

  /** Giving one owner's token back and clearing that owner. */
  lemma ReleaseKeepsInvariant(s: State, s': State, o: Owner)
    requires Invariant(s)
    requires s'.next == s.next && s'.released == Drop(s.released, Owned(s, o))
    requires Owned(s', o) == None
    requires forall p :: p != o ==> Owned(s', p) == Owned(s, p)
    ensures Invariant(s')
  {
    hide Owned;
    forall t: Token | Live(s', t)
      ensures exists p :: Owned(s', p) == Some(t)
    {
      assert Live(s, t);
      var p :| Owned(s, p) == Some(t);
      assert p != o;
      assert Owned(s', p) == Some(t);
    }
  }

  /** Moving a token from one owner to an empty-handed one. */
  lemma MoveKeepsInvariant(s: State, s': State, from: Owner, to: Owner)
    requires Invariant(s) && from != to
    requires s'.next == s.next && s'.released == s.released
    requires Owned(s, to) == None && Owned(s', to) == Owned(s, from) && Owned(s', from) == None
    requires forall p :: p != from && p != to ==> Owned(s', p) == Owned(s, p)
    ensures Invariant(s')
  {
    hide Owned;
    forall t: Token | Live(s', t)
      ensures exists p :: Owned(s', p) == Some(t)
    {
      var p :| Owned(s, p) == Some(t);
      assert Owned(s', if p == from then to else p) == Some(t);
    }
  }

  /** A fresh token in the hands of an empty-handed owner. */
  lemma AcquireKeepsInvariant(s: State, s': State, o: Owner)
    requires Invariant(s)
    requires s'.next == s.next + 1 && s'.released == s.released
    requires Owned(s, o) == None && Owned(s', o) == Some(s.next)
    requires forall p :: p != o ==> Owned(s', p) == Owned(s, p)
    ensures Invariant(s')
  {
    hide Owned;
    forall t: Token | Live(s', t)
      ensures exists p :: Owned(s', p) == Some(t)
    {
      if t == s.next {
        assert Owned(s', o) == Some(t);
      } else {
        assert Live(s, t);
        var p :| Owned(s, p) == Some(t);
        assert p != o;
        assert Owned(s', p) == Some(t);
      }
    }
  }

  /** No owner's hands change. */
  lemma SameOwnersKeepInvariant(s: State, s': State)
    requires Invariant(s)
    requires s'.next == s.next && s'.released == s.released
    requires forall p :: Owned(s', p) == Owned(s, p)
    ensures Invariant(s')
  {
    hide Owned;
    forall t: Token | Live(s', t)
      ensures exists p :: Owned(s', p) == Some(t)
    {
      assert Live(s, t);
      var p :| Owned(s, p) == Some(t);
      assert Owned(s', p) == Some(t);
    }
  }

  lemma FinishKeepsInvariant(s: State, id: Id)
    requires Invariant(s) && id in s.holds
    ensures Invariant(FinishHold(s, id))
  {
    hide Invariant;
    var h := s.holds[id];
    var s1 := s.(released := Drop(s.released, h.idle), holds := s.holds[id := h.(idle := None)]);
    ReleaseKeepsInvariant(s, s1, IdleOf(id));
    ReleaseKeepsInvariant(s1, FinishHold(s, id), DisplayOf(id));
  }

  lemma DisplayKeepsInvariant(s: State, displayOk: bool)
    requires Invariant(s)
    ensures Invariant(SyncDisplay(s, displayOk))
  {
    hide Invariant;
    var s' := SyncDisplay(s, displayOk);
    if KeepAwake in s.holds {
      if s.keepDisplay && s.holds[KeepAwake].display.None? && displayOk {
        AcquireKeepsInvariant(s, s', DisplayOf(KeepAwake));
      } else if !s.keepDisplay && s.holds[KeepAwake].display.Some? {
        ReleaseKeepsInvariant(s, s', DisplayOf(KeepAwake));
      }
    }
  }

  lemma InsertKeepsInvariant(s: State, t: nat, displayOk: bool)
    requires Invariant(s) && t in s.openers
    ensures Invariant(InsertHold(s, t, displayOk))
  {
    hide Invariant, SyncDisplay;
    var o := s.openers[t];
    if o.id in s.holds && !o.replacing {
      ReleaseKeepsInvariant(s, InsertHold(s, t, displayOk), Opener(t));
    } else {
      if o.id in s.holds { FinishKeepsInvariant(s, o.id); }
      var f := if o.id in s.holds then FinishHold(s, o.id) else s;
      var s3 := f.(openers := s.openers - {t}, holds := f.holds[o.id := Held(o.idle, None)]);
      MoveKeepsInvariant(f, s3, Opener(t), IdleOf(o.id));
      DisplayKeepsInvariant(s3, displayOk);
      assert InsertHold(s, t, displayOk) == if o.replacing then SyncDisplay(s3, displayOk) else s3;
    }
  }

  lemma StepKeepsInvariant(s: State, a: Action)
    requires Invariant(s) && Enabled(s, a)
    ensures Invariant(Step(s, a))
  {
    hide Invariant, InsertHold, SyncDisplay, FinishHold;
    match a
    case Acquire(t, id, replacing, ok) =>
      if ok {
        AcquireKeepsInvariant(s, Step(s, a), Opener(t));
      } else {
        SameOwnersKeepInvariant(s, Step(s, a));
      }
    case Insert(t, displayOk) => InsertKeepsInvariant(s, t, displayOk);
    case Finish(id) => FinishKeepsInvariant(s, id);
    case SetKeepDisplay(on, displayOk) =>
      SameOwnersKeepInvariant(s, s.(keepDisplay := on));
      DisplayKeepsInvariant(s.(keepDisplay := on), displayOk);
  }

  // ----- whole runs -----

  ghost predicate IsRun(s: State, run: seq<Action>)
    decreases |run|
  {
    run == [] || (Enabled(s, run[0]) && IsRun(Step(s, run[0]), run[1..]))
  }

  function After(s: State, run: seq<Action>): State
    requires IsRun(s, run)
    decreases |run|
  {
    if run == [] then s else After(Step(s, run[0]), run[1..])
  }

  lemma {:induction false} RunKeepsInvariant(s: State, run: seq<Action>)
    requires Invariant(s) && IsRun(s, run)
    ensures Invariant(After(s, run))
    decreases |run|
  {
    hide Invariant, Step;
    if run != [] {
      StepKeepsInvariant(s, run[0]);
      RunKeepsInvariant(Step(s, run[0]), run[1..]);
    }
  }

  /** In every interleaving each unreleased assertion has exactly one owner: an
      open hold, or an opener that has not reached its locked insert yet. */
  lemma EveryAssertionHasOneOwner(run: seq<Action>, t: Token)
    requires IsRun(START, run) && Live(After(START, run), t)
    ensures exists o ::
              (Owned(After(START, run), o) == Some(t)
              && forall p :: Owned(After(START, run), p) == Some(t) ==> p == o)
  {
    hide IsRun, After, Owned, Live;
    StartInvariant();
    RunKeepsInvariant(START, run);
  }

  /** So with no hold open and no opener under way nothing is left asserted,
      and everything handed out was released exactly once. */
  lemma NothingIsStranded(run: seq<Action>)
    requires IsRun(START, run)
    requires After(START, run).holds == map[] && After(START, run).openers == map[]
    ensures forall t: Token :: t < After(START, run).next ==> After(START, run).released[t] == 1
  {
    StartInvariant();
    RunKeepsInvariant(START, run);
    var s := After(START, run);
    assert forall o :: Owned(s, o) == None;
    forall t: Token | t < s.next
      ensures s.released[t] == 1
    {
      assert !Live(s, t);
    }
  }

  // ----- the assumption about pattern holds -----

  /** updatePatternHold finishes a hold whose pointer was taken before the lock:
      it releases that hold's tokens and deletes whatever now has its id. */
  function FinishStale(s: State, id: Id, h: Held): State {
    s.(released := Drop(Drop(s.released, h.idle), h.display), holds := s.holds - {id})
  }

  /** The tokens a hold would release. */
  function Tokens(h: Held): multiset<Token> {
    Drop(Drop(multiset{}, h.idle), h.display)
  }

  /** What the hold now under id would release, if there is one. */
  function TokensUnder(s: State, id: Id): multiset<Token> {
    if id in s.holds then Tokens(s.holds[id]) else multiset{}
  }

  /** A hold's own tokens are distinct and live. */
  lemma OneHolderPerToken(s: State, id: Id, t: Token)
    requires Invariant(s)
    ensures TokensUnder(s, id)[t] <= 1
    ensures TokensUnder(s, id)[t] == 1 <==> Owned(s, IdleOf(id)) == Some(t) || Owned(s, DisplayOf(id)) == Some(t)
    ensures TokensUnder(s, id)[t] == 1 ==> Live(s, t)
  {
    if id in s.holds && s.holds[id].idle.Some? && s.holds[id].display.Some? {
      assert Owned(s, IdleOf(id)) != Owned(s, DisplayOf(id));
    }
  }

  /** What a stale finish does to owners and to release counts. */
  lemma StaleEffect(s: State, id: Id, h: Held)
    ensures FinishStale(s, id, h).next == s.next
    ensures FinishStale(s, id, h).released == s.released + Tokens(h)
    ensures forall o :: Owned(FinishStale(s, id, h), o) ==
                        if o == IdleOf(id) || o == DisplayOf(id) then None else Owned(s, o)
  {
  }

  /** If the invariant survives, only this hold's own tokens were released. */
  lemma StaleReleasesOnlyItsOwn(s: State, id: Id, h: Held, t: Token)
    requires Invariant(s) && Invariant(FinishStale(s, id, h))
    ensures Tokens(h)[t] <= TokensUnder(s, id)[t]
  {
    hide Owned, FinishStale, Tokens, TokensUnder;
    var s' := FinishStale(s, id, h);
    StaleEffect(s, id, h);
    OneHolderPerToken(s, id, t);
    assert s'.released[t] == s.released[t] + Tokens(h)[t];
    if Tokens(h)[t] >= 1 {
      assert Live(s, t);
      var o :| Owned(s, o) == Some(t);
      assert Owned(s', o) != Some(t);
    }
  }

  /** If the invariant survives, all of this hold's tokens were released. */
  lemma StaleReleasesAllItsOwn(s: State, id: Id, h: Held, t: Token)
    requires Invariant(s) && Invariant(FinishStale(s, id, h))
    ensures TokensUnder(s, id)[t] <= Tokens(h)[t]
  {
    hide Owned, FinishStale, Tokens, TokensUnder;
    var s' := FinishStale(s, id, h);
    StaleEffect(s, id, h);
    OneHolderPerToken(s, id, t);
    assert s'.released[t] == s.released[t] + Tokens(h)[t];
    assert Live(s', t) ==> TokensUnder(s, id)[t] == 0 by {
      if Live(s', t) {
        var p :| Owned(s', p) == Some(t);
        assert Owned(s, p) == Some(t);
      }
    }
  }

  /** So it is safe exactly when the captured hold and the one now in the map
      hold the same tokens. */
  lemma StaleFinishSafeIff(s: State, id: Id, h: Held)
    requires Invariant(s)
    ensures Invariant(FinishStale(s, id, h)) <==> Tokens(h) == TokensUnder(s, id)
  {
    hide Invariant;
    if Tokens(h) == TokensUnder(s, id) { SameTokensAreSafe(s, id, h); }
    if Invariant(FinishStale(s, id, h)) {
      hide *;
      forall t: Token
        ensures Tokens(h)[t] == TokensUnder(s, id)[t]
      {
        StaleReleasesOnlyItsOwn(s, id, h, t);
        StaleReleasesAllItsOwn(s, id, h, t);
      }
      assert Tokens(h) == TokensUnder(s, id);
    }
  }

  lemma SameTokensAreSafe(s: State, id: Id, h: Held)
    requires Invariant(s) && Tokens(h) == TokensUnder(s, id)
    ensures Invariant(FinishStale(s, id, h))
  {
    hide Invariant, Owned;
    StaleEffect(s, id, h);
    if id in s.holds {
      FinishKeepsInvariant(s, id);
      assert s.released + Tokens(s.holds[id]) == FinishHold(s, id).released;
      assert FinishStale(s, id, h) == FinishHold(s, id);
    } else {
      assert FinishStale(s, id, h) == s by {
        assert s.holds - {id} == s.holds;
        assert s.released + Tokens(h) == s.released;
      }
    }
  }
}
