// internal/power/sleeplog_linux.go: buildSleepIntervals, which pairs the
// suspend and resume edges recovered from the systemd journal.
module Journal {
  import opened Prelude

  datatype Edge = Edge(at: Time, resume: bool)

  datatype Interval = Interval(sleep: Time, wake: Time)

  // ----- the stable sort -----

  ghost predicate Sorted(es: seq<Edge>) {
    forall i, j :: 0 <= i < j < |es| ==> es[i].at <= es[j].at
  }

  /** Puts e before everything later than it, and before its equals. */
  function Insert(e: Edge, es: seq<Edge>): seq<Edge> {
    if es == [] || e.at <= es[0].at then [e] + es else [es[0]] + Insert(e, es[1..])
  }

  function StableSort(es: seq<Edge>): seq<Edge> {
    if es == [] then [] else Insert(es[0], StableSort(es[1..]))
  }

  /** The edges at one instant, in order. */
  function At(es: seq<Edge>, t: Time): seq<Edge> {
    if es == [] then [] else (if es[0].at == t then [es[0]] else []) + At(es[1..], t)
  }

  lemma SortedCons(e: Edge, es: seq<Edge>)
    requires Sorted(es) && forall x :: x in es ==> e.at <= x.at
    ensures Sorted([e] + es)
  {
  }

  lemma {:induction false} InsertSorts(e: Edge, es: seq<Edge>)
    requires Sorted(es)
    ensures Sorted(Insert(e, es))
    ensures multiset(Insert(e, es)) == multiset(es) + multiset{e}
  {
    if es == [] || e.at <= es[0].at {
      SortedCons(e, es);
    } else {
      var h, t := es[0], es[1..];
      assert es == [h] + t;
      InsertSorts(e, t);
      forall x | x in Insert(e, t)
        ensures h.at <= x.at
      {
        assert x in multiset(Insert(e, t));
      }
      SortedCons(h, Insert(e, t));
    }
  }

  lemma AtCons(e: Edge, es: seq<Edge>, t: Time)
    ensures At([e] + es, t) == (if e.at == t then [e] else []) + At(es, t)
  {
    assert ([e] + es)[1..] == es;
  }

  lemma {:induction false} InsertKeepsAt(e: Edge, es: seq<Edge>, t: Time)
    ensures At(Insert(e, es), t) == (if e.at == t then [e] else []) + At(es, t)
  {
    hide At;
    if es == [] || e.at <= es[0].at {
      AtCons(e, es, t);
    } else {
      assert es == [es[0]] + es[1..];
      InsertKeepsAt(e, es[1..], t);
      AtCons(es[0], Insert(e, es[1..]), t);
      AtCons(es[0], es[1..], t);
    }
  }

  /** StableSort is the stable sort by time: sorted, a permutation, and the
      edges at each instant stay in their original order. */
  lemma {:induction false} StableSortSorts(es: seq<Edge>)
    ensures Sorted(StableSort(es))
    ensures multiset(StableSort(es)) == multiset(es)
    ensures forall t :: At(StableSort(es), t) == At(es, t)
  {
    if es != [] {
      StableSortSorts(es[1..]);
      assert es == [es[0]] + es[1..];
      InsertSorts(es[0], StableSort(es[1..]));
      forall t
        ensures At(StableSort(es), t) == At(es, t)
      {
        InsertKeepsAt(es[0], StableSort(es[1..]), t);
      }
    }
  }

  // ----- the pairing loop -----

  /** What the loop has yet to append, given the suspend it has open. */
  function Pair(es: seq<Edge>, open: Option<Time>): seq<Interval> {
    if es == [] then []
    else if es[0].resume then
      (if open.Some? && es[0].at > open.value then [Interval(open.value, es[0].at)] else [])
      + Pair(es[1..], None)
    else Pair(es[1..], if open.None? then Some(es[0].at) else open)
  }

  method BuildSleepIntervals(events: seq<Edge>) returns (out: seq<Interval>)
    ensures out == Pair(StableSort(events), None)
  {
    out := [];
    if events == [] { return; }
    var sorted := StableSort(events);
    var open: Option<Time> := None;
    for i := 0 to |sorted|
      invariant Pair(sorted, None) == out + Pair(sorted[i..], open)
    {
      var ev := sorted[i];
      assert sorted[i..][1..] == sorted[i + 1..];
      if ev.resume {
        if open.Some? && ev.at > open.value {
          assert out + Pair(sorted[i..], open) ==
            (out + [Interval(open.value, ev.at)]) + Pair(sorted[i + 1..], None);
          out := out + [Interval(open.value, ev.at)];
        }
        open := None;
      } else if open.None? {
        open := Some(ev.at);
      }
    }
  }

  // ----- what the intervals mean -----

  /** t lies in one of the intervals, each closed on the left. */
  ghost predicate Inside(t: Time, ivs: seq<Interval>) {
    exists iv :: iv in ivs && iv.sleep <= t < iv.wake
  }

  /** The last edge of a sorted list at or before t. */
  function LastEdge(es: seq<Edge>, t: Time): Option<Edge> {
    if es == [] || es[0].at > t then None
    else
      var later := LastEdge(es[1..], t);
      if later.Some? then later else Some(es[0])
  }

  ghost predicate ResumesAfter(es: seq<Edge>, t: Time) {
    exists e :: e in es && e.resume && e.at > t
  }

  /** The machine was asleep at t: the last edge so far is a suspend, and it is
      known to have resumed later. */
  ghost predicate AsleepAt(es: seq<Edge>, t: Time) {
    && LastEdge(es, t).Some? && !LastEdge(es, t).value.resume
    && ResumesAfter(es, t)
  }

  /** AsleepAt for the rest of the edges, with a suspend possibly open. */
  ghost predicate AsleepFrom(es: seq<Edge>, open: Option<Time>, t: Time) {
    && ResumesAfter(es, t)
    && match LastEdge(es, t)
       case Some(e) => !e.resume
       case None => open.Some? && open.value <= t
  }

  ghost predicate OpenBefore(es: seq<Edge>, open: Option<Time>) {
    open.Some? ==> forall e :: e in es ==> open.value <= e.at
  }

  lemma InsideAppend(t: Time, a: seq<Interval>, b: seq<Interval>)
    ensures Inside(t, a + b) <==> Inside(t, a) || Inside(t, b)
  {
    if Inside(t, a) || Inside(t, b) {
      var iv :| (iv in a || iv in b) && iv.sleep <= t < iv.wake;
      assert iv in a + b;
    }
  }

  lemma ResumesAfterStep(es: seq<Edge>, t: Time)
    requires es != []
    ensures ResumesAfter(es, t) <==> (es[0].resume && es[0].at > t) || ResumesAfter(es[1..], t)
  {
    assert es == [es[0]] + es[1..];
    if ResumesAfter(es[1..], t) {
      var e :| e in es[1..] && e.resume && e.at > t;
      assert e in es;
    }
  }

  lemma {:induction false} PairMeaning(es: seq<Edge>, open: Option<Time>, t: Time)
    requires Sorted(es) && OpenBefore(es, open)
    ensures Inside(t, Pair(es, open)) <==> AsleepFrom(es, open, t)
  {
    if es != [] {
      var e := es[0];
      var next := if e.resume then None else if open.None? then Some(e.at) else open;
      var head := if e.resume && open.Some? && e.at > open.value then [Interval(open.value, e.at)] else [];
      assert Pair(es, open) == head + Pair(es[1..], next);
      PairMeaning(es[1..], next, t);
      InsideAppend(t, head, Pair(es[1..], next));
      HeadMeaning(e, open, t, head);
      ResumesAfterStep(es, t);
      if e.at > t {
        assert LastEdge(es, t) == None;
        NoEdgeYet(es[1..], t);
      }
    }
  }

  lemma HeadMeaning(e: Edge, open: Option<Time>, t: Time, head: seq<Interval>)
    requires head == if e.resume && open.Some? && e.at > open.value then [Interval(open.value, e.at)] else []
    ensures Inside(t, head) <==> e.resume && open.Some? && open.value <= t < e.at
  {
    if e.resume && open.Some? && open.value <= t < e.at {
      assert head[0] in head;
    }
  }

  lemma NoEdgeYet(es: seq<Edge>, t: Time)
    requires forall e :: e in es ==> e.at > t
    ensures LastEdge(es, t) == None
  {
  }

  /** A time is inside an output interval exactly when the last edge at or
      before it is a suspend and some resume is later. */
  lemma IntervalsAreSleep(events: seq<Edge>, t: Time)
    ensures Inside(t, Pair(StableSort(events), None)) <==> AsleepAt(StableSort(events), t)
  {
    StableSortSorts(events);
    PairMeaning(StableSort(events), None, t);
  }

  ghost predicate Separated(ivs: seq<Interval>) {
    && (forall i :: 0 <= i < |ivs| ==> ivs[i].sleep < ivs[i].wake)
    && (forall i, j :: 0 <= i < j < |ivs| ==> ivs[i].wake <= ivs[j].sleep)
  }

  lemma SeparatedCons(iv: Interval, rest: seq<Interval>)
    requires iv.sleep < iv.wake && Separated(rest)
    requires forall r :: r in rest ==> iv.wake <= r.sleep
    ensures Separated([iv] + rest)
  {
    var all := [iv] + rest;
    forall i, j | 0 <= i < j < |all|
      ensures all[i].wake <= all[j].sleep
    {
      assert all[j] in rest;
    }
  }

  /** One step of the pairing, a resume. */
  lemma PairResume(e: Edge, es: seq<Edge>, open: Option<Time>)
    requires e.resume
    ensures Pair([e] + es, open) ==
      if open.Some? && e.at > open.value then [Interval(open.value, e.at)] + Pair(es, None) else Pair(es, None)
  {
    assert ([e] + es)[1..] == es;
  }

  /** And a suspend. */
  lemma PairSuspend(e: Edge, es: seq<Edge>, open: Option<Time>)
    requires !e.resume
    ensures Pair([e] + es, open) == Pair(es, if open.None? then Some(e.at) else open)
  {
    assert ([e] + es)[1..] == es;
  }

  lemma {:induction false} PairSeparated(es: seq<Edge>, open: Option<Time>, from: Time)
    requires Sorted(es) && OpenBefore(es, open)
    requires open.Some? ==> from <= open.value
    requires open.None? ==> forall e :: e in es ==> from <= e.at
    ensures Separated(Pair(es, open))
    ensures forall iv :: iv in Pair(es, open) ==> from <= iv.sleep
  {
    if es == [] {
      assert Pair(es, open) == [];
    } else {
      hide Pair, Separated;
      var e, rest := es[0], es[1..];
      assert es == [e] + rest;
      if e.resume {
        PairSeparated(rest, None, e.at);
        PairResume(e, rest, open);
        if open.Some? && e.at > open.value { SeparatedCons(Interval(open.value, e.at), Pair(rest, None)); }
      } else {
        PairSuspend(e, rest, open);
        PairSeparated(rest, if open.None? then Some(e.at) else open, from);
      }
    }
  }

  /** The output is in order, its intervals are not empty and do not overlap. */
  lemma IntervalsSeparated(events: seq<Edge>)
    ensures Separated(Pair(StableSort(events), None))
  {
    StableSortSorts(events);
    var es := StableSort(events);
    var from := if es == [] then 0 else es[0].at;
    PairSeparated(es, None, from);
  }

  /** An edge that directly follows another of its kind changes nothing: the
      journal reports most suspends and resumes twice. */
  lemma {:induction false} RepeatedEdge(before: seq<Edge>, s: Edge, r: Edge, after: seq<Edge>, open: Option<Time>)
    requires s.resume == r.resume
    ensures Pair(before + [s, r] + after, open) == Pair(before + [s] + after, open)
  {
    if before == [] {
      assert ([] + [s, r] + after)[1..] == [r] + after;
      assert ([] + [s] + after)[1..] == after;
      assert ([r] + after)[1..] == after;
    } else {
      assert (before + [s, r] + after)[1..] == before[1..] + [s, r] + after;
      assert (before + [s] + after)[1..] == before[1..] + [s] + after;
      RepeatedEdge(before[1..], s, r, after,
        if before[0].resume then None else if open.None? then Some(before[0].at) else open);
    }
  }
}
