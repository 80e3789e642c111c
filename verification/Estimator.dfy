// internal/estimate/estimate.go: the learned ceiling. Percentile rank and
// multiplier are exact rationals here, where the source uses float64.
module Runs {
  import opened Prelude

  datatype Detection = ByMark | ByPattern | Unwatched
  {
    predicate Observable() { ByMark? || ByPattern? }
  }

  datatype Outcome = RanOk | RanFailed | HitCeiling | NeverDetected | CutOff | SleptThrough
  {
    /** Only a run seen to its end says how long the job takes. */
    predicate TrainsEstimator() { RanOk? || RanFailed? }
  }

  /** One line of a job's history. */
  datatype Run = Run(
    slug: string,
    windowOpened: Time,
    started: Option<Time>,
    ended: Option<Time>,
    duration: Dur,
    holdDuration: Dur,
    outcome: Outcome,
    detection: Detection,
    wokeMachine: bool)
}

module Estimator {
  import opened Prelude
  import opened Configs
  import opened Runs

  /** What the estimator reads of a job. */
  datatype Subject = Subject(detection: Detection, maxRuntime: Dur)

  datatype Estimate = Estimate(ceiling: Dur, typical: Dur, p95: Dur, coldStart: bool)

  // ----- order statistics -----

  ghost predicate Sorted(s: seq<Dur>) {
    forall i, j :: 0 <= i < j < |s| ==> s[i] <= s[j]
  }

  function Insert(x: Dur, s: seq<Dur>): seq<Dur> {
    if s == [] || x <= s[0] then [x] + s else [s[0]] + Insert(x, s[1..])
  }

  function Sort(s: seq<Dur>): (r: seq<Dur>)
    ensures Sorted(r) && multiset(r) == multiset(s)
  {
    if s == [] then []
    else
      InsertSorts(s[0], Sort(s[1..]));
      assert s == [s[0]] + s[1..];
      Insert(s[0], Sort(s[1..]))
  }

  lemma SortedCons(x: Dur, s: seq<Dur>)
    requires Sorted(s) && forall y :: y in s ==> x <= y
    ensures Sorted([x] + s)
  {
    forall i, j | 0 <= i < j < |s| + 1
      ensures ([x] + s)[i] <= ([x] + s)[j]
    {
      assert s[j - 1] in s;
    }
  }

  lemma {:induction false} InsertSorts(x: Dur, s: seq<Dur>)
    requires Sorted(s)
    ensures Sorted(Insert(x, s)) && multiset(Insert(x, s)) == multiset(s) + multiset{x}
  {
    if s == [] || x <= s[0] {
      SortedCons(x, s);
    } else {
      var h, t := s[0], s[1..];
      assert s == [h] + t;
      InsertSorts(x, t);
      forall y | y in Insert(x, t)
        ensures h <= y
      {
        assert y in multiset(Insert(x, t));
      }
      SortedCons(h, Insert(x, t));
    }
  }

  lemma SameLength(s: seq<Dur>, t: seq<Dur>)
    requires multiset(s) == multiset(t)
    ensures |s| == |t|
  {
    assert |multiset(s)| == |s| && |multiset(t)| == |t|;
  }

  /** How many elements are below, or at most, a value. */
  function Below(s: seq<Dur>, v: Dur): (n: nat)
    ensures n <= |s|
  {
    if s == [] then 0 else (if s[0] < v then 1 else 0) + Below(s[1..], v)
  }

  function AtMost(s: seq<Dur>, v: Dur): (n: nat)
    ensures n <= |s|
  {
    Below(s, v + 1)
  }

  /** v is the k-th smallest element, counting from one. */
  ghost predicate KthSmallest(s: seq<Dur>, k: nat, v: Dur) {
    v in s && Below(s, v) < k <= AtMost(s, v)
  }

  lemma {:induction false} BelowMonotone(s: seq<Dur>, v: Dur, w: Dur)
    requires v <= w
    ensures Below(s, v) <= Below(s, w)
  {
    if s != [] { BelowMonotone(s[1..], v, w); }
  }

  /** Being the k-th smallest pins the value down. */
  lemma KthSmallestUnique(s: seq<Dur>, k: nat, v: Dur, w: Dur)
    requires KthSmallest(s, k, v) && KthSmallest(s, k, w)
    ensures v == w
  {
    if v < w {
      BelowMonotone(s, v + 1, w);
    } else if w < v {
      BelowMonotone(s, w + 1, v);
    }
  }

  lemma {:induction false} BelowRemove(s: seq<Dur>, i: nat, v: Dur)
    requires i < |s|
    ensures Below(s, v) == Below(s[..i] + s[i + 1..], v) + (if s[i] < v then 1 else 0)
  {
    if i == 0 {
      assert s[..0] + s[1..] == s[1..];
    } else {
      BelowRemove(s[1..], i - 1, v);
      assert (s[..i] + s[i + 1..])[1..] == s[1..][..i - 1] + s[1..][i..];
    }
  }

  /** Counting does not depend on the order. */
  lemma {:induction false} BelowPermutes(s: seq<Dur>, t: seq<Dur>, v: Dur)
    requires multiset(s) == multiset(t)
    ensures Below(s, v) == Below(t, v)
  {
    SameLength(s, t);
    if s != [] {
      assert s == [s[0]] + s[1..];
      assert s[0] in multiset(t);
      var i :| 0 <= i < |t| && t[i] == s[0];
      var u := t[..i] + t[i + 1..];
      assert t == t[..i] + [t[i]] + t[i + 1..];
      assert multiset(u) == multiset(t) - multiset{s[0]};
      BelowPermutes(s[1..], u, v);
      BelowRemove(t, i, v);
    }
  }

  lemma {:induction false} BelowSorted(s: seq<Dur>, k: nat, v: Dur)
    requires Sorted(s) && k <= |s|
    requires forall i :: 0 <= i < k ==> s[i] < v
    requires forall i :: k <= i < |s| ==> s[i] >= v
    ensures Below(s, v) == k
  {
    if s != [] {
      BelowSorted(s[1..], if k == 0 then 0 else k - 1, v);
    }
  }

  lemma {:induction false} BelowAtLeast(s: seq<Dur>, k: nat, v: Dur)
    requires k <= |s| && forall i :: 0 <= i < k ==> s[i] < v
    ensures Below(s, v) >= k
  {
    if k > 0 { BelowAtLeast(s[1..], k - 1, v); }
  }

  lemma {:induction false} BelowAtMost(s: seq<Dur>, k: nat, v: Dur)
    requires k <= |s| && forall i :: k <= i < |s| ==> s[i] >= v
    ensures Below(s, v) <= k
  {
    if s != [] { BelowAtMost(s[1..], if k == 0 then 0 else k - 1, v); }
  }

  /** Position k-1 of the sorted list holds the k-th smallest. */
  lemma SortedKth(s: seq<Dur>, k: nat)
    requires 0 < k <= |s|
    ensures |Sort(s)| == |s| && KthSmallest(s, k, Sort(s)[k - 1])
  {
    hide Sort, Below;
    var r := Sort(s);
    SameLength(r, s);
    var v := r[k - 1];
    assert v in multiset(r);
    BelowPermutes(s, r, v);
    BelowPermutes(s, r, v + 1);
    BelowAtMost(r, k - 1, v);
    BelowAtLeast(r, k, v + 1);
  }

  // ----- percentile and median -----

  /** ceil(19n/20), the nearest rank of the 95th percentile. */
  function Rank95(n: nat): (rank: nat)
    requires n > 0
    ensures 0 < rank <= n
    ensures 20 * (rank - 1) < 19 * n <= 20 * rank
  {
    (19 * n + 19) / 20
  }

  function P95Of(s: seq<Dur>): Dur {
    if s == [] then 0
    else
      SameLength(Sort(s), s);
      Sort(s)[Rank95(|s|) - 1]
  }

  function Half(a: Dur): Dur {
    if a < 0 then -((-a) / 2) else a / 2
  }

  function MedianOf(s: seq<Dur>): Dur {
    if s == [] then 0
    else
      var r := Sort(s);
      SameLength(r, s);
      var mid := |s| / 2;
      if |s| % 2 == 1 then r[mid] else Half(r[mid - 1] + r[mid])
  }

  /** The percentile is the ceil(19n/20)-th smallest duration. */
  lemma P95IsKthSmallest(s: seq<Dur>)
    requires s != []
    ensures KthSmallest(s, Rank95(|s|), P95Of(s))
  {
    SortedKth(s, Rank95(|s|));
  }

  lemma SortedUnique(s: seq<Dur>, t: seq<Dur>)
    requires multiset(s) == multiset(t)
    ensures Sort(s) == Sort(t)
  {
    hide Sort, Below;
    SameLength(s, t);
    SameLength(s, Sort(s));
    SameLength(s, Sort(t));
    forall i | 0 <= i < |s|
      ensures Sort(s)[i] == Sort(t)[i]
    {
      SamePosition(s, t, i);
    }
  }

  lemma KthSmallestPermutes(s: seq<Dur>, t: seq<Dur>, k: nat, v: Dur)
    requires multiset(s) == multiset(t) && KthSmallest(s, k, v)
    ensures KthSmallest(t, k, v)
  {
    hide Below;
    BelowPermutes(s, t, v);
    BelowPermutes(s, t, v + 1);
    assert v in multiset(t);
  }

  lemma SamePosition(s: seq<Dur>, t: seq<Dur>, i: nat)
    requires multiset(s) == multiset(t) && i < |s| == |t|
    requires |Sort(s)| == |Sort(t)| == |s|
    ensures Sort(s)[i] == Sort(t)[i]
  {
    hide Sort, KthSmallest;
    SortedKth(s, i + 1);
    SortedKth(t, i + 1);
    KthSmallestPermutes(s, t, i + 1, Sort(s)[i]);
    KthSmallestUnique(t, i + 1, Sort(s)[i], Sort(t)[i]);
  }

  /** Neither statistic depends on the order of the durations. */
  lemma StatisticsPermute(s: seq<Dur>, t: seq<Dur>)
    requires multiset(s) == multiset(t)
    ensures P95Of(s) == P95Of(t) && MedianOf(s) == MedianOf(t)
  {
    hide Sort, Half;
    SortedUnique(s, t);
    SameLength(s, t);
  }

  lemma MedianAtMostP95(s: seq<Dur>)
    requires forall d :: d in s ==> d >= 0
    ensures MedianOf(s) <= P95Of(s)
  {
    if s != [] {
      hide Sort;
      var r := Sort(s);
      SameLength(r, s);
      var top := Rank95(|s|) - 1;
      assert |s| / 2 <= top;
      assert r[|s| / 2] <= r[top];
      assert r[|s| / 2] in multiset(r);
      if |s| % 2 == 0 {
        assert r[|s| / 2 - 1] <= r[|s| / 2];
        assert r[|s| / 2 - 1] in multiset(r);
      }
    }
  }

  // ----- the source's loops -----

  /** sort.Slice: whatever the algorithm, the slice ends up sorted in place. */
  method SortSlice(a: array<Dur>)
    modifies a
    ensures a[..] == Sort(old(a[..]))
  {
    hide Sort;
    var s := Sort(a[..]);
    SameLength(s, a[..]);
    for i := 0 to a.Length
      invariant a[..i] == s[..i]
    {
      a[i] := s[i];
    }
    assert a[..] == a[..a.Length] && s[..a.Length] == s;
  }

  method SortedCopy(s: seq<Dur>) returns (a: array<Dur>)
    ensures fresh(a) && a[..] == Sort(s) && a.Length == |s|
  {
    a := new Dur[|s|](i requires 0 <= i < |s| => s[i]);
    assert a[..] == s;
    SortSlice(a);
  }

  /** percentile with p = 0.95. Its clamping of the rank to 1..n never acts. */
  method Percentile95(s: seq<Dur>) returns (p: Dur)
    ensures p == P95Of(s)
  {
    if s == [] { return 0; }
    var a := SortedCopy(s);
    var rank := (19 * |s| + 19) / 20;
    p := a[rank - 1];
    assert p == a[..][rank - 1];
  }

  method Median(s: seq<Dur>) returns (m: Dur)
    ensures m == MedianOf(s)
  {
    if s == [] { return 0; }
    var a := SortedCopy(s);
    hide Sort;
    var mid := a.Length / 2;
    if a.Length % 2 == 1 {
      m := a[mid];
      assert m == a[..][mid];
    } else {
      m := Half(a[mid - 1] + a[mid]);
      assert a[mid - 1] == a[..][mid - 1] && a[mid] == a[..][mid];
    }
  }

  predicate Trains(r: Run) { r.outcome.TrainsEstimator() && r.duration > 0 }

  /** The runtimes that say how long the job takes, oldest first. */
  function TrainingDurations(runs: seq<Run>): (ds: seq<Dur>)
    ensures forall d :: d in ds ==> d > 0
  {
    if runs == [] then []
    else TrainingDurations(runs[..|runs| - 1]) + (if Trains(runs[|runs| - 1]) then [runs[|runs| - 1].duration] else [])
  }

  method CompletedDurations(runs: seq<Run>) returns (out: seq<Dur>)
    ensures out == TrainingDurations(runs)
  {
    out := [];
    for i := 0 to |runs|
      invariant out == TrainingDurations(runs[..i])
    {
      assert runs[..i + 1][..i] == runs[..i];
      var r := runs[i];
      if r.outcome.TrainsEstimator() {
        if r.duration > 0 {
          out := out + [r.duration];
        }
      }
    }
    assert runs[..|runs|] == runs;
  }

  /** The runs recorded under one detection mode. */
  function UnderMode(runs: seq<Run>, mode: Detection): seq<Run> {
    if runs == [] then []
    else UnderMode(runs[..|runs| - 1], mode) + (if runs[|runs| - 1].detection == mode then [runs[|runs| - 1]] else [])
  }

  function LastOf(ds: seq<Dur>, n: nat): seq<Dur> {
    if |ds| > n then ds[|ds| - n..] else ds
  }

  function Clamp(v: Dur, lo: Dur, hi: Dur): Dur {
    if v < lo then lo else if v > hi then hi else v
  }

  /** The history a job may learn from: an unobservable job only trusts runs
      recorded under its own mode. */
  function Usable(job: Subject, runs: seq<Run>): seq<Run> {
    if job.detection.Observable() then runs else UnderMode(runs, job.detection)
  }

  /** The p95 with its headroom, truncated to nanoseconds. */
  function WithHeadroom(p95: Dur, cfg: Config): Dur {
    (p95 as real * cfg.ceilingMultiplier).Floor
  }

  function Learn(ds: seq<Dur>, cfg: Config): Estimate
    requires cfg.historyWindow >= 0
  {
    var recent := LastOf(ds, cfg.historyWindow);
    if |recent| < cfg.minRunsForEstimate then
      Estimate(cfg.defaultCeiling, MedianOf(recent), P95Of(recent), true)
    else
      Estimate(Clamp(WithHeadroom(P95Of(recent), cfg), cfg.minCeiling, cfg.maxCeiling),
        MedianOf(recent), P95Of(recent), false)
  }

  function ComputeFrom(job: Subject, ds: seq<Dur>, cfg: Config): Estimate
    requires cfg.historyWindow >= 0
  {
    if !job.detection.Observable() && |ds| < cfg.minRunsForEstimate then
      Estimate(if job.maxRuntime > 0 then job.maxRuntime else cfg.wakeOnlyHold, 0, 0, false)
    else if job.maxRuntime > 0 then
      Estimate(job.maxRuntime, MedianOf(ds), P95Of(ds), false)
    else Learn(ds, cfg)
  }

  method SelectUsable(job: Subject, history: seq<Run>) returns (runs: seq<Run>)
    ensures runs == Usable(job, history)
  {
    if job.detection.Observable() { return history; }
    runs := [];
    for i := 0 to |history|
      invariant runs == UnderMode(history[..i], job.detection)
    {
      assert history[..i + 1][..i] == history[..i];
      if history[i].detection == job.detection { runs := runs + [history[i]]; }
    }
    assert history[..|history|] == history;
  }

  method Compute(job: Subject, history: seq<Run>, cfg: Config) returns (res: Estimate)
    requires cfg.historyWindow >= 0
    ensures res == EstimateFor(job, history, cfg)
  {
    hide TrainingDurations, Usable, MedianOf, P95Of, WithHeadroom;
    var runs := SelectUsable(job, history);
    var durs := CompletedDurations(runs);
    if !job.detection.Observable() && |durs| < cfg.minRunsForEstimate {
      if job.maxRuntime > 0 { return Estimate(job.maxRuntime, 0, 0, false); }
      return Estimate(cfg.wakeOnlyHold, 0, 0, false);
    }
    if job.maxRuntime > 0 {
      var typical := Median(durs);
      var p95 := Percentile95(durs);
      return Estimate(job.maxRuntime, typical, p95, false);
    }
    if |durs| > cfg.historyWindow {
      durs := durs[|durs| - cfg.historyWindow..];
    }
    var typical := Median(durs);
    var p95 := Percentile95(durs);
    if |durs| < cfg.minRunsForEstimate {
      return Estimate(cfg.defaultCeiling, typical, p95, true);
    }
    var raw := WithHeadroom(p95, cfg);
    return Estimate(Clamp(raw, cfg.minCeiling, cfg.maxCeiling), typical, p95, false);
  }

  // ----- what the estimate promises -----

  function EstimateFor(job: Subject, runs: seq<Run>, cfg: Config): Estimate
    requires cfg.historyWindow >= 0
  {
    ComputeFrom(job, TrainingDurations(Usable(job, runs)), cfg)
  }

  /** Whether the ceiling was learned, rather than set or defaulted. */
  predicate Learned(job: Subject, runs: seq<Run>, cfg: Config)
    requires cfg.historyWindow >= 0
  {
    var n := |TrainingDurations(Usable(job, runs))|;
    && job.maxRuntime <= 0
    && n >= cfg.minRunsForEstimate
    && cfg.minRunsForEstimate <= cfg.historyWindow
  }

  /** The value used when nothing was learned. */
  function Configured(job: Subject, runs: seq<Run>, cfg: Config): Dur
    requires cfg.historyWindow >= 0
  {
    if job.maxRuntime > 0 then job.maxRuntime
    else if !job.detection.Observable()
      && |TrainingDurations(Usable(job, runs))| < cfg.minRunsForEstimate then cfg.wakeOnlyHold
    else cfg.defaultCeiling
  }

  /** The ceiling lies between the configured bounds exactly when it was
      learned or the value used instead happens to lie there: neither an
      explicit maximum nor the cold-start default is clamped. */
  lemma CeilingInRangeIff(job: Subject, runs: seq<Run>, cfg: Config)
    requires Normal(cfg)
    ensures cfg.minCeiling <= EstimateFor(job, runs, cfg).ceiling <= cfg.maxCeiling <==>
      || Learned(job, runs, cfg)
      || cfg.minCeiling <= Configured(job, runs, cfg) <= cfg.maxCeiling
    ensures !Learned(job, runs, cfg) ==>
      EstimateFor(job, runs, cfg).ceiling == Configured(job, runs, cfg)
  {
    hide TrainingDurations, Usable, P95Of, MedianOf, WithHeadroom;
  }

  /** A learned ceiling is the percentile times the multiplier, truncated to a
      nanosecond, as far as the bounds allow; and so no shorter than the percentile
      or, if that is less, the maximum. */
  lemma LearnedCeilingIs(job: Subject, runs: seq<Run>, cfg: Config)
    requires Normal(cfg) && Learned(job, runs, cfg)
    ensures var est := EstimateFor(job, runs, cfg);
            var raw := est.p95 as real * cfg.ceilingMultiplier;
            && !est.coldStart
            && (cfg.minCeiling as real <= raw <= cfg.maxCeiling as real ==>
                  est.ceiling as real <= raw < est.ceiling as real + 1.0)
            && (raw < cfg.minCeiling as real ==> est.ceiling == cfg.minCeiling)
            && (raw > cfg.maxCeiling as real ==> est.ceiling == cfg.maxCeiling)
            && est.ceiling >= Min(est.p95, cfg.maxCeiling)
  {
    hide P95Of, MedianOf, Usable, TrainingDurations, WithHeadroom, Clamp, LastOf;
    var ds := TrainingDurations(Usable(job, runs));
    RecentTrains(ds, cfg.historyWindow);
    P95IsOne(LastOf(ds, cfg.historyWindow));
    BoundedHeadroom(EstimateFor(job, runs, cfg).p95, cfg);
  }

  lemma RecentTrains(ds: seq<Dur>, n: nat)
    ensures |LastOf(ds, n)| == Min(|ds|, n) && forall d :: d in LastOf(ds, n) ==> d in ds
  {
  }

  lemma BoundedHeadroom(p95: Dur, cfg: Config)
    requires p95 > 0 && cfg.ceilingMultiplier >= 1.0 && cfg.minCeiling <= cfg.maxCeiling
    ensures var raw := p95 as real * cfg.ceilingMultiplier;
            var c := Clamp(WithHeadroom(p95, cfg), cfg.minCeiling, cfg.maxCeiling);
            && (cfg.minCeiling as real <= raw <= cfg.maxCeiling as real ==> c as real <= raw < c as real + 1.0)
            && (raw < cfg.minCeiling as real ==> c == cfg.minCeiling)
            && (raw > cfg.maxCeiling as real ==> c == cfg.maxCeiling)
            && c >= Min(p95, cfg.maxCeiling)
  {
    Multiplied(p95, cfg.ceilingMultiplier);
    var raw := p95 as real * cfg.ceilingMultiplier;
    var n := WithHeadroom(p95, cfg);
    assert n as real <= raw < n as real + 1.0;
    assert n >= p95;
  }

  lemma P95IsOne(s: seq<Dur>)
    requires s != []
    ensures P95Of(s) in s
  {
    P95IsKthSmallest(s);
  }

  lemma Multiplied(d: Dur, m: real)
    requires d > 0 && m >= 1.0
    ensures d as real * m >= d as real && (d as real * m).Floor >= d
  {
    assert d as real * (m - 1.0) >= 0.0;
  }

  /** What one run of the history adds to the durations a job learns from, wherever
      it lies: its own, if it was seen to its end and took any time, and nothing
      else about it matters but that a job nobody can watch trusts only runs
      recorded under its own detection. */
  lemma OneRunTrains(job: Subject, before: seq<Run>, r: Run, after: seq<Run>)
    ensures var seen := r.outcome in {RanOk, RanFailed} && r.duration > 0
                        && (job.detection in {ByMark, ByPattern} || r.detection == job.detection);
            TrainingDurations(Usable(job, before + [r] + after)) ==
            TrainingDurations(Usable(job, before)) + (if seen then [r.duration] else [])
            + TrainingDurations(Usable(job, after))
  {
    hide Usable, TrainingDurations;
    UsableTraining(job, before + [r], after);
    UsableTraining(job, before, [r]);
    UsableOne(job, r);
  }

  /** What is estimated from those durations. A job nobody can watch, seen too
      seldom, keeps its explicit maximum or the fixed hold, with no statistics. An
      explicit maximum wins otherwise, beside the statistics of all the runs. And
      otherwise only the most recent count, as many as the window holds, and the
      default is used until there are enough. */
  lemma EstimateIs(job: Subject, runs: seq<Run>, cfg: Config, before: seq<Dur>, recent: seq<Dur>)
    requires cfg.historyWindow >= 0
    requires TrainingDurations(Usable(job, runs)) == before + recent
    requires |recent| == Min(|before + recent|, cfg.historyWindow)
    ensures var est, ds := EstimateFor(job, runs, cfg), before + recent;
            if job.detection.Unwatched? && |ds| < cfg.minRunsForEstimate then
              est == Estimate(if job.maxRuntime > 0 then job.maxRuntime else cfg.wakeOnlyHold, 0, 0, false)
            else if job.maxRuntime > 0 then
              est.ceiling == job.maxRuntime && !est.coldStart && Describes(est, ds)
            else
              && Describes(est, recent) && (est.coldStart <==> |recent| < cfg.minRunsForEstimate)
              && (est.coldStart ==> est.ceiling == cfg.defaultCeiling)
  {
    hide Usable, TrainingDurations, P95Of, MedianOf, KthSmallest, WithHeadroom;
    var ds := before + recent;
    assert LastOf(ds, cfg.historyWindow) == recent;
    if ds != [] {
      P95IsKthSmallest(ds);
      MedianIs(ds);
    }
    if recent != [] {
      P95IsKthSmallest(recent);
      MedianIs(recent);
    }
    NoStatistics();
  }

  lemma NoStatistics()
    ensures P95Of([]) == 0 && MedianOf([]) == 0
  {
  }

  /** The estimate's statistics are those of these durations. */
  ghost predicate Describes(est: Estimate, ds: seq<Dur>) {
    if ds == [] then est.p95 == 0 && est.typical == 0
    else KthSmallest(ds, (19 * |ds| + 19) / 20, est.p95) && IsMedian(ds, est.typical)
  }

  /** The middle duration or, of an even number, the mean of the two in the
      middle, truncated towards zero. */
  ghost predicate IsMedian(ds: seq<Dur>, m: Dur) {
    if |ds| % 2 == 1 then KthSmallest(ds, |ds| / 2 + 1, m)
    else exists a, b :: IsMiddle(ds, a, b) && IsMean(a, b, m)
  }

  ghost predicate IsMiddle(ds: seq<Dur>, a: Dur, b: Dur) {
    KthSmallest(ds, |ds| / 2, a) && KthSmallest(ds, |ds| / 2 + 1, b)
  }

  predicate IsMean(a: Dur, b: Dur, m: Dur) {
    (a + b >= 0 ==> 2 * m <= a + b <= 2 * m + 1) && (a + b < 0 ==> 2 * m - 1 <= a + b <= 2 * m)
  }

  lemma MedianIs(s: seq<Dur>)
    requires s != []
    ensures IsMedian(s, MedianOf(s))
  {
    hide Sort, KthSmallest;
    var mid := |s| / 2;
    SameLength(Sort(s), s);
    SortedKth(s, mid + 1);
    if |s| % 2 == 0 {
      SortedKth(s, mid);
      var a, b := Sort(s)[mid - 1], Sort(s)[mid];
      assert IsMiddle(s, a, b) && IsMean(a, b, MedianOf(s));
    }
  }

  /** A cold-start ceiling may exceed the maximum. */
  lemma ColdStartMayExceedMaximum()
    ensures exists cfg: Config :: (Normal(cfg)
      && EstimateFor(Subject(ByMark, 0), [], cfg).ceiling > cfg.maxCeiling)
  {
    var cfg := DEFAULT.(maxCeiling := 2 * MINUTE);
    assert Normal(cfg);
    assert TrainingDurations([]) == [];
    assert EstimateFor(Subject(ByMark, 0), [], cfg).ceiling > cfg.maxCeiling;
  }

  /** Normalize can leave a window of two runs with three required, and then
      no history is ever enough to learn from. */
  lemma NeverLearns(job: Subject, runs: seq<Run>, cfg: Config)
    requires Normal(cfg) && cfg.historyWindow < cfg.minRunsForEstimate
    ensures !Learned(job, runs, cfg)
    ensures EstimateFor(job, runs, cfg).ceiling in {job.maxRuntime, cfg.wakeOnlyHold, cfg.defaultCeiling}
  {
    hide TrainingDurations, Usable, P95Of, MedianOf, WithHeadroom;
  }

  lemma TypicalAtMostP95(job: Subject, runs: seq<Run>, cfg: Config)
    requires cfg.historyWindow >= 0
    ensures EstimateFor(job, runs, cfg).typical <= EstimateFor(job, runs, cfg).p95
  {
    hide P95Of, MedianOf, Usable;
    var ds := TrainingDurations(Usable(job, runs));
    MedianAtMostP95(ds);
    assert forall d :: d in LastOf(ds, cfg.historyWindow) ==> d in ds;
    MedianAtMostP95(LastOf(ds, cfg.historyWindow));
  }

  lemma {:induction false} TrainingAppend(a: seq<Run>, b: seq<Run>)
    ensures TrainingDurations(a + b) == TrainingDurations(a) + TrainingDurations(b)
  {
    if b == [] {
      assert a + b == a;
    } else {
      assert (a + b)[..|a + b| - 1] == a + b[..|b| - 1];
      TrainingAppend(a, b[..|b| - 1]);
    }
  }

  lemma {:induction false} UnderModeAppend(a: seq<Run>, b: seq<Run>, mode: Detection)
    ensures UnderMode(a + b, mode) == UnderMode(a, mode) + UnderMode(b, mode)
  {
    if b == [] {
      assert a + b == a;
    } else {
      assert (a + b)[..|a + b| - 1] == a + b[..|b| - 1];
      UnderModeAppend(a, b[..|b| - 1], mode);
    }
  }

  lemma UsableAppend(job: Subject, a: seq<Run>, b: seq<Run>)
    ensures Usable(job, a + b) == Usable(job, a) + Usable(job, b)
  {
    UnderModeAppend(a, b, job.detection);
  }

  lemma UsableOne(job: Subject, r: Run)
    ensures TrainingDurations(Usable(job, [r])) ==
      if Trains(r) && (job.detection.Observable() || r.detection == job.detection) then [r.duration] else []
  {
    assert [r][..0] == [];
    assert UnderMode([r], job.detection) == if r.detection == job.detection then [r] else [];
    assert TrainingDurations([r]) == if Trains(r) then [r.duration] else [];
    assert TrainingDurations([]) == [];
  }

  lemma UsableTraining(job: Subject, a: seq<Run>, b: seq<Run>)
    ensures TrainingDurations(Usable(job, a + b)) ==
      TrainingDurations(Usable(job, a)) + TrainingDurations(Usable(job, b))
  {
    hide Usable, TrainingDurations;
    UsableAppend(job, a, b);
    TrainingAppend(Usable(job, a), Usable(job, b));
  }

  /** A run that was truncated, cut out, slept through, undetected or of no
      length changes nothing, wherever in the history it lies. */
  lemma OtherRunsAreIgnored(job: Subject, before: seq<Run>, r: Run, after: seq<Run>, cfg: Config)
    requires cfg.historyWindow >= 0 && !Trains(r)
    ensures EstimateFor(job, before + [r] + after, cfg) == EstimateFor(job, before + after, cfg)
  {
    hide ComputeFrom, Usable, TrainingDurations;
    UsableTraining(job, before + [r], after);
    UsableTraining(job, before, [r]);
    UsableOne(job, r);
    UsableTraining(job, before, after);
    assert TrainingDurations(Usable(job, before)) + [] == TrainingDurations(Usable(job, before));
  }

  /** A learned ceiling forgets: once the recent runs fill the window, older
      history has no say. */
  lemma OldHistoryIsForgotten(job: Subject, old1: seq<Run>, old2: seq<Run>, recent: seq<Run>, cfg: Config)
    requires Normal(cfg) && job.maxRuntime <= 0
    requires |TrainingDurations(Usable(job, recent))| >= cfg.historyWindow
    requires cfg.minRunsForEstimate <= cfg.historyWindow
    ensures EstimateFor(job, old1 + recent, cfg) == EstimateFor(job, old2 + recent, cfg)
  {
    hide Usable, TrainingDurations, MedianOf, P95Of, WithHeadroom;
    UsableTraining(job, old1, recent);
    UsableTraining(job, old2, recent);
    var ds := TrainingDurations(Usable(job, recent));
    LastOfAppend(TrainingDurations(Usable(job, old1)), ds, cfg.historyWindow);
    LastOfAppend(TrainingDurations(Usable(job, old2)), ds, cfg.historyWindow);
  }

  lemma LastOfAppend(a: seq<Dur>, b: seq<Dur>, n: nat)
    requires |b| >= n
    ensures LastOf(a + b, n) == LastOf(b, n)
  {
    assert (a + b)[|a + b| - n..] == b[|b| - n..];
  }
}
