/** The pure arithmetic of the splitter component (components/VideoSplitter.tsx):
    the window plan walked by the scan loop of handleProcess, the analysis seek
    time, the two progress phases, the record built for a kept window, and the
    count bound of the plan. The class that runs the scan lives in VideoSplitter. */
module SplitPlan {
  import opened Common

  /** A window shorter than this, once cut at the end of the video, ends the scan. */
  const MinTailSeconds: real := 5.0
  const ProSegmentCap: nat := 200
  const FreeSegmentCap: nat := 40
  /** Share of the progress bar given to the scan phase. */
  const ScanShare: real := 40.0
  /** Analysis frames are taken this far into the window. */
  const AnalysisFraction: real := 0.2
  /** The seek never goes closer than this to the end of the video. */
  const EndGuard: real := 0.1
  const OverlapError: string := "Overlap must be smaller than duration"
  const DefaultExplanation: string := "Interesting visual content."
  const DefaultHashtags: seq<string> := ["#viral"]

  /** A planned [start, end) window; index is its position in the plan. */
  datatype Window = Window(index: nat, start: real, end: real)

  /** A window together with what the scan loop captured for it. */
  datatype Job = Job(window: Window, seekTime: real, thumbnail: string, id: string)

  function MaxSegments(isPro: bool): nat
  {
    if isPro then ProSegmentCap else FreeSegmentCap
  }

  /** The start of the k-th window: the loop's currentTime after k steps of
      `currentTime += step`. */
  function StartAt(k: nat, step: real): (t: real)
    ensures step >= 0.0 ==> t >= 0.0
  {
    if k == 0 then 0.0 else StartAt(k - 1, step) + step
  }

  /** One more step of the loop. */
  lemma NextStart(k: nat, step: real)
    ensures StartAt(k + 1, step) == StartAt(k, step) + step
  {
  }

  /** Adding the step k times gives k * step. */
  lemma {:induction false} StartAtProduct(k: nat, step: real)
    ensures StartAt(k, step) == k as real * step
  {
    if k > 0 {
      StartAtProduct(k - 1, step);
    }
  }

  /** The windows the scan loop emits from its k-th iteration on, with
      currentTime == k * step. */
  function PlanFrom(total: real, duration: real, step: real, cap: nat, k: nat): seq<Window>
    requires step > 0.0
    decreases cap - k
  {
    var start := StartAt(k, step);
    if start < total && k < cap then
      if start + duration > total then
        if total - start < MinTailSeconds then []
        else [Window(k, start, total)] + PlanFrom(total, duration, step, cap, k + 1)
      else [Window(k, start, start + duration)] + PlanFrom(total, duration, step, cap, k + 1)
    else []
  }

  /** PlanFrom unfolded once, with the start time named. */
  lemma PlanFromUnfold(total: real, duration: real, step: real, cap: nat, k: nat, start: real)
    requires step > 0.0 && start == StartAt(k, step)
    ensures PlanFrom(total, duration, step, cap, k) ==
      if start < total && k < cap then
        if start + duration > total then
          if total - start < MinTailSeconds then []
          else [Window(k, start, total)] + PlanFrom(total, duration, step, cap, k + 1)
        else [Window(k, start, start + duration)] + PlanFrom(total, duration, step, cap, k + 1)
      else []
  {
  }

  /** One iteration of the scan loop that plans a window. */
  lemma PlanStep(total: real, duration: real, step: real, cap: nat, k: nat, start: real, end: real)
    requires step > 0.0 && start == StartAt(k, step) && start < total && k < cap
    requires !(start + duration > total && total - start < MinTailSeconds)
    requires end == if start + duration > total then total else start + duration
    ensures PlanFrom(total, duration, step, cap, k)
      == [Window(k, start, end)] + PlanFrom(total, duration, step, cap, k + 1)
    ensures k < Ceil(total / step)
  {
    PlanFromUnfold(total, duration, step, cap, k, start);
    ScanIndexBelowEstimate(k, step, total);
  }

  /** The scan loop stops exactly where the plan ends. */
  lemma PlanStop(total: real, duration: real, step: real, cap: nat, k: nat, start: real)
    requires step > 0.0 && start == StartAt(k, step)
    requires start >= total || k >= cap || (start + duration > total && total - start < MinTailSeconds)
    ensures PlanFrom(total, duration, step, cap, k) == []
  {
    PlanFromUnfold(total, duration, step, cap, k, start);
  }

  function Step(o: SplitOptions): int
  {
    o.duration - o.overlap
  }

  /** The whole plan of a run, or the configuration error thrown before any
      window is planned. */
  function Plan(total: real, o: SplitOptions, isPro: bool): (r: Result<seq<Window>>)
    ensures r.Err? <==> Step(o) <= 0
    ensures r.Err? ==> r.msg == OverlapError
  {
    if Step(o) <= 0 then Err(OverlapError)
    else Ok(PlanFrom(total, o.duration as real, Step(o) as real, MaxSegments(isPro), 0))
  }

  /** What the k-th planned window is: it starts at k * step before the end of
      the video, ends at start + duration cut to the end of the video, and a cut
      window is at least MinTailSeconds long. */
  ghost predicate WindowAt(w: Window, k: nat, total: real, duration: real, step: real)
  {
    && w.index == k
    && w.start == StartAt(k, step)
    && w.start < total
    && w.end == MinReal(w.start + duration, total)
    && (w.end < w.start + duration ==> w.end - w.start >= MinTailSeconds)
  }

  /** Why the scan loop stopped after planning window n - 1. */
  ghost predicate StopsAt(n: nat, total: real, duration: real, step: real, cap: nat)
  {
    var start := StartAt(n, step);
    n >= cap || start >= total || (start + duration > total && total - start < MinTailSeconds)
  }

  /** Every planned window is the window of its position, and the plan stops
      only where the scan loop stops. */
  lemma PlanFromShape(total: real, duration: real, step: real, cap: nat, k: nat)
    requires step > 0.0
    ensures var ws := PlanFrom(total, duration, step, cap, k);
      && (ws != [] ==> k + |ws| <= cap)
      && (forall i :: 0 <= i < |ws| ==> WindowAt(ws[i], k + i, total, duration, step))
      && StopsAt(k + |ws|, total, duration, step, cap)
  {
    PlanFromWindows(total, duration, step, cap, k);
    PlanFromStops(total, duration, step, cap, k);
  }

  lemma {:induction false} PlanFromWindows(total: real, duration: real, step: real, cap: nat, k: nat)
    requires step > 0.0
    ensures var ws := PlanFrom(total, duration, step, cap, k);
      && (ws != [] ==> k + |ws| <= cap)
      && (forall i :: 0 <= i < |ws| ==> WindowAt(ws[i], k + i, total, duration, step))
    decreases cap - k
  {
    var ws := PlanFrom(total, duration, step, cap, k);
    var start := StartAt(k, step);
    if start < total && k < cap && !(start + duration > total && total - start < MinTailSeconds) {
      var rest := PlanFrom(total, duration, step, cap, k + 1);
      PlanFromWindows(total, duration, step, cap, k + 1);
      assert ws == [ws[0]] + rest;
      assert WindowAt(ws[0], k, total, duration, step);
      forall i | 1 <= i < |ws| ensures WindowAt(ws[i], k + i, total, duration, step) {
        assert ws[i] == rest[i - 1];
      }
    }
  }

  lemma {:induction false} PlanFromStops(total: real, duration: real, step: real, cap: nat, k: nat)
    requires step > 0.0
    ensures StopsAt(k + |PlanFrom(total, duration, step, cap, k)|, total, duration, step, cap)
    decreases cap - k
  {
    var start := StartAt(k, step);
    if start < total && k < cap && !(start + duration > total && total - start < MinTailSeconds) {
      PlanFromStops(total, duration, step, cap, k + 1);
      assert |PlanFrom(total, duration, step, cap, k)| == 1 + |PlanFrom(total, duration, step, cap, k + 1)|;
    }
  }

  /** The bounds every planned window keeps. */
  ghost predicate WindowBounds(w: Window, i: nat, total: real, o: SplitOptions)
  {
    && w.index == i
    && w.start == StartAt(i, Step(o) as real)
    && 0.0 <= w.start < w.end <= total
    && w.end - w.start <= o.duration as real
    && (w.end - w.start < o.duration as real ==>
          w.start + o.duration as real > total && w.end == total
          && w.end - w.start >= MinTailSeconds)
  }

  /** The arithmetic of one window, apart from the plan it belongs to. */
  lemma WindowAtBounds(w: Window, k: nat, total: real, o: SplitOptions)
    requires Step(o) > 0 && WindowAt(w, k, total, o.duration as real, Step(o) as real)
    ensures WindowBounds(w, k, total, o)
  {
    var d := o.duration as real;
    assert w.start >= 0.0;
    assert w.end == MinReal(w.start + d, total);
  }

  /** Every window of ws keeps the bounds of its position. */
  ghost predicate AllBounded(ws: seq<Window>, total: real, o: SplitOptions)
  {
    forall i :: 0 <= i < |ws| ==> WindowBounds(ws[i], i, total, o)
  }

  /** Bounds of every planned window: 0 <= start < end <= total and
      end - start <= duration; a window is cut only when start + duration
      runs past the end of the video, and a cut window is at least 5 s long. */
  lemma PlanWindowBounds(total: real, o: SplitOptions, isPro: bool)
    requires Plan(total, o, isPro).Ok?
    ensures AllBounded(Plan(total, o, isPro).value, total, o)
  {
    PlanFromBounds(total, o, MaxSegments(isPro));
  }

  lemma PlanFromBounds(total: real, o: SplitOptions, cap: nat)
    requires Step(o) > 0
    ensures AllBounded(PlanFrom(total, o.duration as real, Step(o) as real, cap, 0), total, o)
  {
    var ws := PlanFrom(total, o.duration as real, Step(o) as real, cap, 0);
    PlanFromWindows(total, o.duration as real, Step(o) as real, cap, 0);
    forall i | 0 <= i < |ws| ensures WindowBounds(ws[i], i, total, o) {
      WindowAtBounds(ws[i], 0 + i, total, o);
    }
  }

  /** a * step < total with a positive step gives a < total / step. */
  lemma BelowQuotient(a: real, step: real, total: real)
    requires step > 0.0 && a * step < total
    ensures a < total / step
  {
    var q := total / step;
    assert q * step == total;
    if a >= q {
      assert a * step >= q * step;
    }
  }

  /** No more windows than the tier cap allows, and no more than
      ceil(total / step) (the estimated count of handleProcess). */
  lemma PlanCount(total: real, o: SplitOptions, isPro: bool)
    requires total >= 0.0 && Plan(total, o, isPro).Ok?
    ensures var n := |Plan(total, o, isPro).value|;
      n <= MaxSegments(isPro) && n <= Ceil(total / Step(o) as real)
  {
    var step := Step(o) as real;
    var ws := Plan(total, o, isPro).value;
    PlanFromWindows(total, o.duration as real, step, MaxSegments(isPro), 0);
    if ws != [] {
      var k := |ws| - 1;
      assert WindowAt(ws[k], k, total, o.duration as real, step);
      WindowBelowEstimate(ws[k], k, total, o.duration as real, step);
    } else {
      QuotientNonNegative(total, step);
    }
  }

  lemma WindowBelowEstimate(w: Window, k: nat, total: real, d: real, step: real)
    requires WindowAt(w, k, total, d, step) && step > 0.0
    ensures k < Ceil(total / step)
  {
    ScanIndexBelowEstimate(k, step, total);
  }

  lemma QuotientNonNegative(total: real, step: real)
    requires total >= 0.0 && step > 0.0
    ensures Ceil(total / step) >= 0
  {
  }

  /** Window k of the plan is scanned before the estimate is reached:
      k < ceil(total / step). */
  lemma ScanIndexBelowEstimate(k: nat, step: real, total: real)
    requires step > 0.0 && StartAt(k, step) < total
    ensures k < Ceil(total / step)
  {
    StartAtProduct(k, step);
    BelowQuotient(k as real, step, total);
  }

  /** The frame analysed for a window: 20 % into it, kept 0.1 s short of
      the end of the video. */
  function SeekTime(w: Window, total: real): real
  {
    MinReal(w.start + (w.end - w.start) * AnalysisFraction, total - EndGuard)
  }

  /** For every planned window the analysis frame lies inside the window. */
  lemma SeekTimeInWindow(total: real, o: SplitOptions, isPro: bool, i: nat)
    requires Plan(total, o, isPro).Ok? && i < |Plan(total, o, isPro).value|
    ensures var w := Plan(total, o, isPro).value[i];
      w.start <= SeekTime(w, total) < w.end && SeekTime(w, total) <= total - EndGuard
  {
    PlanFromWindows(total, o.duration as real, Step(o) as real, MaxSegments(isPro), 0);
  }

  /** Scan-phase progress of the k-th iteration: round(k / estimated * 40). */
  function ScanProgress(k: nat, estimated: int): (p: int)
    requires k < estimated
    ensures 0 <= p <= 40
  {
    var frac := k as real / estimated as real;
    assert frac * estimated as real == k as real;
    assert frac < 1.0;
    Round(frac * ScanShare)
  }

  /** Analysis-phase progress: min(99, 40 + round(completed / estimated * 60)). */
  function AnalysisProgress(completed: nat, estimated: int): (p: int)
    requires estimated > 0
    ensures 40 <= p <= 99
  {
    var frac := completed as real / estimated as real;
    assert frac >= 0.0;
    MinInt(99, 40 + Round(frac * 60.0))
  }

  /** The record of a window kept after analysis. */
  function SegmentOf(j: Job, a: Analysis, isLandscape: bool): (s: SplitSegment)
    ensures s.index == j.window.index && s.startTime == j.window.start && s.endTime == j.window.end
    ensures s.duration == s.endTime - s.startTime
    ensures s.viralScore == a.viralScore && s.hasWatermark
    ensures s.id == j.id && s.thumbnail == j.thumbnail && s.isLandscape == isLandscape
    ensures s.title == a.title && s.description == a.description
    ensures a.explanation != "" ==> s.explanation == a.explanation
    ensures a.explanation == "" ==> s.explanation == DefaultExplanation
    ensures a.hashtags.Some? ==> s.hashtags == a.hashtags.value
    ensures a.hashtags.None? ==> s.hashtags == DefaultHashtags
  {
    SplitSegment(
      j.id, j.window.index, j.window.start, j.window.end, j.window.end - j.window.start,
      a.title, a.description,
      if a.explanation == "" then DefaultExplanation else a.explanation,
      match a.hashtags case Some(tags) => tags case None => DefaultHashtags,
      a.viralScore, j.thumbnail, isLandscape, true)
  }

  /** One finished analysis: the plan position of its window and its result. */
  datatype Completion = Completion(job: nat, analysis: Analysis)

  ghost predicate JobsIn(done: seq<Completion>, n: nat)
  {
    forall i :: 0 <= i < |done| ==> done[i].job < n
  }

  ghost predicate DistinctJobs(done: seq<Completion>)
  {
    forall i, j :: 0 <= i < j < |done| ==> done[i].job != done[j].job
  }

  /** The threshold test of the completion handler. */
  predicate Passes(a: Analysis, minScore: int)
  {
    a.viralScore >= minScore as real
  }

  /** The segments list after the analyses in `done` completed in that order:
      each one that passes the threshold appends its segment. */
  function Kept(jobs: seq<Job>, done: seq<Completion>, minScore: int, isLandscape: bool): (r: seq<SplitSegment>)
    requires JobsIn(done, |jobs|)
  {
    if done == [] then []
    else
      var c := done[|done| - 1];
      Kept(jobs, done[..|done| - 1], minScore, isLandscape)
      + (if Passes(c.analysis, minScore) then [SegmentOf(jobs[c.job], c.analysis, isLandscape)] else [])
  }

  /** One more completion appends at most its own segment. */
  lemma KeptAppend(jobs: seq<Job>, done: seq<Completion>, c: Completion, minScore: int, isLandscape: bool)
    requires JobsIn(done, |jobs|) && c.job < |jobs|
    ensures JobsIn(done + [c], |jobs|)
    ensures Kept(jobs, done + [c], minScore, isLandscape) == Kept(jobs, done, minScore, isLandscape)
      + (if Passes(c.analysis, minScore) then [SegmentOf(jobs[c.job], c.analysis, isLandscape)] else [])
  {
    assert (done + [c])[..|done|] == done;
  }

  /** A segment is kept iff some completed analysis reached the threshold and
      the segment is built from that analysis and its window. */
  lemma {:induction false} KeptMembers(jobs: seq<Job>, done: seq<Completion>, minScore: int, isLandscape: bool, s: SplitSegment)
    requires JobsIn(done, |jobs|)
    ensures s in Kept(jobs, done, minScore, isLandscape) <==>
      exists i :: 0 <= i < |done| && Passes(done[i].analysis, minScore)
        && s == SegmentOf(jobs[done[i].job], done[i].analysis, isLandscape)
    decreases |done|
  {
    if done != [] {
      var init := done[..|done| - 1];
      KeptMembers(jobs, init, minScore, isLandscape, s);
      var c := done[|done| - 1];
      if s in Kept(jobs, done, minScore, isLandscape) && s !in Kept(jobs, init, minScore, isLandscape) {
        assert Passes(c.analysis, minScore) && s == SegmentOf(jobs[c.job], c.analysis, isLandscape);
      }
      if exists i :: 0 <= i < |done| && Passes(done[i].analysis, minScore)
          && s == SegmentOf(jobs[done[i].job], done[i].analysis, isLandscape) {
        var i :| 0 <= i < |done| && Passes(done[i].analysis, minScore)
          && s == SegmentOf(jobs[done[i].job], done[i].analysis, isLandscape);
        if i < |done| - 1 {
          assert init[i] == done[i];
        }
      }
    }
  }

  /** Every kept segment carries its window's plan position, and no position
      is kept twice: at most one segment per window. */
  lemma {:induction false} KeptIndexes(jobs: seq<Job>, done: seq<Completion>, minScore: int, isLandscape: bool)
    requires JobsIn(done, |jobs|) && DistinctJobs(done)
    requires forall k :: 0 <= k < |jobs| ==> jobs[k].window.index == k
    ensures var r := Kept(jobs, done, minScore, isLandscape);
      && |r| <= |done|
      && (forall i :: 0 <= i < |r| ==> r[i].index < |jobs|)
      && (forall i, j :: 0 <= i < j < |r| ==> r[i].index != r[j].index)
      && (forall i :: 0 <= i < |r| ==> exists m :: 0 <= m < |done| && done[m].job == r[i].index)
    decreases |done|
  {
    if done != [] {
      var init := done[..|done| - 1];
      var c := done[|done| - 1];
      KeptIndexes(jobs, init, minScore, isLandscape);
      var before := Kept(jobs, init, minScore, isLandscape);
      var r := Kept(jobs, done, minScore, isLandscape);
      forall i | 0 <= i < |r| ensures exists m :: 0 <= m < |done| && done[m].job == r[i].index {
        if i < |before| {
          var m :| 0 <= m < |init| && init[m].job == before[i].index;
          assert done[m].job == r[i].index;
        } else {
          assert done[|done| - 1].job == r[i].index;
        }
      }
      if Passes(c.analysis, minScore) {
        forall i | 0 <= i < |before| ensures before[i].index != c.job {
          var m :| 0 <= m < |init| && init[m].job == before[i].index;
          assert done[m] == init[m];
        }
      }
    }
  }

  /** Distinct plan positions below n number at most n. */
  lemma DistinctJobsBound(done: seq<Completion>, n: nat)
    requires JobsIn(done, n) && DistinctJobs(done)
    ensures |done| <= n
  {
    var keys := set c | c in done :: c.job;
    var range := set k: nat | k in Upto(n);
    forall c | c in done ensures c.job in Upto(n) {
      assert Upto(n)[c.job] == c.job;
    }
    assert keys <= range;
    DistinctKeysSize(done);
    assert |keys| == |done|;
    DistinctSize(Upto(n));
    assert |range| == n;
    SubsetSize(keys, range);
  }

  function Upto(n: nat): (r: seq<nat>)
    ensures |r| == n && forall i :: 0 <= i < n ==> r[i] == i
  {
    seq(n, i requires 0 <= i < n => i)
  }

  lemma {:induction false} DistinctSize(s: seq<nat>)
    requires forall i, j :: 0 <= i < j < |s| ==> s[i] != s[j]
    ensures |set x: nat | x in s| == |s|
    decreases |s|
  {
    if s != [] {
      var init := s[..|s| - 1];
      DistinctSize(init);
      var a := set x: nat | x in init;
      assert (set x: nat | x in s) == a + {s[|s| - 1]};
      assert s[|s| - 1] !in a;
      assert |a + {s[|s| - 1]}| == |a| + 1;
    }
  }

  lemma {:induction false} DistinctKeysSize(done: seq<Completion>)
    requires DistinctJobs(done)
    ensures |set c | c in done :: c.job| == |done|
    decreases |done|
  {
    if done != [] {
      var init := done[..|done| - 1];
      DistinctKeysSize(init);
      var last := done[|done| - 1];
      assert (set c | c in done :: c.job) == (set c | c in init :: c.job) + {last.job};
      forall c | c in init ensures c.job != last.job {
        var m :| 0 <= m < |init| && init[m] == c;
        assert done[m] == c;
      }
    }
  }

  lemma SubsetSize(a: set<nat>, b: set<nat>)
    requires a <= b
    ensures |a| <= |b|
  {
    assert b == a + (b - a);
  }

  /** Every analysis done, the splitter reports usage equal to the number of
      planned windows, which bounds the number kept. */
  lemma KeptBelowPlanned(jobs: seq<Job>, done: seq<Completion>, minScore: int, isLandscape: bool)
    requires JobsIn(done, |jobs|) && DistinctJobs(done)
    requires forall k :: 0 <= k < |jobs| ==> jobs[k].window.index == k
    ensures |Kept(jobs, done, minScore, isLandscape)| <= |jobs|
  {
    KeptIndexes(jobs, done, minScore, isLandscape);
    DistinctJobsBound(done, |jobs|);
  }
}
