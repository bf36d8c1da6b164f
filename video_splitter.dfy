/** The splitter component (components/VideoSplitter.tsx): the clock text of
    formatTime, the file names of the batch export, and the Splitter class
    whose methods are the component's handlers: choosing a file, the scan
    loop of handleProcess, the completion of each frame analysis, the end of
    the run, the re-sort, and handleExportAll. */
module VideoSplitter {
  import opened Common
  import opened Text
  import opened SplitPlan
  import opened SegmentSort

  /* ---------------------------------------------------------------- */
  /* formatTime                                                        */
  /* ---------------------------------------------------------------- */

  /** Math.trunc: rounds toward zero. */
  function Trunc(x: real): (r: int)
    ensures x >= 0.0 ==> r == x.Floor
    ensures x < 0.0 ==> x <= r as real < x + 1.0
  {
    if x >= 0.0 then x.Floor else -((-x).Floor)
  }

  /** JavaScript `x % m` on numbers: the remainder has the sign of x. */
  function JsRemainder(x: real, m: real): real
    requires m != 0.0
  {
    x - m * Trunc(x / m) as real
  }

  /** formatTime: minutes, a colon, and the seconds padded to two digits;
      0 (and NaN, which is not modelled) gives '0:00'. */
  function FormatTime(seconds: real): string
  {
    if seconds == 0.0 then "0:00"
    else IntText((seconds / 60.0).Floor) + ":" + PadStart2(IntText(JsRemainder(seconds, 60.0).Floor))
  }

  /** The clock text of a whole number of seconds. */
  function ClockText(n: nat): string
  {
    NatText(n / 60) + ":" + PadStart2(NatText(n % 60))
  }

  /** Reads a clock text back into seconds: digits, a colon, two digits. */
  function ParseClock(t: string): Option<nat>
  {
    var c := IndexOf(t, ':');
    if c == |t| then None
    else
      var mm := t[..c];
      var ss := t[c + 1..];
      if mm != [] && AllDigits(mm) && |ss| == 2 && AllDigits(ss)
      then Some(DigitsValue(mm) * 60 + DigitsValue(ss))
      else None
  }

  /** For a non-negative time formatTime shows the whole seconds only. */
  lemma FormatTimeWholeSeconds(x: real)
    requires x >= 0.0
    ensures FormatTime(x) == ClockText(x.Floor)
  {
    var n := x.Floor;
    if x == 0.0 {
      assert NatText(0) == "0";
      assert ClockText(0) == "0" + ":" + "00";
    } else {
      var q := n / 60;
      var r := n % 60;
      MinutesOf(x);
      assert (x / 60.0).Floor == q;
      assert Trunc(x / 60.0) == q;
      assert JsRemainder(x, 60.0).Floor == r;
    }
  }

  lemma MinutesOf(x: real)
    requires x >= 0.0
    ensures (x / 60.0).Floor == x.Floor / 60
    ensures (x - 60.0 * (x.Floor / 60) as real).Floor == x.Floor % 60
  {
    var n := x.Floor;
    var q := n / 60;
    var r := n % 60;
    assert n == 60 * q + r;
    assert n as real <= x < n as real + 1.0;
    assert q as real * 60.0 <= x;
    assert x < (q + 1) as real * 60.0;
    assert q as real <= x / 60.0 < (q + 1) as real;
    assert r as real <= x - 60.0 * q as real < r as real + 1.0;
  }

  lemma NatTextSmall(r: nat)
    requires r < 100
    ensures |NatText(r)| == if r < 10 then 1 else 2
  {
  }

  /** The two-digit seconds field reads back as the seconds. */
  lemma SecondsRoundTrip(r: nat)
    requires r < 60
    ensures var ss := PadStart2(NatText(r));
      |ss| == 2 && AllDigits(ss) && DigitsValue(ss) == r
  {
    NatTextSmall(r);
    var ss := PadStart2(NatText(r));
    if r < 10 {
      assert ss == ['0', DigitChar(r)];
      assert ss[..1] == "0";
      assert DigitsValue(ss[..1]) == 0 by {
        assert ss[..1][..0] == [];
      }
    } else {
      NatTextRoundTrip(r);
    }
  }

  /** Reading the clock text gives back the whole seconds. */
  lemma ClockRoundTrip(n: nat)
    ensures ParseClock(ClockText(n)) == Some(n)
  {
    var mm := NatText(n / 60);
    var ss := PadStart2(NatText(n % 60));
    var t := ClockText(n);
    assert t == mm + [':'] + ss;
    IndexOfAfter(mm, ':', ss);
    assert t[..|mm|] == mm;
    assert t[|mm| + 1..] == ss;
    SecondsRoundTrip(n % 60);
    NatTextRoundTrip(n / 60);
  }

  /** Two non-negative times show the same text iff they agree in whole seconds. */
  lemma FormatTimeSameText(x: real, y: real)
    requires x >= 0.0 && y >= 0.0
    ensures FormatTime(x) == FormatTime(y) <==> x.Floor == y.Floor
  {
    FormatTimeWholeSeconds(x);
    FormatTimeWholeSeconds(y);
    ClockRoundTrip(x.Floor);
    ClockRoundTrip(y.Floor);
  }

  /* ---------------------------------------------------------------- */
  /* Batch export file names                                           */
  /* ---------------------------------------------------------------- */

  const ExportPrefix: string := "instasplit-"
  const ExportSlugLength: nat := 15

  /** The title with whitespace runs turned into '-', cut to 15 characters. */
  function ExportSlug(title: string): (r: string)
    ensures NoSpace(r) && |r| <= ExportSlugLength
    ensures |r| <= |Dashify(title)| && r == Dashify(title)[..|r|]
  {
    DashifyNoSpace(title);
    Take(Dashify(title), ExportSlugLength)
  }

  /** The download name of the export at 1-based position `position`. */
  function ExportFileName(position: nat, title: string): string
  {
    ExportPrefix + NatText(position) + "-" + ExportSlug(title) + ".mp4"
  }

  /** The position written into an export file name, if it is one. */
  function ExportPosition(name: string): Option<nat>
  {
    if !StartsWith(name, ExportPrefix) then None
    else
      var rest := name[|ExportPrefix|..];
      var c := IndexOf(rest, '-');
      if 0 < c < |rest| && AllDigits(rest[..c]) then Some(DigitsValue(rest[..c])) else None
  }

  /** The position reads back from the file name, whatever the title. */
  lemma ExportPositionRoundTrip(position: nat, title: string)
    ensures ExportPosition(ExportFileName(position, title)) == Some(position)
  {
    var name := ExportFileName(position, title);
    var digits := NatText(position);
    var tail := ExportSlug(title) + ".mp4";
    assert name == ExportPrefix + (digits + ['-'] + tail);
    assert name[..|ExportPrefix|] == ExportPrefix;
    var rest := name[|ExportPrefix|..];
    assert rest == digits + ['-'] + tail;
    IndexOfAfter(digits, '-', tail);
    assert rest[..|digits|] == digits;
    NatTextRoundTrip(position);
  }

  /** Exports at different positions never share a file name. */
  lemma ExportFileNamesDiffer(p: nat, q: nat, t1: string, t2: string)
    requires p != q
    ensures ExportFileName(p, t1) != ExportFileName(q, t2)
  {
    ExportPositionRoundTrip(p, t1);
    ExportPositionRoundTrip(q, t2);
  }

  /** The indexes of the items whose render succeeds, in order. */
  function Successes(items: seq<SplitSegment>, ok: SplitSegment -> bool): (r: seq<nat>)
    ensures forall j :: 0 <= j < |r| ==> r[j] < |items| && ok(items[r[j]])
    ensures forall j, m :: 0 <= j < m < |r| ==> r[j] < r[m]
  {
    if items == [] then []
    else
      var n := |items|;
      var before := Successes(items[..n - 1], ok);
      assert forall j :: 0 <= j < |before| ==> items[before[j]] == items[..n - 1][before[j]];
      before + (if ok(items[n - 1]) then [n - 1] else [])
  }

  /** Every item whose render succeeds is among the successes. */
  lemma {:induction false} SuccessesComplete(items: seq<SplitSegment>, ok: SplitSegment -> bool, i: nat)
    requires i < |items| && ok(items[i])
    ensures i in Successes(items, ok)
    decreases |items|
  {
    var n := |items|;
    if i < n - 1 {
      assert items[..n - 1][i] == items[i];
      SuccessesComplete(items[..n - 1], ok, i);
    }
  }

  /** The export file names of the items at the given indexes. */
  function NamesAt(items: seq<SplitSegment>, ps: seq<nat>): (r: seq<string>)
    requires forall j :: 0 <= j < |ps| ==> ps[j] < |items|
    ensures |r| == |ps|
    ensures forall j :: 0 <= j < |ps| ==> r[j] == ExportFileName(ps[j] + 1, items[ps[j]].title)
  {
    seq(|ps|, j requires 0 <= j < |ps| => ExportFileName(ps[j] + 1, items[ps[j]].title))
  }

  /** The names downloaded by an export of `items`, given which renders
      succeed: position i + 1 for each successful item i, in order. */
  function ExportNames(items: seq<SplitSegment>, ok: SplitSegment -> bool): seq<string>
  {
    NamesAt(items, Successes(items, ok))
  }

  /** Some item whose render succeeds is exported under `name`. */
  ghost predicate ExportedAt(items: seq<SplitSegment>, ok: SplitSegment -> bool, name: string)
  {
    exists i :: 0 <= i < |items| && ok(items[i]) && name == ExportFileName(i + 1, items[i].title)
  }

  /** A name is downloaded iff the render of the item at its position succeeds;
      a failed render is skipped and the following items are still exported. */
  lemma ExportNamesMembers(items: seq<SplitSegment>, ok: SplitSegment -> bool, name: string)
    ensures name in ExportNames(items, ok) <==> ExportedAt(items, ok, name)
  {
    if name in ExportNames(items, ok) {
      ExportNamesSound(items, ok, name);
    }
    if ExportedAt(items, ok, name) {
      var i := ExportedIndex(items, ok, name);
      ExportNamesComplete(items, ok, i);
    }
  }

  /** Each downloaded name is that of a successful render. */
  lemma ExportNamesSound(items: seq<SplitSegment>, ok: SplitSegment -> bool, name: string)
    requires name in ExportNames(items, ok)
    ensures ExportedAt(items, ok, name)
  {
    var ps := Successes(items, ok);
    var r := ExportNames(items, ok);
    var j :| 0 <= j < |r| && r[j] == name;
    ExportedAtWitness(items, ok, name, ps[j]);
  }

  /** Every item whose render succeeds is downloaded under the name of its position. */
  lemma ExportNamesComplete(items: seq<SplitSegment>, ok: SplitSegment -> bool, i: nat)
    requires i < |items| && ok(items[i])
    ensures ExportFileName(i + 1, items[i].title) in ExportNames(items, ok)
  {
    var ps := Successes(items, ok);
    SuccessesComplete(items, ok, i);
    var j :| 0 <= j < |ps| && ps[j] == i;
    NameAtIndex(items, ps, j);
  }

  lemma NameAtIndex(items: seq<SplitSegment>, ps: seq<nat>, j: nat)
    requires forall m :: 0 <= m < |ps| ==> ps[m] < |items|
    requires j < |ps|
    ensures ExportFileName(ps[j] + 1, items[ps[j]].title) in NamesAt(items, ps)
  {
    var r := NamesAt(items, ps);
    assert r[j] == ExportFileName(ps[j] + 1, items[ps[j]].title);
  }

  /** The position a name is exported from. */
  lemma ExportedIndex(items: seq<SplitSegment>, ok: SplitSegment -> bool, name: string) returns (i: nat)
    requires ExportedAt(items, ok, name)
    ensures i < |items| && ok(items[i]) && name == ExportFileName(i + 1, items[i].title)
  {
    i :| 0 <= i < |items| && ok(items[i]) && name == ExportFileName(i + 1, items[i].title);
  }

  lemma ExportedAtWitness(items: seq<SplitSegment>, ok: SplitSegment -> bool, name: string, i: nat)
    requires i < |items| && ok(items[i]) && name == ExportFileName(i + 1, items[i].title)
    ensures ExportedAt(items, ok, name)
  {
  }

  /** Every downloaded name is different from the others. */
  lemma ExportNamesDistinct(items: seq<SplitSegment>, ok: SplitSegment -> bool)
    ensures var r := ExportNames(items, ok);
      forall i, j :: 0 <= i < j < |r| ==> r[i] != r[j]
  {
    var r := ExportNames(items, ok);
    forall i, j | 0 <= i < j < |r| ensures r[i] != r[j] {
      ExportNamesDiffer(items, ok, i, j);
    }
  }

  lemma ExportNamesDiffer(items: seq<SplitSegment>, ok: SplitSegment -> bool, i: nat, j: nat)
    requires i < j < |Successes(items, ok)|
    ensures ExportNames(items, ok)[i] != ExportNames(items, ok)[j]
  {
    var ps := Successes(items, ok);
    ExportFileNamesDiffer(ps[i] + 1, ps[j] + 1, items[ps[i]].title, items[ps[j]].title);
  }

  /** One renderClip call of the export: clip start, clip end, crop ratio. */
  datatype RenderCall = RenderCall(start: real, end: real, ratio: SplitAspectRatio)

  /** The renders the export asks for: every item, in order. */
  function RenderCalls(items: seq<SplitSegment>, ratio: SplitAspectRatio): (r: seq<RenderCall>)
    ensures |r| == |items|
    ensures forall i :: 0 <= i < |items| ==>
      r[i] == RenderCall(items[i].startTime, items[i].endTime, ratio)
  {
    seq(|items|, i requires 0 <= i < |items| => RenderCall(items[i].startTime, items[i].endTime, ratio))
  }

  /** The loop of handleExportAll: item i first shows the progress
      `i + 1 of n`, is rendered, then downloaded as position i + 1 when the
      render succeeds; a failure skips only that item. */
  method ExportAll(items: seq<SplitSegment>, ratio: SplitAspectRatio, ok: SplitSegment -> bool)
    returns (calls: seq<RenderCall>, names: seq<string>, shown: seq<ExportProgress>)
    ensures calls == RenderCalls(items, ratio)
    ensures names == ExportNames(items, ok)
    ensures |shown| == |items|
    ensures forall i :: 0 <= i < |shown| ==> shown[i] == ExportProgress(i + 1, |items|)
  {
    calls, names, shown := [], [], [];
    var i := 0;
    while i < |items|
      invariant 0 <= i <= |items|
      invariant calls == RenderCalls(items[..i], ratio)
      invariant names == ExportNames(items[..i], ok)
      invariant |shown| == i
      invariant forall j :: 0 <= j < i ==> shown[j] == ExportProgress(j + 1, |items|)
    {
      var seg := items[i];
      shown := shown + [ExportProgress(i + 1, |items|)];
      calls := calls + [RenderCall(seg.startTime, seg.endTime, ratio)];
      if ok(seg) {
        names := names + [ExportFileName(i + 1, seg.title)];
      }
      ExportStep(items, ok, i);
      RenderCallsStep(items, ratio, i);
      i := i + 1;
    }
    assert items[..i] == items;
  }

  lemma RenderCallsStep(items: seq<SplitSegment>, ratio: SplitAspectRatio, i: nat)
    requires i < |items|
    ensures RenderCalls(items[..i + 1], ratio)
      == RenderCalls(items[..i], ratio) + [RenderCall(items[i].startTime, items[i].endTime, ratio)]
  {
    var a := RenderCalls(items[..i + 1], ratio);
    var b := RenderCalls(items[..i], ratio) + [RenderCall(items[i].startTime, items[i].endTime, ratio)];
    forall j | 0 <= j < |a| ensures a[j] == b[j] {
      assert items[..i + 1][j] == items[j];
    }
  }

  lemma ExportStep(items: seq<SplitSegment>, ok: SplitSegment -> bool, i: nat)
    requires i < |items|
    ensures ExportNames(items[..i + 1], ok)
      == ExportNames(items[..i], ok) + (if ok(items[i]) then [ExportFileName(i + 1, items[i].title)] else [])
  {
    var ps := Successes(items[..i], ok);
    var ps1 := Successes(items[..i + 1], ok);
    SuccessesStep(items, ok, i);
    NamesAtPrefix(items, i, ps);
    NamesAtPrefix(items, i + 1, ps1);
    if ok(items[i]) {
      NamesAtSnoc(items, ps, i);
    }
  }

  /** Names read from a prefix of the items are those read from the whole list. */
  lemma NamesAtPrefix(items: seq<SplitSegment>, n: nat, ps: seq<nat>)
    requires n <= |items| && forall j :: 0 <= j < |ps| ==> ps[j] < n
    ensures NamesAt(items[..n], ps) == NamesAt(items, ps)
  {
    var a, b := NamesAt(items[..n], ps), NamesAt(items, ps);
    forall j | 0 <= j < |ps| ensures a[j] == b[j] {
      assert items[..n][ps[j]] == items[ps[j]];
    }
  }

  lemma NamesAtSnoc(items: seq<SplitSegment>, ps: seq<nat>, i: nat)
    requires i < |items| && forall j :: 0 <= j < |ps| ==> ps[j] < |items|
    ensures NamesAt(items, ps + [i]) == NamesAt(items, ps) + [ExportFileName(i + 1, items[i].title)]
  {
    var a, b := NamesAt(items, ps + [i]), NamesAt(items, ps) + [ExportFileName(i + 1, items[i].title)];
    forall j | 0 <= j < |a| ensures a[j] == b[j] {
      if j < |ps| {
        assert (ps + [i])[j] == ps[j];
      }
    }
  }

  lemma SuccessesStep(items: seq<SplitSegment>, ok: SplitSegment -> bool, i: nat)
    requires i < |items|
    ensures Successes(items[..i + 1], ok) == Successes(items[..i], ok) + (if ok(items[i]) then [i] else [])
  {
    assert items[..i + 1][..i] == items[..i];
  }

  /* ---------------------------------------------------------------- */
  /* The component                                                     */
  /* ---------------------------------------------------------------- */

  /** The scan loop's record of window k: the analysis seek time, the frame
      captured there, and the id drawn for it. */
  function JobFor(w: Window, total: real, capture: real -> string, newId: nat -> string): (j: Job)
    ensures j.window == w && j.seekTime == SeekTime(w, total)
  {
    Job(w, SeekTime(w, total), capture(SeekTime(w, total)), newId(w.index))
  }

  function Windows(jobs: seq<Job>): (ws: seq<Window>)
    ensures |ws| == |jobs| && forall k :: 0 <= k < |jobs| ==> ws[k] == jobs[k].window
  {
    seq(|jobs|, k requires 0 <= k < |jobs| => jobs[k].window)
  }

  /** What the scan loop knows after k windows: the clock is at the k-th
      start, the jobs are the first k planned windows with their frames and
      ids, and k stays within the estimate. */
  ghost predicate ScanInv(total: real, d: real, step: real, cap: nat, estimated: int, jobs: seq<Job>,
                          k: nat, currentTime: real, capture: real -> string, newId: nat -> string)
    requires step > 0.0
  {
    && currentTime == StartAt(k, step)
    && |jobs| == k <= cap
    && Windows(jobs) + PlanFrom(total, d, step, cap, k) == PlanFrom(total, d, step, cap, 0)
    && (forall i :: 0 <= i < k ==> jobs[i] == JobFor(jobs[i].window, total, capture, newId))
    && (forall i :: 0 <= i < k ==> jobs[i].window.index == i)
    && (k > 0 ==> k <= estimated)
  }

  /** The scan loop of handleProcess: from time 0 in steps of duration -
      overlap, plan each window, cut it at the end of the video or stop on a
      tail shorter than 5 s, stop at the tier cap, and capture the frame 20 %
      into each window. Returns the jobs, the estimated count
      ceil(total / step) and the last scan-phase progress. */
  method Scan(total: real, o: SplitOptions, isPro: bool, capture: real -> string, newId: nat -> string)
    returns (jobs: seq<Job>, estimated: int, progress: int)
    requires Step(o) > 0
    ensures Windows(jobs) == Plan(total, o, isPro).value
    ensures forall k :: 0 <= k < |jobs| ==> jobs[k] == JobFor(jobs[k].window, total, capture, newId)
    ensures forall k :: 0 <= k < |jobs| ==> jobs[k].window.index == k
    ensures estimated == Ceil(total / Step(o) as real) && (|jobs| > 0 ==> |jobs| <= estimated)
    ensures 0 <= progress <= ScanShare as int
  {
    var step := (o.duration - o.overlap) as real;
    var d := o.duration as real;
    var cap := MaxSegments(isPro);
    estimated := Ceil(total / step);
    jobs := [];
    progress := 0;
    var currentTime := 0.0;
    var processed: nat := 0;
    while currentTime < total && processed < cap
      invariant ScanInv(total, d, step, cap, estimated, jobs, processed, currentTime, capture, newId)
      invariant 0 <= progress <= ScanShare as int
      decreases cap - processed
    {
      var job, shown := ScanIteration(total, d, step, cap, estimated, jobs, processed, currentTime, capture, newId);
      if job.None? {
        break;
      }
      progress := shown;
      jobs := jobs + [job.value];
      processed := processed + 1;
      currentTime := currentTime + step;
    }
    ScanDone(total, d, step, cap, estimated, jobs, processed, currentTime, capture, newId);
  }

  /** The body of one iteration of the scan loop: the window starting at
      currentTime, cut at the end of the video, with the progress shown and
      the frame captured 20 % into it; None when the remaining tail is
      shorter than 5 s and the loop breaks. */
  method ScanIteration(total: real, d: real, step: real, cap: nat, estimated: int, jobs: seq<Job>, k: nat,
                       currentTime: real, capture: real -> string, newId: nat -> string)
    returns (job: Option<Job>, progress: int)
    requires step > 0.0 && currentTime < total && k < cap
    requires estimated == Ceil(total / step)
    requires ScanInv(total, d, step, cap, estimated, jobs, k, currentTime, capture, newId)
    ensures job.None? ==> PlanFrom(total, d, step, cap, k) == []
    ensures job.Some? ==>
      && job.value.window == Window(k, currentTime, MinReal(currentTime + d, total))
      && ScanInv(total, d, step, cap, estimated, jobs + [job.value], k + 1, currentTime + step, capture, newId)
    ensures job.Some? ==> progress == ScanProgress(k, estimated) && 0 <= progress <= ScanShare as int
  {
    var start := currentTime;
    var end := start + d;
    if end > total {
      if total - start < MinTailSeconds {
        PlanStop(total, d, step, cap, k, start);
        return None, 0;
      }
      end := total;
    }
    PlanStep(total, d, step, cap, k, start, end);
    progress := ScanProgress(k, estimated);
    var w := Window(k, start, end);
    var seek := SeekTime(w, total);
    job := Some(Job(w, seek, capture(seek), newId(k)));
    ScanAdvance(total, d, step, cap, estimated, jobs, k, currentTime, capture, newId, job.value);
  }

  lemma ScanAdvance(total: real, d: real, step: real, cap: nat, estimated: int, jobs: seq<Job>, k: nat,
                    currentTime: real, capture: real -> string, newId: nat -> string, job: Job)
    requires step > 0.0 && k < cap && k < estimated
    requires ScanInv(total, d, step, cap, estimated, jobs, k, currentTime, capture, newId)
    requires job == JobFor(job.window, total, capture, newId) && job.window.index == k
    requires PlanFrom(total, d, step, cap, k) == [job.window] + PlanFrom(total, d, step, cap, k + 1)
    ensures ScanInv(total, d, step, cap, estimated, jobs + [job], k + 1, currentTime + step, capture, newId)
  {
    NextStart(k, step);
    var js := jobs + [job];
    assert Windows(js) == Windows(jobs) + [job.window];
    AppendPlanned(Windows(jobs), job.window, PlanFrom(total, d, step, cap, k + 1), PlanFrom(total, d, step, cap, 0));
    forall i | 0 <= i < k + 1
      ensures js[i] == JobFor(js[i].window, total, capture, newId) && js[i].window.index == i
    {
      if i < k {
        assert js[i] == jobs[i];
      }
    }
  }

  lemma AppendPlanned(done: seq<Window>, w: Window, rest: seq<Window>, plan: seq<Window>)
    requires done + ([w] + rest) == plan
    ensures (done + [w]) + rest == plan
  {
    assert (done + [w]) + rest == done + ([w] + rest);
  }

  lemma ScanDone(total: real, d: real, step: real, cap: nat, estimated: int, jobs: seq<Job>, k: nat,
                 currentTime: real, capture: real -> string, newId: nat -> string)
    requires step > 0.0
    requires ScanInv(total, d, step, cap, estimated, jobs, k, currentTime, capture, newId)
    requires currentTime >= total || k >= cap || PlanFrom(total, d, step, cap, k) == []
    ensures Windows(jobs) == PlanFrom(total, d, step, cap, 0)
  {
    if currentTime >= total || k >= cap {
      PlanStop(total, d, step, cap, k, currentTime);
    }
    assert Windows(jobs) + [] == Windows(jobs);
  }

  /** What the handleProcess closure of a run holds: the planned jobs, the
      estimated count ceil(total / step), the number of analyses completed,
      and the threshold and orientation read when the run started. */
  datatype Run = Run(jobs: seq<Job>, estimatedCount: int, completedCount: nat, minScore: int, isLandscape: bool)

  /** The `exportProgress` state of the batch export. */
  datatype ExportProgress = ExportProgress(current: nat, total: nat)

  /** What a run keeps consistent: every completion is of a planned window,
      no window completes twice, the completion counter counts them, and the
      segments shown are those kept from the completions since the list was
      last emptied. */
  ghost predicate RunState(run: Run, done: seq<Completion>, since: nat, segments: seq<SplitSegment>, progress: int)
  {
    && JobsIn(done, |run.jobs|) && DistinctJobs(done)
    && (forall k :: 0 <= k < |run.jobs| ==> run.jobs[k].window.index == k)
    && since <= |done|
    && segments == Kept(run.jobs, done[since..], run.minScore, run.isLandscape)
    && run.completedCount == |done|
    && (|run.jobs| > 0 ==> run.estimatedCount >= |run.jobs|)
    && 0 <= progress <= 100
  }

  /** A run that has only planned its windows, with nothing completed yet. */
  lemma RunStateFresh(run: Run, progress: int)
    requires forall k :: 0 <= k < |run.jobs| ==> run.jobs[k].window.index == k
    requires |run.jobs| > 0 ==> run.estimatedCount >= |run.jobs|
    requires run.completedCount == 0 && 0 <= progress <= 100
    ensures RunState(run, [], 0, [], progress)
  {
    var none: seq<Completion> := [];
    assert none[0..] == [];
  }

  /** Emptying the segment list restarts what is kept from the next completion on. */
  lemma RunStateCleared(run: Run, done: seq<Completion>, since: nat, segments: seq<SplitSegment>, progress: int)
    requires RunState(run, done, since, segments, progress)
    ensures RunState(run, done, |done|, [], progress)
  {
    assert done[|done|..] == [];
  }

  /** One more analysis resolving keeps the run consistent. */
  lemma RunStateComplete(run: Run, done: seq<Completion>, since: nat, segments: seq<SplitSegment>, progress: int,
                         c: Completion)
    requires RunState(run, done, since, segments, progress)
    requires c.job < |run.jobs| && forall d :: d in done ==> d.job != c.job
    ensures run.estimatedCount > 0
    ensures RunState(run.(completedCount := run.completedCount + 1), done + [c], since,
      segments + (if Passes(c.analysis, run.minScore)
                  then [SegmentOf(run.jobs[c.job], c.analysis, run.isLandscape)] else []),
      AnalysisProgress(run.completedCount + 1, run.estimatedCount))
  {
    DistinctAppend(done, c, |run.jobs|);
    KeptTailAppend(run.jobs, done, since, c, run.minScore, run.isLandscape);
  }

  /** A completion of a job not completed before keeps the jobs distinct. */
  lemma DistinctAppend(done: seq<Completion>, c: Completion, n: nat)
    requires JobsIn(done, n) && DistinctJobs(done)
    requires c.job < n && forall d :: d in done ==> d.job != c.job
    ensures JobsIn(done + [c], n) && DistinctJobs(done + [c])
  {
    var done' := done + [c];
    forall i, j | 0 <= i < j < |done'| ensures done'[i].job != done'[j].job {
      if j == |done| {
        assert done[i] in done;
      }
    }
  }

  /** The completions since the last clearing grow by the new one. */
  lemma KeptTailAppend(jobs: seq<Job>, done: seq<Completion>, since: nat, c: Completion, minScore: int, isLandscape: bool)
    requires JobsIn(done, |jobs|) && since <= |done| && c.job < |jobs|
    ensures JobsIn((done + [c])[since..], |jobs|)
    ensures Kept(jobs, (done + [c])[since..], minScore, isLandscape)
      == Kept(jobs, done[since..], minScore, isLandscape)
         + (if Passes(c.analysis, minScore) then [SegmentOf(jobs[c.job], c.analysis, isLandscape)] else [])
  {
    var tail := done[since..];
    assert (done + [c])[since..] == tail + [c];
    KeptAppend(jobs, tail, c, minScore, isLandscape);
  }

  /** How a call of handleProcess ends its synchronous part. */
  datatype ProcessStart =
    | NoFile                // no file chosen: nothing happens
    | Failed(msg: string)   // thrown before the scan: reported through onError
    | Scanned(planned: nat) // the scan loop planned this many windows; analyses are pending

  const DefaultOptions: SplitOptions := SplitOptions(15, 0, 0, Original)

  class Splitter {
    const isPro: bool
    var options: SplitOptions
    var videoUrl: Option<string>
    var videoDuration: real
    var sortBy: SortMode
    var isProcessing: bool
    var progress: int
    var segments: seq<SplitSegment>
    /** Messages passed to onError. */
    var errors: seq<string>
    /** The closure of the latest run. */
    var run: Run
    /** The analyses of that run completed so far, in completion order. */
    ghost var done: seq<Completion>
    /** How many of them completed before `segments` was last emptied. */
    ghost var since: nat

    var isExportingAll: bool
    var exportProgress: ExportProgress
    /** The renderClip calls and the downloads of the batch export so far. */
    var renderCalls: seq<RenderCall>
    var downloads: seq<string>

    ghost predicate Valid()
      reads this
    {
      RunState(run, done, since, segments, progress)
    }

    constructor(isPro: bool)
      ensures Valid() && this.isPro == isPro && options == DefaultOptions
      ensures videoUrl == None && segments == [] && sortBy == ByTime
      ensures !isProcessing && progress == 0 && !isExportingAll
    {
      this.isPro := isPro;
      options := DefaultOptions;
      videoUrl := None;
      videoDuration := 0.0;
      sortBy := ByTime;
      isProcessing := false;
      progress := 0;
      segments := [];
      errors := [];
      run := Run([], 0, 0, 0, false);
      done := [];
      since := 0;
      isExportingAll := false;
      exportProgress := ExportProgress(0, 0);
      renderCalls := [];
      downloads := [];
      RunStateFresh(Run([], 0, 0, 0, false), 0);
    }

    /** Choosing a file: new object URL, duration unknown, no segments. */
    method HandleFileChange(url: string)
      requires Valid()
      modifies this`videoUrl, this`videoDuration, this`segments, this`since
      ensures Valid()
      ensures videoUrl == Some(url) && videoDuration == 0.0 && segments == []
    {
      RunStateCleared(run, done, since, segments, progress);
      videoUrl, videoDuration, segments := Some(url), 0.0, [];
      since := |done|;
    }

    /** The clear button: no file, no segments. */
    method ClearFile()
      requires Valid()
      modifies this`videoUrl, this`segments, this`since
      ensures Valid()
      ensures videoUrl == None && segments == []
    {
      RunStateCleared(run, done, since, segments, progress);
      videoUrl, segments := None, [];
      since := |done|;
    }

    /** onLoadedMetadata: the duration of the loaded video. */
    method HandleLoadedMetadata(duration: real)
      modifies this`videoDuration
      ensures videoDuration == duration
    {
      videoDuration := duration;
    }

    /** The option controls: duration buttons, crop buttons and the two sliders. */
    method SetOptions(o: SplitOptions)
      modifies this`options
      ensures options == o
    {
      options := o;
    }

    /** The two sort buttons. */
    method SetSortBy(mode: SortMode)
      modifies this`sortBy
      ensures sortBy == mode
    {
      sortBy := mode;
    }

    /** The synchronous part of handleProcess: reset, the step check, and the
        scan loop that plans every window and captures its analysis frame.
        `total` is the duration of the video element, `capture` the frame
        grabbed at a seek time, `newId` the UUID drawn at an iteration. */
    method StartProcess(total: real, isLandscape: bool, capture: real -> string, newId: nat -> string)
      returns (r: ProcessStart)
      requires Valid() && !isProcessing
      modifies this`isProcessing, this`progress, this`segments, this`sortBy, this`errors
      modifies this`run, this`done, this`since
      ensures Valid()
      ensures old(videoUrl).None? ==> r == NoFile && unchanged(this)
      ensures old(videoUrl).Some? ==> segments == [] && sortBy == ByTime && done == []
      ensures old(videoUrl).Some? && Step(options) <= 0 ==>
        && r == Failed(OverlapError) && errors == old(errors) + [OverlapError]
        && !isProcessing && progress == 100
      ensures old(videoUrl).Some? && Step(options) > 0 ==>
        && r == Scanned(|run.jobs|) && isProcessing && 0 <= progress <= ScanShare as int
        && errors == old(errors)
        && run.completedCount == 0 && run.minScore == options.minViralScore && run.isLandscape == isLandscape
        && Windows(run.jobs) == Plan(total, options, isPro).value
        && (forall k :: 0 <= k < |run.jobs| ==> run.jobs[k] == JobFor(run.jobs[k].window, total, capture, newId))
        && run.estimatedCount == Ceil(total / Step(options) as real)
    {
      if videoUrl.None? {
        return NoFile;
      }
      if Step(options) <= 0 {
        FailRun(isLandscape);
        return Failed(OverlapError);
      }
      var planned := ScanRun(total, isLandscape, capture, newId);
      return Scanned(planned);
    }

    /** handleProcess when the step is not positive: the reset, the thrown
        error passed to onError, and the `finally` block. */
    method FailRun(isLandscape: bool)
      requires Step(options) <= 0
      modifies this`isProcessing, this`progress, this`segments, this`sortBy, this`errors
      modifies this`run, this`done, this`since
      ensures Valid()
      ensures segments == [] && sortBy == ByTime && done == []
      ensures errors == old(errors) + [OverlapError] && !isProcessing && progress == 100
    {
      segments, sortBy := [], ByTime;
      run, done, since := Run([], run.estimatedCount, 0, options.minViralScore, isLandscape), [], 0;
      RunStateFresh(run, 100);
      errors := errors + [OverlapError];
      isProcessing, progress := false, 100;
    }

    /** handleProcess with a positive step: the reset and the scan loop. */
    method ScanRun(total: real, isLandscape: bool, capture: real -> string, newId: nat -> string)
      returns (planned: nat)
      requires Step(options) > 0
      modifies this`isProcessing, this`progress, this`segments, this`sortBy
      modifies this`run, this`done, this`since
      ensures Valid()
      ensures segments == [] && sortBy == ByTime && done == []
      ensures planned == |run.jobs| && isProcessing && 0 <= progress <= ScanShare as int
      ensures run.completedCount == 0 && run.minScore == options.minViralScore && run.isLandscape == isLandscape
      ensures Windows(run.jobs) == Plan(total, options, isPro).value
      ensures forall k :: 0 <= k < |run.jobs| ==> run.jobs[k] == JobFor(run.jobs[k].window, total, capture, newId)
      ensures run.estimatedCount == Ceil(total / Step(options) as real)
    {
      var jobs, estimated, scanProgress := Scan(total, options, isPro, capture, newId);
      run, done, since := Run(jobs, estimated, 0, options.minViralScore, isLandscape), [], 0;
      RunStateFresh(run, scanProgress);
      isProcessing, progress, segments, sortBy := true, scanProgress, [], ByTime;
      planned := |jobs|;
    }

    /** The `.then` of one frame analysis, in whatever order they resolve:
        count it, move the progress bar, and keep the segment when its score
        reaches the run's threshold. */
    method CompleteAnalysis(k: nat, a: Analysis)
      requires Valid() && k < |run.jobs| && forall c :: c in done ==> c.job != k
      modifies this`run, this`progress, this`segments, this`done
      ensures Valid()
      ensures run == old(run).(completedCount := old(run).completedCount + 1)
      ensures done == old(done) + [Completion(k, a)]
      ensures progress == AnalysisProgress(run.completedCount, run.estimatedCount)
      ensures segments == old(segments)
        + (if Passes(a, run.minScore) then [SegmentOf(run.jobs[k], a, run.isLandscape)] else [])
    {
      var c := Completion(k, a);
      RunStateComplete(run, done, since, segments, progress, c);
      var kept := if Passes(a, run.minScore) then [SegmentOf(run.jobs[k], a, run.isLandscape)] else [];
      var run' := run.(completedCount := run.completedCount + 1);
      run, progress, segments, done :=
        run', AnalysisProgress(run'.completedCount, run'.estimatedCount), segments + kept, done + [c];
    }

    /** After Promise.all: report the number of planned windows as usage and
        end the run at 100 %. */
    method FinishProcess() returns (usage: nat)
      requires Valid() && isProcessing && |done| == |run.jobs|
      modifies this`isProcessing, this`progress
      ensures Valid()
      ensures usage == |run.jobs| && usage >= |segments|
      ensures !isProcessing && progress == 100
    {
      KeptBelowPlanned(run.jobs, done[since..], run.minScore, run.isLandscape);
      usage := |run.jobs|;
      isProcessing, progress := false, 100;
    }

    /** sortedSegments: the segments in display order. */
    function SortedSegments(): (r: seq<SplitSegment>)
      reads this
      ensures |r| == |segments|
    {
      SortSegments(segments, sortBy)
    }

    /** handleExportAll: each segment of the display order is rendered in
        turn; a successful render downloads under the position's name, a
        failed one is skipped. `ok` tells whether renderClip succeeds for a
        segment. */
    method HandleExportAll(ok: SplitSegment -> bool)
      modifies this`isExportingAll, this`exportProgress, this`renderCalls, this`downloads
      ensures var items := SortedSegments();
        if videoUrl.None? || items == [] then unchanged(this)
        else
          && renderCalls == old(renderCalls) + RenderCalls(items, options.aspectRatio)
          && downloads == old(downloads) + ExportNames(items, ok)
          && exportProgress == ExportProgress(|items|, |items|) && !isExportingAll
    {
      var items := SortedSegments();
      if videoUrl.None? || |items| == 0 {
        return;
      }
      isExportingAll := true;
      var calls, names, shown := ExportAll(items, options.aspectRatio, ok);
      renderCalls, downloads := renderCalls + calls, downloads + names;
      exportProgress := shown[|shown| - 1];
      isExportingAll := false;
    }
  }
}
