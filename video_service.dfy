/** services/videoService.ts: the arithmetic and the event machine of
    renderClip (one clip of a source video re-recorded through a canvas at the
    chosen aspect ratio), and extractFrameFromFile. Pixels, streams and the
    encoder are abstract: what is modelled is the size arithmetic, the
    placement of the frame on the canvas, the progress reports, the choice of
    container type, the chunk buffer and the releases done on every exit. */
module VideoService {
  import opened Common
  import opened Text

  /** A raster size in pixels. */
  datatype Size = Size(w: real, h: real)

  predicate Fits(s: Size, vw: real, vh: real)
  {
    s.w <= vw && s.h <= vh
  }

  /** The proportions a canvas of the given ratio has; Original keeps any. */
  predicate HasRatio(s: Size, ratio: SplitAspectRatio)
  {
    match ratio
    case Ratio9x16 => s.w * 16.0 == s.h * 9.0
    case Ratio16x9 => s.h * 16.0 == s.w * 9.0
    case Ratio1x1 => s.w == s.h
    case Original => true
  }

  /** The canvas size chosen in onloadedmetadata from the native frame
      vw x vh: '9:16' keeps the native height unless the width would exceed
      vw, '16:9' keeps the native width unless the height would exceed vh,
      '1:1' takes the shorter side, Original keeps the frame. */
  function TargetSize(ratio: SplitAspectRatio, vw: real, vh: real): (r: Size)
    requires vw >= 0.0 && vh >= 0.0
    ensures Fits(r, vw, vh) && HasRatio(r, ratio)
    ensures ratio == Original ==> r == Size(vw, vh)
  {
    match ratio
    case Ratio9x16 =>
      if vh * 9.0 / 16.0 > vw then Size(vw, vw * 16.0 / 9.0) else Size(vh * 9.0 / 16.0, vh)
    case Ratio16x9 =>
      if vw * 9.0 / 16.0 > vh then Size(vh * 16.0 / 9.0, vh) else Size(vw, vw * 9.0 / 16.0)
    case Ratio1x1 => Size(MinReal(vw, vh), MinReal(vw, vh))
    case Original => Size(vw, vh)
  }

  /** The canvas is the largest box of the requested ratio inside the frame. */
  lemma TargetSizeLargest(ratio: SplitAspectRatio, vw: real, vh: real, s: Size)
    requires vw >= 0.0 && vh >= 0.0
    requires Fits(s, vw, vh) && HasRatio(s, ratio)
    ensures s.w <= TargetSize(ratio, vw, vh).w && s.h <= TargetSize(ratio, vw, vh).h
  {
  }

  /** Which side stays native: the height for '9:16' exactly when
      vh * 9 / 16 <= vw, the width for '16:9' exactly when vw * 9 / 16 <= vh;
      the other side is native otherwise. */
  lemma TargetSizeNativeSide(ratio: SplitAspectRatio, vw: real, vh: real)
    requires vw >= 0.0 && vh >= 0.0
    ensures var r := TargetSize(ratio, vw, vh);
      && (ratio == Ratio9x16 ==> (r.h == vh <==> vh * 9.0 / 16.0 <= vw) && (r.h != vh ==> r.w == vw))
      && (ratio == Ratio16x9 ==> (r.w == vw <==> vw * 9.0 / 16.0 <= vh) && (r.w != vw ==> r.h == vh))
      && (ratio == Ratio1x1 ==> r.w == r.h == MinReal(vw, vh))
  {
  }

  /** Where drawFrame draws the video frame: scaled by `scale`, at (x, y),
      w x h pixels. */
  datatype Placement = Placement(scale: real, x: real, y: real, w: real, h: real)

  /** The "cover" placement of a vw x vh frame on a cw x ch canvas:
      scale = max(cw / vw, ch / vh), centred. */
  function CoverPlacement(cw: real, ch: real, vw: real, vh: real): (p: Placement)
    requires vw > 0.0 && vh > 0.0
    ensures p.w == vw * p.scale && p.h == vh * p.scale
    ensures p.w >= cw && p.h >= ch
    ensures p.w == cw || p.h == ch
    ensures 2.0 * p.x + p.w == cw && 2.0 * p.y + p.h == ch
    ensures p.x <= 0.0 && p.y <= 0.0
  {
    var scale := MaxReal(cw / vw, ch / vh);
    var sw := vw * scale;
    var sh := vh * scale;
    assert vw * (cw / vw) == cw && vh * (ch / vh) == ch;
    Placement(scale, (cw - sw) / 2.0, (ch - sh) / 2.0, sw, sh)
  }

  /** No smaller scale covers the canvas: the frame is cropped, never letterboxed
      and never enlarged more than needed. */
  lemma CoverIsSmallest(cw: real, ch: real, vw: real, vh: real, s: real)
    requires vw > 0.0 && vh > 0.0
    requires vw * s >= cw && vh * s >= ch
    ensures s >= CoverPlacement(cw, ch, vw, vh).scale
  {
    var p := CoverPlacement(cw, ch, vw, vh);
    if p.w == cw {
      assert vw * s >= vw * p.scale;
    } else {
      assert vh * s >= vh * p.scale;
    }
  }

  /** On the canvas chosen by TargetSize the frame is drawn at its native
      size: scale 1, only the overflow of one side is cut, evenly on both
      ends. */
  lemma RenderCanvasUnscaled(ratio: SplitAspectRatio, vw: real, vh: real)
    requires vw > 0.0 && vh > 0.0
    ensures var c := TargetSize(ratio, vw, vh);
      var p := CoverPlacement(c.w, c.h, vw, vh);
      p.scale == 1.0 && p.w == vw && p.h == vh
  {
    var c := TargetSize(ratio, vw, vh);
    TargetSizeNativeSide(ratio, vw, vh);
    QuotientAtMostOne(c.w, vw);
    QuotientAtMostOne(c.h, vh);
  }

  lemma QuotientAtMostOne(a: real, b: real)
    requires b > 0.0 && a <= b
    ensures a / b <= 1.0 && (a == b ==> a / b == 1.0)
  {
    assert (a / b) * b == a;
  }

  /** The value passed to onProgress on a time update at t:
      min(99, round((t - start) / (end - start) * 100)). */
  function RenderProgress(t: real, start: real, end: real): (p: int)
    requires start < end
    ensures p <= 99
    ensures t >= start ==> p >= 0
    ensures t >= end ==> p == 99
  {
    var frac := (t - start) / (end - start);
    assert t >= start ==> frac >= 0.0;
    assert t >= end ==> frac >= 1.0 by {
      if t >= end {
        assert (t - start) >= (end - start);
      }
    }
    MinInt(99, Round(frac * 100.0))
  }

  /** Progress never goes backwards while playback moves forward. */
  lemma RenderProgressMonotone(t1: real, t2: real, start: real, end: real)
    requires start < end && t1 <= t2
    ensures RenderProgress(t1, start, end) <= RenderProgress(t2, start, end)
  {
    var d := end - start;
    var f1 := (t1 - start) / d;
    var f2 := (t2 - start) / d;
    assert f2 - f1 == (t2 - t1) / d;
    RoundMonotone(f1 * 100.0, f2 * 100.0);
  }

  lemma RoundMonotone(x: real, y: real)
    requires x <= y
    ensures Round(x) <= Round(y)
  {
  }

  const Mp4WithCodecs: string := "video/mp4; codecs=\"avc1.42E01E, mp4a.40.2\""
  const Mp4: string := "video/mp4"
  const Webm: string := "video/webm"

  /** The recorder's container: mp4 with codecs if the runtime supports it,
      else plain mp4 if supported, else webm. `supported` is
      MediaRecorder.isTypeSupported. */
  function ChooseMime(supported: string -> bool): (m: string)
    ensures m == Mp4WithCodecs <==> supported(Mp4WithCodecs)
    ensures m == Mp4 <==> !supported(Mp4WithCodecs) && supported(Mp4)
    ensures m == Webm <==> !supported(Mp4WithCodecs) && !supported(Mp4)
    ensures supported(m) || m == Webm
  {
    assert Mp4 != Webm && Mp4 != Mp4WithCodecs && Webm != Mp4WithCodecs by {
      assert |Mp4| == 9 && |Webm| == 10 && |Mp4WithCodecs| > 10;
    }
    if supported(Mp4WithCodecs) then Mp4WithCodecs
    else if supported(Mp4) then Mp4
    else Webm
  }

  /** A recorded data blob is its bytes. */
  type Chunk = seq<bv8>

  /** The Blob handed to resolve: the chunks in arrival order and a type. */
  datatype Blob = Blob(parts: seq<Chunk>, mimeType: string)

  datatype RecorderState = Inactive | Recording

  /** How the promise of renderClip settled. */
  datatype Outcome = Resolved(blob: Blob) | Rejected(msg: string)

  const PlaybackError: string := "Video playback error"

  /** What one run of the onseeked set-up creates: a combined stream whose
      tracks run, a recorder on it (its onstop closure keeps the MIME type
      chosen then) and a 30 fps draw interval. */
  datatype Setup = Setup(tracksLive: bool, drawing: bool, recorder: RecorderState, mimeType: string)

  /** Nothing of any set-up is still running. */
  predicate AllReleased(setups: seq<Setup>)
  {
    forall i :: 0 <= i < |setups| ==> !setups[i].tracksLive && !setups[i].drawing
  }

  /** What cleanup does to the set-ups: `drawInterval` and `stream` are
      reassigned by every set-up, so only the last interval is cleared and
      only the last stream's tracks are stopped. */
  function ReleaseLast(setups: seq<Setup>): (r: seq<Setup>)
    ensures |r| == |setups|
    ensures forall i :: 0 <= i < |setups| - 1 ==> r[i] == setups[i]
    ensures setups != [] ==>
      && !r[|r| - 1].tracksLive && !r[|r| - 1].drawing
      && r[|r| - 1].recorder == setups[|setups| - 1].recorder
      && r[|r| - 1].mimeType == setups[|setups| - 1].mimeType
  {
    if setups == [] then []
    else
      var last := setups[|setups| - 1];
      setups[|setups| - 1 := last.(tracksLive := false, drawing := false)]
  }

  /** With at most one set-up, cleanup releases everything. */
  lemma ReleaseLastSingle(setups: seq<Setup>)
    requires |setups| <= 1
    ensures AllReleased(ReleaseLast(setups))
  {
  }

  /** The set-up one run of onseeked performs with MIME type `mime`. */
  function FreshSetup(mime: string): Setup
  {
    Setup(true, true, Recording, mime)
  }

  /** The set-ups after `n` seeked events during a recording, as written:
      recorder.start() is called without a timeslice, so no chunk exists
      before the recorder stops and the `chunks.length > 0` guard lets every
      seeked event set up again. */
  function SeeksAsWritten(n: nat, mime: string): (r: seq<Setup>)
    ensures |r| == n
    ensures forall i :: 0 <= i < n ==> r[i] == FreshSetup(mime)
  {
    if n == 0 then [] else SeeksAsWritten(n - 1, mime) + [FreshSetup(mime)]
  }

  /** As written, a second seeked event leaves the first draw interval and
      the first stream running after cleanup. */
  lemma SecondSeekLeaks(n: nat, mime: string)
    requires n >= 2
    ensures var r := ReleaseLast(SeeksAsWritten(n, mime));
      r[0].drawing && r[0].tracksLive && r[0].recorder == Recording && !AllReleased(r)
  {
  }

  /** The evident intent of the "Already started" guard: set up only while
      no recorder exists. */
  function SeeksOnce(n: nat, mime: string): (r: seq<Setup>)
    ensures |r| <= 1 && (n > 0 <==> r != [])
  {
    if n == 0 then []
    else
      var before := SeeksOnce(n - 1, mime);
      if before != [] then before else [FreshSetup(mime)]
  }

  /** With the guard on the recorder, cleanup releases every set-up however
      often the video seeks. */
  lemma SeeksOnceReleased(n: nat, mime: string)
    ensures AllReleased(ReleaseLast(SeeksOnce(n, mime)))
  {
    ReleaseLastSingle(SeeksOnce(n, mime));
  }

  /** One call of renderClip, driven by the browser's events. */
  class ClipRender {
    const start: real
    const end: real
    const ratio: SplitAspectRatio

    /** The playback position last requested (video.currentTime = ...). */
    var seekTo: real
    var canvas: Size
    var chunks: seq<Chunk>
    /** Every set-up onseeked performed, oldest first; `recorder`, `stream`
        and `drawInterval` name the last one. */
    var setups: seq<Setup>
    var paused: bool
    /** Whether the video element still holds the source and the canvas exists. */
    var videoAttached: bool
    var canvasAttached: bool
    /** The values passed to onProgress, in order. */
    var reports: seq<int>
    var outcome: Option<Outcome>

    ghost predicate Valid()
      reads this
    {
      && start < end
      && (forall i :: 0 <= i < |chunks| ==> |chunks[i]| > 0)
      && (forall i :: 0 <= i < |reports| ==> reports[i] <= 99)
    }

    /** Everything the render holds is released. */
    ghost predicate Released()
      reads this
    {
      AllReleased(setups) && paused && !videoAttached && !canvasAttached
    }

    /** What cleanup reaches is released: the element, the canvas and the
        last set-up. */
    ghost predicate LastReleased()
      reads this
    {
      && paused && !videoAttached && !canvasAttached
      && (setups != [] ==> !setups[|setups| - 1].tracksLive && !setups[|setups| - 1].drawing)
    }

    /** The promise executor: element and canvas created, the seek to start
        requested. The callers pass planned windows, whose start is below their end. */
    constructor(start: real, end: real, ratio: SplitAspectRatio)
      requires start < end
      ensures Valid()
      ensures this.start == start && this.end == end && this.ratio == ratio
      ensures seekTo == start && chunks == [] && reports == [] && outcome.None?
      ensures setups == [] && paused && videoAttached && canvasAttached
    {
      this.start, this.end, this.ratio := start, end, ratio;
      seekTo, canvas, chunks, setups := start, Size(0.0, 0.0), [], [];
      paused, videoAttached, canvasAttached := true, true, true;
      reports, outcome := [], None;
    }

    /** cleanup: clear the draw interval, pause and detach the video, stop
        the stream's tracks, remove the canvas. */
    method Cleanup()
      modifies this`setups, this`paused, this`videoAttached, this`canvasAttached
      ensures setups == ReleaseLast(old(setups)) && LastReleased()
      ensures |old(setups)| <= 1 ==> Released()
    {
      setups := ReleaseLast(setups);
      paused, videoAttached, canvasAttached := true, false, false;
      if |old(setups)| <= 1 {
        ReleaseLastSingle(old(setups));
      }
    }

    /** resolve / reject: only the first call settles the promise. */
    method Settle(o: Outcome)
      modifies this`outcome
      ensures outcome == if old(outcome).None? then Some(o) else old(outcome)
    {
      if outcome.None? {
        outcome := Some(o);
      }
    }

    /** onloadedmetadata: size the canvas for the ratio and seek to start. */
    method OnLoadedMetadata(vw: nat, vh: nat)
      modifies this`canvas, this`seekTo
      ensures canvas == TargetSize(ratio, vw as real, vh as real) && seekTo == start
    {
      canvas := TargetSize(ratio, vw as real, vh as real);
      seekTo := start;
    }

    /** onseeked: unless a chunk already exists, set up a stream, a recorder
        and a draw interval and start playback. Nothing else stops a second
        set-up, and the earlier one keeps running. `setupError` is the
        exception the capture throws, if any; `supported` is
        MediaRecorder.isTypeSupported. */
    method OnSeeked(setupError: Option<string>, supported: string -> bool)
      requires Valid()
      modifies this
      ensures Valid()
      ensures old(chunks) != [] ==> unchanged(this)
      ensures old(chunks) == [] && setupError.Some? ==>
        && setups == ReleaseLast(old(setups)) && LastReleased() && chunks == old(chunks)
        && outcome == (if old(outcome).None? then Some(Rejected(setupError.value)) else old(outcome))
      ensures old(chunks) == [] && setupError.None? ==>
        && setups == old(setups) + [FreshSetup(ChooseMime(supported))]
        && !paused && outcome == old(outcome) && chunks == old(chunks)
      ensures reports == old(reports)
    {
      if |chunks| > 0 {
        return;
      }
      if setupError.Some? {
        Cleanup();
        Settle(Rejected(setupError.value));
        return;
      }
      setups := setups + [FreshSetup(ChooseMime(supported))];
      paused := false;
    }

    /** video.play() rejected: cleanup, then reject. */
    method OnPlayRejected(msg: string)
      requires Valid()
      modifies this`setups, this`paused, this`videoAttached, this`canvasAttached, this`outcome
      ensures Valid() && setups == ReleaseLast(old(setups)) && LastReleased()
      ensures |old(setups)| <= 1 ==> Released()
      ensures outcome == if old(outcome).None? then Some(Rejected(msg)) else old(outcome)
    {
      Cleanup();
      Settle(Rejected(msg));
    }

    /** A recorder's ondataavailable: only a non-empty blob is kept. Before a
        recorder exists no handler is installed. */
    method OnDataAvailable(data: Chunk)
      requires Valid()
      modifies this`chunks
      ensures Valid()
      ensures chunks == if setups != [] && |data| > 0 then old(chunks) + [data] else old(chunks)
    {
      if setups != [] && |data| > 0 {
        chunks := chunks + [data];
      }
    }

    /** ontimeupdate at playback time t: report the progress; at or past the
        end pause, and stop the last recorder if it is recording. Before a
        recorder exists, reading its state throws and the handler ends after
        the pause. */
    method OnTimeUpdate(t: real)
      requires Valid()
      modifies this`reports, this`paused, this`setups
      ensures Valid()
      ensures reports == old(reports) + [RenderProgress(t, start, end)]
      ensures paused == (old(paused) || t >= end)
      ensures t >= end && old(setups) != [] && old(setups)[|old(setups)| - 1].recorder == Recording ==>
        setups == old(setups)[|old(setups)| - 1 := old(setups)[|old(setups)| - 1].(recorder := Inactive)]
      ensures !(t >= end && old(setups) != [] && old(setups)[|old(setups)| - 1].recorder == Recording) ==>
        setups == old(setups)
    {
      reports := reports + [RenderProgress(t, start, end)];
      if t >= end {
        paused := true;
        if setups != [] && setups[|setups| - 1].recorder == Recording {
          var last := setups[|setups| - 1];
          setups := setups[|setups| - 1 := last.(recorder := Inactive)];
        }
      }
    }

    /** The onstop of the recorder of set-up k: build the blob from the
        chunks in arrival order with the type that set-up chose, clean up,
        then resolve. */
    method OnStop(k: nat)
      requires Valid() && k < |setups|
      modifies this`setups, this`paused, this`videoAttached, this`canvasAttached, this`outcome
      ensures Valid() && setups == ReleaseLast(old(setups)) && LastReleased()
      ensures |old(setups)| <= 1 ==> Released()
      ensures outcome == if old(outcome).None? then Some(Resolved(Blob(chunks, old(setups)[k].mimeType))) else old(outcome)
    {
      var blob := Blob(chunks, setups[k].mimeType);
      Cleanup();
      Settle(Resolved(blob));
    }

    /** video.onerror: cleanup, then reject with the playback error. */
    method OnError()
      requires Valid()
      modifies this`setups, this`paused, this`videoAttached, this`canvasAttached, this`outcome
      ensures Valid() && setups == ReleaseLast(old(setups)) && LastReleased()
      ensures |old(setups)| <= 1 ==> Released()
      ensures outcome == if old(outcome).None? then Some(Rejected(PlaybackError)) else old(outcome)
    {
      Cleanup();
      Settle(Rejected(PlaybackError));
    }
  }

  /** What extractFrameFromFile does with a file, by the prefix of its type. */
  datatype FileKind = ImageFile | VideoFile | Unsupported

  function KindOf(mime: string): (k: FileKind)
    ensures k == ImageFile <==> StartsWith(mime, "image/")
    ensures k == VideoFile <==> StartsWith(mime, "video/")
    ensures k == Unsupported <==> !StartsWith(mime, "image/") && !StartsWith(mime, "video/")
  {
    if StartsWith(mime, "image/") then
      assert mime[0] == 'i';
      ImageFile
    else if StartsWith(mime, "video/") then VideoFile
    else Unsupported
  }

  const VideoLoadError: string := "Failed to load video file"
  const UnsupportedError: string := "Unsupported file type"
  const FrameSeekTime: real := 0.5

  /** One call of extractFrameFromFile, driven by the reader's or the video
      element's events. The JPEG encoding of the frame is the dataUrl the
      seek event brings. */
  class FrameExtraction {
    const kind: FileKind
    /** Whether the object URL created for a video file is still live. */
    var objectUrlLive: bool
    var videoAttached: bool
    var seekTo: real
    var outcome: Option<Result<string>>

    /** The object URL exists only for a video file and only until the
        promise settles. */
    ghost predicate Valid()
      reads this
    {
      && (kind != VideoFile ==> !objectUrlLive && !videoAttached)
      && (outcome.Some? && kind == VideoFile ==> !objectUrlLive)
      && (kind == Unsupported ==> outcome == Some(Err(UnsupportedError)))
    }

    /** The executor: an image is read as a data URL, a video gets an object
        URL and an element, any other type is rejected at once. */
    constructor(mime: string)
      ensures Valid()
      ensures kind == KindOf(mime)
      ensures objectUrlLive == videoAttached == (kind == VideoFile)
      ensures outcome == if kind == Unsupported then Some(Err(UnsupportedError)) else None
      ensures seekTo == 0.0
    {
      kind := KindOf(mime);
      var k := KindOf(mime);
      objectUrlLive := k == VideoFile;
      videoAttached := k == VideoFile;
      seekTo := 0.0;
      outcome := if k == Unsupported then Some(Err(UnsupportedError)) else None;
    }

    method Settle(r: Result<string>)
      modifies this`outcome
      ensures outcome == if old(outcome).None? then Some(r) else old(outcome)
    {
      if outcome.None? {
        outcome := Some(r);
      }
    }

    /** reader.onload / reader.onerror of an image file. */
    method OnReaderDone(r: Result<string>)
      requires Valid()
      modifies this`outcome
      ensures Valid()
      ensures outcome == if kind == ImageFile && old(outcome).None? then Some(r) else old(outcome)
    {
      if kind == ImageFile {
        Settle(r);
      }
    }

    /** onloadeddata of a video file: seek half a second in. */
    method OnLoadedData()
      requires Valid()
      modifies this`seekTo
      ensures Valid()
      ensures seekTo == if kind == VideoFile then FrameSeekTime else old(seekTo)
    {
      if kind == VideoFile {
        seekTo := FrameSeekTime;
      }
    }

    /** onseeked of a video file: remove the element, revoke the URL and
        resolve with the frame. */
    method OnSeeked(dataUrl: string)
      requires Valid()
      modifies this`videoAttached, this`objectUrlLive, this`outcome
      ensures Valid()
      ensures kind == VideoFile ==>
        && !videoAttached && !objectUrlLive
        && outcome == (if old(outcome).None? then Some(Ok(dataUrl)) else old(outcome))
      ensures kind != VideoFile ==> unchanged(this)
    {
      if kind == VideoFile {
        videoAttached, objectUrlLive := false, false;
        Settle(Ok(dataUrl));
      }
    }

    /** onerror of a video file: revoke the URL and reject. */
    method OnVideoError()
      requires Valid()
      modifies this`objectUrlLive, this`outcome
      ensures Valid()
      ensures kind == VideoFile ==>
        && !objectUrlLive
        && outcome == (if old(outcome).None? then Some(Err(VideoLoadError)) else old(outcome))
      ensures kind != VideoFile ==> unchanged(this)
    {
      if kind == VideoFile {
        objectUrlLive := false;
        Settle(Err(VideoLoadError));
      }
    }
  }
}
