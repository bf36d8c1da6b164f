/** components/SplitResultCard.tsx: one kept clip of the splitter. The card
    renders the clip once, caches the object URL and reuses it for every
    later download or share; the rest is the card's presentation (score
    colour, top-tier badge, preview box, time fragment, handle and tags). */
module SplitResultCard {
  import opened Common
  import opened Text
  import VideoService

  const ClipPrefix: string := "instasplit-"
  const ClipSuffix: string := ".mp4"
  const DefaultHandle: string := "instasplit"
  const ExportFailed: string := "Failed to export clip. Browser may not support this operation."

  /** The download name of a clip: `instasplit-` and the title with every
      whitespace run replaced by '-' and then lower-cased. */
  function ClipFileName(title: string): (r: string)
    ensures StartsWith(r, ClipPrefix)
    ensures |r| == |ClipPrefix| + |ToLower(Dashify(title))| + |ClipSuffix|
    ensures r[|ClipPrefix|..|r| - |ClipSuffix|] == ToLower(Dashify(title))
    ensures r[|r| - |ClipSuffix|..] == ClipSuffix
  {
    var r := ClipPrefix + ToLower(Dashify(title)) + ClipSuffix;
    assert r[..|ClipPrefix|] == ClipPrefix;
    r
  }

  /** The slug in a clip name holds no whitespace and no capital letter. */
  lemma ClipSlugClean(title: string)
    ensures var slug := ToLower(Dashify(title));
      NoSpace(slug) && forall i :: 0 <= i < |slug| ==> !IsUpperAscii(slug[i])
  {
    DashifyNoSpace(title);
    ToLowerKeepsNoSpace(Dashify(title));
    ToLowerFacts(Dashify(title));
  }

  /** Two words separated by any run of whitespace are joined by one dash. */
  lemma ClipFileNameOfWords(a: string, run: string, b: string)
    requires NoSpace(a) && NoSpace(b) && run != [] && IsBlank(run)
    ensures ClipFileName(a + run + b) == ClipPrefix + ToLower(a + "-" + b) + ClipSuffix
  {
    DashifyJoinsWords(a, run, b);
  }

  /** The colour of the score badge. */
  datatype ScoreColor = Green | Yellow | Grey

  function ColorOf(score: real): (c: ScoreColor)
    ensures c == Green <==> score > 80.0
    ensures c == Yellow <==> 50.0 < score <= 80.0
    ensures c == Grey <==> score <= 50.0
  {
    if score > 80.0 then Green else if score > 50.0 then Yellow else Grey
  }

  /** The "VEO CHOICE" badge. */
  predicate IsTopTier(score: real)
  {
    score >= 80.0
  }

  function ColorRank(c: ScoreColor): nat
  {
    match c
    case Grey => 0
    case Yellow => 1
    case Green => 2
  }

  /** A higher score never gets a lower colour; every green score is top
      tier, and a score of exactly 80 is top tier but yellow. */
  lemma ColorAndTier(a: real, b: real)
    requires a <= b
    ensures ColorRank(ColorOf(a)) <= ColorRank(ColorOf(b))
    ensures ColorOf(b) == Green ==> IsTopTier(b)
    ensures IsTopTier(80.0) && ColorOf(80.0) == Yellow
  {
  }

  /** The ratio the card renders to: the run's option, Original without one. */
  function TargetRatio(options: Option<SplitOptions>): (r: SplitAspectRatio)
    ensures options.Some? ==> r == options.value.aspectRatio
    ensures options.None? ==> r == Original
  {
    if options.Some? then options.value.aspectRatio else Original
  }

  /** The preview box. */
  datatype PreviewBox = Portrait9x16 | Widescreen | Square

  /** The preview box for the requested crop; an Original clip follows the
      source's orientation. */
  function BoxFor(target: SplitAspectRatio, isLandscape: bool): (b: PreviewBox)
    ensures target == Original ==> (b == Widescreen <==> isLandscape) && b != Square
  {
    match target
    case Ratio16x9 => Widescreen
    case Ratio1x1 => Square
    case Ratio9x16 => Portrait9x16
    case Original => if isLandscape then Widescreen else Portrait9x16
  }

  /** The proportions of a preview box. */
  function BoxShape(b: PreviewBox): VideoService.Size
  {
    match b
    case Portrait9x16 => VideoService.Size(9.0, 16.0)
    case Widescreen => VideoService.Size(16.0, 9.0)
    case Square => VideoService.Size(1.0, 1.0)
  }

  /** For a crop the preview box has the proportions of the canvas the
      clip is rendered on, whatever the source frame. */
  lemma BoxMatchesRender(target: SplitAspectRatio, isLandscape: bool, vw: real, vh: real)
    requires target != Original && vw >= 0.0 && vh >= 0.0
    ensures VideoService.HasRatio(BoxShape(BoxFor(target, isLandscape)), target)
    ensures VideoService.HasRatio(VideoService.TargetSize(target, vw, vh), target)
  {
  }

  /** The preview source: the clip's time range as a temporal media fragment
      `#t=start,end` (section 4.2.1 of the W3C Media Fragments URI 1.0).
      `start` and `end` are the texts JavaScript gives the two times. */
  function PreviewSrc(url: string, start: string, end: string): (r: string)
    ensures StartsWith(r, url + "#t=")
  {
    var r := url + "#t=" + start + "," + end;
    assert r[..|url + "#t="|] == url + "#t=";
    r
  }

  /** Splits a URL at its first '#': the address and the fragment. */
  function SplitFragment(src: string): (r: Option<(string, string)>)
    ensures r.Some? ==> '#' !in r.value.0 && src == r.value.0 + "#" + r.value.1
  {
    var i := IndexOf(src, '#');
    if i == |src| then None
    else
      assert src == src[..i] + "#" + src[i + 1..];
      Some((src[..i], src[i + 1..]))
  }

  /** Reads a temporal fragment `t=start,end`. */
  function ParseTimes(frag: string): (r: Option<(string, string)>)
    ensures r.Some? ==> ',' !in r.value.0 && frag == "t=" + r.value.0 + "," + r.value.1
  {
    if !StartsWith(frag, "t=") then None
    else
      var times := frag[2..];
      var c := IndexOf(times, ',');
      if c == |times| then None
      else
        assert frag == frag[..2] + times && times == times[..c] + "," + times[c + 1..];
        Some((times[..c], times[c + 1..]))
  }

  /** Reads a preview source back: the address and the two times. */
  function ParsePreviewSrc(src: string): (r: Option<(string, string, string)>)
    ensures r.Some? ==> '#' !in r.value.0 && ',' !in r.value.1
    ensures r.Some? ==> src == PreviewSrc(r.value.0, r.value.1, r.value.2)
  {
    match SplitFragment(src)
    case None => None
    case Some((url, frag)) =>
      match ParseTimes(frag)
      case None => None
      case Some((start, end)) =>
        PreviewSrcParts(url, start, end);
        Some((url, start, end))
  }

  /** The address and both times are recovered from the preview source. */
  lemma PreviewSrcRoundTrip(url: string, start: string, end: string)
    requires '#' !in url && ',' !in start
    ensures ParsePreviewSrc(PreviewSrc(url, start, end)) == Some((url, start, end))
  {
    var frag := "t=" + start + "," + end;
    PreviewSrcParts(url, start, end);
    SplitFragmentOf(url, frag);
    ParseTimesOf(start, end);
  }

  lemma PreviewSrcParts(url: string, start: string, end: string)
    ensures PreviewSrc(url, start, end) == url + "#" + ("t=" + start + "," + end)
  {
    var t := "t=" + start + "," + end;
    assert url + "#t=" + start + "," + end == url + "#" + t;
  }

  lemma SplitFragmentOf(url: string, frag: string)
    requires '#' !in url
    ensures SplitFragment(url + "#" + frag) == Some((url, frag))
  {
    IndexOfAfter(url, '#', frag);
    var src := url + "#" + frag;
    assert src[..|url|] == url && src[|url| + 1..] == frag;
  }

  lemma ParseTimesOf(start: string, end: string)
    requires ',' !in start
    ensures ParseTimes("t=" + start + "," + end) == Some((start, end))
  {
    var frag := "t=" + start + "," + end;
    var times := start + "," + end;
    assert frag[..2] == "t=" && frag[2..] == times;
    IndexOfAfter(start, ',', end);
    assert times[..|start|] == start && times[|start| + 1..] == end;
  }

  /** `s.replace(c, '')` with a one-character string pattern: only the
      first occurrence is removed. */
  function RemoveFirst(s: string, c: char): (r: string)
    ensures c !in s ==> r == s
    ensures c in s ==> |r| == |s| - 1 && r == s[..IndexOf(s, c)] + s[IndexOf(s, c) + 1..]
  {
    var i := IndexOf(s, c);
    if i == |s| then s else s[..i] + s[i + 1..]
  }

  /** The handle shown under the title: the first hashtag without its '#',
      or "instasplit" when there is none or it is empty. */
  function Handle(hashtags: seq<string>): (r: string)
    ensures r != ""
    ensures hashtags == [] ==> r == DefaultHandle
    ensures hashtags != [] && RemoveFirst(hashtags[0], '#') != "" ==> r == RemoveFirst(hashtags[0], '#')
    ensures hashtags != [] && RemoveFirst(hashtags[0], '#') == "" ==> r == DefaultHandle
    ensures hashtags != [] && hashtags[0] != "" && '#' !in hashtags[0] ==> r == hashtags[0]
  {
    if hashtags == [] then DefaultHandle
    else
      var h := RemoveFirst(hashtags[0], '#');
      if h == "" then DefaultHandle else h
  }

  /** A first tag `#word` shows as `@word` (only that first '#' is
      dropped); "#" alone falls back. */
  lemma HandleOfTag(word: string, rest: seq<string>)
    ensures Handle(["#" + word] + rest) == if word == "" then DefaultHandle else word
  {
    var t := "#" + word;
    IndexOfFirst(t, '#', 0);
    assert t[1..] == word;
  }

  /** A tag as displayed: a '#' is put in front only when it is missing. */
  function TagText(tag: string): (r: string)
    ensures StartsWith(r, "#")
    ensures r == tag <==> StartsWith(tag, "#")
    ensures r != tag ==> r == "#" + tag
  {
    if StartsWith(tag, "#") then tag else "#" + tag
  }

  /** Displaying a displayed tag changes nothing. */
  lemma TagTextIdempotent(tag: string)
    ensures TagText(TagText(tag)) == TagText(tag)
  {
  }

  datatype Action = Download | Share

  /** One finished export: the URL handed to the download link or to the
      share sheet, and the file name or the title that went with it. */
  datatype Export = Export(action: Action, url: string, name: string)

  /** The card's export state. `renderCalls` and `failedRenders` count the
      calls to renderClip; `exports` are the downloads and shares made. */
  class ExportCard {
    const segment: SplitSegment
    const target: SplitAspectRatio
    const isPro: bool
    var isProcessing: bool
    var progress: int
    var downloadUrl: Option<string>
    var showWatermark: bool
    var renderCalls: nat
    var failedRenders: nat
    var exports: seq<Export>
    var alerts: nat

    /** A render is made only until one succeeds, and its URL is kept; every
        download and share uses that URL. */
    ghost predicate Valid()
      reads this
    {
      && renderCalls == failedRenders + (if downloadUrl.Some? then 1 else 0)
      && (forall i :: 0 <= i < |exports| ==> downloadUrl == Some(exports[i].url))
      && (!isProcessing ==> progress == 0)
    }

    constructor(segment: SplitSegment, isPro: bool, options: Option<SplitOptions>)
      ensures Valid()
      ensures this.segment == segment && this.isPro == isPro && target == TargetRatio(options)
      ensures !isProcessing && progress == 0 && downloadUrl.None? && showWatermark
      ensures renderCalls == 0 && failedRenders == 0 && exports == [] && alerts == 0
    {
      this.segment, this.isPro, target := segment, isPro, TargetRatio(options);
      isProcessing, progress, downloadUrl, showWatermark := false, 0, None, true;
      renderCalls, failedRenders, exports, alerts := 0, 0, [], 0;
    }

    /** The watermark switch, shown to Pro users only. */
    method ToggleWatermark()
      requires Valid() && isPro
      modifies this`showWatermark
      ensures Valid() && showWatermark == !old(showWatermark)
    {
      showWatermark := !showWatermark;
    }

    /** handleExport, from the click to its `finally`. The buttons are
        disabled while an export runs. `rendered` is the object URL of the
        rendered clip, or the error renderClip rejected with; it is consulted
        only when no URL is cached. `shareFails` says whether shareVideo
        throws. */
    method HandleExport(action: Action, rendered: Result<string>, shareFails: bool)
      requires Valid() && !isProcessing
      modifies this`isProcessing, this`progress, this`downloadUrl, this`renderCalls, this`failedRenders,
               this`exports, this`alerts
      ensures Valid() && !isProcessing && progress == 0
      ensures old(downloadUrl).Some? ==> renderCalls == old(renderCalls) && downloadUrl == old(downloadUrl)
      ensures old(downloadUrl).None? ==> renderCalls == old(renderCalls) + 1
      ensures old(downloadUrl).None? && rendered.Ok? ==> downloadUrl == Some(rendered.value)
      ensures old(downloadUrl).None? && rendered.Err? ==> downloadUrl.None? && exports == old(exports)
      ensures downloadUrl.Some? && action == Download ==>
        exports == old(exports) + [Export(Download, downloadUrl.value, ClipFileName(segment.title))]
      ensures downloadUrl.Some? && action == Share && !shareFails ==>
        exports == old(exports) + [Export(Share, downloadUrl.value, segment.title)]
      ensures downloadUrl.Some? && action == Share && shareFails ==> exports == old(exports)
      ensures alerts == old(alerts) + (if downloadUrl.None? || (action == Share && shareFails) then 1 else 0)
    {
      isProcessing, progress := true, 0;
      var url: string;
      if downloadUrl.None? {
        renderCalls := renderCalls + 1;
        if rendered.Err? {
          failedRenders := failedRenders + 1;
          isProcessing, progress, alerts := false, 0, alerts + 1;
          return;
        }
        url := rendered.value;
        downloadUrl := Some(url);
      } else {
        url := downloadUrl.value;
      }
      match action {
        case Download =>
          exports := exports + [Export(Download, url, ClipFileName(segment.title))];
        case Share =>
          if shareFails {
            alerts := alerts + 1;
          } else {
            exports := exports + [Export(Share, url, segment.title)];
          }
      }
      isProcessing, progress := false, 0;
    }
  }

  /** However exports are repeated, renderClip succeeds at most once. */
  lemma RenderedOnce(card: ExportCard)
    requires card.Valid()
    ensures card.renderCalls - card.failedRenders <= 1
  {
  }
}
