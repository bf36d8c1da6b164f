/** services/geminiService.ts: what the application does around the calls
    to the generative service. The service's replies are parameters: each
    call either answers or throws (an Err with the error's message). */
module GeminiService {
  import opened Common
  import opened Text
  import SplitPlan

  const StyleNone: string := "None"
  const StyleSeparator: string := " style. "

  /** `${style} style. ${prompt}` when a style other than 'None' is set,
      the prompt alone otherwise. */
  function StylePrompt(style: string, prompt: string): (r: string)
    ensures |r| >= |prompt| && r[|r| - |prompt|..] == prompt
    ensures r == prompt <==> style == "" || style == StyleNone
    ensures r != prompt ==> StartsWith(r, style + StyleSeparator)
  {
    if style != "" && style != StyleNone then
      var r := style + StyleSeparator + prompt;
      assert r[..|style + StyleSeparator|] == style + StyleSeparator;
      r
    else prompt
  }

  /** The ratio sent to the video model: only '16:9' and '9:16' are kept,
      anything else becomes '9:16'. */
  function VeoAspectRatio(a: AspectRatio): (r: AspectRatio)
    ensures r == AR16x9 || r == AR9x16
    ensures r == a <==> a == AR16x9 || a == AR9x16
  {
    if a == AR16x9 || a == AR9x16 then a else AR9x16
  }

  /** Applying the normalisation twice changes nothing more. */
  lemma VeoAspectRatioIdempotent(a: AspectRatio)
    ensures VeoAspectRatio(VeoAspectRatio(a)) == VeoAspectRatio(a)
  {
  }

  /** `data:${mime};base64,${data}`, the data URL of RFC 2397. */
  function DataUrl(mime: string, data: string): (r: string)
    ensures StartsWith(r, "data:")
  {
    var r := "data:" + mime + ";base64," + data;
    assert r[..5] == "data:";
    r
  }

  /** `s.split(',')[1] || s`: the payload after the header of a data URL, or
      the whole text when there is no non-empty second field. */
  function CleanBase64(s: string): (r: string)
    ensures ',' !in s ==> r == s
    ensures r != "" || s == ""
    ensures CommaField1(s).Some? && CommaField1(s).value != "" ==> r == CommaField1(s).value
    ensures CommaField1(s).None? || CommaField1(s).value == "" ==> r == s
  {
    match CommaField1(s)
    case Some(f) => if f != "" then f else s
    case None => s
  }

  /** The field after the first comma of a data URL is its payload. */
  lemma DataUrlPayload(mime: string, data: string)
    requires ',' !in mime && ',' !in data
    ensures CommaField1(DataUrl(mime, data)) == Some(data)
  {
    var header := "data:" + mime + ";base64";
    assert ',' !in header by {
      forall i | 0 <= i < |header| ensures header[i] != ',' {
        if 5 <= i < 5 + |mime| {
          assert header[i] == mime[i - 5];
        }
      }
    }
    assert DataUrl(mime, data) == header + "," + data;
    CommaField1Of(header, data);
  }

  /** Stripping the header of a data URL gives back its payload. */
  lemma CleanBase64OfDataUrl(mime: string, data: string)
    requires ',' !in mime && ',' !in data && data != ""
    ensures CleanBase64(DataUrl(mime, data)) == data
  {
    DataUrlPayload(mime, data);
  }

  /** The record analyzeVideoFrame returns when anything fails. */
  const AnalysisFallback: Analysis :=
    Analysis("Clip Analysis Failed", "Could not analyze this specific frame.", 0.0, "AI Error", Some(["#error"]))

  /** analyzeVideoFrame: the reply text parsed as the analysis record; an
      error, an empty text or text that does not parse gives the fallback.
      `parse` is JSON.parse with the response schema. */
  function AnalyzeFrame(reply: Result<string>, parse: string -> Option<Analysis>): (a: Analysis)
    ensures reply.Err? ==> a == AnalysisFallback
    ensures reply.Ok? && reply.value == "" ==> a == AnalysisFallback
    ensures reply.Ok? && reply.value != "" && parse(reply.value).Some? ==> a == parse(reply.value).value
    ensures reply.Ok? && reply.value != "" && parse(reply.value).None? ==> a == AnalysisFallback
  {
    match reply
    case Err(_) => AnalysisFallback
    case Ok(text) =>
      if text == "" then AnalysisFallback
      else match parse(text)
        case Some(parsed) => parsed
        case None => AnalysisFallback
  }

  /** A failed analysis scores 0: the splitter keeps its window exactly when
      the threshold is 0 or below (the default threshold is 0). */
  lemma FallbackKept(minScore: int)
    ensures SplitPlan.Passes(AnalysisFallback, minScore) <==> minScore <= 0
  {
  }

  /** enhancePrompt: "" for a blank prompt; the rewritten text when the call
      answers with a non-empty text; the original prompt otherwise. */
  function EnhancePrompt(prompt: string, reply: Result<string>): (r: string)
    ensures IsBlank(prompt) ==> r == ""
    ensures !IsBlank(prompt) ==> r != ""
    ensures !IsBlank(prompt) && (reply.Err? || reply.value == "") ==> r == prompt
    ensures !IsBlank(prompt) && reply.Ok? && reply.value != "" ==> r == reply.value
  {
    if IsBlank(prompt) then ""
    else match reply
      case Ok(text) => if text != "" then text else prompt
      case Err(_) => prompt
  }

  const NotFoundMarker: string := "Requested entity was not found"
  const ApiKeyInvalid: string := "API_KEY_INVALID"
  const UnknownVideoError: string := "Unknown error during video generation"
  const NoVideoUri: string := "No video URI returned from API"
  const NoImageData: string := "No image data returned."
  const DefaultImageMime: string := "image/jpeg"

  /** The catch of generateVeoVideo: an error whose message mentions the
      missing entity becomes API_KEY_INVALID, any other is rethrown. */
  function MapVideoError(msg: string): (r: string)
    ensures Contains(msg, NotFoundMarker) ==> r == ApiKeyInvalid
    ensures !Contains(msg, NotFoundMarker) ==> r == msg
  {
    if Contains(msg, NotFoundMarker) then ApiKeyInvalid else msg
  }

  /** Mapping twice is mapping once: API_KEY_INVALID itself does not
      mention the missing entity. */
  lemma MapVideoErrorIdempotent(msg: string)
    ensures MapVideoError(MapVideoError(msg)) == MapVideoError(msg)
  {
    if Contains(msg, NotFoundMarker) {
      assert !Contains(ApiKeyInvalid, NotFoundMarker) by {
        assert |ApiKeyInvalid| < |NotFoundMarker|;
      }
    }
  }

  /** The request sent to the video model. */
  datatype VeoRequest = VeoRequest(prompt: string, aspectRatio: AspectRatio, image: Option<(string, string)>)

  /** The payload of generateVeoVideo: the styled prompt, the normalised
      ratio, and the start image (bytes and type, 'image/jpeg' by default)
      when one is set. */
  function VeoPayload(config: VideoConfig): (q: VeoRequest)
    ensures q.prompt == StylePrompt(config.style, config.prompt)
    ensures q.aspectRatio == VeoAspectRatio(config.aspectRatio)
    ensures q.image.Some? <==> config.startImage.Some? && config.startImage.value != ""
    ensures q.image.Some? ==>
              && q.image.value.0 == config.startImage.value
              && q.image.value.1 == (if config.startImageMimeType.Some? && config.startImageMimeType.value != ""
                                     then config.startImageMimeType.value else DefaultImageMime)
  {
    var image :=
      if config.startImage.Some? && config.startImage.value != "" then
        var mime := if config.startImageMimeType.Some? && config.startImageMimeType.value != ""
                    then config.startImageMimeType.value else DefaultImageMime;
        Some((config.startImage.value, mime))
      else None;
    VeoRequest(StylePrompt(config.style, config.prompt), VeoAspectRatio(config.aspectRatio), image)
  }

  /** A long-running video operation as the service reports it. A missing
      URI is None, an error without a message Some(""). */
  datatype Operation = Operation(done: bool, error: Option<string>, uri: Option<string>)

  /** What a finished operation gives: its error, a missing URI, or the URI. */
  function FinishedOutcome(op: Operation): (r: Result<string>)
    ensures r.Ok? ==> r.value != "" && op.uri == Some(r.value) && op.error.None?
    ensures op.error.Some? ==> r.Err?
    ensures r.Err? && op.error.None? ==> r.msg == NoVideoUri
  {
    match op.error
    case Some(m) => Err(if m != "" then m else UnknownVideoError)
    case None =>
      match op.uri
      case Some(u) => if u != "" then Ok(u) else Err(NoVideoUri)
      case None => Err(NoVideoUri)
  }

  /** The outcome of the polling loop over the given replies: the first call
      and then one reply per poll. None while the operation is still running
      when the replies run out. */
  function PollOutcome(reply: Result<Operation>, polls: seq<Result<Operation>>): (r: Option<Result<string>>)
    ensures r.Some? && r.value.Ok? ==> r.value.value != ""
    decreases |polls|
  {
    match reply
    case Err(m) => Some(Err(m))
    case Ok(op) =>
      if op.done then Some(FinishedOutcome(op))
      else if polls == [] then None
      else PollOutcome(polls[0], polls[1..])
  }

  /** generateVeoVideo: the generateVideos call answers `first`; while the
      operation is not done it is polled again, the i-th poll answering
      polls[i]. The 5 s pause between polls is left out. */
  method GenerateVeoVideo(first: Result<Operation>, polls: seq<Result<Operation>>)
    returns (r: Option<Result<string>>)
    ensures r == match PollOutcome(first, polls)
                 case Some(Err(m)) => Some(Err(MapVideoError(m)))
                 case other => other
  {
    var reply := first;
    var i := 0;
    while reply.Ok? && !reply.value.done && i < |polls|
      invariant 0 <= i <= |polls|
      invariant PollOutcome(reply, polls[i..]) == PollOutcome(first, polls)
      decreases |polls| - i
    {
      reply := polls[i];
      i := i + 1;
    }
    var outcome: Option<Result<string>>;
    if reply.Err? {
      outcome := Some(Err(reply.msg));
    } else if reply.value.done {
      outcome := Some(FinishedOutcome(reply.value));
    } else {
      outcome := None;
    }
    assert outcome == PollOutcome(reply, polls[i..]);
    r := match outcome
         case Some(Err(m)) => Some(Err(MapVideoError(m)))
         case other => other;
  }

  /** Inline data of one part of the image reply. */
  datatype InlineData = InlineData(mimeType: string, data: string)
  datatype Part = Part(inlineData: Option<InlineData>)

  /** The position of the first part carrying inline data, or |parts|. */
  function FirstInline(parts: seq<Part>): (k: nat)
    ensures k <= |parts|
    ensures k < |parts| ==> parts[k].inlineData.Some?
    ensures forall i :: 0 <= i < k ==> parts[i].inlineData.None?
  {
    if parts == [] then 0
    else if parts[0].inlineData.Some? then 0
    else 1 + FirstInline(parts[1..])
  }

  /** generateImage: the call answers with the parts of its first candidate
      (None when the reply holds none, which counts as no parts); the first
      part with inline data becomes a data URL, and without one the call
      fails with "No image data returned.". Errors of the call are rethrown. */
  method GenerateImage(reply: Result<Option<seq<Part>>>) returns (r: Result<string>)
    ensures reply.Err? ==> r == Err(reply.msg)
    ensures reply.Ok? ==>
      var parts := if reply.value.Some? then reply.value.value else [];
      var k := FirstInline(parts);
      r == if k < |parts| then Ok(DataUrl(parts[k].inlineData.value.mimeType, parts[k].inlineData.value.data))
           else Err(NoImageData)
  {
    if reply.Err? {
      return Err(reply.msg);
    }
    var parts := if reply.value.Some? then reply.value.value else [];
    var i := 0;
    while i < |parts|
      invariant 0 <= i <= |parts|
      invariant forall j :: 0 <= j < i ==> parts[j].inlineData.None?
    {
      if parts[i].inlineData.Some? {
        var d := parts[i].inlineData.value;
        assert FirstInline(parts) == i by { FirstInlineAt(parts, i); }
        return Ok(DataUrl(d.mimeType, d.data));
      }
      i := i + 1;
    }
    FirstInlineNone(parts);
    r := Err(NoImageData);
  }

  lemma {:induction false} FirstInlineAt(parts: seq<Part>, i: nat)
    requires i < |parts| && parts[i].inlineData.Some?
    requires forall j :: 0 <= j < i ==> parts[j].inlineData.None?
    ensures FirstInline(parts) == i
    decreases i
  {
    if i > 0 {
      FirstInlineAt(parts[1..], i - 1);
    }
  }

  lemma {:induction false} FirstInlineNone(parts: seq<Part>)
    requires forall j :: 0 <= j < |parts| ==> parts[j].inlineData.None?
    ensures FirstInline(parts) == |parts|
    decreases |parts|
  {
    if parts != [] {
      FirstInlineNone(parts[1..]);
    }
  }

  /** An image is returned exactly when some part carries inline data, and
      it is a data URL. */
  lemma GenerateImageSucceeds(parts: seq<Part>)
    ensures var k := FirstInline(parts);
      (k < |parts| <==> exists i :: 0 <= i < |parts| && parts[i].inlineData.Some?)
  {
    var k := FirstInline(parts);
    if k == |parts| {
      forall i | 0 <= i < |parts| ensures parts[i].inlineData.None? {
      }
    }
  }

  /** The AI Studio host, when present: whether a key is selected before and
      after the selection dialog. */
  datatype StudioReplies = StudioReplies(selectedBefore: bool, selectedAfter: bool)

  datatype KeyCheck = KeyCheck(available: bool, dialogOpened: bool)

  /** ensureApiKey: a set environment key is enough; otherwise the studio is
      asked, and the selection dialog is opened once when no key is
      selected, after which the answer is whether one is selected now;
      without a studio there is no key. */
  function EnsureApiKey(envKey: Option<string>, studio: Option<StudioReplies>): (k: KeyCheck)
    ensures envKey.Some? && envKey.value != "" ==> k == KeyCheck(true, false)
    ensures k.dialogOpened <==> (envKey.None? || envKey.value == "") && studio.Some? && !studio.value.selectedBefore
    ensures k.available <==>
      (envKey.Some? && envKey.value != "")
      || (studio.Some? && (studio.value.selectedBefore || studio.value.selectedAfter))
  {
    if envKey.Some? && envKey.value != "" then KeyCheck(true, false)
    else match studio
      case None => KeyCheck(false, false)
      case Some(s) =>
        if !s.selectedBefore then KeyCheck(s.selectedAfter, true) else KeyCheck(true, false)
  }

  const KeyParameter: string := "&key="

  /** The address fetchAuthenticatedVideoUrl downloads: the URI with the
      environment key appended, an empty key when none is set. */
  function AuthenticatedFetchUrl(uri: string, envKey: Option<string>): (r: string)
    ensures StartsWith(r, uri + KeyParameter)
    ensures envKey.Some? ==> r[|uri + KeyParameter|..] == envKey.value
    ensures envKey.None? ==> r == uri + KeyParameter
  {
    var key := if envKey.Some? then envKey.value else "";
    var r := uri + KeyParameter + key;
    assert r[..|uri + KeyParameter|] == uri + KeyParameter;
    r
  }

  /** fetchAuthenticatedVideoUrl: the object URL of the downloaded video, or
      the URI itself when the download fails in any way. `download` is the
      object URL or the error of the fetch. It never fails. */
  function AuthenticatedVideoUrl(uri: string, download: Result<string>): (r: string)
    ensures download.Err? ==> r == uri
    ensures download.Ok? ==> r == download.value
    ensures uri != "" && (download.Err? || download.value != "") ==> r != ""
  {
    match download
    case Ok(url) => url
    case Err(_) => uri
  }
}
