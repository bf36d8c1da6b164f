# InstaSplit AI — a verified model of the application core

InstaSplit AI is a browser application with two halves:

- **Generation.** The user writes a prompt, optionally attaches a start image, and asks
  Google's Veo model for a short video or Imagen for a picture. Free users get two video
  generations a day; after that each one costs 50 coins, which the pricing dialog sells or
  pays out for watching a four-second ad.
- **Splitting.** The user uploads a long video. The splitter cuts it into overlapping
  windows, grabs one frame per window, has Gemini score each frame for "virality", keeps the
  windows that reach the minimum score, and exports the kept clips re-encoded to a chosen
  aspect ratio.

This project models the logic of that core in Dafny and proves what it promises. Covered:
the usage and coin accounting of `App.tsx`, the request shaping and error mapping of
`services/geminiService.ts`, the geometry and state machine of `services/videoService.ts`,
the scan, ranking and export of `components/VideoSplitter.tsx`, and the cards and pricing
dialog that sit on top of them.

The files:

| file | module | what it holds |
|---|---|---|
| `common.dfy` | `Common`, `Text` | the shared types (`types.ts`), `Option`/`Result`, rounding, and the string helpers (whitespace runs to dashes, ASCII lower case, decimal text, comma fields) |
| `gemini_service.dfy` | `GeminiService` | style prefixing, the Veo aspect ratio, the request payload, polling outcome, error mapping, first inline image, frame analysis fallback, key check, authenticated video URL |
| `video_service.dfy` | `VideoService` | target canvas size, cover placement, render progress, MIME choice, and the `renderClip` and `extractFrameFromFile` event machines as classes |
| `split_plan.dfy` | `SplitPlan` | the window plan of the splitter's scan, progress figures, the segment built from an analysis, and the kept segments |
| `segment_sort.dfy` | `SegmentSort` | the stable insertion sort behind the "time" and "score" orders |
| `video_splitter.dfy` | `VideoSplitter` | time formatting, export names, the scan and export loops as methods, and the `Splitter` component state |
| `split_result_card.dfy` | `SplitResultCard` | clip file name, score colour, preview box, preview source, handle and tags, and the `ExportCard` state |
| `video_card.dfy` | `VideoCard` | ratio boxes, seek and progress, share fallback, the one-player-at-a-time board, and the `MediaCard` state |
| `pricing_modal.dfy` | `PricingModal` | the ad countdown and the dialog's close rules |
| `app.dfy` | `App` | the daily usage record, the generation gate, the coin balance after a paid generation, and the `AppModel` state |

Asynchronous code is modelled by its events. Each callback or awaited result is a method
of the class that owns the state, and what the outside world answered (the model's reply,
the blob, whether sharing succeeded) is a parameter.

## Model

| member | source | states |
|---|---|---|
| Common.Round | components/VideoSplitter.tsx:112 | `Math.round` result is within half a unit of its argument |
| Common.Ceil | components/VideoSplitter.tsx:92 | `Math.ceil` result is the least integer not below its argument |
| Common.AspectRatioText | types.ts:13 | each aspect ratio of a generation is stored as its literal text, "9:16", "16:9", "1:1", "4:3" or "3:4" |
| Text.SkipSpaces | components/VideoSplitter.tsx:209 | removes exactly the leading whitespace run: the rest is a suffix starting with a non-space |
| Text.IsSpace | components/SplitResultCard.tsx:38 | the characters JavaScript's `\s` matches |
| Text.IsBlank | services/geminiService.ts:31 | `!s.trim()`: the text holds nothing but whitespace |
| Text.Dashify | components/SplitResultCard.tsx:38 | `replace(/\s+/g, '-')`: every maximal whitespace run becomes one dash |
| Text.DashifyNoSpace | components/SplitResultCard.tsx:38 | `replace(/\s+/g, '-')` leaves no whitespace and never lengthens the text |
| Text.DashifyIdentity | components/SplitResultCard.tsx:38 | a text without whitespace is left unchanged |
| Text.DashifyIdempotent | components/SplitResultCard.tsx:38 | replacing whitespace runs twice equals doing it once |
| Text.DashifyJoinsWords | components/VideoSplitter.tsx:209 | two words separated by any non-empty whitespace run become `word-word` |
| Text.DashifyConcatWord | components/SplitResultCard.tsx:38 | a leading word without whitespace passes through unchanged |
| Text.SkipAll | components/SplitResultCard.tsx:38 | a whitespace run before a word is skipped entirely |
| Text.SkipRun | components/SplitResultCard.tsx:38 | a non-empty whitespace run before a word becomes a single dash |
| Text.ToLower | components/SplitResultCard.tsx:38 | `toLowerCase` on ASCII: keeps the length and maps every character by the ASCII lower-case map |
| Text.ToLowerFacts | components/SplitResultCard.tsx:38 | the result has no upper-case ASCII letter, characters other than ASCII capitals are kept, and lower-casing is idempotent |
| Text.ToLowerKeepsNoSpace | components/SplitResultCard.tsx:38 | lower-casing does not bring whitespace back |
| Text.NatText | components/VideoSplitter.tsx:60 | the decimal text of a number is non-empty and all digits |
| Text.IntText | components/VideoSplitter.tsx:59-61 | the text of a signed integer: a minus sign before the digits of a negative one |
| Text.NatTextRoundTrip | components/VideoSplitter.tsx:60 | reading back the decimal text of a number gives the number |
| Text.PadStart2 | components/VideoSplitter.tsx:60 | `padStart(2, '0')` gives at least two characters and leaves longer texts alone |
| Text.Take | components/VideoSplitter.tsx:209 | `slice(0, n)` is the prefix of length min(n, length) |
| Text.CommaField1 | App.tsx:251-257 | `split(',')[1]` is absent exactly when there is no comma; otherwise it is the text right after the first comma up to the next comma or the end |
| Text.CommaField1Of | App.tsx:251-257 | the field after the comma of `header,payload` is the payload |
| Text.IndexOf | components/SplitResultCard.tsx:82 | the first position of a character, or the length when it does not occur |
| Text.IndexOfFirst | components/SplitResultCard.tsx:82 | a position holding the character with no earlier occurrence is the one found |
| Text.IndexOfAfter | components/SplitResultCard.tsx:21 | after a prefix free of the character, the character is found right behind the prefix |
| GeminiService.StylePrompt | services/geminiService.ts:106-109 | the prompt is kept as the suffix; it is prefixed by `style + " style. "` exactly when a style other than "None" is chosen |
| GeminiService.VeoAspectRatio | services/geminiService.ts:112 | Veo gets 16:9 or 9:16 only, and a ratio is kept exactly when it already is one of those |
| GeminiService.VeoAspectRatioIdempotent | services/geminiService.ts:112 | mapping the ratio twice equals mapping it once |
| GeminiService.DataUrl | services/geminiService.ts:90-95 | a returned image is a `data:` URL |
| GeminiService.CleanBase64 | services/geminiService.ts:163 | text without a comma is passed as is, and a non-empty input never becomes empty |
| GeminiService.CleanBase64OfDataUrl | services/geminiService.ts:163 | stripping the header of a data URL gives back its payload |
| GeminiService.DataUrlPayload | services/geminiService.ts:90-95 | the field after the first comma of a data URL is its payload |
| GeminiService.AnalyzeFrame | services/geminiService.ts:159-217 | the parsed analysis when the reply has text that parses, and the fixed fallback on an error, an empty reply or a parse failure |
| GeminiService.FallbackKept | services/geminiService.ts:209-215 | the fallback analysis (score 0) passes the filter exactly when the minimum score is at most 0 |
| GeminiService.EnhancePrompt | services/geminiService.ts:30-46 | a blank prompt gives "", otherwise the model's non-empty text or, failing that, the prompt itself |
| GeminiService.MapVideoError | services/geminiService.ts:139-146 | a "Requested entity was not found" failure becomes the key error, any other message is kept |
| GeminiService.MapVideoErrorIdempotent | services/geminiService.ts:139-146 | mapping an already mapped message changes nothing |
| GeminiService.VeoPayload | services/geminiService.ts:103-130 | the request has the styled prompt and the Veo ratio; the image is sent exactly when a non-empty start image is given, with its MIME type or image/jpeg |
| GeminiService.FinishedOutcome | services/geminiService.ts:139-150 | success only with a non-empty URI and no error; an operation error always fails; a missing URI gives the "no video URI" error |
| GeminiService.PollOutcome | services/geminiService.ts:134-150 | a successful outcome of the polling loop always carries a non-empty URI |
| GeminiService.GenerateVeoVideo | services/geminiService.ts:103-157 | the poll outcome, with failures passed through the error mapping |
| GeminiService.FirstInline | services/geminiService.ts:90-95 | the index of the first part with inline data, every earlier part having none |
| GeminiService.FirstInlineAt | services/geminiService.ts:90-95 | the first part with inline data is the one found |
| GeminiService.FirstInlineNone | services/geminiService.ts:90-95 | with no inline part the search runs off the end |
| GeminiService.GenerateImage | services/geminiService.ts:69-101 | a request failure is passed on; otherwise the data URL of the first inline part, or the "no image data" error when there is none |
| GeminiService.GenerateImageSucceeds | services/geminiService.ts:90-100 | an image is returned exactly when some part carries inline data |
| GeminiService.EnsureApiKey | services/geminiService.ts:6-22 | a key is available when the environment has one or AI Studio has (or now gets) one; the key dialog opens only when no key was ever selected |
| GeminiService.AuthenticatedFetchUrl | services/geminiService.ts:221 | the download address is the URI followed by `&key=` and the key |
| GeminiService.AuthenticatedVideoUrl | services/geminiService.ts:219-230 | the object URL of the download, or the URI itself on any failure, so it is never empty for a non-empty URI |
| VideoService.TargetSize | services/videoService.ts:42-77 | the canvas fits inside the video and has the requested ratio; "Original" keeps the video size |
| VideoService.TargetSizeLargest | services/videoService.ts:50-71 | no box of the requested ratio that fits the video is larger than the chosen canvas |
| VideoService.TargetSizeNativeSide | services/videoService.ts:50-71 | 9:16 keeps the full height unless the video is too narrow, 16:9 keeps the full width unless it is too flat, 1:1 takes the shorter side |
| VideoService.CoverPlacement | services/videoService.ts:117-134 | the scaled frame covers the canvas, touches it on one axis, and is centred with non-positive offsets |
| VideoService.CoverIsSmallest | services/videoService.ts:126-131 | every scale that covers the canvas is at least the chosen one |
| VideoService.RenderCanvasUnscaled | services/videoService.ts:42-134 | drawing into the chosen canvas never scales the video: the cover scale is 1 |
| VideoService.RenderProgress | services/videoService.ts:149-159 | at most 99, not negative once playback reached the clip start, and 99 from the clip end on |
| VideoService.RenderProgressMonotone | services/videoService.ts:149-159 | reported progress never goes down as playback advances |
| VideoService.RoundMonotone | services/videoService.ts:155 | rounding preserves order |
| VideoService.ChooseMime | services/videoService.ts:98-102 | the first supported of mp4 with codecs, plain mp4, and webm as the unchecked last resort |
| VideoService.AllReleased | services/videoService.ts:27-40 | no set-up still has live tracks or a running draw interval |
| VideoService.ReleaseLast | services/videoService.ts:27-40 | cleanup stops the tracks and the draw interval of the last set-up only; earlier set-ups are untouched |
| VideoService.ReleaseLastSingle | services/videoService.ts:27-40 | with at most one set-up, cleanup releases everything |
| VideoService.FreshSetup | services/videoService.ts:84-138 | one set-up: live tracks, a running draw interval, a recording recorder, the MIME type chosen then |
| VideoService.SeeksAsWritten | services/videoService.ts:80-138 | every seeked event during a recording adds a set-up, since no chunk exists before the recorder stops |
| VideoService.SecondSeekLeaks | services/videoService.ts:27-40 | after two or more seeked events, cleanup leaves the first draw interval, stream and recorder running |
| VideoService.SeeksOnce | services/videoService.ts:80 | with the guard on the recorder, at most one set-up exists, and one exists after any seek |
| VideoService.SeeksOnceReleased | services/videoService.ts:27-40 | with the guard on the recorder, cleanup releases everything however often the video seeks |
| VideoService.ClipRender.Valid | services/videoService.ts:4-169 | the clip ends after it starts, recorded chunks are non-empty, and reported progress is at most 99 |
| VideoService.ClipRender.Released | services/videoService.ts:27-40 | every set-up, the video and the canvas are released |
| VideoService.ClipRender.LastReleased | services/videoService.ts:27-40 | what cleanup can reach (the video, the canvas and the last set-up) is released |
| VideoService.ClipRender.constructor | services/videoService.ts:4-26 | a render starts attached, paused, with no set-up, nothing recorded and no outcome, seeking to the clip start |
| VideoService.ClipRender.Cleanup | services/videoService.ts:27-40 | the video pauses and is detached, the canvas is removed, and only the last set-up's interval and tracks stop; everything is released only when there was at most one set-up |
| VideoService.ClipRender.Settle | services/videoService.ts:4-169 | the promise settles once: the first outcome stays |
| VideoService.ClipRender.OnLoadedMetadata | services/videoService.ts:42-77 | the canvas gets the target size and the video seeks to the clip start |
| VideoService.ClipRender.OnSeeked | services/videoService.ts:79-147 | nothing once a chunk exists; a set-up error cleans up and rejects; otherwise one more set-up (stream, recorder with the chosen MIME type, draw interval) is added and playback starts, even when one is already running |
| VideoService.ClipRender.OnPlayRejected | services/videoService.ts:139-142 | a refused play cleans up (the last set-up only) and rejects with its message |
| VideoService.ClipRender.OnDataAvailable | services/videoService.ts:106-108 | only non-empty chunks are appended, all set-ups sharing one chunk list |
| VideoService.ClipRender.OnTimeUpdate | services/videoService.ts:149-159 | progress is reported; at the clip end the video pauses and the last recorder stops if it is recording |
| VideoService.ClipRender.OnStop | services/videoService.ts:110-114 | a recorder's stop resolves the promise with all chunks as one blob of the type that set-up chose, after cleanup |
| VideoService.ClipRender.OnError | services/videoService.ts:161-164 | a playback error cleans up (the last set-up only) and rejects |
| VideoService.KindOf | services/videoService.ts:173-215 | image/* files are read directly, video/* files are sampled, anything else is unsupported |
| VideoService.FrameExtraction.constructor | services/videoService.ts:171-215 | an unsupported type rejects at once; a video gets an object URL and an attached element |
| VideoService.FrameExtraction.Settle | services/videoService.ts:171-215 | the first outcome stays |
| VideoService.FrameExtraction.OnReaderDone | services/videoService.ts:173-179 | an image resolves with what the file reader produced |
| VideoService.FrameExtraction.OnLoadedData | services/videoService.ts:189-191 | a video seeks to its sample time, 0.5 s in (the constant `VideoService.FrameSeekTime`); other kinds are unchanged |
| VideoService.FrameExtraction.OnSeeked | services/videoService.ts:193-206 | a video resolves with the captured frame and releases the element and the object URL |
| VideoService.FrameExtraction.OnVideoError | services/videoService.ts:208-211 | a video load error revokes the object URL and rejects |
| VideoService.FrameExtraction.Valid | services/videoService.ts:171-215 | only a video file creates an object URL and a video element; a settled video file has revoked its URL; an unsupported file ends with the unsupported error |
| SplitPlan.StartAt | components/VideoSplitter.tsx:168 | window starts are never negative for a positive step |
| SplitPlan.StartAtProduct | components/VideoSplitter.tsx:168 | the k-th window starts at k times the step |
| SplitPlan.MaxSegments | components/VideoSplitter.tsx:93 | the window cap: 200 for Pro users, 40 otherwise |
| SplitPlan.Step | components/VideoSplitter.tsx:89 | the step between window starts is the duration minus the overlap |
| SplitPlan.PlanFrom | components/VideoSplitter.tsx:101-109 | the windows the scan loop builds from index k on |
| SplitPlan.WindowAt | components/VideoSplitter.tsx:101-109 | the window the loop builds at index k: start k·step, end at the chosen length or the video end |
| SplitPlan.Plan | components/VideoSplitter.tsx:89-90 | the run fails with the overlap error exactly when duration minus overlap is not positive |
| SplitPlan.PlanFromShape | components/VideoSplitter.tsx:101-109 | every planned window is the k-th window of the loop, at most the cap many, and the loop stops where the source breaks out |
| SplitPlan.PlanFromWindows | components/VideoSplitter.tsx:101-109 | every planned window is the one the loop builds at its index, within the cap |
| SplitPlan.PlanFromStops | components/VideoSplitter.tsx:101-109 | after the last window the loop condition or the short-tail break holds |
| SplitPlan.PlanStep | components/VideoSplitter.tsx:101-109 | one loop iteration adds exactly one window and the index stays under the estimate |
| SplitPlan.PlanStop | components/VideoSplitter.tsx:101-109 | the loop ends at the end of the video, at the cap, or on a tail shorter than 5 s |
| SplitPlan.PlanWindowBounds | components/VideoSplitter.tsx:101-109 | every window lies inside the video, has the chosen length or runs to the end, and the last one is at least 5 s long |
| SplitPlan.PlanCount | components/VideoSplitter.tsx:92-93 | at most 200 (Pro) or 40 windows, and no more than the estimate `ceil(duration / step)` |
| SplitPlan.SeekTimeInWindow | components/VideoSplitter.tsx:114-122 | the sampled frame lies inside its window and at least 0.1 s before the end of the video |
| SplitPlan.SeekTime | components/VideoSplitter.tsx:114-122 | the frame is sampled 20% into the window, at most 0.1 s before the video end |
| SplitPlan.ScanProgress | components/VideoSplitter.tsx:112 | scan progress stays within 0..40 |
| SplitPlan.AnalysisProgress | components/VideoSplitter.tsx:139-140 | ranking progress stays within 40..99 |
| SplitPlan.SegmentOf | components/VideoSplitter.tsx:147-161 | the segment takes the job's id and thumbnail, the window's index and times, the run's orientation, and the analysis title, description and score; an empty explanation becomes "Interesting visual content." and missing hashtags `["#viral"]`; the watermark flag is always set |
| SplitPlan.KeptAppend | components/VideoSplitter.tsx:143-163 | a finished analysis appends its segment exactly when its score reaches the minimum |
| SplitPlan.Passes | components/VideoSplitter.tsx:143 | an analysis passes when its score reaches the minimum |
| SplitPlan.Kept | components/VideoSplitter.tsx:143-163 | the segments appended, in completion order, for the finished analyses that pass |
| SplitPlan.KeptMembers | components/VideoSplitter.tsx:143-163 | a segment is kept exactly when some finished analysis passed and produced it |
| SplitPlan.KeptIndexes | components/VideoSplitter.tsx:143-163 | kept segments have distinct window indexes, each one from a finished analysis |
| SplitPlan.DistinctJobsBound | components/VideoSplitter.tsx:137-166 | analyses of distinct windows number at most the windows |
| SplitPlan.DistinctKeysSize | components/VideoSplitter.tsx:137-166 | distinct window numbers form a set of the same size |
| SplitPlan.KeptBelowPlanned | components/VideoSplitter.tsx:143-176 | the run never keeps more segments than it planned windows, which is what it reports as usage |
| SegmentSort.Insert | components/VideoSplitter.tsx:64-71 | inserting adds exactly one element |
| SegmentSort.Key | components/VideoSplitter.tsx:64-71 | the sort key: the start time for "time", the negated score for "score" |
| SegmentSort.SortSegments | components/VideoSplitter.tsx:64-71 | sorting keeps the length |
| SegmentSort.InsertPermutes | components/VideoSplitter.tsx:64-71 | inserting adds exactly the new element to the multiset |
| SegmentSort.InsertSorted | components/VideoSplitter.tsx:64-71 | inserting into a sorted list keeps it sorted |
| SegmentSort.InsertWithKey | components/VideoSplitter.tsx:64-71 | among equal keys the inserted element goes last |
| SegmentSort.SortSegmentsSorted | components/VideoSplitter.tsx:64-71 | the result is sorted and a permutation of the segments |
| SegmentSort.SortSegmentsStable | components/VideoSplitter.tsx:64-71 | segments with equal keys keep their order, as `Array.prototype.sort` guarantees |
| SegmentSort.SortSegmentsOrder | components/VideoSplitter.tsx:64-71 | "time" orders by ascending start, "score" by descending viral score |
| SegmentSort.SortSegmentsOfSorted | components/VideoSplitter.tsx:64-71 | an already sorted list is returned unchanged |
| SegmentSort.InsertAtEnd | components/VideoSplitter.tsx:64-71 | an element with the largest key goes at the end |
| VideoSplitter.Trunc | components/VideoSplitter.tsx:59 | truncation toward zero, the floor for non-negative numbers |
| VideoSplitter.JsRemainder | components/VideoSplitter.tsx:59 | JavaScript's `%`: the remainder takes the sign of the dividend |
| VideoSplitter.FormatTime | components/VideoSplitter.tsx:57-62 | `0:00` for zero, otherwise minutes, a colon and the seconds padded to two digits |
| VideoSplitter.ClockText | components/VideoSplitter.tsx:57-62 | the `m:ss` text of a whole number of seconds |
| VideoSplitter.ParseClock | components/VideoSplitter.tsx:57-62 | reads `m:ss` back into seconds (the inverse used by the round-trip lemmas) |
| VideoSplitter.FormatTimeWholeSeconds | components/VideoSplitter.tsx:57-62 | the shown time depends only on the whole seconds: minutes, colon, two-digit seconds |
| VideoSplitter.MinutesOf | components/VideoSplitter.tsx:58-59 | `floor(s / 60)` and `floor(s % 60)` are the minutes and seconds of the whole seconds |
| VideoSplitter.SecondsRoundTrip | components/VideoSplitter.tsx:60 | the padded seconds are two digits that read back as the seconds |
| VideoSplitter.ClockRoundTrip | components/VideoSplitter.tsx:57-62 | `m:ss` text reads back as the number of seconds shown |
| VideoSplitter.FormatTimeSameText | components/VideoSplitter.tsx:57-62 | two times show the same text exactly when their whole seconds agree |
| VideoSplitter.ExportSlug | components/VideoSplitter.tsx:209 | the slug has no whitespace, at most 15 characters, and is a prefix of the dashed title |
| VideoSplitter.ExportFileName | components/VideoSplitter.tsx:209 | `instasplit-<position>-<slug>.mp4` |
| VideoSplitter.ExportPosition | components/VideoSplitter.tsx:209 | reads the position back from an export file name |
| VideoSplitter.ExportPositionRoundTrip | components/VideoSplitter.tsx:209 | the position can be read back from the exported file name |
| VideoSplitter.ExportFileNamesDiffer | components/VideoSplitter.tsx:209 | files for different positions get different names, whatever the titles |
| VideoSplitter.Successes | components/VideoSplitter.tsx:191-219 | the positions whose render succeeded, in increasing order |
| VideoSplitter.SuccessesComplete | components/VideoSplitter.tsx:191-219 | every successful position is listed |
| VideoSplitter.NamesAt | components/VideoSplitter.tsx:209 | the name at each listed position is the file name for that position |
| VideoSplitter.ExportNames | components/VideoSplitter.tsx:187-222 | the names downloaded by one batch: position i + 1 for each successful segment i, in order |
| VideoSplitter.ExportNamesMembers | components/VideoSplitter.tsx:187-222 | a name is downloaded exactly when its segment rendered successfully |
| VideoSplitter.ExportNamesSound | components/VideoSplitter.tsx:187-222 | every downloaded name belongs to a successful segment |
| VideoSplitter.ExportNamesComplete | components/VideoSplitter.tsx:187-222 | every successful segment is downloaded |
| VideoSplitter.ExportedIndex | components/VideoSplitter.tsx:187-222 | a downloaded name identifies its segment |
| VideoSplitter.ExportNamesDistinct | components/VideoSplitter.tsx:187-222 | no two downloads of one batch share a file name |
| VideoSplitter.ExportNamesDiffer | components/VideoSplitter.tsx:187-222 | downloads at different positions of the batch have different names |
| VideoSplitter.RenderCalls | components/VideoSplitter.tsx:191-202 | one render per segment, in order, with its times and the chosen ratio |
| VideoSplitter.ExportAll | components/VideoSplitter.tsx:191-219 | the loop shows the progress `i + 1 of n` for every item in order, renders every segment and downloads exactly the successful ones under their names |
| VideoSplitter.ExportStep | components/VideoSplitter.tsx:191-219 | one iteration adds at most the name of its own segment |
| VideoSplitter.JobFor | components/VideoSplitter.tsx:114-134 | each job samples its window at the window's seek time |
| VideoSplitter.Windows | components/VideoSplitter.tsx:101-170 | the windows of the jobs, in order |
| VideoSplitter.Scan | components/VideoSplitter.tsx:92-170 | the scan loop produces exactly the planned windows, numbered in order, within the estimate, with progress in 0..40 |
| VideoSplitter.ScanIteration | components/VideoSplitter.tsx:101-170 | one iteration either breaks on a short tail or adds the window that runs to the end of the video or the chosen length |
| VideoSplitter.ScanAdvance | components/VideoSplitter.tsx:101-170 | a loop iteration keeps the scan invariant |
| VideoSplitter.ScanDone | components/VideoSplitter.tsx:101-170 | when the loop exits, the jobs are the whole plan |
| VideoSplitter.RunStateFresh | components/VideoSplitter.tsx:76-80 | a fresh run with no analyses finished satisfies the run invariant |
| VideoSplitter.RunStateCleared | components/VideoSplitter.tsx:78 | clearing the segments keeps the run invariant |
| VideoSplitter.RunStateComplete | components/VideoSplitter.tsx:137-166 | a finished analysis keeps the run invariant, appending its segment when it passes |
| VideoSplitter.DistinctAppend | components/VideoSplitter.tsx:137-166 | a new window's analysis keeps the analyses distinct |
| VideoSplitter.KeptTailAppend | components/VideoSplitter.tsx:143-163 | segments kept since the last clear grow by the new segment exactly when it passes |
| VideoSplitter.Splitter.constructor | components/VideoSplitter.tsx:21-42 | no file, default options, time order, nothing processing |
| VideoSplitter.Splitter.Valid | components/VideoSplitter.tsx:21-42 | every completion is of a planned window and none twice; the completion count matches; the segments shown are the ones kept since the list was last emptied; progress stays in 0..100 |
| VideoSplitter.RunState | components/VideoSplitter.tsx:21-176 | the consistency of a run that `Splitter.Valid` names: completions of planned windows, none twice, counted, and the shown segments kept since the last reset |
| VideoSplitter.Splitter.HandleFileChange | components/VideoSplitter.tsx:47-55 | a new file resets the duration and the segments |
| VideoSplitter.Splitter.ClearFile | components/VideoSplitter.tsx:264 | removing the file clears the URL and the segments |
| VideoSplitter.Splitter.HandleLoadedMetadata | components/VideoSplitter.tsx:486 | the duration is taken from the video |
| VideoSplitter.Splitter.SetOptions | components/VideoSplitter.tsx:284-363 | the options are replaced |
| VideoSplitter.Splitter.SetSortBy | components/VideoSplitter.tsx:442-449 | the sort mode is replaced |
| VideoSplitter.Splitter.StartProcess | components/VideoSplitter.tsx:73-109 | no file does nothing; an overlap error is reported with progress 100; otherwise the run holds exactly the planned jobs with the run's minimum score and orientation |
| VideoSplitter.Splitter.FailRun | components/VideoSplitter.tsx:178-184 | the error is reported, processing stops and progress reads 100 |
| VideoSplitter.Splitter.ScanRun | components/VideoSplitter.tsx:92-170 | the scan fills the run with the planned jobs and estimate |
| VideoSplitter.Splitter.CompleteAnalysis | components/VideoSplitter.tsx:137-166 | the count and progress advance, and the segment is appended exactly when the score reaches the minimum |
| VideoSplitter.Splitter.FinishProcess | components/VideoSplitter.tsx:173-184 | usage is the number of planned windows, never below the segments kept; processing stops at 100 |
| VideoSplitter.Splitter.SortedSegments | components/VideoSplitter.tsx:64-71 | the shown list has as many entries as the segments |
| VideoSplitter.Splitter.HandleExportAll | components/VideoSplitter.tsx:187-222 | nothing without a file or segments; otherwise every sorted segment is rendered and the successful ones are downloaded under their names, and the progress left showing is `n of n` |
| SplitResultCard.ClipFileName | components/SplitResultCard.tsx:38 | `instasplit-` + lower-cased dashed title + `.mp4` |
| SplitResultCard.ClipSlugClean | components/SplitResultCard.tsx:38 | the middle of the name has no whitespace and no upper-case ASCII letter |
| SplitResultCard.ClipFileNameOfWords | components/SplitResultCard.tsx:38 | two words separated by whitespace give `instasplit-word-word.mp4` in lower case |
| SplitResultCard.ColorOf | components/SplitResultCard.tsx:60 | green above 80, yellow above 50 up to 80, grey otherwise |
| SplitResultCard.ColorAndTier | components/SplitResultCard.tsx:60-61 | colour is monotone in the score, green implies top tier, and a score of exactly 80 is top tier but yellow |
| SplitResultCard.IsTopTier | components/SplitResultCard.tsx:61 | a score of at least 80 is top tier |
| SplitResultCard.TargetRatio | components/SplitResultCard.tsx:22 | the option's ratio, or "Original" without options |
| SplitResultCard.BoxFor | components/SplitResultCard.tsx:64-67 | for "Original" the box is widescreen exactly for landscape segments, otherwise 9:16 |
| SplitResultCard.BoxMatchesRender | components/SplitResultCard.tsx:64-67 | the preview box has the same ratio as the canvas the render produces |
| SplitResultCard.PreviewSrc | components/SplitResultCard.tsx:21 | the preview source is the video URL followed by `#t=` |
| SplitResultCard.SplitFragment | components/SplitResultCard.tsx:21 | a parsed URL and fragment rebuild the source |
| SplitResultCard.ParseTimes | components/SplitResultCard.tsx:21 | parsed start and end rebuild the `t=start,end` fragment |
| SplitResultCard.ParsePreviewSrc | components/SplitResultCard.tsx:21 | whatever parses was produced by the preview source format |
| SplitResultCard.PreviewSrcRoundTrip | components/SplitResultCard.tsx:21 | the URL and both times can be read back from the preview source |
| SplitResultCard.RemoveFirst | components/SplitResultCard.tsx:82 | `replace('#', '')` removes only the first occurrence |
| SplitResultCard.Handle | components/SplitResultCard.tsx:82 | the first hashtag with its first `#` removed, or "instasplit" when there is no hashtag or nothing is left; a first tag without `#` is shown as is |
| SplitResultCard.HandleOfTag | components/SplitResultCard.tsx:82 | the handle of `#word` is the word, or "instasplit" for a bare `#` |
| SplitResultCard.TagText | components/SplitResultCard.tsx:188 | a shown tag always starts with `#`; tags that already do are kept |
| SplitResultCard.TagTextIdempotent | components/SplitResultCard.tsx:188 | showing a tag twice adds no second `#` |
| SplitResultCard.ExportCard.constructor | components/SplitResultCard.tsx:14-22 | idle, no cached clip, watermark shown |
| SplitResultCard.ExportCard.Valid | components/SplitResultCard.tsx:14-58 | render calls are the failed ones plus one when a URL is cached, so at most one render succeeds; every export uses the cached URL; progress reads 0 when idle |
| SplitResultCard.ExportCard.ToggleWatermark | components/SplitResultCard.tsx:87-89 | a Pro user flips the watermark |
| SplitResultCard.ExportCard.HandleExport | components/SplitResultCard.tsx:24-58 | renders only when nothing is cached, downloads under the clip file name or shares under the title, alerts on a failure, and always ends idle at 0 |
| SplitResultCard.RenderedOnce | components/SplitResultCard.tsx:29-36 | at most one render of a card ever succeeded |
| VideoCard.BoxOf | components/VideoCard.tsx:125-134 | each known ratio text gets a box with exactly that ratio |
| VideoCard.BoxOfCases | components/VideoCard.tsx:125-134 | unknown texts fall back to 9:16, and different ratios get different boxes |
| VideoCard.SeekTime | components/VideoCard.tsx:117-123 | a slider value in 0..100 gives a time inside the video; 100 gives the end |
| VideoCard.PercentOf | components/VideoCard.tsx:117-123 | a percentage of a duration lies within it |
| VideoCard.ProgressOf | components/VideoCard.tsx:109-115 | no number for a zero duration (JavaScript gives NaN at time 0 and Infinity after it), otherwise a percentage within 0..100 for a time inside the video |
| VideoCard.SeekThenProgress | components/VideoCard.tsx:109-123 | seeking to a slider value shows that value as progress |
| VideoCard.Extension | components/VideoCard.tsx:69 | a three-letter extension |
| VideoCard.FallbackName | components/VideoCard.tsx:69-70 | `instasplit-<id>.mp4` for videos, `.jpg` for images |
| VideoCard.FallbackNameInjective | components/VideoCard.tsx:69-70 | the fallback name determines the media id and kind |
| VideoCard.PlayerBoard.constructor | components/VideoCard.tsx:42-55 | no cards mounted |
| VideoCard.PlayerBoard.Valid | components/VideoCard.tsx:42-62 | a playing card is not paused, and of two cards with different ids at least one is paused |
| VideoCard.PlayerBoard.Mount | components/VideoCard.tsx:42-55 | a new card starts paused and not playing |
| VideoCard.PlayerBoard.Unmount | components/VideoCard.tsx:50-53 | the card and its listener are removed, the rest kept |
| VideoCard.PlayerBoard.Play | components/VideoCard.tsx:42-62 | the card plays; every card with another id ends paused and not playing; cards sharing its id are untouched |
| VideoCard.PlayerBoard.Pause | components/VideoCard.tsx:148 | only that card pauses |
| VideoCard.OnlyOnePlays | components/VideoCard.tsx:42-62 | with distinct ids at most one card plays at a time |
| VideoCard.MediaCard.constructor | components/VideoCard.tsx:9-35 | an image shows its URI at once; a video waits for its download |
| VideoCard.MediaCard.Valid | components/VideoCard.tsx:20-38 | an image card shows its URI without error; a card in error shows no media; no share is in progress between events |
| VideoCard.MediaCard.Unmount | components/VideoCard.tsx:36-38 | the card stops accepting results |
| VideoCard.MediaCard.OnFetched | components/VideoCard.tsx:21-33 | a mounted card shows the authenticated URL, the bare URI after a failed download, and never sets the error state |
| VideoCard.MediaCard.HandleShare | components/VideoCard.tsx:64-79 | nothing without media; when sharing is unavailable the file is downloaded under the fallback name with one alert; a failure only alerts |
| PricingModal.Modal.constructor | components/PricingModal.tsx:14-16 | no ad running, count at 4 |
| PricingModal.Modal.Valid | components/PricingModal.tsx:14-46 | a tick is pending only in an open dialog running an ad, and while open exactly when an ad runs, one below the count shown; every ad started is running, credited 50, or cancelled |
| PricingModal.Modal.TicksLeft | components/PricingModal.tsx:35-44 | the ticks still to come before the reward |
| PricingModal.Modal.Open | components/PricingModal.tsx:19-27 | opening resets the ad state, with no tick pending |
| PricingModal.Modal.WatchAd | components/PricingModal.tsx:31-46 | an ad starts with 4 ticks to go and nothing credited yet |
| PricingModal.Modal.Tick | components/PricingModal.tsx:35-44 | at 0 the ad ends and exactly 50 coins are credited once; above 0 the count shows and the next tick is scheduled |
| PricingModal.Modal.TimerFires | components/PricingModal.tsx:35-44 | every tick brings the reward one step closer, and the last one credits it |
| PricingModal.Modal.HandleClose | components/PricingModal.tsx:48-52 | the dialog cannot be closed while an ad runs; otherwise it closes and the timer is cleared |
| PricingModal.Modal.Upgrade | components/PricingModal.tsx:19-95 | upgrading calls the upgrade callback and closes the dialog, also during an ad (the button is not disabled): the pending tick is cleared, that ad is counted as cancelled and never credited, and the watching flag stays until the dialog reopens |
| App.AddUsage | App.tsx:162-170 | only the chosen counter moves, by the amount |
| App.Present | App.tsx:100-104 | a stored string counts when it is set and non-empty, as JavaScript truthiness |
| App.AddUsageComposes | App.tsx:162-170 | two increments add up and commute |
| App.UsageForToday | App.tsx:109-120 | the stored record when it is from today, otherwise a fresh zero record for today |
| App.UsageForTodayStable | App.tsx:109-120 | reloading today's record changes nothing |
| App.FreeCredits | App.tsx:437 | never negative, zero exactly when the two free generations are used up, at most 2 |
| App.AvailableRatios | App.tsx:311-314 | images may use all five ratios; videos exactly the ratios Veo accepts |
| App.RatingWindow | App.tsx:128-135 | no rating prompt within 48 hours of the last one, and once due it stays due |
| App.RatingDue | App.tsx:128-135 | the rating dialog is due for a logged-in user who has not rated and was never asked or last asked more than 48 hours ago |
| App.GenerateGate | App.tsx:232-249 | the pricing dialog opens exactly when a free user is out of free videos and coins; declining the charge stops; a blank prompt without image stops; coins are spent exactly on a confirmed over-limit video |
| App.ConfigFor | App.tsx:251-257 | the request carries the form's prompt, ratio, style and kind, and no image without a start image |
| App.StartImageReachesModel | App.tsx:251-257 | the payload of an uploaded start image reaches Veo as image/jpeg |
| App.PaidBalanceAsWritten | App.tsx:271-272 | the balance written after a paid generation is the balance at the start minus 50 |
| App.PaidBalanceLosesEarnedCoins | App.tsx:271-272 | whenever coins were earned while the generation ran, more than the cost leaves the balance (50 at the start, 50 earned: 0 left instead of 50) |
| App.PaidBalance | App.tsx:268-275 | the balance after a paid generation is exactly 50 below the current one and never negative |
| App.EarnedBalanceAsWritten | App.tsx:183-186 | the balance written after an ad is the balance when "Watch Ad" was clicked plus the reward |
| App.EarnedBalanceUndoesCharge | App.tsx:183-186 | a paid generation finishing during the ad gets its 50-coin charge undone (100 at the click ends at 150, not 100) |
| App.EarnedBalance | App.tsx:183-186 | the balance after an ad is exactly the reward above the current one and keeps every change made since the click |
| App.AppModel.constructor | App.tsx:68-93 | logged out, no key, no coins, empty usage and gallery, default form |
| App.AppModel.Valid | App.tsx:68-93 | the balance is never negative and a non-zero balance is the stored one; `isGenerating` holds exactly while a request runs; a paid request started with at least 50 coins and no more than the current balance |
| App.AppModel.Init | App.tsx:98-138 | login, key, today's usage, Pro flag, coins and the rating prompt are restored from storage |
| App.AppModel.RestoreLogin | App.tsx:100-104 | a stored provider logs the user in |
| App.AppModel.LoadUsage | App.tsx:109-120 | usage is today's record |
| App.AppModel.LoadProAndCoins | App.tsx:122-126 | a stored Pro flag and stored coins are taken over |
| App.AppModel.ScheduleRating | App.tsx:128-135 | the rating dialog is shown exactly when it is due |
| App.AppModel.Login | App.tsx:140-144 | logs in and stores the provider |
| App.AppModel.Logout | App.tsx:146-150 | logs out, removes the stored login, and the rating is then never due |
| App.AppModel.SetGenerationType | App.tsx:480-487 | the type toggle changes only the form's media type |
| App.AppModel.SetPrompt | App.tsx:559 | the prompt box changes only the form's prompt |
| App.AppModel.SetAspectRatio | App.tsx:572 | a ratio button changes only the form's ratio |
| App.AppModel.SetStyle | App.tsx:590 | the style picker changes only the form's style |
| App.AppModel.ClearStartImage | App.tsx:516 | the remove button clears only the start image |
| App.AppModel.HandleFileUpload | App.tsx:215-226 | an extracted frame becomes the start image; no file or a failed extraction leaves the form unchanged |
| App.AppModel.UpdateUsage | App.tsx:162-170 | the counter moves and the record is stored |
| App.AppModel.UpdateCoins | App.tsx:172-175 | the balance is set and stored |
| App.AppModel.EarnCoins | App.tsx:183-186 | the current balance grows by the reward and is stored (the corrected balance, see Findings) |
| App.AppModel.Upgrade | App.tsx:177-181 | the user becomes Pro and the flag is stored |
| App.AppModel.CloseRating | App.tsx:157-160 | the dialog closes and the prompt time is stored |
| App.AppModel.Rate | App.tsx:152-155 | the rating is stored as done and never asked again |
| App.AppModel.StartGenerate | App.tsx:228-257 | follows the gate: opens pricing, stops, or starts a generation with the config and the balance at the start |
| App.AppModel.CompleteGenerate | App.tsx:258-301 | a success prepends the media (watermarked for free users) and charges coins or a free credit; a failure changes nothing but the message, and a missing entity drops the key |
| App.PaidGenerationCovered | App.tsx:232-275 | a paid generation always has 50 coins to pay with and never leaves a negative balance |

## Left out

- I/O is not modelled. This covers local storage (a `Storage` record holds its values), the network, the Gemini and Veo SDK calls (their replies are parameters), `URL.createObjectURL`, and the DOM.
- Time is not modelled. The 3-second delay before the rating dialog, the 5-second polling delay, the 1.5-second pause between exports and the 10 ms yield in the scan loop are all dropped. Only their order is kept.
- Drawing is not modelled: the 30 fps `setInterval` draw loop (videoService.ts:136) is a flag per set-up, and its frames are not drawn.
- Floating point is not modelled. Times and sizes are exact reals.
- ToLower (`Text.ToLower`): models `toLowerCase` on ASCII letters only. JavaScript lowers every Unicode capital ("É" becomes "é"), and for some (U+0130) the length changes; the model keeps such characters unchanged.
- ToLowerFacts (`Text.ToLowerFacts`): "characters other than ASCII capitals are kept" holds of the model, not of `toLowerCase` on non-ASCII capitals, for the reason above.
- ClipFileName (`SplitResultCard.ClipFileName`): the slug is lower-cased by the ASCII-only `Text.ToLower`, so titles with non-ASCII capitals get different names than in the browser.
- Take (`Text.Take`): counts characters (Unicode code points), while `slice(0, 15)` counts UTF-16 code units; the two differ for characters outside the Basic Multilingual Plane, such as emoji.
- ExportSlug (`VideoSplitter.ExportSlug`): cut with `Text.Take`, so a title with emoji is cut at a different place than the browser cuts it.
- `SplitResultCard.PreviewSrc` takes the start and end as texts, because JavaScript's number-to-text conversion is not modelled.
- `GeminiService.AnalyzeFrame` takes the JSON parser as a parameter. The JSON text format is not modelled.
- `promptSelectKey` (geminiService.ts:24-28) only opens AI Studio's key dialog. It is folded into `GeminiService.EnsureApiKey`'s `dialogOpened`.
- `generatePromptFromImage` (geminiService.ts:48-67) is not modelled. It sends the cleaned frame, which `GeminiService.CleanBase64` covers. It returns the model's text or "" and rethrows failures unchanged, so there is nothing further to state.
- `shareMedia` and `downloadMedia` are imported by VideoCard.tsx but are not defined in the geminiService.ts shown, so they are not part of this model. Their results are parameters of `VideoCard.MediaCard.HandleShare`.
- `shareVideo` (geminiService.ts:232-255) is reduced to whether it failed: the `shareFails` parameter of `SplitResultCard.ExportCard.HandleExport`.
- `VideoService.ClipRender.OnSeeked` models a set-up error as adding no set-up, so the cleanup that follows acts on the previous set-up. When the error comes after `stream` was reassigned but before the draw interval starts (videoService.ts:94-103), the source stops the new stream's tracks and the previous set-up's interval. When `recorder.start()` throws (videoService.ts:138), the new interval has been assigned, so cleanup stops the new stream and the new interval, while the new recorder never started. The model does not split a set-up in either way.
- `App.AppModel.Init` runs as one step. The `await` on the key check inside `init` can interleave with other events in the source; the model does not capture that.
- `VideoSplitter.Splitter.CompleteAnalysis` models analyses finishing in any order. Their interleaving with the scan loop itself is not modelled: all analyses finish after the scan.
- The status texts, `isMuted`, fullscreen, the login screen, the deployment and rating dialogs, and layout are left out. They carry no logic beyond display.

Behaviour of the code that the model keeps:

- A Pro user's video generation increments the daily video counter. `usingCoins` is false for Pro users, so the counter branch runs.
- Render progress is rounded, and it is negative while playback is still before the clip start.
- Render errors are passed on as raw messages.
- Split segments always carry `hasWatermark: true`. The `isWatermarked` value computed at VideoSplitter.tsx:145 is unused.
- The default hashtags apply only when the hashtag list is missing. An empty list is kept.
- `handleGenerate` ignores the result of `ensureApiKey`.
- `fetchAuthenticatedVideoUrl` never rejects, so VideoCard's error state is unreachable for videos (`VideoCard.MediaCard.OnFetched`).

## Findings

| source | as written | input that shows it | evidently intended | confidence | as-written member | corrected member |
|---|---|---|---|---|---|---|
| App.tsx:271-272 | after a paid video generation the balance is set to `coins - GENERATION_COST`, using the balance captured when the generation started | 50 coins at the start; a 50-coin ad reward is earned while Veo runs; the balance becomes 0 instead of 50 | charge 50 against the balance current when the generation finishes | not executed | App.PaidBalanceAsWritten (shown by App.PaidBalanceLosesEarnedCoins) | App.PaidBalance (used by App.AppModel.CompleteGenerate) |
| App.tsx:183-186 | after an ad the balance is set to `coins + amount`, where `coins` is the balance of the render in which "Watch Ad" was clicked; the dialog's countdown keeps that callback for its four seconds | 100 coins when "Watch Ad" is clicked; a paid generation finishes during the countdown and leaves 50; the reward then writes 150 instead of 100 | add the reward to the current balance | not executed | App.EarnedBalanceAsWritten (shown by App.EarnedBalanceUndoesCharge) | App.EarnedBalance (used by App.AppModel.EarnCoins) |
| services/videoService.ts:80 | the `seeked` handler guards against a second run with `chunks.length > 0`, but a recorder started without a timeslice delivers no chunk before it stops, so every `seeked` while recording builds a new stream, recorder and draw interval, and cleanup releases only the last one | a seek (for example a browser re-seek) fires `seeked` twice before the clip ends; after cleanup the first draw interval and canvas stream keep running | set up the recording once per render, so that cleanup releases everything | not executed | VideoService.ClipRender.OnSeeked (shown by VideoService.SecondSeekLeaks) | VideoService.SeeksOnce (with VideoService.SeeksOnceReleased) |
