# Video merger model

A Dafny model of `VideoMerger.merge` from the merge-video sample app. The
routine concatenates an ordered list of movie clips into one composition and
exports it as a single movie. It works in these steps:

1. It allocates one video track and then one audio track.
2. It appends every clip at a running cursor, in input order. For each clip:
   - the clip's whole video goes into the video track at the cursor;
   - the clip's audio goes into the audio track at the cursor. A clip without
     audio gets an empty span of its duration instead, inserted at time zero.
   - one render instruction is recorded for the clip's span of the timeline;
   - the cursor advances by the clip's duration;
   - the render size grows to the width-wise and height-wise maxima of the
     natural sizes seen so far.
3. It assembles the render plan: 1/30 s frames, the render size and the
   instructions.
4. It exports and maps the export session's final status to a call of the
   completion handler.

Every failure calls the completion handler once with the matching
`VideoMergerError` case and ends the merge.

The model has four modules:

- `Wrappers` (`wrappers.dfy`) holds `Option`.
- `Media` (`media.dfy`) is the AVFoundation backend, reduced to what the
  routine relies on:
  - an asset has a duration in ticks, an optional first video stream (its
    natural size and whether it can be inserted) and an optional first audio
    stream;
  - a composition track is a `class Track` whose `samples` hold one entry per
    tick. An entry is either the content of input clip `i` at offset `t` or
    silence. Inserting a range splices its ticks in at a given tick;
  - the export session's status comes with a step relation (`Advances`).
    The source states no such relation; it is an assumption of the model,
    and only its terminal set (Completed, Failed, Cancelled) matters to the
    merge.
- `Timeline` (`timeline.dfy`) defines what the routine builds as functions of
  the clips handled so far: the cursor (`TotalDuration`), the two tracks
  (`VideoOf`, `AudioOf`), the instructions (`RenderInstructions`) and the
  render size (`MaxSize`). It also proves what those values are.
- `VideoMerger` (`video_merger.dfy`) holds the error cases, the per-clip step
  `AppendClip`, the loop `AppendClips`, the status mapping `ExportCompletion`
  and `Merge`. `Merge` returns a `MergeRun` record of what happened: the
  completion calls in order, how many clips it began, both tracks' contents,
  the render plan if one was assembled, and whether an export was started.

The clip without audio gets its empty span at time zero, not at the cursor
(src/VideoMerger.swift:46). So the earlier clips' audio moves later, and the
audio track no longer matches the video track clip by clip. The model keeps
this behaviour as the code has it. `Timeline.AudioLayout` states the resulting
layout: all silence first, then the audio of the clips that have it, in order.
`Timeline.TwoClipExample` shows it on two clips. Both tracks still end up equally long
(`Timeline.TracksSpanTotal`). When every clip has audio, the tracks line up
tick by tick (`Timeline.AudibleClipsAlign`).

An empty list of clips is not treated specially. Nothing is appended, the
render size stays (0, 0), and export is still attempted (`VideoMerger.Merge`).

## Model

| member | source | states |
|---|---|---|
| `Media.Track.constructor` | src/VideoMerger.swift:17-24 | a newly added composition track is empty |
| `Media.Track.InsertTimeRange` | src/VideoMerger.swift:37 | inserting a stream's range at tick `at` splices exactly that clip's ticks in at `at` and keeps the rest in order; if the stream cannot be inserted, it reports failure and changes nothing |
| `Media.Track.InsertEmptyTimeRange` | src/VideoMerger.swift:46 | an empty range becomes `duration` silent ticks at the range's start, and what followed is shifted later; it cannot fail |
| `Timeline.AppendStep` | src/VideoMerger.swift:37-69 | handling clip k appends its video, appends its audio or puts its silence at tick zero, appends one instruction that starts at the old cursor, advances the cursor by its duration, and takes the maxima of the size |
| `Timeline.TotalDurationStep` | src/VideoMerger.swift:60 | the cursor after clip k is the cursor before it plus clip k's duration, so after all clips it is their summed duration, and 0 for none |
| `Timeline.TracksSpanTotal` | src/VideoMerger.swift:43-47 | after any number of clips, the video and audio tracks both last the summed duration of those clips, so they are equally long |
| `Timeline.InstructionAt` | src/VideoMerger.swift:53-58 | there is one instruction per clip; instruction i starts at the summed duration of clips 0..i-1, lasts clip i's duration and renders the video track |
| `Timeline.InstructionsTile` | src/VideoMerger.swift:56-60 | the instructions are contiguous and ascending: the first starts at 0, each ends where the next starts, and the last ends at the total duration |
| `Timeline.VideoAt` | src/VideoMerger.swift:37 | clip order in the video track is input order: tick t of clip i is at the summed duration of the earlier clips plus t |
| `Timeline.AudioLayout` | src/VideoMerger.swift:43-47 | the audio track is silence as long as all clips without audio together, then the audio of the clips with audio in input order |
| `Timeline.AudibleClipsAlign` | src/VideoMerger.swift:44 | when every clip has audio, each audio tick comes from the same clip and offset as the video tick |
| `Timeline.MaxSizeBounds` | src/VideoMerger.swift:61-69 | the render size is at least every clip's natural width and, separately, every clip's natural height |
| `Timeline.MaxSizeAttained` | src/VideoMerger.swift:27-69 | the render width equals some clip's natural width, and the height some clip's natural height, possibly another clip's; with no clips the size is (0, 0) |
| `Timeline.TwoClipExample` | src/VideoMerger.swift:29-69 | for clips of 5 ticks with audio at 100x100 and 3 ticks without audio at 200x50: the total is 8, the size 200x100, and the instructions [0,5) and [5,8); the video shows clip 0 first, and the audio is silent during [0,3) and then plays clip 0 |
| `VideoMerger.FirstFailure` | src/VideoMerger.swift:29-51 | returns the index of the first clip whose handling fails, or the clip count if none fails; every earlier clip succeeds; if no clip fails, every clip has a video stream |
| `VideoMerger.FirstFailureAt` | src/VideoMerger.swift:29-51 | if all clips before i succeed and clip i fails (or i is the clip count), the first failure is at i; the converse is given by `VideoMerger.FirstFailure`'s own contract |
| `VideoMerger.GrowSize` | src/VideoMerger.swift:61-69 | the size after one clip, seeded from the clip while it is (0, 0) and then raised in height and width separately, is exactly the independent width and height maxima, so the seeding changes nothing |
| `VideoMerger.BuiltStep` | src/VideoMerger.swift:37-69 | a clip that succeeds takes the loop state of the first i clips (cursor, tracks, instructions, size) to that of the first i + 1 |
| `VideoMerger.AppendClip` | src/VideoMerger.swift:30-51 | for one clip, in this order: a missing video stream gives `getVideoTrack` and changes nothing; a failed video insert gives `insertVideoTrack` and changes nothing; a failed audio insert gives `insertAudioTrack` after the video was already appended; otherwise the video and the audio are appended at the cursor, or silence goes to tick zero |
| `VideoMerger.AppendClips` | src/VideoMerger.swift:25-70 | the loop stops at the first failing clip with that clip's error, having begun exactly that many clips plus one; the tracks hold what the clips before it added, plus the failing clip's video if only its audio failed; with no failure it returns the instructions of all clips and the independent width and height maxima of all clips' natural sizes |
| `VideoMerger.ExportCompletion` | src/VideoMerger.swift:86-92 | `completed` gives one call with the exporter's output URL and no error; `cancelled` and `failed` give one call with no URL and `exportSession` wrapping the session's error; a call never carries both a URL and an error, and it carries a URL exactly when the status is `completed` |
| `VideoMerger.ExportCompletionIffTerminal` | src/VideoMerger.swift:85-93 | the export handler calls `completion` exactly when the status is one the session can no longer leave (completed, failed, cancelled) |
| `VideoMerger.Merge` | src/VideoMerger.swift:15-94 | completion is called at most once. A video-track allocation failure gives `addVideoTrack` before any audio track is allocated, and an audio-track allocation failure gives `addAudioTrack`; neither starts a clip. The first failing clip gives one call with its error, no later clip is started, no plan is made and no export runs. Otherwise the tracks, the plan (1/30 s, maximal size, one instruction per clip) and the export are as stated, and a failed session creation gives `createExportSession`. No call happens only when an export ran and ended in a non-terminal status. An empty list still exports a (0, 0), instruction-free plan |

## Left out

- src/ViewController.swift is not part of this model. It is button wiring, the photo-library permission request and save, and alert presentation.
- Asset loading, decoding and transcoding are not modelled. Whether a track can be allocated, whether a stream can be inserted, whether an export session can be created, and the export's final status and error are inputs. They live in `Platform` and in the stream records.
- The asynchronous delivery of the export callback is not modelled. Only the final status-to-callback mapping is.
- Times are whole ticks of one timescale and sizes are naturals. The rational `CMTime` and floating-point `CGSize` are not modelled. The frame duration is kept as the rational 1/30.
- The output file name, built from `UUID()` and `NSTemporaryDirectory()` at src/VideoMerger.swift:82, is an input string (`Platform.outputUrl`).
- The export preset, the file type and the layer-instruction objects are not modelled. An instruction records only its time range and that its single layer is the video track.
- Media.Track.InsertTimeRange: it requires the insertion tick to be within the track, so inserting past the track's end, which leaves a gap, is not modelled. The merge only inserts at the track's end or at tick zero.
- Media.Track.InsertEmptyTimeRange: it requires the range's start to be within the track, so an empty range past the track's end is not modelled. The merge only inserts empty ranges at tick zero.
- Only the first video stream and the first audio stream of an asset are represented, because the routine reads only `.first`.
- A `NoClips` error and an `unknown export status` error are not modelled. The code has neither: an empty list is exported, and other statuses make no call.
