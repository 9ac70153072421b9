/**
 * The merge routine: allocate a video and an audio track, append every clip
 * to them in input order while collecting render instructions and the
 * render size, assemble the render plan, and export. Every failure calls the
 * completion handler once with the error and stops; the export's terminal
 * status decides the final call.
 */
module VideoMerger {
  import opened Wrappers
  import opened Media
  import opened Timeline

  /** An error reported by the platform, opaque to the merge routine. */
  datatype PlatformError = PlatformError(description: string)

  datatype MergeError =
    | AddVideoTrack
    | AddAudioTrack
    | GetVideoTrack
    | InsertVideoTrack
    | InsertAudioTrack
    | CreateExportSession
    | ExportSession(cause: Option<PlatformError>)

  /** The arguments of one call of the completion handler. */
  datatype Callback = Callback(url: Option<string>, error: Option<MergeError>)

  function Fail(e: MergeError): Callback
  {
    Callback(None, Some(e))
  }

  /** What the platform decides: whether each track can be allocated,
      whether an export session can be created, the file it writes to, and
      the status and error the export ends with. */
  datatype Platform = Platform(
    videoTrackAvailable: bool,
    audioTrackAvailable: bool,
    exportSessionAvailable: bool,
    outputUrl: string,
    exportStatus: ExportStatus,
    exportError: Option<PlatformError>)

  /** The video composition handed to the exporter. */
  datatype RenderPlan = RenderPlan(frameDuration: Time, renderSize: Size, instructions: seq<Instruction>)

  /** One frame every 1/30 s. */
  const FrameDuration := Time(1, 30)

  /** What one merge did: the completion calls in order, how many clips it
      began to handle, the final contents of the two tracks, the render plan
      if it assembled one, and whether it started the export. */
  datatype MergeRun = MergeRun(
    calls: seq<Callback>,
    clipsStarted: nat,
    videoSamples: seq<Sample>,
    audioSamples: seq<Sample>,
    plan: Option<RenderPlan>,
    exportStarted: bool)

  /** The error that handling `c` stops with, in the order the checks are
      made: no video stream, then video insertion, then audio insertion (an
      empty span for a clip without audio cannot fail). */
  function ClipError(c: Asset): Option<MergeError>
  {
    if c.video.None? then Some(GetVideoTrack)
    else if !c.video.value.insertable then Some(InsertVideoTrack)
    else if c.audio.Some? && !c.audio.value.insertable then Some(InsertAudioTrack)
    else None
  }

  /** The index of the first clip whose handling fails, or |cs| when none does. */
  function FirstFailure(cs: seq<Asset>): (k: nat)
    ensures k <= |cs|
    ensures forall j :: 0 <= j < k ==> ClipError(cs[j]).None?
    ensures k < |cs| ==> ClipError(cs[k]).Some?
    ensures k == |cs| ==> AllHaveVideo(cs)
  {
    if cs == [] then 0
    else if ClipError(cs[0]).Some? then 0
    else 1 + FirstFailure(cs[1..])
  }

  /** The completion call the export handler makes for the session's final
      status, if any. */
  function ExportCompletion(status: ExportStatus, outputUrl: string, cause: Option<PlatformError>): (r: Option<Callback>)
    ensures r.Some? ==> (r.value.url.Some? <==> r.value.error.None?)
    ensures r.Some? && r.value.url.Some? <==> status == Completed
    ensures r.Some? && r.value.error.Some? ==> r.value == Fail(ExportSession(cause))
    ensures status == Completed ==> r == Some(Callback(Some(outputUrl), None))
    ensures status == Cancelled || status == Failed ==> r == Some(Fail(ExportSession(cause)))
  {
    match status
    case Completed => Some(Callback(Some(outputUrl), None))
    case Cancelled | Failed => Some(Fail(ExportSession(cause)))
    case _ => None
  }

  /** The handler calls the completion exactly when the session has reached
      a status it can no longer leave. */
  lemma ExportCompletionIffTerminal(status: ExportStatus, outputUrl: string, cause: Option<PlatformError>)
    ensures ExportCompletion(status, outputUrl, cause).Some? <==> IsTerminal(status)
  {
    match status
    case Unknown => assert Advances(status, Waiting);
    case Waiting => assert Advances(status, Exporting);
    case Exporting => assert Advances(status, Completed);
    case _ =>
  }

  function AsCalls(c: Option<Callback>): seq<Callback>
  {
    if c.Some? then [c.value] else []
  }

  /** The first failing clip is the one at `i` when every clip before it
      succeeds and it does not. */
  lemma FirstFailureAt(cs: seq<Asset>, i: nat)
    requires i <= |cs|
    requires forall j :: 0 <= j < i ==> ClipError(cs[j]).None?
    requires i < |cs| ==> ClipError(cs[i]).Some?
    ensures FirstFailure(cs) == i
  {
  }

  /** The render size after a clip with video stream `v`: taken from the
      clip while it is still (0, 0), then raised to the clip's natural height
      and width where those are larger. The seeding makes no difference: the
      result is the independent width and height maxima. */
  function GrowSize(size: Size, v: VideoStream): (r: Size)
    ensures r == Size(Max(size.width, v.naturalWidth), Max(size.height, v.naturalHeight))
  {
    var seeded := if size == Size(0, 0) then Size(v.naturalWidth, v.naturalHeight) else size;
    var taller := if seeded.height < v.naturalHeight then seeded.(height := v.naturalHeight) else seeded;
    if taller.width < v.naturalWidth then taller.(width := v.naturalWidth) else taller
  }

  /** Inserts clip number `clip`, `asset`, into the video track `trackA`
      and the audio track `trackB`, both of which end at `currentTime`: its
      video at the cursor, then its audio at the cursor or, when it has no
      audio, an empty span of its duration at tick zero. Stops at the first
      step that fails and reports it. */
  method AppendClip(trackA: Track, trackB: Track, clip: nat, asset: Asset, currentTime: nat)
    returns (failure: Option<MergeError>)
    requires trackA != trackB
    requires |trackA.samples| == currentTime && |trackB.samples| == currentTime
    modifies trackA, trackB
    ensures failure == ClipError(asset)
    ensures trackA.samples == if failure == Some(GetVideoTrack) || failure == Some(InsertVideoTrack)
                              then old(trackA.samples)
                              else old(trackA.samples) + ClipSamples(clip, TimeRange(0, asset.duration))
    ensures trackB.samples == if failure.Some? then old(trackB.samples)
                              else if asset.audio.Some? then old(trackB.samples) + ClipSamples(clip, TimeRange(0, asset.duration))
                              else Blank(asset.duration) + old(trackB.samples)
  {
    if asset.video.None? {
      return Some(GetVideoTrack);
    }
    var ok := trackA.InsertTimeRange(clip, asset.video.value.insertable, TimeRange(0, asset.duration), currentTime);
    if !ok {
      return Some(InsertVideoTrack);
    }
    if asset.audio.Some? {
      ok := trackB.InsertTimeRange(clip, asset.audio.value.insertable, TimeRange(0, asset.duration), currentTime);
      if !ok {
        return Some(InsertAudioTrack);
      }
    } else {
      trackB.InsertEmptyTimeRange(TimeRange(0, asset.duration));
    }
    failure := None;
  }

  /** The state of the clip-appending loop after the first `i` clips all
      succeeded: the cursor, both tracks, the instructions and the size are
      the functions of those clips. */
  ghost predicate Built(clips: seq<Asset>, i: nat, time: nat, video: seq<Sample>, audio: seq<Sample>,
                        instructions: seq<Instruction>, size: Size)
  {
    && i <= |clips|
    && (forall j :: 0 <= j < i ==> ClipError(clips[j]).None?)
    && AllHaveVideo(clips[..i])
    && time == TotalDuration(clips[..i])
    && video == VideoOf(clips[..i])
    && audio == AudioOf(clips[..i])
    && instructions == RenderInstructions(clips[..i])
    && size == MaxSize(clips[..i])
  }

  /** One successful clip takes the loop state of the first i clips to that
      of the first i + 1. */
  lemma BuiltStep(clips: seq<Asset>, i: nat, time: nat, video: seq<Sample>, audio: seq<Sample>,
                  instructions: seq<Instruction>, size: Size)
    requires i < |clips| && ClipError(clips[i]).None?
    requires Built(clips, i, time, video, audio, instructions, size)
    ensures var c := clips[i];
      Built(clips, i + 1, time + c.duration,
            video + ClipSamples(i, TimeRange(0, c.duration)),
            if c.audio.Some? then audio + ClipSamples(i, TimeRange(0, c.duration)) else Blank(c.duration) + audio,
            instructions + [Instruction(TimeRange(time, c.duration), Video)],
            GrowSize(size, c.video.value))
  {
    AppendStep(clips, i);
  }

  /** The clip-appending loop: appends each clip to the empty video track
      `trackA` and audio track `trackB`, in input order, until one fails.
      Returns the error it stopped with, how many clips it began to handle,
      and the instructions and render size it collected. */
  method AppendClips(trackA: Track, trackB: Track, clips: seq<Asset>)
    returns (failure: Option<MergeError>, started: nat, instructions: seq<Instruction>, videoSize: Size)
    requires trackA != trackB && trackA.samples == [] && trackB.samples == []
    modifies trackA, trackB
    ensures var k := FirstFailure(clips);
      && failure == (if k < |clips| then ClipError(clips[k]) else None)
      && started == (if k < |clips| then k + 1 else |clips|)
      && trackA.samples == VideoOf(clips[..k])
                           + (if failure == Some(InsertAudioTrack) then ClipSamples(k, TimeRange(0, clips[k].duration)) else [])
      && trackB.samples == AudioOf(clips[..k])
    ensures failure.None? ==> AllHaveVideo(clips)
    ensures failure.None? ==> instructions == RenderInstructions(clips) && videoSize == MaxSize(clips)
  {
    instructions := [];
    var currentTime: nat := 0;
    videoSize := Size(0, 0);

    var i := 0;
    while i < |clips|
      invariant Built(clips, i, currentTime, trackA.samples, trackB.samples, instructions, videoSize)
    {
      var asset := clips[i];
      TracksSpanTotal(clips[..i]);
      ghost var video, audio := trackA.samples, trackB.samples;
      failure := AppendClip(trackA, trackB, i, asset, currentTime);
      if failure.Some? {
        FirstFailureAt(clips, i);
        return failure, i + 1, instructions, videoSize;
      }
      BuiltStep(clips, i, currentTime, video, audio, instructions, videoSize);
      instructions := instructions + [Instruction(TimeRange(currentTime, asset.duration), Video)];
      currentTime := currentTime + asset.duration;
      videoSize := GrowSize(videoSize, asset.video.value);
      i := i + 1;
    }
    assert clips[..i] == clips;
    FirstFailureAt(clips, i);
    failure, started := None, i;
  }

  /** Merges `clips` into one composition and exports it, reporting through
      the completion calls it makes. */
  method Merge(clips: seq<Asset>, platform: Platform) returns (r: MergeRun)
    ensures |r.calls| <= 1
    ensures r.calls == [] <==> r.exportStarted && !IsTerminal(platform.exportStatus)
    ensures !platform.videoTrackAvailable ==> r == MergeRun([Fail(AddVideoTrack)], 0, [], [], None, false)
    ensures platform.videoTrackAvailable && !platform.audioTrackAvailable ==>
      r == MergeRun([Fail(AddAudioTrack)], 0, [], [], None, false)
    ensures platform.videoTrackAvailable && platform.audioTrackAvailable && FirstFailure(clips) < |clips| ==>
      var k := FirstFailure(clips);
      var e := ClipError(clips[k]).value;
      && r.calls == [Fail(e)]
      && r.clipsStarted == k + 1
      && r.videoSamples == VideoOf(clips[..k]) + (if e == InsertAudioTrack then ClipSamples(k, TimeRange(0, clips[k].duration)) else [])
      && r.audioSamples == AudioOf(clips[..k])
      && r.plan == None
      && !r.exportStarted
    ensures platform.videoTrackAvailable && platform.audioTrackAvailable && FirstFailure(clips) == |clips| ==>
      && r.clipsStarted == |clips|
      && r.videoSamples == VideoOf(clips)
      && r.audioSamples == AudioOf(clips)
      && r.plan == Some(RenderPlan(FrameDuration, MaxSize(clips), RenderInstructions(clips)))
      && r.exportStarted == platform.exportSessionAvailable
      && r.calls == if platform.exportSessionAvailable
                    then AsCalls(ExportCompletion(platform.exportStatus, platform.outputUrl, platform.exportError))
                    else [Fail(CreateExportSession)]
    ensures platform.videoTrackAvailable && platform.audioTrackAvailable && clips == [] ==>
      && r.videoSamples == [] && r.audioSamples == []
      && r.plan == Some(RenderPlan(FrameDuration, Size(0, 0), []))
      && r.exportStarted == platform.exportSessionAvailable
  {
    if !platform.videoTrackAvailable {
      return MergeRun([Fail(AddVideoTrack)], 0, [], [], None, false);
    }
    var trackA := new Track(Video);
    if !platform.audioTrackAvailable {
      return MergeRun([Fail(AddAudioTrack)], 0, trackA.samples, [], None, false);
    }
    var trackB := new Track(Audio);

    var failure, started, instructions, videoSize := AppendClips(trackA, trackB, clips);
    if failure.Some? {
      return MergeRun([Fail(failure.value)], started, trackA.samples, trackB.samples, None, false);
    }
    assert clips[..|clips|] == clips;

    var plan := RenderPlan(FrameDuration, videoSize, instructions);
    if !platform.exportSessionAvailable {
      return MergeRun([Fail(CreateExportSession)], started, trackA.samples, trackB.samples, Some(plan), false);
    }
    ExportCompletionIffTerminal(platform.exportStatus, platform.outputUrl, platform.exportError);
    var call := ExportCompletion(platform.exportStatus, platform.outputUrl, platform.exportError);
    r := MergeRun(AsCalls(call), started, trackA.samples, trackB.samples, Some(plan), true);
  }
}
