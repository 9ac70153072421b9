/**
 * What the merge routine builds from an ordered list of clips, stated as
 * functions of that list: the running cursor, the video and audio tracks, the
 * render instructions and the render size. Each is defined by the step that
 * one more clip adds, so a loop that handles the clips in order can keep
 * "the state equals the function of the clips handled so far" as its
 * invariant; the lemmas say what the resulting values are.
 */
module Timeline {
  import opened Wrappers
  import opened Media

  /** The clips of `cs` but the last. */
  function Init(cs: seq<Asset>): seq<Asset>
    requires cs != []
  {
    cs[..|cs| - 1]
  }

  /** Sum of the clips' durations: where the cursor stands after them. */
  function TotalDuration(cs: seq<Asset>): nat
  {
    if cs == [] then 0 else TotalDuration(Init(cs)) + cs[|cs| - 1].duration
  }

  /** The video track after the clips: each clip's whole video, inserted at
      the cursor, in input order. */
  function VideoOf(cs: seq<Asset>): seq<Sample>
  {
    if cs == [] then []
    else VideoOf(Init(cs)) + ClipSamples(|cs| - 1, TimeRange(0, cs[|cs| - 1].duration))
  }

  /** The audio track after the clips: a clip with audio has its whole audio
      inserted at the cursor; a clip without audio has an empty span of its
      duration inserted at tick zero, ahead of everything before it. */
  function AudioOf(cs: seq<Asset>): seq<Sample>
  {
    if cs == [] then []
    else
      var last := cs[|cs| - 1];
      if last.audio.Some? then AudioOf(Init(cs)) + ClipSamples(|cs| - 1, TimeRange(0, last.duration))
      else Blank(last.duration) + AudioOf(Init(cs))
  }

  /** A render instruction: render the layer of the `layer` track during `timeRange`. */
  datatype Instruction = Instruction(timeRange: TimeRange, layer: MediaType)

  /** The render instructions after the clips: one per clip, covering the
      clip's span of the timeline, with one layer on the video track. */
  function RenderInstructions(cs: seq<Asset>): seq<Instruction>
  {
    if cs == [] then []
    else RenderInstructions(Init(cs)) + [Instruction(TimeRange(TotalDuration(Init(cs)), cs[|cs| - 1].duration), Video)]
  }

  predicate AllHaveVideo(cs: seq<Asset>)
  {
    forall i :: 0 <= i < |cs| ==> cs[i].video.Some?
  }

  function Max(a: nat, b: nat): nat
  {
    if a < b then b else a
  }

  /** The width-wise and height-wise maxima, taken independently, of the
      clips' natural video sizes; (0, 0) for no clips. */
  function MaxSize(cs: seq<Asset>): Size
    requires AllHaveVideo(cs)
  {
    if cs == [] then Size(0, 0)
    else
      var v := cs[|cs| - 1].video.value;
      var s := MaxSize(Init(cs));
      Size(Max(s.width, v.naturalWidth), Max(s.height, v.naturalHeight))
  }

  /** The duration of the clips without audio. */
  function SilentDuration(cs: seq<Asset>): nat
  {
    if cs == [] then 0
    else SilentDuration(Init(cs)) + (if cs[|cs| - 1].audio.None? then cs[|cs| - 1].duration else 0)
  }

  /** The audio of the clips that have audio, in input order. */
  function AudibleOf(cs: seq<Asset>): seq<Sample>
  {
    if cs == [] then []
    else AudibleOf(Init(cs)) + (if cs[|cs| - 1].audio.Some? then ClipSamples(|cs| - 1, TimeRange(0, cs[|cs| - 1].duration)) else [])
  }

  // ---- Lemmas ----

  lemma InitOfPrefix(cs: seq<Asset>, k: nat)
    requires 0 < k <= |cs|
    ensures Init(cs[..k]) == cs[..k - 1]
  {
  }

  /** The cursor moves by each clip's duration: the total over the first
      k + 1 clips is the total over the first k plus clip k. */
  lemma TotalDurationStep(cs: seq<Asset>, k: nat)
    requires k < |cs|
    ensures TotalDuration(cs[..k + 1]) == TotalDuration(cs[..k]) + cs[k].duration
  {
    InitOfPrefix(cs, k + 1);
  }

  /** What handling clip k adds to each function of the first k clips. */
  lemma AppendStep(cs: seq<Asset>, k: nat)
    requires k < |cs|
    ensures TotalDuration(cs[..k + 1]) == TotalDuration(cs[..k]) + cs[k].duration
    ensures VideoOf(cs[..k + 1]) == VideoOf(cs[..k]) + ClipSamples(k, TimeRange(0, cs[k].duration))
    ensures AudioOf(cs[..k + 1]) == if cs[k].audio.Some?
                                    then AudioOf(cs[..k]) + ClipSamples(k, TimeRange(0, cs[k].duration))
                                    else Blank(cs[k].duration) + AudioOf(cs[..k])
    ensures RenderInstructions(cs[..k + 1])
      == RenderInstructions(cs[..k]) + [Instruction(TimeRange(TotalDuration(cs[..k]), cs[k].duration), Video)]
    ensures AllHaveVideo(cs[..k + 1]) ==>
      var v := cs[k].video.value;
      var s := MaxSize(cs[..k]);
      MaxSize(cs[..k + 1]) == Size(Max(s.width, v.naturalWidth), Max(s.height, v.naturalHeight))
  {
    InitOfPrefix(cs, k + 1);
    TotalDurationStep(cs, k);
    assert cs[..k + 1][k] == cs[k];
  }

  /** Video and audio tracks both last as long as the clips together. */
  lemma {:induction false} TracksSpanTotal(cs: seq<Asset>)
    ensures |VideoOf(cs)| == TotalDuration(cs)
    ensures |AudioOf(cs)| == TotalDuration(cs)
  {
    if cs != [] {
      TracksSpanTotal(Init(cs));
    }
  }

  /** Instruction i covers the span of clip i: it starts at the summed
      duration of the clips before it and lasts clip i's duration. */
  lemma {:induction false} InstructionAt(cs: seq<Asset>, i: nat)
    requires i < |cs|
    ensures |RenderInstructions(cs)| == |cs|
    ensures RenderInstructions(cs)[i] == Instruction(TimeRange(TotalDuration(cs[..i]), cs[i].duration), Video)
  {
    var n := |cs| - 1;
    if i < n {
      InstructionAt(Init(cs), i);
      assert Init(cs)[..i] == cs[..i];
    } else {
      if n > 0 {
        InstructionAt(Init(cs), n - 1);
      }
      assert cs[..i] == Init(cs);
    }
  }

  /** The instructions are contiguous and ascending: the first starts at
      zero, each one ends where the next starts, and the last ends where the
      timeline ends; there are as many as clips. */
  lemma {:induction false} InstructionsTile(cs: seq<Asset>)
    ensures |RenderInstructions(cs)| == |cs|
    ensures cs != [] ==> RenderInstructions(cs)[0].timeRange.start == 0
    ensures forall i :: 0 <= i < |cs| - 1 ==>
      RenderInstructions(cs)[i].timeRange.start + RenderInstructions(cs)[i].timeRange.duration
        == RenderInstructions(cs)[i + 1].timeRange.start
    ensures cs != [] ==>
      RenderInstructions(cs)[|cs| - 1].timeRange.start + RenderInstructions(cs)[|cs| - 1].timeRange.duration
        == TotalDuration(cs)
  {
    if cs != [] {
      InstructionAt(cs, 0);
      InstructionAt(cs, |cs| - 1);
      assert cs[..|cs| - 1] == Init(cs);
    } else {
      assert RenderInstructions(cs) == [];
    }
    forall i | 0 <= i < |cs| - 1
      ensures RenderInstructions(cs)[i].timeRange.start + RenderInstructions(cs)[i].timeRange.duration
        == RenderInstructions(cs)[i + 1].timeRange.start
    {
      InstructionAt(cs, i);
      InstructionAt(cs, i + 1);
      TotalDurationStep(cs, i);
    }
  }

  /** Clip order in the video track is input order: tick t of clip i sits at
      the summed duration of the clips before i, plus t. */
  lemma {:induction false} VideoAt(cs: seq<Asset>, i: nat, t: nat)
    requires i < |cs| && t < cs[i].duration
    ensures TotalDuration(cs[..i]) + t < |VideoOf(cs)|
    ensures VideoOf(cs)[TotalDuration(cs[..i]) + t] == Content(i, t)
  {
    var n := |cs| - 1;
    TracksSpanTotal(Init(cs));
    if i < n {
      VideoAt(Init(cs), i, t);
      assert Init(cs)[..i] == cs[..i];
    } else {
      assert cs[..i] == Init(cs);
    }
  }

  /** Where the audio goes: all empty spans come first, as long as the clips
      without audio together, followed by the audio of the clips that have it,
      in input order. */
  lemma {:induction false} AudioLayout(cs: seq<Asset>)
    ensures AudioOf(cs) == Blank(SilentDuration(cs)) + AudibleOf(cs)
  {
    if cs != [] {
      AudioLayout(Init(cs));
      var last := cs[|cs| - 1];
      if last.audio.None? {
        BlankConcat(last.duration, SilentDuration(Init(cs)));
      }
    }
  }

  /** When every clip has audio, the audio track lines up with the video
      track tick by tick: each tick holds the same clip at the same offset. */
  lemma {:induction false} AudibleClipsAlign(cs: seq<Asset>)
    requires forall i :: 0 <= i < |cs| ==> cs[i].audio.Some?
    ensures AudioOf(cs) == VideoOf(cs)
  {
    if cs != [] {
      AudibleClipsAlign(Init(cs));
    }
  }

  /** The render size bounds every clip's natural size, width and height
      separately. */
  lemma {:induction false} MaxSizeBounds(cs: seq<Asset>, i: nat)
    requires AllHaveVideo(cs) && i < |cs|
    ensures cs[i].video.value.naturalWidth <= MaxSize(cs).width
    ensures cs[i].video.value.naturalHeight <= MaxSize(cs).height
  {
    if i < |cs| - 1 {
      MaxSizeBounds(Init(cs), i);
    }
  }

  /** The render size is attained: its width is some clip's natural width
      and its height some (possibly other) clip's natural height; with no
      clips it is (0, 0). */
  lemma {:induction false} MaxSizeAttained(cs: seq<Asset>)
    requires AllHaveVideo(cs)
    ensures cs == [] ==> MaxSize(cs) == Size(0, 0)
    ensures cs != [] ==> exists i :: 0 <= i < |cs| && MaxSize(cs).width == cs[i].video.value.naturalWidth
    ensures cs != [] ==> exists j :: 0 <= j < |cs| && MaxSize(cs).height == cs[j].video.value.naturalHeight
  {
    if |cs| > 1 {
      var n := |cs| - 1;
      MaxSizeAttained(Init(cs));
      var i :| 0 <= i < n && MaxSize(Init(cs)).width == Init(cs)[i].video.value.naturalWidth;
      var j :| 0 <= j < n && MaxSize(Init(cs)).height == Init(cs)[j].video.value.naturalHeight;
      if MaxSize(cs).width != cs[n].video.value.naturalWidth {
        assert MaxSize(cs).width == cs[i].video.value.naturalWidth;
      }
      if MaxSize(cs).height != cs[n].video.value.naturalHeight {
        assert MaxSize(cs).height == cs[j].video.value.naturalHeight;
      }
    } else if |cs| == 1 {
      assert MaxSize(cs).width == cs[0].video.value.naturalWidth;
    }
  }

  /** Two clips, 5 ticks with audio at 100 x 100 and then 3 ticks without
      audio at 200 x 50: the timeline lasts 8 ticks, renders at 200 x 100 with
      instructions [0, 5) and [5, 8), and, because the empty span goes to tick
      zero, the audio track is silent for [0, 3) and plays the first clip's
      audio during [3, 8), while the video track shows the first clip first. */
  lemma TwoClipExample()
    ensures var first := Asset(5, Some(VideoStream(100, 100, true)), Some(AudioStream(true)));
            var second := Asset(3, Some(VideoStream(200, 50, true)), None);
            var cs := [first, second];
            && TotalDuration(cs) == 8
            && MaxSize(cs) == Size(200, 100)
            && RenderInstructions(cs) == [Instruction(TimeRange(0, 5), Video), Instruction(TimeRange(5, 3), Video)]
            && VideoOf(cs) == ClipSamples(0, TimeRange(0, 5)) + ClipSamples(1, TimeRange(0, 3))
            && AudioOf(cs) == Blank(3) + ClipSamples(0, TimeRange(0, 5))
            && AudioOf(cs)[0] == Silence && VideoOf(cs)[0] == Content(0, 0)
  {
    var first := Asset(5, Some(VideoStream(100, 100, true)), Some(AudioStream(true)));
    var second := Asset(3, Some(VideoStream(200, 50, true)), None);
    var cs := [first, second];
    assert Init(cs) == [first];
    assert Init([first]) == [];
    assert TotalDuration([first]) == 5;
    assert MaxSize([first]) == Size(100, 100);
    assert RenderInstructions([first]) == [Instruction(TimeRange(0, 5), Video)];
    assert VideoOf([first]) == ClipSamples(0, TimeRange(0, 5));
    assert AudioOf([first]) == ClipSamples(0, TimeRange(0, 5));
  }
}
