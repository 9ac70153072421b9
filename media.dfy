/**
 * The media backend the merge routine drives: assets read from the input
 * locators, the mutable tracks of a composition, and the export session's
 * status. Times are whole ticks of one common timescale and frame sizes are
 * naturals; a track holds one sample per tick.
 */
module Media {
  import opened Wrappers

  /** A video stream of an asset: its natural frame size, and whether the
      backend can insert it into a composition track. */
  datatype VideoStream = VideoStream(naturalWidth: nat, naturalHeight: nat, insertable: bool)

  /** An audio stream of an asset, and whether the backend can insert it. */
  datatype AudioStream = AudioStream(insertable: bool)

  /** An asset resolved from one input locator: its duration and its first
      video and first audio stream, when it has them. */
  datatype Asset = Asset(duration: nat, video: Option<VideoStream>, audio: Option<AudioStream>)

  /** One tick of a composition track: the media of input clip `clip` at tick
      `offset` of that clip, or an empty (silent, blank) tick. */
  datatype Sample = Content(clip: nat, offset: nat) | Silence

  /** A time range of `duration` ticks starting at tick `start`. */
  datatype TimeRange = TimeRange(start: nat, duration: nat)

  /** A frame size. */
  datatype Size = Size(width: nat, height: nat)

  datatype MediaType = Video | Audio

  /** A rational time `value / timescale` seconds. */
  datatype Time = Time(value: nat, timescale: nat)

  /** The ticks `range` of clip number `clip`, as a track holds them. */
  function ClipSamples(clip: nat, range: TimeRange): seq<Sample>
  {
    seq(range.duration, (t: nat) => Content(clip, range.start + t))
  }

  /** `n` empty ticks. */
  function Blank(n: nat): seq<Sample>
  {
    seq(n, _ => Silence)
  }

  lemma BlankConcat(a: nat, b: nat)
    ensures Blank(a) + Blank(b) == Blank(a + b)
  {
  }

  /** A mutable track of a composition. */
  class Track {
    const mediaType: MediaType
    var samples: seq<Sample>

    constructor (mediaType: MediaType)
      ensures this.mediaType == mediaType && samples == []
    {
      this.mediaType := mediaType;
      samples := [];
    }

    /** Inserts the ticks `range` of a stream of clip `clip` so that they begin
        at tick `at`, shifting what was there later; fails, changing nothing,
        when the stream cannot be inserted. */
    method InsertTimeRange(clip: nat, insertable: bool, range: TimeRange, at: nat) returns (ok: bool)
      requires at <= |samples|
      modifies this
      ensures ok == insertable
      ensures samples == if ok then old(samples)[..at] + ClipSamples(clip, range) + old(samples)[at..]
                         else old(samples)
    {
      ok := insertable;
      if ok {
        samples := samples[..at] + ClipSamples(clip, range) + samples[at..];
      }
    }

    /** Inserts an empty span covering `range`: `range.duration` empty ticks
        beginning at tick `range.start`, shifting what was there later. */
    method InsertEmptyTimeRange(range: TimeRange)
      requires range.start <= |samples|
      modifies this
      ensures samples == old(samples)[..range.start] + Blank(range.duration) + old(samples)[range.start..]
    {
      samples := samples[..range.start] + Blank(range.duration) + samples[range.start..];
    }
  }

  /** The status of an export session. A session starts Unknown, may wait,
      exports, and ends Completed, Failed or Cancelled; it never goes back. */
  datatype ExportStatus = Unknown | Waiting | Exporting | Completed | Failed | Cancelled

  /** The status moves this model allows in one step. The source states no
      transition relation; these steps are an assumption about the platform.
      Only the set of statuses with no further step matters to the merge:
      Completed, Failed and Cancelled. */
  predicate Advances(from: ExportStatus, to: ExportStatus)
  {
    match from
    case Unknown => to == Waiting || to == Exporting || to == Failed || to == Cancelled
    case Waiting => to == Exporting || to == Failed || to == Cancelled
    case Exporting => to == Completed || to == Failed || to == Cancelled
    case _ => false
  }

  /** A status the session can no longer leave. */
  ghost predicate IsTerminal(s: ExportStatus)
  {
    forall t :: !Advances(s, t)
  }
}
