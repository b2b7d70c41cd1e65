/**
 * The data the playback controller works with: the engine's element states,
 * the streams that wrap a media and its token, the single postponed request,
 * the callback set, and the two transcripts the controller model writes
 * (the callbacks it invokes and the engine calls it makes).
 */
module PipelineData {
  import Media
  import opened PipelineStates

  /** Element states of the media engine; VoidPending means "no pending state". */
  datatype GstState = GstVoidPending | GstNull | GstReady | GstPaused | GstPlaying

  /** Unsigned 64-bit counters wrap around at this value. */
  const Uint64Limit: nat := 0x1_0000_0000_0000_0000

  /** The engine's "no time" marker: the largest unsigned 64-bit value. */
  const ClockTimeNone: nat := 0xFFFF_FFFF_FFFF_FFFF

  /** The range of a signed 64-bit integer, the type of positions and durations. */
  predicate IsInt64(x: int)
  {
    -0x8000_0000_0000_0000 <= x < 0x8000_0000_0000_0000
  }

  /**
   * A signed 64-bit position stored in an unsigned 64-bit clock time: negative
   * values wrap around, so -1 becomes the "no time" marker.
   */
  function ToClockTime(position: int): (t: nat)
    requires IsInt64(position)
    ensures t < Uint64Limit
    ensures position >= 0 ==> t == position
    ensures position == -1 <==> t == ClockTimeNone
  {
    if position < 0 then position + Uint64Limit else position
  }

  /**
   * A stream: the media being played or queued, with the token it was
   * scheduled under. Token and media are fixed when the stream is created;
   * only the buffering flag changes afterwards.
   */
  class Stream {
    const token: nat
    const media: Media.Media
    var buffering: bool

    constructor(token: nat, media: Media.Media)
      ensures this.token == token && this.media == media && !buffering
    {
      this.token := token;
      this.media := media;
      buffering := false;
    }

    function GetToken(): nat
    {
      token
    }

    function GetMedia(): Media.Media
    {
      media
    }

    method SetBuffering(flag: bool)
      modifies this
      ensures buffering == flag
    {
      buffering := flag;
    }

    predicate IsBuffering()
      reads this
    {
      buffering
    }
  }

  /**
   * The one request that waits for the current transition to end. A new
   * postponed request of any kind takes the place of the one before it.
   * Only the payload of its own kind is kept, since that is all that is read.
   */
  datatype PostponedTask =
    | NoTask
    | PlayTask(token: nat, media: Media.Media)
    | PauseTask(paused: bool)
    | StopTask
    | SetPositionTask(position: int, unit: PositionUnit)
    | SetStateTask(gstState: GstState)

  /** Which of the optional callbacks the user registered. */
  datatype Callbacks = Callbacks(
    stateChanged: bool,
    durationUpdated: bool,
    mediaStarted: bool,
    endOfStream: bool,
    error: bool,
    bufferingUpdated: bool,
    positionUpdated: bool,
    mediaAboutToEnd: bool)

  /** A callback invocation and its arguments. */
  datatype Note =
    | StateChanged(from: State, to: State)
    | DurationUpdated(duration: int, unit: PositionUnit)
    | MediaStarted(media: Media.Media, token: nat)
    | EndOfStream
    | ErrorReported
    | BufferingUpdated(media: Media.Media, token: nat, isCurrent: bool, percent: int)
    | PositionUpdated(position: int)
    | MediaAboutToEnd(media: Media.Media, token: nat)

  /** An engine call of the controller that the model records. */
  datatype EngineCall =
    | SetStateCall(target: GstState)
    | SeekCall(position: nat, unit: PositionUnit)
    | ReleaseStream(token: nat)
    | VolumeSet(volume: real)
    | MuteSet(mute: bool)

  /** The engine calls that destroy `streams`, front first. */
  function Releases(streams: seq<Stream>): (calls: seq<EngineCall>)
    ensures |calls| == |streams|
  {
    if streams == [] then []
    else Releases(streams[..|streams| - 1]) + [ReleaseStream(streams[|streams| - 1].token)]
  }

  /** Releasing one more stream appends its release call. */
  lemma ReleasesAppend(streams: seq<Stream>, k: nat)
    requires k < |streams|
    ensures Releases(streams[..k + 1]) == Releases(streams[..k]) + [ReleaseStream(streams[k].token)]
  {
    assert streams[..k + 1][..k] == streams[..k];
  }

  /** Releasing a shared pointer destroys the stream it points to, if any. */
  function ReleaseOf(s: Stream?): (calls: seq<EngineCall>)
    ensures s == null <==> calls == []
  {
    if s == null then [] else [ReleaseStream(s.token)]
  }

  /**
   * The buffering hysteresis: a stream that is not buffering starts to at a
   * fill level of 20% or less; a buffering stream stops at 100% or more.
   */
  function Hysteresis(percent: int, buffering: bool): (r: bool)
    ensures percent <= 20 ==> r
    ensures percent >= 100 ==> !r
    ensures 20 < percent < 100 ==> r == buffering
  {
    if percent <= 20 && !buffering then true
    else if percent >= 100 && buffering then false
    else buffering
  }

  /**
   * The flag changes exactly when it is off and the level is at most 20%, or
   * it is on and the level is at least 100%; between the two marks it never
   * changes.
   */
  lemma HysteresisChanges(percent: int, buffering: bool)
    ensures Hysteresis(percent, buffering) != buffering <==>
              (percent <= 20 && !buffering) || (percent >= 100 && buffering)
    ensures 20 < percent < 100 ==> Hysteresis(percent, buffering) == buffering
  {
  }

  /**
   * The controller's mutable fields at one moment. Contracts compare the
   * state after an operation with a snapshot taken before it, so that one
   * equation states every field at once.
   */
  datatype Snap = Snap(
    state: State, current: Stream?, next: Stream?, oldStreams: seq<Stream>, postponed: PostponedTask,
    gstState: GstState, pendingGstState: GstState, durationNs: int, durationBytes: int, nextToken: nat,
    hasPipeline: bool, hasVolumeIface: bool, blockAboutToEnd: bool,
    seekWasPaused: bool, seekToPosition: nat, seekUnit: PositionUnit,
    notes: seq<Note>, engineCalls: seq<EngineCall>)
  {
    /** Requests that arrive now are postponed. */
    predicate IsTransitioning()
    {
      state.IsTransitional() || pendingGstState != GstVoidPending
    }

    /** The engine call a request for `target` makes: none when the pipeline is already there. */
    function Request(target: GstState): seq<EngineCall>
    {
      if gstState == target then [] else [SetStateCall(target)]
    }

    /**
     * A pause request is ignored without a pipeline, when idle, when pausing
     * an already paused pipeline, or when resuming while PLAYING is pending.
     */
    predicate PauseIgnored(paused: bool)
    {
      !hasPipeline || state == Idle || (paused && gstState == GstPaused) ||
      (!paused && pendingGstState == GstPlaying)
    }

    /** A play request acts at once (rather than queueing the media as next). */
    predicate Immediate(token: nat, playNow: bool)
    {
      state == Idle || playNow || (current != null && current.token == token)
    }

    /** 1 while a request is postponed; used to show that handling postponed requests ends. */
    function Slot(): nat
    {
      if postponed.NoTask? then 0 else 1
    }

    /** A postponed seek holds a signed 64-bit position. */
    predicate TaskInRange()
    {
      postponed.SetPositionTask? ==> IsInt64(postponed.position)
    }

    /** The controller's invariant (see Controller.Valid). */
    ghost predicate Valid()
    {
      pendingGstState == GstVoidPending &&
      state != Stopping &&
      nextToken < Uint64Limit &&
      seekToPosition < Uint64Limit &&
      (hasVolumeIface ==> hasPipeline) &&
      (!hasPipeline ==> current == null && next == null && oldStreams == [] && HasInitialValues()) &&
      (state == Idle ==> current == null && next == null) &&
      (next != null ==> next != current) &&
      (current != null ==> Media.IsValid(current.media)) &&
      (next != null ==> Media.IsValid(next.media)) &&
      (postponed.PlayTask? ==> Media.IsValid(postponed.media)) &&
      TaskInRange()
    }

    /** The values a freshly idle pipeline starts from. */
    predicate HasInitialValues()
    {
      gstState == GstNull && pendingGstState == GstVoidPending &&
      durationNs == -1 && durationBytes == -1 && !blockAboutToEnd
    }
  }
}
