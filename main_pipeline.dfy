/**
 * The playback controller: the pipeline's state machine. Requests (play,
 * pause, seek, stop) either act at once or, while the controller is in a
 * transitional state, wait in the single postponed slot. Messages of the
 * media engine's bus and the end-of-stream probe on the stream pads are
 * event methods on the same object, called one at a time.
 *
 * The engine is abstract: its answers (whether a state change, a seek or a
 * query succeeded, whether the pipeline could be built) are choices the model
 * leaves open. The controller's calls into the engine are recorded in
 * `engineCalls`, and the callbacks it invokes in `notes`.
 */
module MainPipeline {
  import Media
  import opened PipelineStates
  import opened PipelineData

  class Controller {
    const callbacks: Callbacks
    /** How long before the end of a media the about-to-end callback is due. */
    const needsNextMediaTime: int

    var state: State
    var current: Stream?
    var next: Stream?
    /** Streams the end-of-stream probe retired, destroyed later on the bus. */
    var oldStreams: seq<Stream>
    var postponed: PostponedTask
    var gstState: GstState
    var pendingGstState: GstState
    var durationNs: int
    var durationBytes: int
    var nextToken: nat
    var hasPipeline: bool
    var hasVolumeIface: bool
    var blockAboutToEnd: bool
    var seekWasPaused: bool
    var seekToPosition: nat
    var seekUnit: PositionUnit
    var notes: seq<Note>
    var engineCalls: seq<EngineCall>

    /**
     * The pending engine state is never anything but VoidPending and the
     * stopping state is never entered. Without a pipeline there are no
     * streams and the per-pipeline values are at their initial settings; in
     * the idle state there are no current or next streams. The next stream is
     * never the current one, every stream and every postponed play holds a
     * valid media, and the counters fit their unsigned 64-bit fields.
     */
    ghost predicate Valid()
      reads this
    {
      Snapshot().Valid()
    }

    /** The values a freshly idle pipeline starts from. */
    predicate HasInitialValues()
      reads this
    {
      Snapshot().HasInitialValues()
    }

    /** The current values of all mutable fields. */
    function Snapshot(): Snap
      reads this
    {
      Snap(state, current, next, oldStreams, postponed, gstState, pendingGstState, durationNs, durationBytes,
           nextToken, hasPipeline, hasVolumeIface, blockAboutToEnd, seekWasPaused, seekToPosition, seekUnit,
           notes, engineCalls)
    }

    /** The state-changed callback, if registered, for a change from `from` to `to`. */
    function Announce(from: State, to: State): seq<Note>
    {
      if callbacks.stateChanged then [StateChanged(from, to)] else []
    }

    /** The engine call a request for `target` makes now (see Snap.Request). */
    function Request(target: GstState): seq<EngineCall>
      reads this
    {
      Snapshot().Request(target)
    }

    /** Whether a request is postponed now (see Snap.Slot). */
    function Slot(): nat
      reads this
    {
      Snapshot().Slot()
    }

    /** The pipeline is transitioning now (see Snap.IsTransitioning). */
    predicate IsTransitioning()
      reads this
    {
      state.IsTransitional() || pendingGstState != GstVoidPending
    }

    /**
     * The pending engine state never leaves VoidPending, so the controller is
     * transitioning exactly in the transitional states, and stopping is never
     * among them in practice.
     */
    lemma TransitioningExactlyInTransitionalStates()
      requires Valid()
      ensures IsTransitioning() <==> state.IsTransitional()
      ensures IsTransitioning() <==> state == Starting || state == Seeking || state == Buffering
    {
    }

    /** For the same reason the "already playing" test of a resume request never decides anything. */
    lemma ResumeGuardNeverFires()
      requires Valid()
      ensures PauseIgnored(false) <==> !hasPipeline || state == Idle
    {
    }

    /** A play request acts at once now (see Snap.Immediate). */
    predicate Immediate(token: nat, playNow: bool)
      reads this
    {
      Snapshot().Immediate(token, playNow)
    }

    /** `b` after entering the state `s`, the change announced. */
    function Entered(b: Snap, s: State): Snap
    {
      b.(state := s, notes := b.notes + Announce(b.state, s))
    }

    /**
     * `b` after the pipeline was set to idle: the engine pipeline is set to
     * NULL, the current, the next and the retired streams are released in
     * that order, idle is entered and announced if asked for, and the initial
     * values are back.
     */
    function Idled(b: Snap, announce: bool): (r: Snap)
      ensures r.current == null && r.next == null && r.oldStreams == [] && r.gstState == GstNull
      ensures r.state == (if announce then Idle else b.state)
      ensures r.postponed == b.postponed && r.hasPipeline == b.hasPipeline
    {
      var released := b.(current := null, next := null, oldStreams := [],
                         engineCalls := b.engineCalls + [SetStateCall(GstNull)] + ReleaseOf(b.current) +
                                        ReleaseOf(b.next) + Releases(b.oldStreams),
                         gstState := GstNull, pendingGstState := GstVoidPending,
                         durationNs := -1, durationBytes := -1, blockAboutToEnd := false);
      if announce then Entered(released, Idle) else released
    }

    /**
     * `b` after the pipeline was shut down: without a pipeline nothing
     * happens; otherwise the postponed request is cancelled, the pipeline goes
     * idle (Idled) and the pipeline and its volume interface are gone.
     */
    function ShutDown(b: Snap, announce: bool): (r: Snap)
      ensures b.hasPipeline ==> !r.hasPipeline && !r.hasVolumeIface && r.postponed == NoTask
      ensures b.hasPipeline ==> r.current == null && r.next == null && r.oldStreams == [] && r.gstState == GstNull
      ensures b.hasPipeline ==> r.state == (if announce then Idle else b.state)
      ensures !b.hasPipeline ==> r == b
    {
      if !b.hasPipeline then b
      else Idled(b.(postponed := NoTask), announce).(hasPipeline := false, hasVolumeIface := false)
    }

    /**
     * `b` after building a pipeline, `built` being whether the engine could
     * build it: an existing pipeline is shut down first, announcing idle; a
     * new pipeline enters idle and announces it.
     */
    function Initialized(b: Snap, built: bool): (r: Snap)
      ensures r.hasPipeline == built && (built ==> r.state == Idle)
      ensures b.hasPipeline || !b.hasVolumeIface ==> !r.hasVolumeIface
    {
      var down := ShutDown(b, true);
      if built then Entered(down.(hasPipeline := true), Idle) else down
    }

    /** `b` after rebuilding: a shutdown that does not announce idle, then Initialized. */
    function Reinited(b: Snap, built: bool): (r: Snap)
      ensures r.hasPipeline == built && (b.hasPipeline || !b.hasVolumeIface ==> !r.hasVolumeIface)
      ensures r.state == (if built then Idle else b.state)
      ensures b.hasPipeline ==> r.postponed == NoTask
    {
      Initialized(ShutDown(b, false), built)
    }

    /**
     * The outcome of a play request acting at once from `b`: invalid media
     * changes nothing; while transitioning the request takes the postponed
     * slot; otherwise the media starts (StartedMedia).
     */
    predicate PlayedNow(b: Snap, a: Snap, token: nat, media: Media.Media)
    {
      if !Media.IsValid(media) then a == b
      else if b.IsTransitioning() then a == b.(postponed := PlayTask(token, media))
      else StartedMedia(b, a, token, media)
    }

    /**
     * The outcome of starting a media from `b`: the pipeline is rebuilt
     * (Reinited). If that fails nothing more happens; otherwise the stream
     * starts on the new pipeline (StreamStarted), and a current stream it
     * leaves is none of the streams `b` held.
     */
    predicate StartedMedia(b: Snap, a: Snap, token: nat, media: Media.Media)
    {
      a == Reinited(b, false) ||
      (StreamStarted(Reinited(b, true), a, token, media) &&
       (a.current != null ==> a.current != b.current && a.current != b.next && a.current !in b.oldStreams))
    }

    /**
     * A media was queued: the old next stream was released whatever its
     * token, and a valid media became the next stream; nothing else changed.
     */
    twostate predicate QueuedNext(token: nat, media: Media.Media, ok: bool)
      reads this
    {
      Snapshot() == old(Snapshot()).(next := next, engineCalls := old(engineCalls) + ReleaseOf(old(next))) &&
      (ok <==> Media.IsValid(media)) &&
      (if ok then next != null && fresh(next) && next.token == token && next.media == media
       else next == null)
    }

    /**
     * What a play request did: acting at once it has the outcome PlayedNow,
     * and the result says whether it was postponed or left a current stream;
     * otherwise the media is queued as the next one (QueuedNext).
     */
    twostate predicate PlayMediaDone(token: nat, media: Media.Media, playNow: bool, ok: bool)
      reads this
    {
      if old(Immediate(token, playNow)) then
        PlayedNow(old(Snapshot()), Snapshot(), token, media) &&
        (ok <==> Media.IsValid(media) && (old(IsTransitioning()) || current != null))
      else
        QueuedNext(token, media, ok)
    }

    /**
     * A new controller is idle, has no pipeline, streams or postponed request,
     * and hands out tokens from 0. The seeking data is left indeterminate.
     */
    constructor(callbacks: Callbacks, needsNextMediaTime: int)
      ensures Valid()
      ensures this.callbacks == callbacks && this.needsNextMediaTime == needsNextMediaTime
      ensures state == Idle && current == null && next == null && oldStreams == []
      ensures postponed == NoTask && !hasPipeline && !hasVolumeIface && nextToken == 0
      ensures HasInitialValues() && notes == [] && engineCalls == []
    {
      this.callbacks := callbacks;
      this.needsNextMediaTime := needsNextMediaTime;
      state := Idle;
      current, next, oldStreams := null, null, [];
      postponed := NoTask;
      gstState, pendingGstState := GstNull, GstVoidPending;
      durationNs, durationBytes := -1, -1;
      nextToken := 0;
      hasPipeline, hasVolumeIface := false, false;
      blockAboutToEnd := false;
      var position: nat := *;
      seekToPosition := position % Uint64Limit;
      seekWasPaused := *;
      seekUnit := *;
      notes, engineCalls := [], [];
    }

    /** A fresh token; the counter is unsigned 64-bit and wraps around. */
    method GetNewToken() returns (token: nat)
      requires Valid()
      modifies this`nextToken
      ensures Valid()
      ensures token == old(nextToken) && nextToken == TokenAfter(old(nextToken), 1)
    {
      token := nextToken;
      nextToken := (nextToken + 1) % Uint64Limit;
    }

    /** Whether the controller is paused; under the invariant a paused controller is not transitioning. */
    function IsPaused(): (b: bool)
      reads this
      ensures Valid() && b ==> !IsTransitioning()
    {
      state == Paused
    }

    /** The current state; under the invariant it is never stopping. */
    function GetCurrentState(): (r: State)
      reads this
      ensures Valid() ==> r != Stopping
    {
      state
    }

    /** The cached duration in a unit; -1 when none is known. */
    function GetDuration(unit: PositionUnit): (r: int)
      reads this
      ensures Valid() && !hasPipeline ==> r == -1
    {
      match unit
      case Nanoseconds => durationNs
      case Bytes => durationBytes
    }

    /** The playback position as the engine reports it; -1 without a pipeline, when idle, or when the query fails. */
    method GetCurrentPosition(unit: PositionUnit) returns (position: int)
      ensures !hasPipeline || state == Idle ==> position == -1
    {
      if !hasPipeline || state == Idle {
        return -1;
      }
      var succeeded: bool := *;
      var reported: int := *;
      position := if succeeded then reported else -1;
    }

    /** Passed on to the volume interface if there is one, ignored otherwise. */
    method SetVolume(volume: real)
      modifies this`engineCalls
      ensures engineCalls == old(engineCalls) + (if hasVolumeIface then [VolumeSet(volume)] else [])
    {
      if hasVolumeIface {
        engineCalls := engineCalls + [VolumeSet(volume)];
      }
    }

    /** The volume interface's answer; 1.0 when there is no volume interface. */
    method GetVolume() returns (volume: real)
      ensures !hasVolumeIface ==> volume == 1.0
    {
      if hasVolumeIface {
        volume := *;
      } else {
        volume := 1.0;
      }
    }

    method SetMuted(mute: bool)
      modifies this`engineCalls
      ensures engineCalls == old(engineCalls) + (if hasVolumeIface then [MuteSet(mute)] else [])
    {
      if hasVolumeIface {
        engineCalls := engineCalls + [MuteSet(mute)];
      }
    }

    /** The volume interface's answer; not muted when there is no volume interface. */
    method IsMuted() returns (mute: bool)
      ensures !hasVolumeIface ==> !mute
    {
      if hasVolumeIface {
        mute := *;
      } else {
        mute := false;
      }
    }

    /** Switches the controller state and invokes the state-changed callback with the old and the new state. */
    method SetState(newState: State)
      modifies this`state, this`notes
      ensures Snapshot() == Entered(old(Snapshot()), newState)
    {
      var oldState := state;
      state := newState;
      notes := notes + Announce(oldState, newState);
    }

    /**
     * Asks the engine to move the pipeline to `target`. A request for the
     * state the pipeline is already in succeeds without an engine call;
     * otherwise the result is whether the engine reported no failure.
     */
    method SetGstState(target: GstState) returns (ok: bool)
      modifies this`engineCalls
      ensures Snapshot() == old(Snapshot()).(engineCalls := old(engineCalls + Request(target)))
      ensures gstState == target ==> ok
    {
      if gstState == target {
        return true;
      }
      engineCalls := engineCalls + [SetStateCall(target)];
      ok := *;
    }

    /**
     * What running the request postponed in `b` did. The slot is emptied
     * first, giving `e`, and the request then has the outcome it has when
     * made in `e`: a play is replayed as play-now (PlayedNow); a stop, a pause
     * or a seek has the outcome of that request (Stopped, PauseApplied,
     * Positioned); an engine state request is passed on to the engine. A
     * request that the still transitioning controller postpones again leaves
     * `b` as it was.
     */
    predicate RanPostponed(b: Snap, a: Snap)
      requires b.TaskInRange()
      decreases b.Slot(), 0
    {
      var e := b.(postponed := NoTask);
      match b.postponed
      case NoTask => a == b
      case PlayTask(token, media) => PlayedNow(e, a, token, media)
      case StopTask => a == Stopped(e)
      case PauseTask(paused) => a == PauseApplied(e, paused)
      case SetPositionTask(position, unit) => Positioned(e, a, position, unit)
      case SetStateTask(target) => a == e.(engineCalls := e.engineCalls + [SetStateCall(target)])
    }

    /**
     * Runs the postponed request, if any (see RanPostponed). The slot is
     * emptied before the request runs, so it runs once. Afterwards the slot
     * is empty, or the request was postponed again because the controller is
     * (still) transitioning.
     */
    method HandlePostponed()
      requires Valid()
      modifies this
      decreases Slot(), 1
      ensures Valid()
      ensures RanPostponed(old(Snapshot()), Snapshot())
      ensures postponed == NoTask || IsTransitioning()
    {
      match postponed
      case NoTask =>
      case PlayTask(_, _) =>
        RunPostponedPlay();
      case StopTask =>
        RunPostponedStop();
      case PauseTask(_) =>
        RunPostponedPause();
      case SetPositionTask(_, _) =>
        RunPostponedSeek();
      case SetStateTask(target) =>
        postponed := NoTask;
        engineCalls := engineCalls + [SetStateCall(target)];
    }

    /** Empties the slot and replays the postponed play as play-now. */
    method RunPostponedPlay()
      requires Valid() && postponed.PlayTask?
      modifies this`engineCalls, this`current, this`next, this`oldStreams, this`state, this`notes,
               this`gstState, this`pendingGstState, this`durationNs, this`durationBytes, this`blockAboutToEnd,
               this`postponed, this`hasPipeline, this`hasVolumeIface
      ensures Valid()
      ensures RanPostponed(old(Snapshot()), Snapshot())
      ensures postponed == NoTask || IsTransitioning()
    {
      var token, media := postponed.token, postponed.media;
      postponed := NoTask;
      ghost var e := Snapshot();
      var _ := PlayMedia(token, media, true);
      assert PlayedNow(e, Snapshot(), token, media);
    }

    /** Empties the slot and stops now. */
    method RunPostponedStop()
      requires Valid() && postponed.StopTask?
      modifies this`engineCalls, this`current, this`next, this`oldStreams, this`state, this`notes,
               this`gstState, this`pendingGstState, this`durationNs, this`durationBytes, this`blockAboutToEnd,
               this`postponed, this`hasPipeline, this`hasVolumeIface
      ensures Valid()
      ensures RanPostponed(old(Snapshot()), Snapshot())
      ensures postponed == NoTask || IsTransitioning()
    {
      postponed := NoTask;
      Stop();
    }

    /** Empties the slot and pauses or resumes now. */
    method RunPostponedPause()
      requires Valid() && postponed.PauseTask?
      modifies this`postponed, this`engineCalls
      ensures Valid()
      ensures RanPostponed(old(Snapshot()), Snapshot())
      ensures postponed == NoTask || IsTransitioning()
    {
      var paused := postponed.paused;
      postponed := NoTask;
      SetPaused(paused);
    }

    /** Empties the slot and seeks now. */
    method RunPostponedSeek()
      requires Valid() && postponed.SetPositionTask?
      modifies this
      decreases Slot(), 0
      ensures Valid()
      ensures RanPostponed(old(Snapshot()), Snapshot())
      ensures postponed == NoTask || IsTransitioning()
    {
      var position, unit := postponed.position, postponed.unit;
      postponed := NoTask;
      SetCurrentPosition(position, unit);
    }
    /**
     * Creates a stream for the media, attached to the pipeline. The source
     * asserts that the pipeline's bin exists. The end-of-stream probe it
     * installs is the event method StreamEosProbe.
     */
    method SetupStream(token: nat, media: Media.Media) returns (s: Stream)
      requires hasPipeline
      ensures fresh(s) && s.token == token && s.media == media && !s.buffering
    {
      s := new Stream(token, media);
    }

    /** Destroys the retired streams, oldest first. */
    method CleanupOldStreams()
      requires Valid()
      modifies this`oldStreams, this`engineCalls
      ensures Valid()
      ensures Snapshot() == old(Snapshot()).(oldStreams := [], engineCalls := old(engineCalls) + Releases(old(oldStreams)))
    {
      ghost var queued := oldStreams;
      ghost var k: nat := 0;
      while oldStreams != []
        invariant k <= |queued| && oldStreams == queued[k..]
        invariant engineCalls == old(engineCalls) + Releases(queued[..k])
        decreases |oldStreams|
      {
        var retired := oldStreams[0];
        oldStreams := oldStreams[1..];
        engineCalls := engineCalls + [ReleaseStream(retired.token)];
        ReleasesAppend(queued, k);
        k := k + 1;
      }
      assert queued[..k] == queued;
    }

    /** The per-pipeline values go back to their initial settings. */
    method SetInitialStateValues()
      requires Valid()
      modifies this`gstState, this`pendingGstState, this`durationNs, this`durationBytes, this`blockAboutToEnd
      ensures Valid()
      ensures Snapshot() == old(Snapshot()).(gstState := GstNull, pendingGstState := GstVoidPending,
                                             durationNs := -1, durationBytes := -1, blockAboutToEnd := false)
    {
      gstState, pendingGstState := GstNull, GstVoidPending;
      durationNs, durationBytes := -1, -1;
      blockAboutToEnd := false;
    }

    /**
     * Drops the pipeline to NULL and all streams with it. The source ends by
     * handling the postponed request; its only caller has emptied the slot,
     * so that step has nothing to run and is not repeated here.
     */
    method SetPipelineToIdle(announce: bool)
      requires Valid() && hasPipeline && postponed == NoTask
      modifies this`engineCalls, this`current, this`next, this`oldStreams, this`state, this`notes,
               this`gstState, this`pendingGstState, this`durationNs, this`durationBytes, this`blockAboutToEnd
      ensures Valid()
      ensures Snapshot() == Idled(old(Snapshot()), announce)
    {
      ReleasePipeline();
      AnnounceIdle(announce);
      SetInitialStateValues();
    }

    /** Sets the pipeline to NULL, then destroys the current stream, the next one and the retired ones, in that order. */
    method ReleasePipeline()
      requires Valid()
      modifies this`engineCalls, this`current, this`next, this`oldStreams
      ensures Valid()
      ensures Snapshot() == old(Snapshot()).(current := null, next := null, oldStreams := [],
                                             engineCalls := old(engineCalls) + [SetStateCall(GstNull)] + ReleaseOf(old(current)) +
                                                            ReleaseOf(old(next)) + Releases(old(oldStreams)))
    {
      engineCalls := engineCalls + [SetStateCall(GstNull)];
      engineCalls := engineCalls + ReleaseOf(current);
      current := null;
      engineCalls := engineCalls + ReleaseOf(next);
      next := null;
      CleanupOldStreams();
    }

    /** Enters idle and announces it, if asked to. */
    method AnnounceIdle(announce: bool)
      requires Valid() && current == null && next == null
      modifies this`state, this`notes
      ensures Valid()
      ensures Snapshot() == if announce then Entered(old(Snapshot()), Idle) else old(Snapshot())
    {
      if announce {
        SetState(Idle);
      }
    }

    /**
     * Tears the pipeline down: postponed requests are cancelled, the pipeline
     * goes idle and the volume interface is gone. Without a pipeline nothing happens.
     */
    method Shutdown(announce: bool)
      requires Valid()
      modifies this`engineCalls, this`current, this`next, this`oldStreams, this`state, this`notes,
               this`gstState, this`pendingGstState, this`durationNs, this`durationBytes, this`blockAboutToEnd,
               this`postponed, this`hasPipeline, this`hasVolumeIface
      ensures Valid()
      ensures Snapshot() == ShutDown(old(Snapshot()), announce)
    {
      if !hasPipeline {
        return;
      }
      postponed := NoTask;
      SetPipelineToIdle(announce);
      hasPipeline := false;
      hasVolumeIface := false;
    }

    /**
     * Builds a new pipeline, shutting an existing one down first. Whether the
     * engine can create the pipeline and its elements is the engine's answer;
     * on success the idle state is announced.
     */
    method Initialize() returns (ok: bool)
      requires Valid()
      modifies this`engineCalls, this`current, this`next, this`oldStreams, this`state, this`notes,
               this`gstState, this`pendingGstState, this`durationNs, this`durationBytes, this`blockAboutToEnd,
               this`postponed, this`hasPipeline, this`hasVolumeIface
      ensures Valid()
      ensures Snapshot() == Initialized(old(Snapshot()), ok)
    {
      if hasPipeline {
        Shutdown(true);
      }
      var created: bool := *;
      if !created {
        return false;
      }
      hasPipeline := true;
      SetState(Idle);
      return true;
    }

    /**
     * Shuts the pipeline down without announcing idle, then builds a new one.
     * Either way the streams are gone and the initial values are back; the
     * controller is idle when the new pipeline exists and otherwise keeps its
     * state (Reinited).
     */
    method Reinit() returns (ok: bool)
      requires Valid()
      modifies this`engineCalls, this`current, this`next, this`oldStreams, this`state, this`notes,
               this`gstState, this`pendingGstState, this`durationNs, this`durationBytes, this`blockAboutToEnd,
               this`postponed, this`hasPipeline, this`hasVolumeIface
      ensures Valid()
      ensures Snapshot() == Reinited(old(Snapshot()), ok)
    {
      Shutdown(false);
      ok := Initialize();
    }

    /** Destroying the controller shuts the pipeline down, announcing idle. */
    method Destroy()
      requires Valid()
      modifies this`engineCalls, this`current, this`next, this`oldStreams, this`state, this`notes,
               this`gstState, this`pendingGstState, this`durationNs, this`durationBytes, this`blockAboutToEnd,
               this`postponed, this`hasPipeline, this`hasVolumeIface
      ensures Valid()
      ensures Snapshot() == ShutDown(old(Snapshot()), true)
    {
      Shutdown(true);
    }

    /**
     * Plays a media now or queues it as the next one (see PlayMediaDone).
     * Queueing needs a pipeline, since a stream is created inside its bin.
     */
    method PlayMedia(token: nat, media: Media.Media, playNow: bool) returns (ok: bool)
      requires Valid()
      requires !Immediate(token, playNow) && Media.IsValid(media) ==> hasPipeline
      modifies this`engineCalls, this`current, this`next, this`oldStreams, this`state, this`notes,
               this`gstState, this`pendingGstState, this`durationNs, this`durationBytes, this`blockAboutToEnd,
               this`postponed, this`hasPipeline, this`hasVolumeIface
      ensures Valid()
      ensures PlayMediaDone(token, media, playNow, ok)
      ensures postponed == old(postponed) || postponed == NoTask || IsTransitioning()
    {
      if state == Idle || playNow || (current != null && current.token == token) {
        if !Media.IsValid(media) {
          return false;
        }
        if IsTransitioning() {
          postponed := PlayTask(token, media);
          return true;
        }
        ok := StartMedia(token, media);
      } else {
        ok := QueueNext(token, media);
      }
    }

    /** The immediate path of a play request once the request is known to go ahead. */
    method StartMedia(token: nat, media: Media.Media) returns (ok: bool)
      requires Valid() && Media.IsValid(media) && !IsTransitioning()
      modifies this`engineCalls, this`current, this`next, this`oldStreams, this`state, this`notes,
               this`gstState, this`pendingGstState, this`durationNs, this`durationBytes, this`blockAboutToEnd,
               this`postponed, this`hasPipeline, this`hasVolumeIface
      ensures Valid()
      ensures StartedMedia(old(Snapshot()), Snapshot(), token, media) && (ok <==> current != null)
      ensures postponed == NoTask || postponed == old(postponed)
    {
      var rebuilt := Reinit();
      if !rebuilt {
        return false;
      }
      ok := StartStream(token, media);
    }

    /**
     * `b` once the stream started (BeginStream): the next stream is dropped,
     * starting is entered and announced, and PAUSED is requested. The new
     * current stream is not part of the snapshot's equation.
     */
    function StreamBegun(b: Snap): (r: Snap)
      ensures r.state == Starting && r.next == null && r.postponed == b.postponed && r.hasPipeline == b.hasPipeline
      ensures |b.engineCalls| <= |r.engineCalls| <= |b.engineCalls| + 2 && r.engineCalls[..|b.engineCalls|] == b.engineCalls
      ensures b.gstState != GstPaused ==> |r.engineCalls| > 0 && r.engineCalls[|r.engineCalls| - 1] == SetStateCall(GstPaused)
    {
      var begun := Entered(b.(next := null, engineCalls := b.engineCalls + ReleaseOf(b.next)), Starting);
      begun.(engineCalls := begun.engineCalls + b.Request(GstPaused))
    }

    /**
     * The outcome of starting a stream for the token and media on the idle
     * pipeline `b`: the stream begins (StreamBegun) with a current stream for
     * the token and media. When the PAUSED request fails, the pipeline is
     * rebuilt once more: its shutdown releases the new stream without
     * announcing idle, and the controller is idle again only if the engine
     * builds the new pipeline.
     */
    predicate StreamStarted(b: Snap, a: Snap, token: nat, media: Media.Media)
    {
      var asked := StreamBegun(b);
      var released := asked.(current := null, oldStreams := [], postponed := NoTask,
                             hasPipeline := false, hasVolumeIface := false,
                             gstState := GstNull, pendingGstState := GstVoidPending,
                             durationNs := -1, durationBytes := -1, blockAboutToEnd := false,
                             engineCalls := asked.engineCalls + [SetStateCall(GstNull), ReleaseStream(token)] +
                                            Releases(asked.oldStreams));
      (a.current != null && a.current.token == token && a.current.media == media &&
       a == asked.(current := a.current)) ||
      a == Initialized(released, a.hasPipeline)
    }

    /**
     * The immediate path on the rebuilt, idle pipeline: the controller starts
     * the stream (BeginStream); if the PAUSED request fails the pipeline is
     * rebuilt again. The result says whether PAUSED was requested successfully.
     */
    method StartStream(token: nat, media: Media.Media) returns (ok: bool)
      requires Valid() && Media.IsValid(media) && hasPipeline && state == Idle
      modifies this`engineCalls, this`current, this`next, this`oldStreams, this`state, this`notes,
               this`gstState, this`pendingGstState, this`durationNs, this`durationBytes, this`blockAboutToEnd,
               this`postponed, this`hasPipeline, this`hasVolumeIface
      ensures Valid()
      ensures StreamStarted(old(Snapshot()), Snapshot(), token, media)
      ensures ok <==> current != null
      ensures ok ==> fresh(current)
      ensures postponed == NoTask || postponed == old(postponed)
    {
      ghost var b := Snapshot();
      var paused := BeginStream(token, media);
      if !paused {
        ghost var asked := Snapshot();
        assert asked == StreamBegun(b).(current := current);
        assert ReleaseOf(current) == [ReleaseStream(token)];
        // The state change failure may come from the media itself, so it is not replayed.
        var _ := Reinit();
        return false;
      }
      return true;
    }

    /**
     * Drops the next stream, enters starting with a new current stream for
     * the token and media, and requests PAUSED; the result is that request's.
     */
    method BeginStream(token: nat, media: Media.Media) returns (paused: bool)
      requires Valid() && Media.IsValid(media) && hasPipeline && state == Idle
      modifies this`engineCalls, this`current, this`next, this`state, this`notes
      ensures Valid()
      ensures current != null && fresh(current) && current.token == token && current.media == media
      ensures Snapshot() == StreamBegun(old(Snapshot())).(current := current)
    {
      DropNextAndStart();
      current := SetupStream(token, media);
      paused := SetGstState(GstPaused);
    }

    /** The first steps of BeginStream: the next stream is released and starting is entered. */
    method DropNextAndStart()
      modifies this`engineCalls, this`next, this`state, this`notes
      ensures Snapshot() == Entered(old(Snapshot()).(next := null, engineCalls := old(engineCalls + ReleaseOf(next))), Starting)
    {
      engineCalls := engineCalls + ReleaseOf(next);
      next := null;
      SetState(Starting);
    }

    /** The queueing path of a play request. */
    method QueueNext(token: nat, media: Media.Media) returns (ok: bool)
      requires Valid() && state != Idle && (Media.IsValid(media) ==> hasPipeline)
      modifies this`next, this`engineCalls
      ensures Valid()
      ensures QueuedNext(token, media, ok)
    {
      engineCalls := engineCalls + ReleaseOf(next);
      next := null;
      if Media.IsValid(media) {
        next := SetupStream(token, media);
        return true;
      }
      return false;
    }

    /** The play overload taking a media by reference forwards a copy of it. */
    method PlayMediaCopy(token: nat, media: Media.Media, playNow: bool) returns (ok: bool)
      requires Valid()
      requires !Immediate(token, playNow) && Media.IsValid(media) ==> hasPipeline
      modifies this`engineCalls, this`current, this`next, this`oldStreams, this`state, this`notes,
               this`gstState, this`pendingGstState, this`durationNs, this`durationBytes, this`blockAboutToEnd,
               this`postponed, this`hasPipeline, this`hasVolumeIface
      ensures Valid()
      ensures PlayMediaDone(token, media, playNow, ok)
    {
      Media.CopyIsMove(media);
      ok := PlayMedia(token, Media.Copy(media), playNow);
    }

    /** The play overload taking a media by move forwards it unchanged. */
    method PlayMediaMove(token: nat, media: Media.Media, playNow: bool) returns (ok: bool)
      requires Valid()
      requires !Immediate(token, playNow) && Media.IsValid(media) ==> hasPipeline
      modifies this`engineCalls, this`current, this`next, this`oldStreams, this`state, this`notes,
               this`gstState, this`pendingGstState, this`durationNs, this`durationBytes, this`blockAboutToEnd,
               this`postponed, this`hasPipeline, this`hasVolumeIface
      ensures Valid()
      ensures PlayMediaDone(token, media, playNow, ok)
    {
      Media.CopyIsMove(media);
      ok := PlayMedia(token, Media.Moved(media), playNow);
    }

    /** Whether a pause or resume request made now is ignored (see Snap.PauseIgnored). */
    function PauseIgnored(paused: bool): (b: bool)
      reads this
      ensures !hasPipeline || state == Idle ==> b
    {
      !hasPipeline || state == Idle || (paused && gstState == GstPaused) ||
      (!paused && pendingGstState == GstPlaying)
    }

    /**
     * `b` after a pause or resume request: an ignored request changes
     * nothing; while transitioning the request takes the postponed slot;
     * otherwise PAUSED or PLAYING is requested from the engine.
     */
    function PauseApplied(b: Snap, paused: bool): (r: Snap)
      ensures r.(postponed := b.postponed, engineCalls := b.engineCalls) == b
      ensures r.postponed != b.postponed ==>
                b.IsTransitioning() && r.postponed == PauseTask(paused) && r.engineCalls == b.engineCalls
      ensures r.engineCalls != b.engineCalls ==>
                !b.IsTransitioning() && r.engineCalls == b.engineCalls + [SetStateCall(if paused then GstPaused else GstPlaying)]
    {
      if b.PauseIgnored(paused) then b
      else if b.IsTransitioning() then b.(postponed := PauseTask(paused))
      else b.(engineCalls := b.engineCalls + b.Request(if paused then GstPaused else GstPlaying))
    }

    /** Pauses or resumes (see PauseApplied). */
    method SetPaused(paused: bool)
      requires Valid()
      modifies this`postponed, this`engineCalls
      ensures Valid()
      ensures Snapshot() == PauseApplied(old(Snapshot()), paused)
    {
      if PauseIgnored(paused) {
        return;
      }
      if IsTransitioning() {
        postponed := PauseTask(paused);
        return;
      }
      var _ := SetGstState(if paused then GstPaused else GstPlaying);
    }

    /**
     * `b` after a seek to `position` was recorded: whether it started from
     * paused, the target as an unsigned clock time and the unit; then
     * seeking is entered and announced.
     */
    function SeekEntered(b: Snap, position: int, unit: PositionUnit): (r: Snap)
      requires IsInt64(position)
      ensures r.state == Seeking && r.IsTransitioning()
      ensures r.postponed == b.postponed && r.engineCalls == b.engineCalls && r.current == b.current
    {
      Entered(b.(seekWasPaused := b.state == Paused, seekToPosition := ToClockTime(position), seekUnit := unit),
              Seeking)
    }

    /**
     * The outcome of a seek request made in `b`: ignored without a pipeline
     * or when idle; postponed while transitioning. From playing, seeking is
     * entered and PAUSED requested, and the bus finishes the seek later; from
     * paused, seeking is entered and the seek performed at once
     * (SeekPerformed). In any other state nothing happens.
     */
    predicate Positioned(b: Snap, a: Snap, position: int, unit: PositionUnit)
      requires IsInt64(position) && b.TaskInRange()
      decreases b.Slot(), 2
    {
      if !b.hasPipeline || b.state == Idle then a == b
      else if b.IsTransitioning() then a == b.(postponed := SetPositionTask(position, unit))
      else if b.state == Playing then
        a == SeekEntered(b, position, unit).(engineCalls := b.engineCalls + b.Request(GstPaused))
      else if b.state == Paused then SeekPerformed(SeekEntered(b, position, unit), a)
      else a == b
    }

    /**
     * The outcome of performing the seek recorded in `b`. The seek is asked
     * of the engine; a failed seek changes nothing else. After a successful
     * one the target is cleared; a seek from paused then enters paused and
     * runs the postponed request (RanPostponed), and one from playing
     * requests PLAYING.
     */
    predicate SeekPerformed(b: Snap, a: Snap)
      requires b.TaskInRange()
      decreases b.Slot(), 1
    {
      var seek := b.engineCalls + [SeekCall(b.seekToPosition, b.seekUnit)];
      var sought := b.(seekToPosition := ClockTimeNone, engineCalls := seek);
      a == b.(engineCalls := seek) ||
      (if b.seekWasPaused then RanPostponed(Entered(sought, Paused), a)
       else a == sought.(engineCalls := seek + b.Request(GstPlaying)))
    }

    /**
     * Seeks (see Positioned). Afterwards the slot holds what it held, or it
     * is empty, or the controller is transitioning.
     */
    method SetCurrentPosition(position: int, unit: PositionUnit)
      requires Valid() && IsInt64(position)
      modifies this
      decreases Slot(), 5
      ensures Valid()
      ensures Positioned(old(Snapshot()), Snapshot(), position, unit)
      ensures postponed == old(postponed) || postponed == NoTask || IsTransitioning()
    {
      if !hasPipeline || state == Idle {
        return;
      }
      if IsTransitioning() {
        postponed := SetPositionTask(position, unit);
        return;
      }
      if state == Paused || state == Playing {
        StartSeek(position, unit);
      }
    }

    /** Records the seek request, enters seeking, and seeks now (from paused) or asks for PAUSED first. */
    method StartSeek(position: int, unit: PositionUnit)
      requires Valid() && IsInt64(position) && (state == Paused || state == Playing)
      modifies this
      decreases Slot(), 4
      ensures Valid()
      ensures old(state) == Playing ==>
                Snapshot() == SeekEntered(old(Snapshot()), position, unit).(engineCalls := old(engineCalls) + old(Request(GstPaused)))
      ensures old(state) == Paused ==> SeekPerformed(SeekEntered(old(Snapshot()), position, unit), Snapshot())
      ensures postponed == old(postponed) || postponed == NoTask || IsTransitioning()
    {
      EnterSeeking(position, unit);
      if seekWasPaused {
        FinishSeeking();
      } else {
        var _ := SetGstState(GstPaused);
      }
    }

    /** Records the seek request and enters seeking (see SeekEntered). */
    method EnterSeeking(position: int, unit: PositionUnit)
      requires Valid() && IsInt64(position) && (state == Paused || state == Playing)
      modifies this`seekWasPaused, this`seekToPosition, this`seekUnit, this`state, this`notes
      ensures Valid()
      ensures Snapshot() == SeekEntered(old(Snapshot()), position, unit)
    {
      seekWasPaused := state == Paused;
      seekToPosition := ToClockTime(position);
      seekUnit := unit;
      SetState(Seeking);
    }

    /**
     * Performs the seek (see SeekPerformed). Afterwards the slot holds what
     * it held, or it is empty, or the controller is transitioning.
     */
    method FinishSeeking()
      requires Valid()
      modifies this
      decreases Slot(), 3
      ensures Valid()
      ensures SeekPerformed(old(Snapshot()), Snapshot())
      ensures postponed == old(postponed) || postponed == NoTask || IsTransitioning()
    {
      ghost var b := Snapshot();
      engineCalls := engineCalls + [SeekCall(seekToPosition, seekUnit)];
      var succeeded: bool := *;
      if !succeeded {
        assert Snapshot() == b.(engineCalls := engineCalls);
        return;
      }
      seekToPosition := ClockTimeNone;
      if seekWasPaused {
        Settle(Paused);
      } else {
        var _ := SetGstState(GstPlaying);
      }
    }

    /**
     * `b` after a stop request: ignored without a pipeline, when idle or
     * stopping; postponed while transitioning; otherwise the pipeline is shut
     * down and idle announced.
     */
    function Stopped(b: Snap): (r: Snap)
      ensures r.hasPipeline ==> r == b || r == b.(postponed := StopTask)
      ensures b.hasPipeline && !r.hasPipeline ==>
                r.state == Idle && r.postponed == NoTask && r.current == null && r.next == null && r.oldStreams == []
    {
      if !b.hasPipeline || b.state == Stopping || b.state == Idle then b
      else if b.IsTransitioning() then b.(postponed := StopTask)
      else ShutDown(b, true)
    }

    /** Stops (see Stopped). */
    method Stop()
      requires Valid()
      modifies this`engineCalls, this`current, this`next, this`oldStreams, this`state, this`notes,
               this`gstState, this`pendingGstState, this`durationNs, this`durationBytes, this`blockAboutToEnd,
               this`postponed, this`hasPipeline, this`hasVolumeIface
      ensures Valid()
      ensures Snapshot() == Stopped(old(Snapshot()))
    {
      if !hasPipeline || state == Stopping || state == Idle {
        return;
      }
      if IsTransitioning() {
        postponed := StopTask;
      } else {
        Shutdown(true);
      }
    }

    /** A duration query; -1 without a pipeline, when idle, or when the engine does not know. */
    method QueryDuration(unit: PositionUnit) returns (duration: int)
      ensures !hasPipeline || state == Idle ==> duration == -1
    {
      if !hasPipeline || state == Idle {
        return -1;
      }
      var succeeded: bool := *;
      var reported: int := *;
      duration := if succeeded then reported else -1;
    }

    /** The duration-updated callbacks for the answers `ns` and `bytes` that differ from the values cached in `b`. */
    function DurationNotes(b: Snap, ns: int, bytes: int): (r: seq<Note>)
      ensures callbacks.durationUpdated ==> (DurationUpdated(ns, Nanoseconds) in r <==> ns != b.durationNs)
      ensures callbacks.durationUpdated ==> (DurationUpdated(bytes, Bytes) in r <==> bytes != b.durationBytes)
      ensures !callbacks.durationUpdated ==> r == []
    {
      if !callbacks.durationUpdated then []
      else (if ns != b.durationNs then [DurationUpdated(ns, Nanoseconds)] else []) +
           (if bytes != b.durationBytes then [DurationUpdated(bytes, Bytes)] else [])
    }

    /**
     * `b` after both durations were queried, the engine answering `ns` and
     * `bytes`: only with a duration callback registered is the cache written
     * and a changed value reported.
     */
    function Durations(b: Snap, ns: int, bytes: int): (r: Snap)
      ensures r.(durationNs := b.durationNs, durationBytes := b.durationBytes, notes := b.notes) == b
      ensures r.durationNs == (if callbacks.durationUpdated then ns else b.durationNs)
      ensures r.durationBytes == (if callbacks.durationUpdated then bytes else b.durationBytes)
      ensures r.notes == b.notes + DurationNotes(b, ns, bytes)
    {
      if callbacks.durationUpdated then
        b.(durationNs := ns, durationBytes := bytes, notes := b.notes + DurationNotes(b, ns, bytes))
      else b
    }

    /** Queries both durations (see Durations); the results are the engine's answers. */
    method UpdateDurations() returns (ns: int, bytes: int)
      requires Valid()
      modifies this`durationNs, this`durationBytes, this`notes
      ensures Valid()
      ensures !hasPipeline || state == Idle ==> ns == -1 && bytes == -1
      ensures Snapshot() == Durations(old(Snapshot()), ns, bytes)
    {
      ns := QueryDuration(Nanoseconds);
      bytes := QueryDuration(Bytes);
      notes := notes + DurationNotes(Snapshot(), ns, bytes);
      if callbacks.durationUpdated {
        durationNs := ns;
        durationBytes := bytes;
      }
    }

    /**
     * `b` after the state was reconciled with the current stream's buffering
     * flag `buffering`: playing and buffering enters the buffering state and
     * asks for PAUSED; the buffering state and no longer buffering asks for
     * PLAYING (the bus then completes the change).
     */
    function BufferingRechecked(b: Snap, buffering: bool): (r: Snap)
      ensures r.(state := b.state, notes := b.notes, engineCalls := b.engineCalls) == b
      ensures r.state == Buffering <==> b.state == Buffering || (buffering && b.state == Playing)
      ensures r.notes == (if r.state == b.state then b.notes else b.notes + Announce(Playing, Buffering))
    {
      if buffering && b.state == Playing then
        Entered(b, Buffering).(engineCalls := b.engineCalls + b.Request(GstPaused))
      else if !buffering && b.state == Buffering then b.(engineCalls := b.engineCalls + b.Request(GstPlaying))
      else b
    }

    /** Reconciles the state with the current stream's buffering flag (see BufferingRechecked). */
    method RecheckBuffering()
      requires Valid() && current != null
      modifies this`state, this`notes, this`engineCalls
      ensures Valid()
      ensures Snapshot() == BufferingRechecked(old(Snapshot()), current.buffering)
    {
      if current.buffering && state == Playing {
        SetState(Buffering);
        var _ := SetGstState(GstPaused);
      } else if !current.buffering && state == Buffering {
        var _ := SetGstState(GstPlaying);
      }
    }

    /**
     * The end-of-stream probe on a stream's pad: the engine switched to the
     * next stream. The finished current stream is retired, the next one
     * becomes current, and the slot for the next one is empty.
     */
    method StreamEosProbe()
      requires Valid() && hasPipeline
      modifies this`current, this`next, this`oldStreams
      ensures Valid()
      ensures oldStreams == old(oldStreams) + (if old(current) != null then [old(current)] else [])
      ensures current == old(next) && next == null
    {
      if current != null {
        oldStreams := oldStreams + [current];
      }
      current := next;
      next := null;
    }

    /** The bus message the probe posts: the retired streams are destroyed. */
    method OnCleanup()
      requires Valid() && hasPipeline
      modifies this`oldStreams, this`engineCalls
      ensures Valid()
      ensures Snapshot() == old(Snapshot()).(oldStreams := [], engineCalls := old(engineCalls) + Releases(old(oldStreams)))
    {
      CleanupOldStreams();
    }

    /**
     * `b` after a new media started with the current stream, whose buffering
     * flag is `buffering`: the durations are updated (Durations, with the
     * engine's answers `ns` and `bytes`), the media-started callback gets the
     * current media and token, and buffering is rechecked.
     */
    function StartAnnounced(b: Snap, buffering: bool, ns: int, bytes: int): (r: Snap)
      requires b.current != null
      ensures r.current == b.current && r.next == b.next && r.postponed == b.postponed
      ensures r.state == (if buffering && b.state == Playing then Buffering else b.state)
      ensures |b.notes| <= |r.notes|
      ensures callbacks.mediaStarted ==> MediaStarted(b.current.media, b.current.token) in r.notes[|b.notes|..]
    {
      var updated := Durations(b, ns, bytes);
      var started := if callbacks.mediaStarted then [MediaStarted(b.current.media, b.current.token)] else [];
      var mid := updated.(notes := updated.notes + started);
      var r := BufferingRechecked(mid, buffering);
      assert r.notes == mid.notes || r.notes == mid.notes + Announce(Playing, Buffering);
      assert callbacks.mediaStarted ==> r.notes[|b.notes|..][|mid.notes| - 1 - |b.notes|] == started[0];
      r
    }

    /**
     * A new media started playing. The about-to-end block is lifted; with a
     * current stream the media's start is handled as StartAnnounced says;
     * without one the pipeline is rebuilt. The results are the queried
     * durations, -1 when there is no current stream.
     */
    method OnStreamStart() returns (ns: int, bytes: int)
      requires Valid() && hasPipeline
      modifies this
      ensures Valid()
      ensures var b := old(Snapshot()).(blockAboutToEnd := false);
              if old(current) != null then Snapshot() == StartAnnounced(b, old(current).buffering, ns, bytes)
              else Snapshot() == Reinited(b, hasPipeline) && ns == -1 && bytes == -1
    {
      blockAboutToEnd := false;
      ns, bytes := -1, -1;
      if current != null {
        ns, bytes := AnnounceStart();
      } else {
        var _ := Reinit();
      }
    }

    /** The stream-start handling with a current stream (see StartAnnounced). */
    method AnnounceStart() returns (ns: int, bytes: int)
      requires Valid() && current != null
      modifies this`durationNs, this`durationBytes, this`notes, this`state, this`engineCalls
      ensures Valid()
      ensures Snapshot() == StartAnnounced(old(Snapshot()), current.buffering, ns, bytes)
    {
      ns, bytes := UpdateDurations();
      if callbacks.mediaStarted {
        notes := notes + [MediaStarted(current.media, current.token)];
      }
      RecheckBuffering();
    }

    /**
     * The pipeline reached its end. A next media is played now (PlayedNow),
     * which postpones it while transitioning; otherwise the controller stops
     * (Stopped), and then invokes the end-of-stream callback whether or not
     * the stop itself was postponed.
     */
    method OnEndOfStream()
      requires Valid() && hasPipeline
      modifies this`engineCalls, this`current, this`next, this`oldStreams, this`state, this`notes,
               this`gstState, this`pendingGstState, this`durationNs, this`durationBytes, this`blockAboutToEnd,
               this`postponed, this`hasPipeline, this`hasVolumeIface
      ensures Valid()
      ensures old(next) != null ==> PlayedNow(old(Snapshot()), Snapshot(), old(next).token, old(next).media)
      ensures old(next) == null ==>
                var stopped := Stopped(old(Snapshot()));
                Snapshot() == stopped.(notes := stopped.notes + (if callbacks.endOfStream then [EndOfStream] else []))
    {
      if next != null && Media.IsValid(next.media) {
        var media, token := next.media, next.token;
        var _ := PlayMedia(token, media, true);
      } else {
        Stop();
        if callbacks.endOfStream {
          notes := notes + [EndOfStream];
        }
      }
    }

    /**
     * The engine reported an error: the error callback runs first, then the
     * pipeline is rebuilt (Reinited), which cancels every request and drops
     * every stream.
     */
    method OnError()
      requires Valid() && hasPipeline
      modifies this`engineCalls, this`current, this`next, this`oldStreams, this`state, this`notes,
               this`gstState, this`pendingGstState, this`durationNs, this`durationBytes, this`blockAboutToEnd,
               this`postponed, this`hasPipeline, this`hasVolumeIface
      ensures Valid()
      ensures var reported := old(notes) + (if callbacks.error then [ErrorReported] else []);
              Snapshot() == Reinited(old(Snapshot()).(notes := reported), hasPipeline)
    {
      if callbacks.error {
        notes := notes + [ErrorReported];
      }
      var _ := Reinit();
    }

    /**
     * A buffering report of `percent` from the stream that contains the
     * message's source (`poster`, checked against the current stream first).
     * The stream's flag follows the hysteresis; only a change on the current
     * stream rechecks the state; the buffering callback gets the stream's
     * media and token and whether it is the current one.
     */
    method OnBuffering(poster: Stream?, percent: int)
      requires Valid() && hasPipeline
      modifies this`state, this`notes, this`engineCalls, current, next
      ensures Valid()
      ensures current == old(current) && next == old(next)
      ensures current != null && poster == current ==>
                current.buffering == Hysteresis(percent, old(current.buffering)) &&
                (next != null ==> next.buffering == old(next.buffering)) &&
                var toBuffering := current.buffering && !old(current.buffering) && old(state) == Playing;
                state == (if toBuffering then Buffering else old(state)) &&
                notes == old(notes) + (if toBuffering then Announce(Playing, Buffering) else []) +
                         BufferingNote(current, true, percent) &&
                engineCalls == old(engineCalls) +
                               (if toBuffering then Request(GstPaused)
                                else if old(current.buffering) && !current.buffering && old(state) == Buffering
                                then Request(GstPlaying)
                                else [])
      ensures !(current != null && poster == current) && next != null && poster == next ==>
                next.buffering == Hysteresis(percent, old(next.buffering)) &&
                (current != null ==> current.buffering == old(current.buffering)) &&
                state == old(state) && engineCalls == old(engineCalls) &&
                notes == old(notes) + BufferingNote(next, false, percent)
      ensures !(current != null && poster == current) && !(next != null && poster == next) ==>
                state == old(state) && notes == old(notes) && engineCalls == old(engineCalls) &&
                (current != null ==> current.buffering == old(current.buffering)) &&
                (next != null ==> next.buffering == old(next.buffering))
    {
      if current != null && poster == current {
        var changed := ApplyBufferingLevel(current, percent);
        if changed {
          RecheckBuffering();
        }
        notes := notes + BufferingNote(current, true, percent);
      } else if next != null && poster == next {
        var _ := ApplyBufferingLevel(next, percent);
        notes := notes + BufferingNote(next, false, percent);
      }
    }

    /** The buffering callback, if registered, for a report about `s`. */
    function BufferingNote(s: Stream, isCurrent: bool, percent: int): seq<Note>
    {
      if callbacks.bufferingUpdated then [BufferingUpdated(s.media, s.token, isCurrent, percent)] else []
    }

    /** Moves a stream's buffering flag by the hysteresis; the result says whether it changed. */
    method ApplyBufferingLevel(s: Stream, percent: int) returns (changed: bool)
      modifies s
      ensures s.buffering == Hysteresis(percent, old(s.buffering))
      ensures changed == (s.buffering != old(s.buffering))
    {
      changed := false;
      if percent <= 20 && !s.buffering {
        s.SetBuffering(true);
        changed := true;
      } else if percent >= 100 && s.buffering {
        s.SetBuffering(false);
        changed := true;
      }
    }

    /**
     * A state change of the pipeline element. Messages from other elements,
     * and the spurious ones with a NULL pending state, are ignored. Otherwise
     * the engine state is recorded and the controller state follows it, as
     * the FollowedFrom predicates say for starting, seeking, buffering and
     * playing or paused; in idle nothing else changes. The results are the
     * durations the engine reported when starting reached PAUSED, and -1 for
     * any other message.
     */
    method OnStateChanged(fromPipeline: bool, oldGst: GstState, newGst: GstState, pendingGst: GstState)
      returns (ns: int, bytes: int)
      requires Valid() && hasPipeline
      modifies this
      ensures Valid()
      ensures !fromPipeline || pendingGst == GstNull ==> unchanged(this)
      ensures fromPipeline && pendingGst != GstNull ==>
                var g := old(Snapshot()).(gstState := newGst);
                match old(state)
                case Starting =>
                  Snapshot() == FollowedFromStarting(g, newGst, old(current != null && current.buffering), ns, bytes)
                case Seeking => FollowedFromSeeking(g, Snapshot(), oldGst, newGst)
                case Buffering => FollowedFromBuffering(g, Snapshot(), newGst, old(current != null && !current.buffering))
                case Playing => FollowedFromSettled(g, Snapshot(), newGst)
                case Paused => FollowedFromSettled(g, Snapshot(), newGst)
                case _ => Snapshot() == g
      ensures !(fromPipeline && pendingGst != GstNull && old(state) == Starting && newGst == GstPaused) ==>
                ns == -1 && bytes == -1
    {
      ns, bytes := -1, -1;
      if !fromPipeline || pendingGst == GstNull {
        return;
      }
      gstState := newGst;
      ns, bytes := FollowGstState(oldGst, newGst);
    }

    /** The pipeline reached `newGst` from `oldGst`: each state follows it as its FollowedFrom predicate says. */
    method FollowGstState(oldGst: GstState, newGst: GstState) returns (ns: int, bytes: int)
      requires Valid() && hasPipeline && gstState == newGst
      modifies this
      ensures Valid()
      ensures match old(state)
              case Starting =>
                Snapshot() == FollowedFromStarting(old(Snapshot()), newGst, old(current != null && current.buffering), ns, bytes)
              case Seeking => FollowedFromSeeking(old(Snapshot()), Snapshot(), oldGst, newGst)
              case Buffering => FollowedFromBuffering(old(Snapshot()), Snapshot(), newGst, old(current != null && !current.buffering))
              case Playing => FollowedFromSettled(old(Snapshot()), Snapshot(), newGst)
              case Paused => FollowedFromSettled(old(Snapshot()), Snapshot(), newGst)
              case _ => Snapshot() == old(Snapshot())
      ensures !(old(state) == Starting && newGst == GstPaused) ==> ns == -1 && bytes == -1
    {
      ns, bytes := -1, -1;
      match state
      case Starting =>
        ns, bytes := FollowFromStarting(newGst);
      case Seeking =>
        FollowFromSeeking(oldGst, newGst);
      case Buffering =>
        FollowFromBuffering(newGst);
      case Playing =>
        FollowFromSettled(newGst);
      case Paused =>
        FollowFromSettled(newGst);
      case _ =>
    }

    /**
     * How seeking follows the engine state `newGst` from `b`: reaching PAUSED
     * from another engine state with a target set performs the seek
     * (SeekPerformed); reaching PLAYING enters playing and runs the postponed
     * request (RanPostponed); anything else changes nothing.
     */
    predicate FollowedFromSeeking(b: Snap, a: Snap, oldGst: GstState, newGst: GstState)
      requires b.TaskInRange()
    {
      if newGst == GstPaused && oldGst != GstPaused && b.seekToPosition != ClockTimeNone then SeekPerformed(b, a)
      else if newGst == GstPlaying then RanPostponed(Entered(b, Playing), a)
      else a == b
    }

    /** See FollowedFromSeeking. */
    method FollowFromSeeking(oldGst: GstState, newGst: GstState)
      requires Valid() && state == Seeking && gstState == newGst
      modifies this
      ensures Valid()
      ensures FollowedFromSeeking(old(Snapshot()), Snapshot(), oldGst, newGst)
    {
      if newGst == GstPaused {
        if oldGst != GstPaused && seekToPosition != ClockTimeNone {
          FinishSeeking();
        }
      } else if newGst == GstPlaying {
        Settle(Playing);
      }
    }

    /**
     * How buffering follows the engine state `newGst` from `b`: at PAUSED,
     * PLAYING is requested when the current stream exists and no longer
     * buffers (`resumable`); reaching PLAYING enters playing and runs the
     * postponed request (RanPostponed); anything else changes nothing.
     */
    predicate FollowedFromBuffering(b: Snap, a: Snap, newGst: GstState, resumable: bool)
      requires b.TaskInRange()
    {
      if newGst == GstPaused then
        a == b.(engineCalls := b.engineCalls + (if resumable then b.Request(GstPlaying) else []))
      else if newGst == GstPlaying then RanPostponed(Entered(b, Playing), a)
      else a == b
    }

    /** See FollowedFromBuffering. */
    method FollowFromBuffering(newGst: GstState)
      requires Valid() && state == Buffering && gstState == newGst
      modifies this
      ensures Valid()
      ensures FollowedFromBuffering(old(Snapshot()), Snapshot(), newGst, old(current != null && !current.buffering))
    {
      if newGst == GstPaused {
        if current != null && !current.buffering {
          var _ := SetGstState(GstPlaying);
        }
      } else if newGst == GstPlaying {
        Settle(Playing);
      }
    }

    /**
     * How playing and paused follow the engine state `newGst` from `b`:
     * reaching the other one of PAUSED and PLAYING enters the matching state
     * and runs the postponed request (RanPostponed); anything else changes
     * nothing.
     */
    predicate FollowedFromSettled(b: Snap, a: Snap, newGst: GstState)
      requires b.TaskInRange()
    {
      if newGst == GstPaused && b.state != Paused then RanPostponed(Entered(b, Paused), a)
      else if newGst == GstPlaying && b.state != Playing then RanPostponed(Entered(b, Playing), a)
      else a == b
    }

    /** See FollowedFromSettled. */
    method FollowFromSettled(newGst: GstState)
      requires Valid() && (state == Playing || state == Paused) && gstState == newGst
      modifies this
      ensures Valid()
      ensures FollowedFromSettled(old(Snapshot()), Snapshot(), newGst)
    {
      if newGst == GstPaused && state != Paused {
        Settle(Paused);
      } else if newGst == GstPlaying && state != Playing {
        Settle(Playing);
      }
    }

    /**
     * `b` after starting followed the engine state `newGst`, the current
     * stream buffering or not (`buffering`): at READY the volume interface is
     * found (the pipeline's own volume element is the fallback, so one always
     * is); at PAUSED the durations are updated with the engine's answers `ns`
     * and `bytes` (Durations) and starting is left (StartingLeftAtPaused); at
     * PLAYING playing is entered; anything else changes nothing.
     */
    function FollowedFromStarting(b: Snap, newGst: GstState, buffering: bool, ns: int, bytes: int): (r: Snap)
      ensures r.current == b.current && r.next == b.next && r.postponed == b.postponed && r.gstState == b.gstState
      ensures r.state == (if newGst == GstPlaying then Playing
                          else if newGst == GstPaused then (if buffering then Buffering else Paused)
                          else b.state)
      ensures r.hasVolumeIface == (b.hasVolumeIface || newGst == GstReady)
      ensures newGst != GstPaused ==> r.durationNs == b.durationNs && r.durationBytes == b.durationBytes
    {
      if newGst == GstReady then b.(hasVolumeIface := true)
      else if newGst == GstPaused then StartingLeftAtPaused(Durations(b, ns, bytes), buffering)
      else if newGst == GstPlaying then Entered(b, Playing)
      else b
    }

    /**
     * `b` after starting reached PAUSED: buffering is entered while the
     * current stream buffers; otherwise paused is entered and PLAYING
     * requested.
     */
    function StartingLeftAtPaused(b: Snap, buffering: bool): (r: Snap)
      ensures r.(state := b.state, notes := b.notes, engineCalls := b.engineCalls) == b
      ensures r.state == (if buffering then Buffering else Paused)
      ensures r.notes == b.notes + Announce(b.state, r.state)
    {
      if buffering then Entered(b, Buffering)
      else Entered(b, Paused).(engineCalls := b.engineCalls + b.Request(GstPlaying))
    }

    /** See FollowedFromStarting; the results are the durations queried at PAUSED, -1 otherwise. */
    method FollowFromStarting(newGst: GstState) returns (ns: int, bytes: int)
      requires Valid() && hasPipeline && state == Starting && gstState == newGst
      modifies this`hasVolumeIface, this`durationNs, this`durationBytes, this`notes, this`state, this`engineCalls
      ensures Valid()
      ensures Snapshot() == FollowedFromStarting(old(Snapshot()), newGst, current != null && current.buffering, ns, bytes)
      ensures newGst != GstPaused ==> ns == -1 && bytes == -1
    {
      ns, bytes := -1, -1;
      if newGst == GstReady {
        hasVolumeIface := true;
      } else if newGst == GstPaused {
        ns, bytes := ReachPausedFromStarting();
      } else if newGst == GstPlaying {
        SetState(Playing);
      }
    }

    /** Starting reached PAUSED: the durations are updated (Durations), then starting is left (StartingLeftAtPaused). */
    method ReachPausedFromStarting() returns (ns: int, bytes: int)
      requires Valid() && state == Starting && gstState == GstPaused
      modifies this`durationNs, this`durationBytes, this`notes, this`state, this`engineCalls
      ensures Valid()
      ensures Snapshot() ==
              StartingLeftAtPaused(Durations(old(Snapshot()), ns, bytes), current != null && current.buffering)
    {
      ns, bytes := UpdateDurations();
      LeaveStartingAtPaused();
    }

    /** See StartingLeftAtPaused. */
    method LeaveStartingAtPaused()
      requires Valid() && state == Starting && gstState == GstPaused
      modifies this`notes, this`state, this`engineCalls
      ensures Valid()
      ensures Snapshot() == StartingLeftAtPaused(old(Snapshot()), current != null && current.buffering)
    {
      if current != null && current.buffering {
        SetState(Buffering);
      } else {
        SetState(Paused);
        var _ := SetGstState(GstPlaying);
      }
    }

    /**
     * Reaching a settled state `s` enters it and runs the postponed request
     * (RanPostponed). Afterwards the slot is empty (SettlingEmptiesSlot).
     */
    method Settle(s: State)
      requires Valid() && (s == Playing || s == Paused)
      modifies this
      decreases Slot(), 2
      ensures Valid()
      ensures RanPostponed(Entered(old(Snapshot()), s), Snapshot())
      ensures postponed == NoTask
    {
      ghost var b := Snapshot();
      SetState(s);
      HandlePostponed();
      SettlingEmptiesSlot(b, s, Snapshot());
    }

    /**
     * Once a transition ends in playing or paused, the request that waited
     * for it has run and the slot is empty: it is not postponed again, since
     * a settled controller is not transitioning.
     */
    lemma SettlingEmptiesSlot(b: Snap, s: State, a: Snap)
      requires b.Valid() && (s == Playing || s == Paused)
      requires RanPostponed(Entered(b, s), a)
      ensures a.postponed == NoTask
    {
      var e := Entered(b, s).(postponed := NoTask);
      assert !e.IsTransitioning();
      match b.postponed
      case NoTask =>
      case PlayTask(token, media) =>
        assert PlayedNow(e, a, token, media);
        StartedMediaEmptiesSlot(e, a, token, media);
      case StopTask =>
        assert a == Stopped(e);
      case PauseTask(paused) =>
        assert a == PauseApplied(e, paused);
      case SetPositionTask(position, unit) =>
        SeekFromSettledEmptiesSlot(e, a, position, unit);
      case SetStateTask(target) =>
    }

    /** Starting a media at once leaves the slot empty when it was empty: a rebuild cancels nothing new. */
    lemma StartedMediaEmptiesSlot(b: Snap, a: Snap, token: nat, media: Media.Media)
      requires b.postponed == NoTask && StartedMedia(b, a, token, media)
      ensures a.postponed == NoTask
    {
      if a != Reinited(b, false) {
        assert StreamStarted(Reinited(b, true), a, token, media);
      }
    }

    /** A seek made in playing or paused with an empty slot leaves it empty, the seek from paused included. */
    lemma SeekFromSettledEmptiesSlot(b: Snap, a: Snap, position: int, unit: PositionUnit)
      requires IsInt64(position) && b.postponed == NoTask && (b.state == Playing || b.state == Paused)
      requires !b.IsTransitioning() && Positioned(b, a, position, unit)
      ensures a.postponed == NoTask
    {
      if b.hasPipeline && b.state == Paused {
        var entered := SeekEntered(b, position, unit);
        assert SeekPerformed(entered, a);
        var sought := entered.(seekToPosition := ClockTimeNone,
                               engineCalls := entered.engineCalls + [SeekCall(entered.seekToPosition, entered.seekUnit)]);
        assert a == entered.(engineCalls := sought.engineCalls) || RanPostponed(Entered(sought, Paused), a);
      }
    }

    /** The engine asks for a state; postponed while transitioning, passed on directly otherwise. */
    method OnRequestState(requested: GstState)
      requires Valid() && hasPipeline
      modifies this`postponed, this`engineCalls
      ensures Valid()
      ensures IsTransitioning() ==> postponed == SetStateTask(requested) && engineCalls == old(engineCalls)
      ensures !IsTransitioning() ==>
                postponed == old(postponed) && engineCalls == old(engineCalls) + [SetStateCall(requested)]
    {
      if IsTransitioning() {
        postponed := SetStateTask(requested);
      } else {
        engineCalls := engineCalls + [SetStateCall(requested)];
      }
    }

    /**
     * A duration change; ignored when it comes from the concat element.
     * Otherwise both durations are queried again (UpdateDurations); the
     * results are the engine's answers.
     */
    method OnDurationChanged(fromConcat: bool) returns (ns: int, bytes: int)
      requires Valid() && hasPipeline
      modifies this`durationNs, this`durationBytes, this`notes
      ensures Valid()
      ensures fromConcat ==> unchanged(this)
      ensures !fromConcat ==> Snapshot() == Durations(old(Snapshot()), ns, bytes)
    {
      ns, bytes := -1, -1;
      if !fromConcat {
        ns, bytes := UpdateDurations();
      }
    }

    /** The periodic update is due: a pipeline that is playing, and a callback that wants it. */
    predicate TickDue()
      reads this
    {
      hasPipeline && state == Playing && (callbacks.positionUpdated || callbacks.mediaAboutToEnd)
    }

    /**
     * The about-to-end callback is due at `position`: not yet called for this
     * media, registered, a current stream, a known duration, and less than the
     * threshold left to play.
     */
    predicate AboutToEndDue(position: int)
      reads this
    {
      !blockAboutToEnd && callbacks.mediaAboutToEnd && current != null && durationNs != -1 &&
      durationNs - position < needsNextMediaTime
    }

    /**
     * The periodic update while playing: the position callback gets the
     * position the engine reported, and the about-to-end callback runs once
     * per media when the remaining time drops below the threshold; the block
     * flag keeps it from running again until the next stream start. The
     * results are the engine's answer to the position query.
     */
    method TimeoutTick() returns (succeeded: bool, position: int)
      requires Valid()
      modifies this`notes, this`blockAboutToEnd
      ensures Valid()
      ensures !TickDue() ==> unchanged(this)
      ensures TickDue() ==>
                var fires := succeeded && old(AboutToEndDue(position));
                blockAboutToEnd == (old(blockAboutToEnd) || fires) &&
                notes == old(notes) +
                         (if succeeded && callbacks.positionUpdated then [PositionUpdated(position)] else []) +
                         (if fires then [MediaAboutToEnd(current.media, current.token)] else [])
    {
      succeeded, position := false, -1;
      if TickDue() {
        succeeded := *;
        position := *;
        if succeeded {
          if callbacks.positionUpdated {
            notes := notes + [PositionUpdated(position)];
          }
          if AboutToEndDue(position) {
            blockAboutToEnd := true;
            notes := notes + [MediaAboutToEnd(current.media, current.token)];
          }
        }
      }
    }
  }

  /** The token handed out by the `calls`-th call after the counter stood at `start`. */
  function TokenAfter(start: nat, calls: nat): (token: nat)
    ensures token < Uint64Limit
  {
    (start + calls) % Uint64Limit
  }

  /** One more call hands out the following token. */
  lemma TokenAfterStep(start: nat, calls: nat)
    ensures TokenAfter(TokenAfter(start, calls), 1) == TokenAfter(start, calls + 1)
  {
    var a := start + calls;
    var q := a / Uint64Limit;
    assert a == q * Uint64Limit + TokenAfter(start, calls);
    assert a + 1 == q * Uint64Limit + (TokenAfter(start, calls) + 1);
  }

  /** Fewer than 2^64 calls apart, two tokens differ: tokens are unique until the counter wraps. */
  lemma TokensDistinct(start: nat, i: nat, j: nat)
    requires i < j < Uint64Limit
    ensures TokenAfter(start, i) != TokenAfter(start, j)
  {
    var a, b := start + i, start + j;
    var qa, qb := a / Uint64Limit, b / Uint64Limit;
    assert a == qa * Uint64Limit + TokenAfter(start, i);
    assert b == qb * Uint64Limit + TokenAfter(start, j);
  }
}
