# nxplay playback core in Dafny

nxplay is a C++ media playback library built on GStreamer, together with a
small command-line player. This project models its core and proves
properties of the model:

- **The playback controller** (`MainPipeline.Controller`). This is the
  `main_pipeline` state machine, with seven states.
  - Play, pause, seek and stop requests act at once, or wait in the single
    postponed slot while a transition is under way.
  - The media engine's bus messages (stream start, end of stream, state
    changed, error, buffering, duration changed, request state) are event
    methods on the same object, and so is the end-of-stream pad probe that
    hands playback over to the next stream.
  - The engine is abstract. Each answer it gives is left open by the model:
    whether a state change, a seek or a query succeeded, and whether a
    pipeline could be built.
  - The model records the controller's calls into the engine in
    `engineCalls`, and the user callbacks it invokes in `notes`.
- **Playback data** (`PipelineStates`, `PipelineData`, `Media`):
  - the state and position-unit enumerations and state names;
  - streams, each a media with the token it was scheduled under;
  - the postponed task;
  - the buffering hysteresis;
  - the media value type, a URI plus an opaque payload, which is valid
    exactly when the URI is non-empty.
- **The command-line player's line tokenizer** (`Tokenizer`). It splits at
  unescaped whitespace, cuts out quoted sections, then removes escaping
  backslashes.
- **Tag lists** (`TagLists`):
  - the null-pointer rules of the tag list wrapper;
  - its lookups;
  - `calculate_new_tags`, the difference of two tag lists.
- **Smaller pieces**:
  - the scope guard (`ScopeGuards`);
  - the reference-counted engine initialisation (`InitGStreamer`);
  - the software volume control (`SoftVolumeControl`);
  - log level names and the column counters of the standard-error log writer
    (`Log`).

Each source file that updates state in place becomes a class, whose methods
carry `modifies` clauses. The controller's fields are also gathered in a
record, `PipelineData.Snap`. Each controller operation is a function or
predicate on that record, and the method's `ensures` ties the record after
the call to that function of the record before it. So every field a method
may change is stated, up to the engine's answers, which stay open. Where a
contract says less than the source does, a line under "Left out" that starts
with the member's name says what is missing. Pure code becomes functions and
lemmas.

The controller keeps one invariant, `Controller.Valid`:

- the pending engine state is always "void pending";
- the stopping state is never entered;
- without a pipeline there are no streams, and the per-pipeline values are
  at their initial settings;
- when idle, there is neither a current nor a next stream;
- every stream holds a valid media;
- the token counter fits 64 bits.

Where the design documents and the code disagree, the model follows the
code:

- The stopping state is documented but never entered by
  `nxplay/main_pipeline.cpp`, so `Valid` excludes it.
- `nxplay/main_pipeline.hpp` declares members the `.cpp` does not implement,
  and lacks the old-streams queue the `.cpp` uses. The model follows the
  `.cpp`.

## Model

| member | source | states |
|---|---|---|
| Media.Default | nxplay/media.cpp:18-21 | the default media has no URI and no payload and is never valid |
| Media.FromUri | nxplay/media.cpp:38-41 | the media reports exactly the given URI, carries no payload, and is valid iff the URI is non-empty |
| Media.FromUriAndPayload | nxplay/media.cpp:44-55 | the media reports exactly the given URI and payload, and is valid iff the URI is non-empty |
| Media.Copy | nxplay/media.cpp:24-28 | copy construction and copy assignment give a media with the same URI and payload, valid exactly when the source is |
| Media.Moved | nxplay/media.cpp:31-35 | move construction and move assignment hand over the URI and payload, valid exactly when the source is |
| Media.CopyIsMove | nxplay/media.cpp:58-71 | copying and moving give the same value, equal to the source |
| PipelineStates.Ordinal | nxplay/pipeline.hpp:33-55 | each of the seven states has an enumerator value below seven |
| PipelineStates.StateName | nxplay/pipeline.cpp:17-30 | a state's name is never "&lt;invalid&gt;" and never empty |
| PipelineStates.StateNameInjective | nxplay/pipeline.cpp:21-27 | distinct states have distinct names, so the name identifies the state |
| PipelineStates.InvalidNameOnlyOutsideEnum | nxplay/pipeline.cpp:17-30 | "&lt;invalid&gt;" is the name of exactly the values outside the enumeration |
| PipelineData.ToClockTime | nxplay/main_pipeline.hpp:498-503 | a signed position stored in the unsigned seek target: non-negative values are kept, and -1 is exactly the value that becomes the engine's "no time" marker |
| PipelineData.Stream.constructor | nxplay/main_pipeline.cpp:120-123 | a new stream holds the given token and media and is not buffering |
| PipelineData.Stream.SetBuffering | nxplay/main_pipeline.cpp:248-251 | the buffering flag becomes the given value |
| PipelineData.Stream.GetToken | nxplay/main_pipeline.cpp:230-233 | the token the stream was created with; it is a constant field |
| PipelineData.Stream.GetMedia | nxplay/main_pipeline.cpp:236-239 | the media the stream was created with; it is a constant field |
| PipelineData.Stream.IsBuffering | nxplay/main_pipeline.cpp:254-257 | the stream's current buffering flag |
| PipelineData.Releases | nxplay/main_pipeline.cpp:555-566 | destroying a queue of streams makes one release call per stream |
| PipelineData.ReleasesAppend | nxplay/main_pipeline.cpp:555-566 | releasing one more stream of the queue appends exactly its release call |
| PipelineData.ReleaseOf | nxplay/main_pipeline.cpp:757-779 | dropping a stream pointer releases a stream exactly when the pointer is not null |
| PipelineData.Hysteresis | nxplay/main_pipeline.cpp:1567-1583 | at 20% or less the stream is buffering, at 100% or more it is not, and in between the flag is kept |
| PipelineData.HysteresisChanges | nxplay/main_pipeline.cpp:1567-1583 | the buffering flag changes iff it is off and the level is at most 20%, or it is on and the level is at least 100%; between the marks it never changes |
| MainPipeline.Controller.TransitioningExactlyInTransitionalStates | nxplay/main_pipeline.cpp:451-463 | under the invariant, the controller is transitioning exactly in starting, seeking and buffering, since the pending engine state never leaves "void pending" and stopping is never entered |
| MainPipeline.Controller.IsTransitioning | nxplay/main_pipeline.cpp:451-463 | transitioning in starting, stopping, seeking and buffering, and in any other state while an engine state change is pending |
| MainPipeline.Controller.ResumeGuardNeverFires | nxplay/main_pipeline.cpp:875-895 | the "already playing" test of a resume request never decides anything: resuming is ignored exactly without a pipeline or when idle |
| MainPipeline.Controller.constructor | nxplay/main_pipeline.cpp:288-313 | a new controller is idle, keeps the invariant, has no pipeline, streams or postponed request, starts tokens at 0 and holds the initial durations (-1) |
| MainPipeline.Controller.GetNewToken | nxplay/main_pipeline.cpp:337-341 | returns the counter's value and advances the unsigned 64-bit counter by one, wrapping at 2^64 |
| MainPipeline.Controller.IsPaused | nxplay/main_pipeline.cpp:358-362 | under the invariant a paused controller is not transitioning, so requests made while paused act at once |
| MainPipeline.Controller.GetCurrentState | nxplay/main_pipeline.cpp:372-376 | under the invariant the reported state is never stopping |
| MainPipeline.Controller.GetDuration | nxplay/main_pipeline.cpp:399-411 | under the invariant the duration is -1 in either unit when there is no pipeline |
| MainPipeline.TokenAfter | nxplay/pipeline.hpp:192-196 | every token fits the unsigned 64-bit counter |
| MainPipeline.TokenAfterStep | nxplay/main_pipeline.cpp:337-341 | one more call hands out the next token of the wrapping counter |
| MainPipeline.TokensDistinct | nxplay/pipeline.hpp:192-196 | tokens handed out fewer than 2^64 calls apart are distinct |
| MainPipeline.Controller.GetCurrentPosition | nxplay/main_pipeline.cpp:386-396 | the position is -1 without a pipeline or when idle |
| MainPipeline.Controller.SetVolume | nxplay/main_pipeline.cpp:415-420 | the volume goes to the volume interface if there is one, and is ignored otherwise |
| MainPipeline.Controller.GetVolume | nxplay/main_pipeline.cpp:423-430 | without a volume interface the volume is 1.0 |
| MainPipeline.Controller.SetMuted | nxplay/main_pipeline.cpp:433-438 | the mute flag goes to the volume interface if there is one, and is ignored otherwise |
| MainPipeline.Controller.IsMuted | nxplay/main_pipeline.cpp:441-448 | without a volume interface the pipeline is not muted |
| MainPipeline.Controller.SetState | nxplay/main_pipeline.cpp:792-799 | the state becomes the new one and the state-changed callback, if registered, gets the old and the new state (Entered); nothing else changes |
| MainPipeline.Controller.SetGstState | nxplay/main_pipeline.cpp:466-491 | asking for the state the pipeline is already in succeeds without an engine call; otherwise exactly one state-change call is made; nothing else changes |
| MainPipeline.Controller.HandlePostponed | nxplay/main_pipeline.cpp:494-529 | with nothing postponed nothing changes. Otherwise the slot is emptied first, then the task runs. A play is replayed with play-now set and starts the media. A stop, pause or seek is ignored or postponed again under the same conditions as the original request, and otherwise stops, requests PAUSED or PLAYING, or starts or performs the seek. A set-state task goes to the engine. Afterwards the slot is empty unless the task was postponed again while transitioning |
| MainPipeline.Controller.RunPostponedPlay | nxplay/main_pipeline.cpp:501-504 | the slot is emptied and the postponed play runs as a play-now request, starting the media unless a transition postpones it again |
| MainPipeline.Controller.RunPostponedStop | nxplay/main_pipeline.cpp:506-509 | the slot is emptied and the postponed stop runs: ignored without a pipeline or when idle, postponed again while transitioning, otherwise the pipeline goes idle and is gone |
| MainPipeline.Controller.RunPostponedPause | nxplay/main_pipeline.cpp:511-514 | the slot is emptied and the postponed pause or resume runs: ignored as the request would be, postponed again while transitioning, otherwise PAUSED or PLAYING is requested |
| MainPipeline.Controller.RunPostponedSeek | nxplay/main_pipeline.cpp:516-519 | the slot is emptied and the postponed seek runs: ignored without a pipeline or when idle, postponed again while transitioning, otherwise started from playing or performed from paused |
| MainPipeline.Controller.SetupStream | nxplay/main_pipeline.cpp:532-552 | a new stream for the token and media, not buffering |
| MainPipeline.Controller.CleanupOldStreams | nxplay/main_pipeline.cpp:555-566 | the retired-stream queue is drained, releasing every stream oldest first |
| MainPipeline.Controller.SetInitialStateValues | nxplay/main_pipeline.cpp:782-789 | the engine state is NULL, nothing is pending, both durations are -1 and the about-to-end block is lifted |
| MainPipeline.Controller.SetPipelineToIdle | nxplay/main_pipeline.cpp:757-779 | the new snapshot is Idled: the pipeline is set to NULL; the current, next and retired streams are released in that order; idle is announced if asked for; the initial values are back; nothing else changes |
| MainPipeline.Controller.Idled | nxplay/main_pipeline.cpp:757-779 | no streams remain and the pipeline is at NULL; the state is idle when announced and unchanged otherwise; the postponed slot and the pipeline flag are untouched |
| MainPipeline.Controller.ShutDown | nxplay/main_pipeline.cpp:710-744 | without a pipeline nothing changes. With one, the postponed request is cancelled, no streams remain, the pipeline is set to NULL and is then gone with its volume interface, and the state is idle only when announced |
| MainPipeline.Controller.Initialized | nxplay/main_pipeline.cpp:623-707 | a pipeline exists exactly when the engine built it, and then the controller is idle; without a pipeline there is no volume interface |
| MainPipeline.Controller.Reinited | nxplay/main_pipeline.cpp:747-754 | a pipeline exists exactly when the engine built it; then the controller is idle, and otherwise it keeps its state; an existing pipeline's postponed request is cancelled |
| MainPipeline.Controller.ReleasePipeline | nxplay/main_pipeline.cpp:761-768 | the pipeline is set to NULL, then the current, next and retired streams are released in that order and all stream slots are empty; nothing else changes |
| MainPipeline.Controller.AnnounceIdle | nxplay/main_pipeline.cpp:770-771 | with no streams left, idle is entered and announced only when asked for; otherwise state and callbacks are untouched |
| MainPipeline.Controller.Shutdown | nxplay/main_pipeline.cpp:710-744 | without a pipeline nothing changes; otherwise postponed requests are cancelled, the pipeline goes idle, and pipeline and volume interface are gone |
| MainPipeline.Controller.Initialize | nxplay/main_pipeline.cpp:623-707 | an existing pipeline is shut down first (announcing idle); success means a pipeline exists and the controller is idle with no streams and initial values |
| MainPipeline.Controller.Reinit | nxplay/main_pipeline.cpp:747-754 | a shutdown without announcement followed by initialisation: either way no streams remain and the initial values are back, and the new snapshot is Reinited: the controller is idle when the new pipeline exists and otherwise keeps its state |
| MainPipeline.Controller.Destroy | nxplay/main_pipeline.cpp:316-326 | destruction shuts the pipeline down announcing idle, leaving no pipeline and no streams |
| MainPipeline.Controller.PlayMedia | nxplay/main_pipeline.cpp:802-872 | the request acts at once iff the state is idle, play-now is set or the current token matches. Acting at once, invalid media returns false and changes nothing, and while transitioning it takes the postponed slot and returns true. Otherwise the media starts. A queued media replaces the next stream whatever its token, and invalid media still drops the old next stream |
| MainPipeline.Controller.StartMedia | nxplay/main_pipeline.cpp:827-855 | the outcome is StartedMedia. The pipeline is rebuilt without announcing idle. If that fails, the controller keeps its state, announces nothing and has neither pipeline nor streams. Otherwise the stream starts as StreamStarted says, and a new current stream is none of the old streams. The result says whether a current stream is left |
| MainPipeline.Controller.StartStream | nxplay/main_pipeline.cpp:834-854 | the outcome is StreamStarted. The next stream is released, starting is announced, a fresh current stream holds the token and media, PAUSED is requested, and nothing else changes. If that request fails, the pipeline is rebuilt, releasing the new stream without announcing idle: with a new pipeline the controller announces starting to idle and is idle; without one it stays starting with no pipeline. The result is true exactly when a current stream is left |
| MainPipeline.Controller.BeginStream | nxplay/main_pipeline.cpp:834-845 | the new snapshot is StreamBegun with a fresh current stream for the token and media: the next stream released, starting announced, PAUSED requested, nothing else changed |
| MainPipeline.Controller.DropNextAndStart | nxplay/main_pipeline.cpp:834-838 | the next stream is released and the slot emptied, then starting is entered and announced; nothing else changes |
| MainPipeline.Controller.StreamBegun | nxplay/main_pipeline.cpp:834-845 | the controller is starting with no next stream, the same postponed slot and the same pipeline; the old engine calls are kept and extended by at most a release and a PAUSED request; PAUSED is the last call unless the pipeline is already paused |
| MainPipeline.Controller.QueueNext | nxplay/main_pipeline.cpp:857-869 | the old next stream is released whatever its token; a valid media becomes the next stream and the call succeeds, an invalid one leaves no next stream; state and current stream are untouched |
| MainPipeline.Controller.PlayMediaCopy | nxplay/pipeline.cpp:38-42 | the copying overload has exactly the outcome of the play request with the same token, media and flag |
| MainPipeline.Controller.PlayMediaMove | nxplay/pipeline.cpp:45-48 | the moving overload has exactly the outcome of the play request with the same arguments |
| MainPipeline.Controller.SetPaused | nxplay/main_pipeline.cpp:875-895 | ignored without a pipeline, when idle or when pausing an already paused pipeline; postponed (replacing any postponed request) while transitioning; otherwise PAUSED or PLAYING is requested |
| MainPipeline.Controller.PauseApplied | nxplay/main_pipeline.cpp:875-895 | only the postponed slot and the engine calls can change. The slot changes only while transitioning, to the pause task, with no engine call. An engine call is made only when not transitioning, and it is the one request for PAUSED or PLAYING |
| MainPipeline.Controller.PauseIgnored | nxplay/main_pipeline.cpp:879-884 | a pause or resume request is always ignored without a pipeline or when idle |
| MainPipeline.Controller.SetCurrentPosition | nxplay/main_pipeline.cpp:898-941 | the outcome is Positioned. The request is ignored without a pipeline or when idle, and postponed while transitioning with nothing else changed. From playing, seeking is entered and PAUSED requested. From paused the seek is performed at once (SeekPerformed), which re-enters paused and runs the postponed request. Afterwards the slot holds what it did, or is empty, or the controller is transitioning |
| MainPipeline.Controller.StartSeek | nxplay/main_pipeline.cpp:912-940 | from playing the new snapshot is SeekEntered plus a PAUSED request. From paused the outcome is SeekPerformed after SeekEntered: a successful seek enters paused and runs the postponed request (RanPostponed) |
| MainPipeline.Controller.EnterSeeking | nxplay/main_pipeline.cpp:919-925 | remembers whether the seek started from paused, the target as an unsigned clock time and the unit, then enters seeking and announces it |
| MainPipeline.Controller.SeekEntered | nxplay/main_pipeline.cpp:919-925 | the controller is seeking, hence transitioning, with the same postponed slot, engine calls and current stream |
| MainPipeline.Controller.FinishSeeking | nxplay/main_pipeline.cpp:1013-1052 | the outcome is SeekPerformed. The seek is asked of the engine, and a failed seek changes nothing else. A successful one clears the target. From paused it then enters paused and runs the postponed request (RanPostponed); from playing it requests PLAYING |
| MainPipeline.Controller.Stop | nxplay/main_pipeline.cpp:944-961 | ignored without a pipeline, when idle or stopping; postponed while transitioning; otherwise the pipeline shuts down to idle with no streams and no postponed request |
| MainPipeline.Controller.Stopped | nxplay/main_pipeline.cpp:944-961 | while a pipeline is left, the snapshot is unchanged or only the stop task was postponed; a stop that removes the pipeline leaves the controller idle with no streams and nothing postponed |
| MainPipeline.Controller.QueryDuration | nxplay/main_pipeline.cpp:964-972 | the duration is -1 without a pipeline or when idle |
| MainPipeline.Controller.UpdateDurations | nxplay/main_pipeline.cpp:975-1010 | the new snapshot is Durations with the engine's answers, which are -1 without a pipeline or when idle: the cache is written and a change reported only when a duration callback is registered |
| MainPipeline.Controller.DurationNotes | nxplay/main_pipeline.cpp:975-1010 | with a duration callback registered, a unit's change is reported exactly when the answer differs from the cached value; without one nothing is reported |
| MainPipeline.Controller.Durations | nxplay/main_pipeline.cpp:975-1010 | only the durations and the notes change; the cache takes the answers exactly when a duration callback is registered, and the notes grow by DurationNotes |
| MainPipeline.Controller.RecheckBuffering | nxplay/main_pipeline.cpp:1055-1087 | the new snapshot is BufferingRechecked: playing and buffering enters the buffering state and asks for PAUSED; buffering state and no longer buffering asks for PLAYING; nothing else changes |
| MainPipeline.Controller.BufferingRechecked | nxplay/main_pipeline.cpp:1055-1087 | only the state, the notes and the engine calls change; the state becomes buffering exactly when it was buffering or the stream buffers while playing, and only that change is announced |
| MainPipeline.Controller.StreamEosProbe | nxplay/main_pipeline.cpp:586-600 | the finished current stream is retired, the next one becomes current and the next slot is empty |
| MainPipeline.Controller.OnCleanup | nxplay/main_pipeline.cpp:1182-1197 | the retired streams are all released, oldest first |
| MainPipeline.Controller.OnStreamStart | nxplay/main_pipeline.cpp:1199-1236 | the about-to-end block is lifted. With a current stream the new snapshot is StartAnnounced: the durations are updated with the engine's answers, the media-started callback runs, buffering is rechecked, and nothing else changes. Without one the pipeline is rebuilt (Reinited) and both results are -1 |
| MainPipeline.Controller.AnnounceStart | nxplay/main_pipeline.cpp:1211-1226 | the new snapshot is StartAnnounced for the current stream's buffering flag and the engine's duration answers |
| MainPipeline.Controller.StartAnnounced | nxplay/main_pipeline.cpp:1199-1236 | the streams and the postponed slot are kept; a buffering stream turns playing into buffering and every other state is kept; the notes only grow, and the media-started callback, if registered, gets the current media and token among the new notes |
| MainPipeline.Controller.OnEndOfStream | nxplay/main_pipeline.cpp:1238-1267 | a next media is played now (PlayedNow), which postpones it while transitioning. Without a next stream the stop request runs (Stopped): it is ignored, postponed as a stop task while transitioning, or shuts the pipeline down to idle. Either way the end-of-stream callback, if registered, is then invoked at once |
| MainPipeline.Controller.OnError | nxplay/main_pipeline.cpp:1511-1525 | the error callback runs first, then the pipeline is rebuilt: no streams, no postponed request, initial durations, and idle if the rebuild succeeded |
| MainPipeline.Controller.OnBuffering | nxplay/main_pipeline.cpp:1527-1591 | the reporting stream's flag follows the hysteresis. For the current stream: starting to buffer while playing enters buffering, announces it and requests PAUSED; finishing buffering in the buffering state requests PLAYING; no other engine call is made. A report on the next stream changes no state and makes no engine call. The callback gets the stream's media, token and whether it is current. Reports from other elements change nothing |
| MainPipeline.Controller.ApplyBufferingLevel | nxplay/main_pipeline.cpp:1567-1583 | the stream's flag follows the hysteresis and the result says whether it changed |
| MainPipeline.Controller.OnStateChanged | nxplay/main_pipeline.cpp:1269-1476 | messages from other elements and those with a NULL pending state change nothing. Otherwise the engine state is recorded and the controller follows it: starting as FollowedFromStarting, seeking as FollowedFromSeeking, buffering as FollowedFromBuffering, and playing and paused as FollowedFromSettled. Reaching paused or playing runs the postponed request. Idle changes nothing else. The results are the durations queried when starting reaches PAUSED, and -1 otherwise |
| MainPipeline.Controller.FollowGstState | nxplay/main_pipeline.cpp:1316-1466 | each controller state follows the new engine state as its FollowedFrom predicate says, idle and the other states change nothing, and the results are -1 except when starting reaches PAUSED |
| MainPipeline.Controller.FollowFromStarting | nxplay/main_pipeline.cpp:1318-1363 | at READY the volume interface is found and nothing else changes. At PAUSED the durations are updated and reported as the update does, then the controller becomes buffering when the current stream buffers and otherwise paused, requesting PLAYING. At PLAYING it becomes playing. Leaving starting is announced |
| MainPipeline.Controller.FollowedFromStarting | nxplay/main_pipeline.cpp:1318-1363 | the streams, the postponed slot and the engine state are kept. The state becomes playing at PLAYING, buffering or paused at PAUSED according to the stream's flag, and is kept otherwise. The volume interface is found at READY. The durations change only at PAUSED |
| MainPipeline.Controller.ReachPausedFromStarting | nxplay/main_pipeline.cpp:1329-1351 | the durations are queried and cached and reported when a duration callback is registered; then buffering or paused is entered and announced, and PLAYING is requested unless the stream buffers |
| MainPipeline.Controller.LeaveStartingAtPaused | nxplay/main_pipeline.cpp:1339-1349 | a buffering current stream makes the controller buffering; otherwise it becomes paused and requests PLAYING; the change from starting is announced |
| MainPipeline.Controller.StartingLeftAtPaused | nxplay/main_pipeline.cpp:1339-1349 | only the state, the notes and the engine calls change; the state is buffering when the stream buffers and paused otherwise, and the change from starting is announced |
| MainPipeline.Controller.FollowFromSeeking | nxplay/main_pipeline.cpp:1365-1395 | the outcome is FollowedFromSeeking. At PAUSED from another engine state with a target set the seek is performed (SeekPerformed). At PLAYING playing is entered and the postponed request runs (RanPostponed). Anything else changes nothing |
| MainPipeline.Controller.FollowFromBuffering | nxplay/main_pipeline.cpp:1397-1429 | the outcome is FollowedFromBuffering. At PAUSED only PLAYING is requested, and only when the current stream exists and no longer buffers. At PLAYING playing is entered and the postponed request runs (RanPostponed). Other engine states change nothing |
| MainPipeline.Controller.FollowFromSettled | nxplay/main_pipeline.cpp:1431-1462 | the outcome is FollowedFromSettled. PLAYING makes a paused controller playing and PAUSED makes a playing controller paused; the change is announced and the postponed request runs (RanPostponed). An engine state equal to the current one, or any other engine state, leaves the snapshot unchanged |
| MainPipeline.Controller.Settle | nxplay/main_pipeline.cpp:1379-1460 | the settled state is entered and announced, then the postponed request runs (RanPostponed); afterwards the slot is empty |
| MainPipeline.Controller.SettlingEmptiesSlot | nxplay/pipeline.hpp:142-144 | once a transition ends in playing or paused and the postponed request has run, the slot is empty: a request that waited for the transition runs then and is not postponed again |
| MainPipeline.Controller.StartedMediaEmptiesSlot | nxplay/main_pipeline.cpp:827-855 | starting a media with an empty slot leaves it empty, whichever rebuild outcome occurs |
| MainPipeline.Controller.SeekFromSettledEmptiesSlot | nxplay/main_pipeline.cpp:898-941 | a seek made from playing or paused with an empty slot leaves it empty, the seek from paused that re-enters paused included |
| MainPipeline.Controller.OnRequestState | nxplay/main_pipeline.cpp:1616-1636 | the requested state is postponed, replacing any postponed request, while transitioning, and passed to the engine otherwise |
| MainPipeline.Controller.OnDurationChanged | nxplay/main_pipeline.cpp:1593-1606 | a message from the concat element changes nothing. Any other one queries both durations; with a duration callback registered the cache takes the answers and the change is reported, and without one the cache and the callbacks are untouched |
| MainPipeline.Controller.TimeoutTick | nxplay/main_pipeline.cpp:1098-1138 | nothing happens unless there is a pipeline, the controller is playing and a position or about-to-end callback is registered. Then a successful position query gives the position to the position callback. The about-to-end callback gets the current media and token exactly when the query succeeded, the block is down, the callback is registered, there is a current stream, the duration is known and the time left is below the threshold. The block is raised exactly then |
| Tokenizer.FindDelimiter | cmdline-player/tokenizer.cpp:29 | the result is the first whitespace, quote or backslash at or after the start, or the line length when there is none |
| Tokenizer.FindChar | cmdline-player/tokenizer.cpp:102 | the result is the first occurrence of the character at or after the start, or the line length |
| Tokenizer.ClosingQuote | cmdline-player/tokenizer.cpp:97-124 | the result is the first quote at or after the search start that is not preceded by a backslash; the line length when the search runs off the end; none when no such quote remains |
| Tokenizer.FindClosingQuote | cmdline-player/tokenizer.cpp:97-124 | the nested search loop finds exactly the closing quote the search function defines |
| Tokenizer.UnescapeAll | cmdline-player/tokenizer.cpp:142-170 | the second pass keeps the number of tokens and unescapes each one |
| Tokenizer.UnescapeToken | cmdline-player/tokenizer.cpp:145-169 | erasing backslashes in place gives exactly the unescaped token |
| Tokenizer.ScanStep | cmdline-player/tokenizer.cpp:26-139 | one iteration of the first pass: when the loop goes on it keeps start at most cur and strictly advances cur, and every piece it emits is non-empty |
| Tokenizer.Scan | cmdline-player/tokenizer.cpp:20-140 | from any state of the first pass's loop, every emitted piece is non-empty |
| Tokenizer.Tokenize | cmdline-player/tokenizer.cpp:17-176 | every token of every line is non-empty, under either backslash rule |
| Tokenizer.UnescapeAllKeepsNonEmpty | cmdline-player/tokenizer.cpp:142-170 | the second pass keeps every non-empty token non-empty |
| Tokenizer.ScanIteration | cmdline-player/tokenizer.cpp:26-139 | one iteration of the first pass's loop, as written; when the loop goes on it keeps start at most cur and strictly advances cur |
| Tokenizer.FirstPass | cmdline-player/tokenizer.cpp:20-140 | the loop emits exactly the raw tokens of the first pass |
| Tokenizer.TokenizeLine | cmdline-player/tokenizer.cpp:17-176 | the tokens are those of both passes, and every token is non-empty |
| Tokenizer.EmptyLineHasNoTokens | cmdline-player/tokenizer.cpp:17-18 | an empty line gives no tokens |
| Tokenizer.PlainLineIsOneToken | cmdline-player/tokenizer.cpp:29-37 | a non-empty line without whitespace, quotes or backslashes is one token, the line itself |
| Tokenizer.WhitespaceSeparatesWords | cmdline-player/tokenizer.cpp:71-80 | two plain words separated by a run of unescaped blanks and tabs, of any length, are exactly two tokens, with no empty token for the run |
| Tokenizer.ScanSkipsWhitespace | cmdline-player/tokenizer.cpp:71-80 | when the current token is empty, a run of whitespace emits nothing: the first pass goes on after the run exactly as if it had started there |
| Tokenizer.QuotedSectionIsOneToken | cmdline-player/tokenizer.cpp:81-138 | a quoted section is one token without its quotes, whitespace included |
| Tokenizer.EmptyQuotesProduceNothing | cmdline-player/tokenizer.cpp:133-137 | a pair of quotes with nothing between them gives no token |
| Tokenizer.TextBeforeQuoteIsSeparate | cmdline-player/tokenizer.cpp:92-95 | text right before an opening quote is a token of its own, followed by the quoted token |
| Tokenizer.UnterminatedQuoteTakesRest | cmdline-player/tokenizer.cpp:127-131 | an unterminated quote makes the rest of the line the final token |
| Tokenizer.ClosingQuoteSkipsEscaped | cmdline-player/tokenizer.cpp:111-123 | the closing-quote search skips a quote preceded by a backslash |
| Tokenizer.EscapedQuoteStaysInside | cmdline-player/tokenizer.cpp:99-132 | a backslash-escaped quote does not close a quoted section, and the second pass drops its backslash |
| Tokenizer.UnescapeEscapedQuote | cmdline-player/tokenizer.cpp:156-164 | an escaped quote becomes a plain quote |
| Tokenizer.UnescapeKeepsNonEmpty | cmdline-player/tokenizer.cpp:147-169 | the second pass never lengthens a token and keeps a non-empty token non-empty |
| Tokenizer.UnescapePlainPrefix | cmdline-player/tokenizer.cpp:147-169 | a prefix without backslashes passes through the second pass unchanged |
| Tokenizer.UnescapeWithoutBackslash | cmdline-player/tokenizer.cpp:147-169 | a token without backslashes is unchanged |
| Tokenizer.UnescapeEscapedPair | cmdline-player/tokenizer.cpp:156-164 | a backslash and the character after it become that character |
| Tokenizer.UnescapeExample | cmdline-player/tokenizer.cpp:159-161 | the documented example: an escaped quote becomes a quote and a doubled backslash becomes one backslash |
| Tokenizer.Unescape | cmdline-player/tokenizer.cpp:145-169 | the second pass on a token removes escaping backslashes; its properties are the Unescape lemmas below |
| Tokenizer.EscapedBackslashJoinsAsWritten | cmdline-player/tokenizer.cpp:46-58 | as written, `a\\ b` stays one token `a\ b` |
| Tokenizer.EscapedBackslashEndsWordWithSkipTwo | cmdline-player/tokenizer.cpp:48 | always skipping two characters after a backslash makes `a\\ b` the two tokens `a\` and `b` |
| TagLists.IndexOf | nxplay/tag_list.cpp:124-142 | the position of the first tag with that name, or the list length when there is none |
| TagLists.Lookup | nxplay/tag_list.cpp:124-142 | none exactly when no tag has the name; otherwise the values of the first tag with that name |
| TagLists.LookupIs | nxplay/tag_list.cpp:124-142 | with unique names, the lookup of a tag's name gives that tag's values |
| TagLists.LookupAbsent | nxplay/tag_list.cpp:124-142 | a name no tag carries has no values |
| TagLists.TagList.Null | nxplay/tag_list.cpp:17-20 | the default wrapper holds a null pointer |
| TagLists.TagList.Adopt | nxplay/tag_list.cpp:39-42 | the wrapper takes the given pointer without copying |
| TagLists.TagList.CopyOf | nxplay/tag_list.cpp:23-29 | a null source gives a null wrapper; otherwise a new engine list with the same tags |
| TagLists.TagList.Moved | nxplay/tag_list.cpp:32-36 | move construction takes the source's pointer and leaves the source null |
| TagLists.TagList.CopyAssign | nxplay/tag_list.cpp:52-63 | this ends up with a new copy of the source's tags, or null when the source is null |
| TagLists.TagList.MoveAssign | nxplay/tag_list.cpp:66-71 | the source is left null and this takes its old pointer; moving into itself leaves it null |
| TagLists.TagList.IsEmpty | nxplay/tag_list.cpp:80-83 | a wrapper with a null pointer is empty |
| TagLists.EmptyMeansNoValues | nxplay/tag_list.cpp:80-83 | a wrapper is empty exactly when no name has values in it |
| TagLists.TagList.Insert | nxplay/tag_list.cpp:86-96 | inserting a list into itself or inserting a null list changes nothing; a null list is first replaced by a new empty one; the tags are merged in the given mode and the other list is unchanged |
| TagLists.Equals | nxplay/tag_list.cpp:99-109 | identical pointers are equal, and exactly one null pointer is unequal |
| TagLists.SameTagsIffSameLookups | nxplay/tag_list.cpp:105-108 | the engine's comparison holds exactly when every name has the same values in both lists |
| TagLists.EqualsMeansSameLookups | nxplay/tag_list.cpp:99-109 | two wrappers are equal exactly when both or neither are null and every name has the same values |
| TagLists.EqualsSymmetric | nxplay/tag_list.cpp:99-109 | equality of wrappers is symmetric |
| TagLists.AddRawValue | nxplay/tag_list.cpp:112-121 | an empty list is first replaced by a new one; the value is merged under its name in the given mode |
| TagLists.HasValue | nxplay/tag_list.cpp:124-128 | a name has a value only when some tag with that name carries values |
| TagLists.NumValuesForTag | nxplay/tag_list.cpp:131-135 | a non-zero count is the number of values of a tag with that name |
| TagLists.RawValue | nxplay/tag_list.cpp:138-142 | a value found is the value at that index of a tag with that name |
| TagLists.HasValueIff | nxplay/tag_list.cpp:124-128 | in a well-formed list a name has a value exactly when some tag carries it |
| TagLists.ValuesOfTagAt | nxplay/tag_list.cpp:124-135 | a tag of the list has a value and reports its own number of values |
| TagLists.RawValueOfTagAt | nxplay/tag_list.cpp:138-142 | a tag of the list reports its own value at each index, and none past its last value |
| TagLists.ValuesOfMissingTag | nxplay/tag_list.cpp:124-142 | a name no tag carries has no value, count 0 and no value at any index |
| TagLists.MergePreservesWellFormed | nxplay/tag_list.cpp:86-96 | merging two well-formed lists gives a well-formed list whatever the mode |
| TagLists.InsertIntoEmptyCopies | nxplay/tag_list.cpp:89-95 | inserting into a new empty list copies the other list in every mode but keep-all |
| TagLists.LookupAfterReplace | nxplay/tag_list.cpp:86-96 | merging with replace gives each name of the incoming list its incoming values and keeps all other names |
| TagLists.NewTagsMembers | nxplay/tag_list.cpp:201-250 | a tag is in the difference exactly when it is a tag of the other list that the reference lacks or stores with other values |
| TagLists.NewTagsWellFormed | nxplay/tag_list.cpp:209-246 | the difference of a well-formed list is well formed, so each name occurs once |
| TagLists.ApplyingNewTagsReproducesOther | nxplay/tag_list.cpp:201-250 | merging the difference into the reference with replace gives every tag of the other list its exact values |
| TagLists.ValuesEqual | nxplay/tag_list.cpp:225-241 | the loop's answer is true exactly when the values agree index by index |
| TagLists.TagUnchanged | nxplay/tag_list.cpp:220-241 | a tag needs no entry exactly when the reference stores the same values under its name |
| TagLists.AppendValues | nxplay/tag_list.cpp:245-246 | every value of the tag is appended in order, adding exactly that tag at the end |
| TagLists.AddIfChanged | nxplay/tag_list.cpp:213-247 | one round of the outer loop extends the difference by the next tag of the other list |
| TagLists.CalculateNewTags | nxplay/tag_list.cpp:201-250 | the result holds exactly the new or changed tags of the other list, in order; an empty other list gives a null list |
| ScopeGuards.RunsAppend | nxplay/scope_guard.hpp:40-44 | running one more rollback adds one to its count of runs |
| ScopeGuards.ScopeGuard.constructor | nxplay/scope_guard.hpp:34-38 | a new guard is armed with the given rollback |
| ScopeGuards.ScopeGuard.Moved | nxplay/scope_guard.hpp:46-51 | the new guard takes the rollback and the armed status, and the source is disarmed |
| ScopeGuards.ScopeGuard.Destroy | nxplay/scope_guard.hpp:40-44 | the rollback runs exactly once if the guard is armed, and not at all otherwise |
| ScopeGuards.ScopeGuard.Unguard | nxplay/scope_guard.hpp:62-65 | the guard is disarmed, however often this is called |
| ScopeGuards.ScopeGuard.MoveAssign | nxplay/scope_guard.hpp:53-59 | this takes the other's rollback and armed status and the other is disarmed |
| ScopeGuards.GuardedScope | nxplay/scope_guard.hpp:34-44 | an armed guard that goes out of scope runs its rollback once |
| ScopeGuards.UnguardedScope | nxplay/scope_guard.hpp:62-65 | a guard unguarded once or twice never runs its rollback |
| ScopeGuards.MovedScope | nxplay/scope_guard.hpp:46-51 | after a move, destroying source and destination runs the rollback once in all if the source was armed, and never if it had been unguarded |
| ScopeGuards.MoveAssignedScope | nxplay/scope_guard.hpp:53-59 | after a move assignment only the moved rollback runs; the overwritten one never does |
| InitGStreamer.Initializer.constructor | nxplay/init_gstreamer.cpp:23 | the count starts at 0 |
| InitGStreamer.Initializer.Init | nxplay/init_gstreamer.cpp:29-44 | the engine's init check runs only at count 0; a failed check returns false and leaves the count at 0; success adds exactly one |
| InitGStreamer.Initializer.Deinit | nxplay/init_gstreamer.cpp:47-59 | a zero count stays zero; otherwise it drops by one, and the engine is deinitialised exactly when it reaches zero |
| InitGStreamer.TwoUsers | nxplay/init_gstreamer.cpp:29-59 | with two users the engine is initialised once and deinitialised only after both let go |
| SoftVolumeControl.Control.constructor | nxplay/soft_volume_control.cpp:21-27 | a new control has volume 1.0, is not muted and has no elements |
| SoftVolumeControl.Control.Setup | nxplay/soft_volume_control.cpp:36-90 | on success the new volume element gets the stored volume and mute; on failure both pointers are null again |
| SoftVolumeControl.Control.Teardown | nxplay/soft_volume_control.cpp:93-97 | the elements are dropped and the stored settings stay |
| SoftVolumeControl.Control.SetVolume | nxplay/soft_volume_control.cpp:106-112 | the volume is stored and, while the element exists, passed on |
| SoftVolumeControl.Control.SetMuted | nxplay/soft_volume_control.cpp:121-127 | the mute flag is stored and, while the element exists, passed on |
| SoftVolumeControl.Control.GetVolume | nxplay/soft_volume_control.cpp:115-118 | the stored volume, whether or not the element exists |
| SoftVolumeControl.Control.IsMuted | nxplay/soft_volume_control.cpp:130-133 | the stored mute flag, whether or not the element exists |
| SoftVolumeControl.SettingsSurviveTeardown | nxplay/soft_volume_control.cpp:93-133 | settings made before setup, or that outlive a teardown, are reported by the getters and reach the element of the next successful setup |
| Log.LevelValue | nxplay/log.hpp:27-33 | each of the five levels has an enumerator value below five |
| Log.Blanks | nxplay/log.cpp:127-137 | the padding is exactly the requested number of blanks |
| Log.LevelNameOfValue | nxplay/log.cpp:125-151 | "unknown" is the name of exactly the values outside the enumeration, and every padded name is seven characters wide |
| Log.PaddedIsPlainPlusBlanks | nxplay/log.cpp:125-151 | a padded name is the plain name followed by blanks up to the common width |
| Log.LevelNamesDistinct | nxplay/log.cpp:139-150 | the five plain names are pairwise distinct and none is "unknown" |
| Log.Logger.constructor | nxplay/log.cpp:103-108 | the minimum level starts at info |
| Log.Logger.SetMinLogLevel | nxplay/log.cpp:177-186 | the minimum level becomes the given one, which the getter then reports |
| Log.Logger.GetMinLogLevel | nxplay/log.cpp:183-186 | the stored minimum level |
| Log.Logger.IsLogged | nxplay/log.hpp:103 | errors and messages at the minimum level are always logged, and trace messages only when the minimum is trace |
| Log.DecimalLength | nxplay/log.cpp:51-61 | a number takes at least one character |
| Log.StderrColumns.constructor | nxplay/log.cpp:36-75 | the seconds column starts 6 digits wide for a maximum of 10^6, with both columns and decay counters at 0 |
| Log.StderrColumns.LayoutLine | nxplay/log.cpp:36-75 | the width grows by 3 at most once per line, when the seconds reach the maximum; each column widens to a longer entry or is re-seeded when its decay counter runs out; the paddings never underflow; both counters stay within 0..99 |
| Log.MaxTimestampHasWidthDigits | nxplay/log.cpp:36-47 | the maximum timestamp is always 10 to the power of the column width |
| Log.DecimalLengthBelow | nxplay/log.cpp:36-47 | a number below 10^k takes at most k digits |
| Log.SecondsFitColumn | nxplay/log.cpp:36-47 | seconds below the current maximum fit the seconds column |

## Left out

- GStreamer graph construction and teardown are outside the model; only
  their success or failure is kept, as an open choice. This covers:
  - the element creation in `initialize_pipeline_nolock`;
  - the body of the stream constructor and destructor;
  - the new-pad callback and dot dumps;
  - reference counting of engine objects.
- `find_stream_volume_interface` is not modelled step by step. The volume
  interface is found when starting reaches READY, because its fallback, the
  pipeline's own volume element, always exists.
- The main-loop thread, the mutexes and the condition variable are not
  modelled. Requests and bus messages are sequential method calls on one
  object.
- Setting up and shutting down the periodic timeouts is timer plumbing.
  Only one tick of the timeout callback is modelled (`TimeoutTick`),
  including the once-per-media about-to-end block.
- The bus's TAG, INFO, WARNING and LATENCY messages and the new-tags
  callback are not modelled. The tag updates they trigger go through the tag
  list code, which is modelled on its own.
- The logging macros, `message_to_str` and the text written to standard
  error are not modelled. Only level names, the minimum level and the
  column counters are.
- Volume values are opaque reals that are stored and passed on. The volume
  format conversion of the engine's volume interface is not modelled.
- The engine's answers to state changes, seeks, queries and volume reads
  are nondeterministic choices. Asynchronous state changes arrive as later
  `OnStateChanged` calls.
- The typed `get_value` overloads and `to_string`/`from_string` of the tag
  lists are thin engine wrappers. `gst_value_compare` is modelled as
  equality of values.
- The engine's merge of a single tag is modelled by a merge function per
  mode. It is not taken from the engine's own code.
- The declarations in `nxplay/main_pipeline.hpp` that the `.cpp` does not
  implement are not modelled. These are the playback properties, the
  buffer settings, live and seekable status, and tag postponement.
- `cmdline-player/cmdline-player.cpp`, `nxplay/utility.hpp` and
  `nxplay/processing_object.cpp` are not part of this model. They are the
  interactive console, a one-line unref wrapper, and default no-ops.
- MainPipeline.Controller.SetPipelineToIdle: the source ends by handling
  the postponed request. Its only caller has just emptied the slot, so that
  step does nothing and is left out.
- MainPipeline.Controller.PlayMedia: queueing a valid media requires a
  pipeline. The source's stream constructor asserts that the pipeline's bin
  exists. The assertion can fail after a failed rebuild, which leaves the
  controller in a non-idle state without a pipeline. An invalid media is
  rejected before any stream is built, so that case needs no pipeline.
  The same holds for QueueNext, PlayMediaCopy and PlayMediaMove.
- MainPipeline.Controller.constructor: `needsNextMediaTime` is an unbounded
  integer. The cast of unsigned values of 2^63 or more to a signed 64-bit
  integer is not modelled, and neither is overflow of the engine's
  clock-difference arithmetic.
- MainPipeline.TokensDistinct: tokens are distinct only between calls fewer
  than 2^64 apart. The counter wraps around, so "strictly increasing" holds
  only below the wrap.
- MainPipeline.Controller.SetCurrentPosition: a position of -1 is stored as
  the engine's "no time" marker. The seeking branch of the state-changed
  handler then never performs that seek.
- MainPipeline.Controller.GetCurrentPosition,
  MainPipeline.Controller.QueryDuration, MainPipeline.Controller.GetVolume
  and MainPipeline.Controller.IsMuted: with a pipeline or an interface, the
  values are the engine's answers and are left open.
- TagLists.TagList.CopyAssign: reference counts are not modelled, so the
  unref of the old list is left out. Assigning a wrapper to itself therefore
  gives a fresh copy of its own tags. The source unrefs first and then
  copies, so when this was the last reference it copies a freed list.
- The stopping state is never entered by the code, so the transitional
  handling of stopping cannot be exercised.
- Tokenizer: the methods model the code as written, with the backslash rule
  `AsWritten`. The general lemmas (non-empty tokens, plain words, quoted
  sections) hold for both rules.

## Findings

| source | as written | input that shows it | evidently intended | confidence | as-written member | corrected member |
|---|---|---|---|---|---|---|
| cmdline-player/tokenizer.cpp:46-58 | after a backslash the first pass skips two characters only when the second is whitespace or a quote, and one character otherwise. So in `\\` the second backslash is examined again and escapes a following space | the line `a\\ b` gives the single token `a\ b` | the comment at line 48 says to always skip two characters, so `\\` is one literal backslash and the space ends the word: the tokens are `a\` and `b` | medium, not executed | Tokenizer.EscapedBackslashJoinsAsWritten | Tokenizer.EscapedBackslashEndsWordWithSkipTwo |
