# Verified model of the video recorder

A Dafny model of the state machines of a network video recorder written in Go
(with one Python tool), and proofs of what they promise. `dafny verify
dfyconfig.toml` checks it all.

Each part has three layers: the operations as functions on values (`...Spec`),
what every sequence of them keeps and brings about (`...Proofs`, `...Laws`), and the same operations in the
source's own form - classes whose methods update fields, loops over sequences and
maps, arrays patched in place - each tied to its function by its postcondition.

| files | what they model |
|---|---|
| Clock | tick and nanosecond conversions, with Go's division toward zero |
| RecorderSpec, RecorderProofs, RecorderLaws, Recorder | the recorder's segmenting machine: lookahead, drift, stall, rotation, decode times; RecorderLaws says which samples are stored, where, and when a segment ends |
| Recovery, RecoveryProofs, RecoveryLaws | a segment's duration recomputed from its fragments, against what was tracked while writing |
| Muxer | the incremental fragmented-MP4 muxer of playback |
| Fill | the filler that splices placeholder frames into a track |
| MuxParts, MuxTurns | the walk over a segment's fragments that drives filler and muxer; MuxTurns tells its calls from the fragments alone |
| PauseEngine | the retry loop against pause, resume and removal, step by step |
| PauseServer, PauseLaws | manual privacy, schedule ticks, heartbeats and camera edits, step by step; PauseLaws compares the states with what was asked |
| Live, LiveLaws | the live broadcaster: parts, GOP buffer, viewers; LiveLaws tells what reaches them from the events |
| Store, Text | the release store: staging, commit, crashes |
| AnnexB | start-code splitting and length-prefixed conversion |
| Repair, RepairReads | the tool that cuts back stretched samples in a file; RepairReads that it reads boxes and fields as the format writes them |
| Throttle | the failed-login throttle |
| Sessions | refresh tokens and device pairing as table statements |
| Schedule | recording schedules |
| Wrappers | an option type and small functions |

Numbers are unbounded; where the source's width shows (32-bit durations, part
numbers and box sizes, 64-bit base times, lengths) it is written out. Whatever the
code cannot foresee is a parameter: the disk's answers, clocks, the DTS extractor,
marshalling, which row or map entry comes first, which step runs next. A lock's
critical section, an SQL statement, a channel operation and a file rename are
atomic steps; a directory is a map from names to contents; fresh tokens are
unique.

Where the code does less than one would hope, the model says exactly when:
`FillProofs.SpliceStrictIff` and `MuxPartsProofs.RunsStrictIff` (a keyframe may get
the tick of the placeholder before it, at or before tick 0: with the filler placed
before output time -5 s, and with a whole file read from a place between -10 s and
-5 s, unless that is on a tick of a clock whose ticks are whole nanoseconds;
`FillProofs.OnGridBreaks` is an input, `MuxPartsProofs.SplicedInOrder` what holds
wherever the segment is placed), `PauseServer.HeartbeatsAreFresh` with
`StaleListAccepted` (an edit between the camera list and the generation read),
`MuxerProofs.NextBase` with `LongGapBreaksBase` (a gap of 2^32 ticks),
`StoreProofs.AppendStages` with `SharedNameUnstages` (two variants under one file
name), `StoreProofs.NeverShowsIff` with `UnsavedAppendShows` (an interrupted commit
when the sidecar does not stage what is in memory), `AnnexBProofs.SplitUndoesJoin`
with `TrailingZeroLost` (a unit ending in zero before a three-byte start code),
`RecorderLaws.ConnectKeepsIff` with
`AbandonedPartLost` (a session that starts on a segment left open),
`LiveProofs.TimesNonNegativeIff` and `BaseTimesExactIff` with `NegativeBaseWraps` (a
sample before zero in a stream that started at or after it).

Premises taken from callers: segments have at most one video track, the first;
clocks up to 858 993 459 Hz, so that 5 s fits the 32-bit duration; in a segment file
every track but the filler's goes forward from fragment to fragment; a part given to
the recovery comparison has no hole inside its audio and no negative time or
composition offset; `SetTracks` does not fail while the stream runs (the engine
stops the broadcaster at the end of every session); a repaired file's boxes hold
their fields, its trafs are not nested and its samples have their own durations; a
camera is not deleted and re-created while one of its requests is under way.

## Model
| member | source | states |
|---|---|---|
| Clock.MulDivExact | go/internal/media/recorder/helpers.go:5-9 | Splitting v*m/d into quotient and remainder gives the exact quotient truncated toward zero, for v of either sign |
| Clock.MulDivStaysIn64Bits | go/internal/media/recorder/helpers.go:5-9 | With 32-bit factors, one of them within 31 bits as a second in nanoseconds is, no intermediate value of the split form leaves the signed 64-bit range unless the result does |
| Clock.MulDivMonotone | go/internal/media/playback/segment.go:30-42 | A conversion between ticks and nanoseconds never reorders two instants |
| Clock.RoundTrip | go/internal/media/playback/segment.go:30-42 | Ticks to nanoseconds and back gives v-1 or v, for clocks up to 1 GHz |
| Clock.EarlierNanosEarlierTick | go/internal/media/playback/segment.go:30-42 | An instant before a tick's own instant converts to an earlier tick |
| RecorderProofs.EveryFileIsPlayable | go/internal/media/recorder/track.go:61-222 | Over every run of samples, sessions, clocks and disk failures, each file's video, of the segment still open and of an abandoned one too, starts on a keyframe, skips no sample, each one decodes where the one before ends, none lies before the segment start and none lasts over 5 s |
| RecorderProofs.EveryBaseTimeIsExact | go/internal/media/recorder/segment.go:167-197 | In the same files each fragment's base time is its first sample's exact offset from the segment start: the clamp at zero never fires |
| RecorderProofs.SegmentsNumberedOnce | go/internal/media/recorder/track.go:272-276 | The segments done with carry 0, 1, 2, ... in order, at most one more is open, none is reported twice, across stall, drift, write error, rotation, video return, clock jump, disconnect, Close and a session that failed at PLAY |
| RecorderProofs.Run | go/internal/media/recorder/recorder.go:219-621 | Every run keeps the recorder's invariant |
| RecorderProofs.StepKeepsInv | go/internal/media/recorder/recorder.go:823-885 | Each picture, audio sample, hangup and connect keeps it, whatever the disk answers |
| RecorderProofs.LookaheadOk | go/internal/media/recorder/track.go:67-133 | The lookahead finalizes exactly the sample before; its duration closes the gap to the next one or ends the run, and is at most 5 s by induction on the last duration |
| RecorderProofs.FinalDurationBound | go/internal/media/recorder/track.go:119-133 | A finalized duration is at most 5 s of ticks, and the plain difference when that is |
| RecorderProofs.DecodeTimeOk | go/internal/media/recorder/recorder.go:823-885 | The first picture given a decode time in a session, or after the clock went back, is a random access point, in every mode of the DTS logic |
| RecorderProofs.StartNotAfter | go/internal/media/recorder/track.go:259-270 | A segment starts no later than the sample opening it and no later than any sample pending within one second before it |
| RecorderProofs.RotationKeepsPending | go/internal/media/recorder/track.go:227-249 | At a rotation a pending sample is early enough for the new segment exactly when it lies within one second of the newest one |
| RecorderProofs.RotationStartIsPending | go/internal/media/recorder/track.go:227-249 | With no negative time pending, the rotated segment starts on a pending sample, at its wall-clock time |
| RecorderProofs.TrackedGrows | go/internal/media/recorder/segment.go:43-58 | The end, the video's decode end and its extent in presentation time, tracked on every write, stay the exact maximum and minimum over all samples in the segment |
| RecorderProofs.SegWriteOk | go/internal/media/recorder/segment.go:43-72 | A write adds exactly its sample, to a new part when the old one is full, and keeps the segment playable; a failed one loses the unwritten part only |
| RecorderLaws.StoreExactly | go/internal/media/recorder/track.go:142-222 | What becomes of any finalized sample, from any state. It is dropped exactly when it lies before the open segment, is video before that segment's first keyframe, or, with none open after a loss of a segment with video, is neither a video keyframe nor audio while the video is down. Otherwise its segment, the open one or one opened no later than it, gains it and nothing else unless the part would be too large or the one before it cannot be written; then the segment is closed after a failure or a stall, rotated exactly when a keyframe pending on the video (on any track without video, or with it over 5 s behind) has reached the minimum duration, and kept otherwise; no working disk loses what was held |
| RecorderLaws.WriteExactly | go/internal/media/recorder/track.go:61-222 | The same for a whole recTrack.write: the first sample of a track waits, a clock jump closes the segment, a finalized sample is placed as above, and live-only mode stores nothing |
| RecorderLaws.LookaheadExactly | go/internal/media/recorder/track.go:67-133 | When a pending sample is dropped for a clock drift of over 5 s, when it is final, how the clocks are anchored, and how long it lasts: until the next one, for no time when that went back or jumped, and over a gap of more than 5 s as long as the one before it or a 25th of a second |
| RecorderLaws.StoredForGood | go/internal/media/recorder/track.go:142-222 | With a disk that works a wanted sample that fits its part is in its segment, and still there after any further events, sessions ending in order |
| RecorderLaws.ConnectKeepsIff | go/internal/media/recorder/recorder.go:219-252 | A session that starts on a segment left open, the one before having failed at PLAY, keeps what was stored exactly when the part not yet written holds nothing the file lacks |
| RecorderLaws.AbandonedPartLost | go/internal/media/recorder/recorder.go:219-252 | In every reachable state every video sample of that part is in no file afterwards |
| RecorderLaws.KeyframesAreRecorded | go/internal/media/recorder/track.go:148-187 | So is every video keyframe finalized with no segment open, or at or after the open one's start |
| RecorderLaws.KeyframesComeEarly | go/internal/media/recorder/track.go:205-222 | Over every run, in each file every video keyframe but the first lies within the minimum duration from the segment's start |
| RecorderLaws.VideoIsBehind | go/internal/media/recorder/segment.go:74-83 | In every reachable state the video counts as stalled exactly when no video sample of the segment ends within 5 s before, or, without any, the segment started longer ago |
| RecorderLaws.PartTaken | go/internal/media/recorder/segment.go:43-72 | A sample joins the part being built unless that has reached the part duration; then the part goes to the file and the sample starts the next one, numbered one higher |
| RecorderLaws.ClosingReports | go/internal/media/recorder/segment.go:85-142 | Closing writes the last part if the disk takes it and reports the segment exactly when it has a file that could be closed |
| RecorderLaws.PictureTimes | go/internal/media/recorder/recorder.go:823-885 | Without reordering: which pictures get a decode time, that it is their presentation time, and what a time that goes back by up to a second, or by more, does |
| RecorderLaws.ExtractorTimes | go/internal/media/recorder/recorder.go:823-885 | With it: the extractor is asked from a random access point on, and asked afresh after it failed |
| RecorderLaws.PictureWritten | go/internal/media/recorder/recorder.go:943-959 | A picture is written as it is, and shown at its presentation time wherever the offset fits 32 bits |
| RecorderLaws.SessionStarts | go/internal/media/recorder/recorder.go:219-252 | A session starts with nothing pending or anchored and no segment; its first picture written is a random access point |
| RecorderLaws.StartIsPending | go/internal/media/recorder/track.go:259-270 | An opened segment starts at its sample, or at an earlier one pending on another track, with that one's wall-clock time |
| Recorder.RecTrack.Advance | go/internal/media/recorder/track.go:67-133 | The lookahead half of a track's write, field by field |
| Recorder.PartBuffer.Write | go/internal/media/recorder/segment.go:167-197 | A part takes a sample, or refuses one that would outgrow it |
| Recorder.SegmentFile.FlushPart | go/internal/media/recorder/segment.go:85-102 | A part reaches the file, or the file or the write fails |
| Recorder.SegmentFile.Write | go/internal/media/recorder/segment.go:43-72 | A segment's write against its specification |
| Recorder.SegmentFile.Close | go/internal/media/recorder/segment.go:104-142 | The last part is flushed; a file that could be closed is reported |
| Recorder.Recorder.NextSegmentStartingPos | go/internal/media/recorder/track.go:227-249 | The two loops over the tracks compute the rotation start |
| Recorder.Recorder.StartOfSegment | go/internal/media/recorder/track.go:259-270 | The loop over the tracks computes the start of an opened segment |
| Recorder.Recorder.Prepare | go/internal/media/recorder/track.go:148-187 | The admission half in place, equal to the function RecorderLaws.StoreExactly characterizes: a segment opened for the sample, a late one discarded, closing and opening when the video returns |
| Recorder.Recorder.Store | go/internal/media/recorder/track.go:189-222 | Writing an admitted sample to the open segment: dropping the segment when that fails, closing it at a stall, rotating it |
| Recorder.Recorder.Receive | go/internal/media/recorder/track.go:61-133 | The lookahead half of recTrack.write on the recorder's track |
| Recorder.Recorder.Write | go/internal/media/recorder/track.go:61-222 | A whole recTrack.write: lookahead, drift, live-only mode, storage |
| Recorder.Recorder.StoreFinal | go/internal/media/recorder/track.go:142-222 | The storage half of recTrack.write: nothing in live-only mode, otherwise admission and storing |
| Recorder.Recorder.VideoDecodeTime | go/internal/media/recorder/recorder.go:823-885 | The decode-time state machine with its clock-jump and reordering branches |
| Recorder.Recorder.OnPicture | go/internal/media/recorder/recorder.go:943-959 | A picture in place: given a decode time, then written to the video track |
| Recorder.Recorder.OnAudio | go/internal/media/recorder/recorder.go:776-782 | An audio sample in place: written once video started or when it may start a recording |
| Recorder.Recorder.Hangup | go/internal/media/recorder/recorder.go:565-621 | A session's end finalizes the open segment |
| Recorder.Recorder.Connect | go/internal/media/recorder/recorder.go:219-252 | A new session starts from fresh tracks and cleared flags; a segment still open is forgotten, not closed |
| Recovery.MeasureIsExact | go/internal/media/recovery/recovery.go:346-449 | On a file no sample of which was stretched the walk finds the exact end of the longest track and the exact extent of the video |
| Recovery.Measure | go/internal/media/recovery/recovery.go:346-449 | The walk with its tables, carried base times and last sane durations |
| RecoveryLaws.StretchedCutBack | go/internal/media/recovery/recovery.go:405-416 | Any file is measured as the file in which each sample over 5 s lasts as long as the latest earlier one of its track that is not, or a 25th of a second |
| RecoveryLaws.PlainIsUnstretched | go/internal/media/recovery/recovery.go:405-416 | That file has no stretched sample, so the walk over it is exact |
| RecoveryLaws.TablesAre | go/internal/media/recovery/recovery.go:350-356 | The video is the first video track, and a track's clock that of its last description |
| RecoveryProofs.NothingStretched | go/internal/media/recovery/recovery.go:405-416 | The 5 s rule never fires on what the recorder wrote |
| RecoveryProofs.EndAgrees | go/internal/media/recorder/segment.go:43-58 | Recomputed and tracked end of the longest track agree to one tick of the slowest clock and 2 ns |
| RecoveryProofs.VideoAgrees | go/internal/media/recorder/segment.go:48-58 | So do recomputed and tracked video start and end |
| RecoveryProofs.MeasureAgrees | go/internal/media/recorder/segment.go:104-142 | The row a rebuild derives from a complete file is the one reported on closing it, within that bound |
| RecoveryProofs.OpenSegmentComplete | go/internal/media/recovery/recovery.go:346-449 | Whatever a run has put into the open segment, it meets the premise of that comparison unless a part has a hole in its audio or a negative time |
| MuxerProofs.RunConserves | go/internal/media/playback/muxer_fmp4.go:93-217 | However the tracks' calls interleave, each track's fragments hold exactly the frames written at or after decode time 0, once and in order, after the pre-roll back to the last sync sample, each lasting until the next and the last one until the latest closing time given since |
| MuxerProofs.ClosedByLastFinish | go/internal/media/playback/muxer_fmp4.go:149-154 | That closing time is the one of the track's last writeFinalDTS, whatever other tracks were told since |
| MuxerProofs.StepOk | go/internal/media/playback/muxer_fmp4.go:93-154 | Every call keeps that, and no flush in between reports "no samples" |
| MuxerProofs.PartAtOneSecond | go/internal/media/playback/muxer_fmp4.go:93-179 | A part goes out exactly when a frame comes a second or more after the first one its track holds back; it has all but the last frame of every track that began and holds two |
| MuxerProofs.ReportsNoSamples | go/internal/media/playback/muxer_fmp4.go:156-217 | The closing flush reports "no samples" exactly when no track was given one at or after decode time 0 |
| MuxerProofs.LongPartFlushable | go/internal/media/playback/muxer_fmp4.go:123-128 | A part that reached its length has two samples or more |
| MuxerProofs.NextBase | go/internal/media/playback/muxer_fmp4.go:156-179 | A fragment's base time is the previous one's plus its durations exactly when no gap overflows 32 bits |
| MuxerProofs.LongGapBreaksBase | go/internal/media/playback/muxer_fmp4.go:156-179 | Two keyframes 2^32 ticks apart do make two fragments the first of which claims to last no time |
| MuxerProofs.PlaylistSorted | go/internal/media/playback/muxer_fmp4.go:93-154 | What a track must hold is in time order |
| Muxer.Muxer.WriteSample | go/internal/media/playback/muxer_fmp4.go:93-147 | writeSample in place, against its specification |
| Muxer.Muxer.WriteFinalDTS | go/internal/media/playback/muxer_fmp4.go:149-154 | writeFinalDTS patches the last sample's duration |
| Muxer.Muxer.Flush | go/internal/media/playback/muxer_fmp4.go:156-213 | innerFlush: one part from every track with something to emit, the last sample of each kept back |
| Muxer.MuxerTrack.Append | go/internal/media/playback/muxer_fmp4.go:105-144 | A track takes a sample: pre-roll, first kept one, or a later one that closes its predecessor |
| FillProofs.VideoOk | go/internal/media/playback/fill.go:112-135 | Wherever the segment is placed and whatever sample comes, what was let through stays in order: no shot decodes before an earlier one, only a keyframe at or before tick 0 may share its placeholder's tick, and no placeholder is shown before an earlier frame ends |
| FillProofs.FramesLetThrough | go/internal/media/playback/fill.go:112-135 | Which frames are let through, told from the history: those after the last shot that are keyframes or follow a real frame or nothing, once the placeholders a distance of over 5 s calls for are in, one for each second; a frame let through is shown until its end, one over 5 s long for no time |
| FillProofs.FillToOk | go/internal/media/playback/fill.go:167-182 | A fill covers up to the target and changes nothing before; what it adds are placeholders a whole number of seconds after the covered end, before the target |
| FillProofs.FillToEverySecond | go/internal/media/playback/fill.go:167-182 | Each of those seconds gets its placeholder unless a shot shown before it has its tick |
| FillProofs.CatchUpOk | go/internal/media/playback/fill.go:146-150 | catchUp leaves a lag of up to 10 s alone; a longer one is filled, second by second, to between 4 and 5 s |
| FillProofs.FinishOk | go/internal/media/playback/fill.go:154-160 | finish leaves up to 5 s before the end uncovered; with more it fills every second up to the end, or to where the other tracks end, and closes the last placeholder there |
| FillProofs.FreshFillStrictIff | go/internal/media/playback/fill.go:112-135 | The first sample after a placement never shares a placeholder's tick exactly when the place is at or after -5 s or on a tick |
| FillProofs.SpliceStrictIff | go/internal/media/playback/fill.go:112-182 | Over every sequence of samples, decode times are strictly increasing exactly when the place is at or after -5 s, or on a tick of a clock whose ticks are whole nanoseconds (or whose nanoseconds are whole ticks) |
| FillProofs.OnGridBreaks | go/internal/media/playback/fill.go:112-182 | At 90 kHz a place of -6 s is on a tick, and the second of two keyframes still shares a placeholder's tick |
| FillProofs.BreaksBefore | go/internal/media/playback/fill.go:167-182 | Before -5 s and off the grid some first sample lands on its placeholder's tick |
| MuxPartsProofs.SplicedInOrder | go/internal/media/playback/segment.go:160-303 | For any fragments and any place, the video reaching the muxer never goes back in decode time and strictly increases above tick 0, the first real frame after a placeholder is a keyframe, and the end is covered to 5 s |
| MuxPartsProofs.RunsStrictIff | go/internal/media/playback/segment.go:160-303 | Every file read gives strictly increasing video decode times exactly when the segment is placed at or after -5 s, or before -10 s (where the first moof already fills up to -5 s), or on the grid as above |
| MuxPartsProofs.StitchedSegment | go/internal/media/playback/segment.go:160-303 | If the other tracks go forward in the file, every call made is one the muxer allows, and after the closing flush each track's fragments hold exactly what was written to it from decode time 0 on, once, in order and timed, the filler's video strictly increasing above tick 0 |
| MuxPartsProofs.LagAtFragments | go/internal/media/playback/segment.go:179-183 | At the start of every fragment read, the covered video lags by 10 s at most |
| MuxPartsProofs.AtMoofOk | go/internal/media/playback/segment.go:179-183 | The filler's turn at a moof keeps the muxer's video track equal to what the filler let through, and closes the lag to 10 s |
| MuxPartsProofs.AtEndOk | go/internal/media/playback/segment.go:299-301 | At the end of the segment at most 5 s stay uncovered |
| MuxTurns.CallsAreTurns | go/internal/media/playback/segment.go:160-303 | The calls made, track by track, are told by the fragments alone: beside the filler's track exactly the samples before the limit of the fragments read, and each trun's end; on the filler's what the filler makes of them; reading stops after the fragment in which a sample reached the limit; the elapsed time is the furthest trun end |
| MuxTurns.TrunIs | go/internal/media/playback/segment.go:202-289 | A trun gives its samples in order up to the first at or past the limit, each with its own content at base, start and the durations before it; it closes at the time reached |
| MuxTurns.FillerTrackExactly | go/internal/media/playback/segment.go:255-287 | On the filler's track the frames written are, one for one, what the filler shows: placeholders are its payload as keyframes, and the real ones some of the samples before the limit, in order |
| MuxTurns.FrameOffered | go/internal/media/playback/fill.go:112-135 | Which of them: each is written exactly if it is let through, after the placeholders it calls for |
| MuxTurns.FedReaches | go/internal/media/playback/segment.go:260-266 | The filler knows the latest end of the other tracks' samples |
| MuxTurns.StitchedExactly | go/internal/media/playback/segment.go:160-303 | Through muxParts and the muxer, a track beside the filler's ends up with exactly its samples before the limit |
| MuxPartsSpec.Walk | go/internal/media/playback/segment.go:160-303 | The walk over the fragments, stopping after the one in which a track reached the end |
| MuxPartsSpec.WalkTrun | go/internal/media/playback/segment.go:247-287 | The sample loop that drives muxer and filler, equal to the function whose calls MuxTurns.CallsAreTurns tells from the fragments alone |
| Filler.VideoFill.FillUpTo | go/internal/media/playback/fill.go:167-182 | The loop of fillTo against its specification |
| Filler.VideoFill.Accept | go/internal/media/playback/fill.go:112-135 | videoFill.video in place, equal to the function whose answer FillProofs.FramesLetThrough gives from the history |
| Filler.VideoFill.Catch | go/internal/media/playback/fill.go:146-150 | videoFill.catchUp in place |
| Filler.VideoFill.NoteOther | go/internal/media/playback/fill.go:138-140 | videoFill.other in place |
| Filler.VideoFill.Close | go/internal/media/playback/fill.go:154-160 | videoFill.finish in place |
| PauseEngine.StepOk | go/internal/media/engine.go:909-963 | Each atomic step of the retry loop, of a pause and of a removal keeps the invariant, in any interleaving |
| PauseEngine.NothingLiveOnceStopped | go/internal/media/engine.go:973-987 | Once the pause or removal that did the closing returned, no session plays and nothing is written, even when Close ran before the client existed or was dialled; a redundant second pause, which returns at once while the first still closes, is excluded by the server's op lock |
| PauseEngine.NoWakeUpLost | go/internal/media/engine.go:283-313 | A parked loop waits on exactly the channel the next resume closes |
| PauseEngine.ExitedLeavesNothing | go/internal/media/engine.go:791-822 | A loop that exited left no session open |
| PauseEngine.GetsToPlay | go/internal/media/engine.go:924-963 | From any reachable state of a camera neither paused nor removed, with no Close under way, a loop that nothing fails has a session playing within 14 steps |
| PauseEngine.GetsToPark | go/internal/media/engine.go:924-963 | Once the call that paused the camera returned, the loop, whatever fails, is parked within 8 steps and stays |
| PauseEngine.GetsToExit | go/internal/media/engine.go:791-822 | Once the call that removed the camera returned, its loop, paused or not and whatever fails, is gone within 11 steps |
| PauseEngine.StopReturns | go/internal/media/engine.go:973-987 | A pause or a removal left alone returns after its three steps, its client closed |
| PauseEngine.WrittenWhileLive | go/internal/media/recorder/recorder.go:540-621 | Packets are written while a session plays, and never outside one |
| PauseEngine.FailureStartsNothing | go/internal/media/recorder/recorder.go:219-555 | A step that fails leaves no session playing or dialled that was not |
| PauseEngine.CamCtrl.SetPaused | go/internal/media/engine.go:283-296 | The flag and the resume channel change together |
| PauseServer.PauseIsPrivacyOrOffHours | go/internal/server/server.go:1528-1598 | Over every interleaving of toggles, readings, schedule ticks and edits: with the op lock free and no schedule change waiting, the pause flag is manual privacy or off-hours |
| PauseLaws.StatesAreAsked | go/internal/server/server.go:1528-1598 | Over every interleaving, with a history read off the actions alone: privacy is the last of a recorded toggle's value, an accepted reading's and what an edit carried over; off-hours is the last evaluation's of an enabled camera, none since an edit; so the pause flag is what was asked |
| PauseLaws.ToggleTakesEffect | go/internal/server/server.go:1592-1598 | A toggle left alone: privacy is what it asks, and the engine is paused exactly by it or off-hours |
| PauseLaws.EvaluationTakesEffect | go/internal/server/handlers_schedules.go:91-135 | A tick left alone whose evaluation changes off-hours of an enabled camera |
| PauseLaws.ReadingTakesEffect | go/internal/server/server.go:579-626 | A heartbeat left alone from its list to its end: privacy is its reading |
| PauseLaws.FailuresLeaveNothing | go/internal/server/server.go:1575-1598 | A toggle the camera refuses and a heartbeat it does not answer leave everything as it was |
| PauseServer.HeartbeatsAreFresh | go/internal/server/server.go:579-626 | A reading that sets the privacy state was fetched after the last manual write and the last edit; it is one of the current configuration exactly when the camera entry it worked from was current when it read the generation |
| PauseServer.StaleListAccepted | go/internal/server/server.go:661-680 | The other case occurs: a list read before an edit and a generation read after it let the old device's reading in |
| PauseServer.StepOk | go/internal/server/handlers_schedules.go:91-135 | Every step of every thread keeps the invariant |
| PauseServer.Server.HandlePrivacy | go/internal/server/server.go:1592-1598 | A manual toggle's locked section: privacy is what was asked, off-hours as it was, and the engine, when there is one, paused exactly when one of them is |
| PauseServer.Server.ApplyPause | go/internal/server/handlers_schedules.go:123-135 | The schedule's locked section |
| PauseServer.Server.ApplyReading | go/internal/server/server.go:610-624 | A heartbeat's locked section: taken unless either generation moved |
| PauseServer.Server.Reconfigure | go/internal/server/handlers_cameras.go:384-412 | An edit's locked section: manual privacy is carried over, off-hours is not |
| PauseServer.Server.DropCameraState | go/internal/server/handlers_cameras.go:316-334 | The config generation is one higher afterwards and both flags are down, nothing else changed |
| PauseServer.GenerationMovesFirst | go/internal/server/handlers_cameras.go:316-334 | Step by step, the generation moves while the old flags still stand; a later step drops them |
| LiveProofs.ViewersMissNothing | go/internal/media/live/live.go:439-504 | What a viewer is sent is a contiguous piece of its session's part history from the GOP current when it came, cut off but never skipped |
| LiveProofs.ChannelsCloseOnce | go/internal/media/live/live.go:391-399 | Each subscriber's channel is closed exactly once and never sent to afterwards; at most 128 parts wait |
| LiveProofs.GopIsLatestGop | go/internal/media/live/live.go:371-385 | The GOP buffer is the history since the latest keyframe part, gopBytes its size; it is empty exactly when that outgrew 32 MiB after its first part |
| LiveProofs.KeyframesStartParts | go/internal/media/live/live.go:304-338 | A part's video starts with its only keyframe if it has one; a part is missing from the history only when marshalling failed |
| LiveProofs.NothingTakenIsLost | go/internal/media/live/live.go:273-338 | Every sample taken is in one part or the one being built, in order; base times are the first samples' times; no shifted time is negative |
| LiveProofs.ShiftIsTheSameEverywhere | go/internal/media/live/live.go:309-322 | Over every run, a stream whose first sample is at or after zero keeps its times; otherwise every sample of every track moves by the wall-clock span that brings the first one to zero, rounded up by less than a tick and kept at zero where that is not enough |
| LiveProofs.TimesNonNegativeIff | go/internal/media/live/live.go:309-322 | Over every run, no time given is negative exactly when the stream starts before zero or no sample of it is before zero |
| LiveProofs.BaseTimesExactIff | go/internal/media/live/live.go:340-370 | Over every run, the base time of each track in each part, the one being built too, is its opening sample's time and not that wrapped to 64 bits, exactly when that time fits and the stream starts before zero or the sample is not before it |
| LiveProofs.NegativeBaseWraps | go/internal/media/live/live.go:309-370 | A run with video at 0 and then audio at -1: the audio's base time is 2^64 - 1 |
| LiveProofs.StepOk | go/internal/media/live/live.go:156-268 | Every connect, stop, sample, join, write and leave keeps the invariant |
| LiveLaws.TakenExactly | go/internal/media/live/live.go:156-338 | Over every run, told from the events: the stream runs exactly since a connect that could be served, has its playable tracks, and holds exactly the samples written of them since, in order and as they came, but non-key video frames under 3 ms |
| LiveLaws.WriteTakes | go/internal/media/live/live.go:273-338 | A write appends its sample exactly when it should be taken, and otherwise changes nothing |
| LiveLaws.PartsAreCut | go/internal/media/live/live.go:304-338 | A part is cut before a sample exactly when it is a keyframe and video waits, and with it exactly when the video waiting reaches 300 ms |
| LiveLaws.PartsReachViewers | go/internal/media/live/live.go:340-401 | A part that could be marshalled is queued for every registered viewer with room, and the others are cut off; one that could not reaches none |
| LiveLaws.HandlerWrites | go/internal/media/live/live.go:475-504 | A handler ends exactly when a write fails or its channel is closed and drained; each write that works moves on by one item |
| LiveLaws.GoneWhileWaiting | go/internal/media/live/live.go:487-504 | A client that goes away is noticed exactly while its handler waits on the channel |
| LiveLaws.ComingSubscribes | go/internal/media/live/live.go:439-451 | Whoever comes while a stream runs is subscribed, with the GOP buffer first |
| LiveLaws.ScaleIsClock | go/internal/media/live/live.go:169-211 | A track has a clock exactly when it is playable, that of its last description |
| Live.ScanTracks | go/internal/media/live/live.go:169-211 | The playable tracks, their clocks and the video id, in one pass |
| Live.Broadcaster.SetTracks | go/internal/media/live/live.go:156-248 | A new session replaces the old one and drops its viewers, or fails |
| Live.Broadcaster.Stop | go/internal/media/live/live.go:258-268 | The stream ends and every viewer is dropped |
| Live.Broadcaster.WriteSample | go/internal/media/live/live.go:273-338 | A sample in place: parts cut at keyframes and at 300 ms; which samples are taken is LiveLaws.TakenExactly |
| Live.Broadcaster.FlushPart | go/internal/media/live/live.go:340-401 | A part is numbered, marshalled, kept and offered to every viewer |
| Live.Hub.FanOut | go/internal/media/live/live.go:391-399 | A part is queued for each viewer, or the viewer is cut off, in any order |
| Live.Broadcaster.Join | go/internal/media/live/live.go:439-451 | A viewer starts with a copy of the GOP buffer |
| Live.Broadcaster.SendNext | go/internal/media/live/live.go:475-504 | The viewer's next write: init, GOP copy, then its channel until closed and drained |
| Live.Broadcaster.Unsubscribe | go/internal/media/live/live.go:453-460 | Leaving closes the channel unless it was closed already |
| StoreProofs.NeverShowsIff | go/internal/updates/store.go:494-553 | However often and wherever a commit is interrupted before pending.json is removed, by a crash and restart or an I/O error, committing again fails or succeeds, and with the same directory, as an uninterrupted commit would: for every such sequence exactly when the sidecar stages the release in memory, or neither of the two has all its files |
| StoreProofs.InterruptionsDoNotShow | go/internal/updates/store.go:494-553 | So it is with the staged release saved, which it stays |
| StoreProofs.CommitSettles | go/internal/updates/store.go:494-553 | A commit succeeds exactly when every name has a file, and then the whole directory is told by what its names stood for |
| StoreProofs.CommitServes | go/internal/updates/store.go:494-553 | A listed build matches its recorded size and hash afterwards exactly when its staged file, or the served one without it, did |
| StoreProofs.ServedFilesMatch | go/internal/updates/store.go:357-582 | Over every run: outside a commit each listed build is there with its size and hash and nothing else is, but builds whose last append failed and files that could not be removed |
| StoreProofs.StagingLeavesServedAlone | go/internal/updates/store.go:357-480 | Start, append and discard never change the manifest or a served file, whatever fails |
| StoreProofs.AppendStages | go/internal/updates/store.go:404-456 | A successful append keeps the release staged exactly when no other variant uses its file name for other content |
| StoreProofs.StartsFresh | go/internal/updates/store.go:357-391 | A release is staged afresh, saved, without builds or the files of the one before, unless its version is the one staged; discarding leaves nothing of it |
| StoreProofs.AppendAdds | go/internal/updates/store.go:404-456 | An append succeeds exactly when it is to the staged release and everything could be written; then it replaces its variant's build by the new one and keeps every other; otherwise no file is added and what is saved stays |
| StoreProofs.CutAfter | go/internal/updates/store.go:510-518 | A commit stopped after k renames moved the first k names and no others |
| StoreProofs.SharedNameUnstages | go/internal/updates/store.go:404-456 | A run in which two variants are uploaded under one file name: the first one's record no longer has its file |
| StoreProofs.UnsavedAppendShows | go/internal/updates/store.go:447-453 | A run in which an append's sidecar could not be written: committing fails, but succeeds without that build after a crash and a restart |
| StoreSpec.Sanitize | go/internal/updates/store.go:621-636 | A name is accepted as its trimmed form exactly when that is plain: not empty, no separators, no "..", no reserved name |
| Store.TrackStore.AppendBuild | go/internal/updates/store.go:404-456 | An append with its failure points |
| Store.TrackStore.StartActive | go/internal/updates/store.go:370-391 | A fresh release replaces a staged one |
| Store.TrackStore.DiscardActive | go/internal/updates/store.go:461-480 | The staged release and its files go |
| Store.TrackStore.MoveStaged | go/internal/updates/store.go:510-518 | The renames, up to the first name that is nowhere |
| Store.TrackStore.DeleteOrphans | go/internal/updates/store.go:560-582 | Every other build file is deleted, in the directory's order |
| Store.TrackStore.CommitActive | go/internal/updates/store.go:494-553 | The commit's steps in order |
| AnnexBProofs.SplitUndoesJoin | go/internal/media/playback/gapfill.go:200-231 | Splitting undoes framing with any mix of start codes exactly when no unit contains a start code and none ending in zero is followed by a three-byte one |
| AnnexBProofs.TrailingZeroLost | go/internal/media/playback/gapfill.go:200-231 | The units 05 00 and 06, framed with three-byte start codes, hold no start code and do not come back |
| AnnexBProofs.UnitsHaveNoCode | go/internal/media/playback/gapfill.go:200-231 | Whatever the stream, no unit it is split into has a start code inside |
| AnnexBProofs.AvccReadsBack | go/internal/media/playback/gapfill.go:182-197 | The length-prefixed form parses back as the non-empty, non-delimiter units in order |
| AnnexBProofs.KeptUnits | go/internal/media/playback/gapfill.go:182-197 | Kept are the units with something in them but access unit delimiters |
| AnnexBProofs.ConversionKeepsPictures | go/internal/media/playback/gapfill.go:182-231 | From framed units to what a decoder reads |
| AnnexB.SplitAnnexB | go/internal/media/playback/gapfill.go:200-231 | The two index loops against the recursive split |
| AnnexB.AnnexBToAVCC | go/internal/media/playback/gapfill.go:182-197 | The conversion loop |
| RepairProofs.OnlyDurationsChange | scripts/repair-segments.py:209-273 | The repair keeps the length and changes no byte but of sample durations and of the movie duration |
| RepairProofs.SamplesCutBack | scripts/repair-segments.py:223-257 | Boxes, tracks and samples read as before; a sample over 5 s gets the interval RepairProofs.IntervalIs tells, no other changes, none is over 5 s afterwards |
| RepairProofs.IntervalIs | scripts/repair-segments.py:225-251 | A stretched sample gets the duration of the latest sample before it that lasts a 120th of a second to five seconds, without one a 25th of a second, and at least a tick |
| RepairProofs.TrackEndIs | scripts/repair-segments.py:231-254 | A track's end is the latest end of its samples, a video sample's picture included |
| RepairProofs.MovieEndIs | scripts/repair-segments.py:257-257 | The movie's end is that of the track ending last, of those with a clock and a fragment |
| RepairReads.WalkReads | scripts/repair-segments.py:57-82 | The walk finds every box of a tree that was written, in order, where it is, with headers of 8 bytes or 16 |
| RepairReads.OpenHead | scripts/repair-segments.py:66-67 | A box of size 0 goes on to the end |
| RepairReads.TrunReads | scripts/repair-segments.py:131-159 | A trun, whatever its flags, reads as the samples written: durations and where they are stored, and composition offsets, signed in version 1 |
| RepairReads.HeaderReads | scripts/repair-segments.py:100-105 | Track ids and clocks read as written, in either version |
| RepairReads.HandlerReads | scripts/repair-segments.py:106-107 | So do handlers |
| RepairReads.FragmentReads | scripts/repair-segments.py:118-128 | So do a fragment's track and default duration, whatever its flags |
| RepairReads.BaseReads | scripts/repair-segments.py:162-165 | So do its base times, of 64 bits or of 32 |
| RepairProofs.SecondRunChangesNothing | scripts/repair-segments.py:209-273 | A second run changes nothing |
| RepairProofs.MovieDurationMatches | scripts/repair-segments.py:257-273 | The end reported and written to the mvhd is the one the repaired file gives |
| RepairProofs.WalkSame | scripts/repair-segments.py:57-82 | Changes inside boxes that hold no boxes leave the whole box tree as it was |
| RepairProofs.WalkShape | scripts/repair-segments.py:57-82 | Boxes found lie in their range, in file order, nested or apart |
| RepairProofs.FragsSeen | scripts/repair-segments.py:131-187 | A patched file reads as the same fragments with the new durations |
| RepairProofs.FragsSettle | scripts/repair-segments.py:168-187 | Every duration field belongs to one sample of one track, and none overlap |
| Repair.RepairMapped | scripts/repair-segments.py:209-273 | The in-place repair against its specification |
| Repair.RepairTrack | scripts/repair-segments.py:223-257 | The loop over a track's samples, patching as it goes |
| ThrottleProofs.NeverOverTheCap | go/internal/server/ratelimit.go:89-156 | In every reachable state a key's in-flight count is its unreleased reservations, and an IP's strikes and attempts never exceed 20 |
| ThrottleProofs.WhoIsRefused | go/internal/server/ratelimit.go:89-125 | A source with nothing against it is never refused, and any other exactly at its cap or the account's |
| ThrottleProofs.WaitIsEnough | go/internal/server/ratelimit.go:104-117 | A refused caller is told to wait exactly until the strikes it was refused for stop counting, or a second while attempts are being verified |
| ThrottleProofs.ReleaseCounts | go/internal/server/ratelimit.go:128-156 | A failure is one strike for both keys, a success wipes the account's; the strikes of a key lapse together, five minutes after the first of them; no sweep changes a live count; a second release does nothing |
| ThrottleProofs.GrantsAreHeld | go/internal/server/ratelimit.go:89-125 | A grant holds one more reservation of its source and of its account, a refusal none |
| ThrottleProofs.FailureSweeps | go/internal/server/ratelimit.go:140-156 | Past 4096 entries a failure clears out every lapsed one |
| Throttle.AuthThrottle.Begin | go/internal/server/ratelimit.go:89-125 | begin on the maps in place |
| Throttle.AuthThrottle.Release | go/internal/server/ratelimit.go:128-156 | finish behind its once, with the sweep |
| SessionsProofs.ExchangedAtMostOnce | go/internal/server/handlers_auth.go:322-421 | Under any interleaving of polls, approvals, refreshes, expiries and failed statements a device code mints at most one session and a refresh token is exchanged at most once |
| SessionsProofs.RefreshKeepsSessions | go/internal/server/handlers_auth.go:168-231 | A refresh succeeds exactly when a session holds the token unexpired, changes that one alone, and never the number of sessions |
| SessionsProofs.ReplayRevokes | go/internal/server/handlers_auth.go:198-223 | A consumed token ends the session it renewed after 30 s and changes nothing before |
| SessionsProofs.FailedInsertPutsBack | go/internal/server/handlers_auth.go:404-412 | A failed INSERT puts the code back to approved, for the next poll to claim |
| SessionsProofs.PairingMints | go/internal/server/handlers_auth.go:281-421 | A pairing that nothing fails, created, approved under its user code, polled, claimed: one new session with its two expiries, and the code spent |
| SessionsProofs.SessionsNeedApproval | go/internal/server/handlers_auth.go:322-479 | A claim starts only on an approved code; a code is approved by its user code while pending and not expired, or put back by its own claim; it is minted by its claim |
| SessionsProofs.SessionsEnd | go/internal/server/handlers_auth.go:144-264 | A session ends by a logout, by a late replay, or once its refresh token expired; the cleanup, unlike the refresh, takes a row without an expiry for expired |
| SessionsProofs.PollsAndCleanups | go/internal/server/handlers_auth.go:277-405 | A poll claims an approved code in time, notes an expired one and otherwise changes nothing; a user who must change the password gets no session; a cleanup drops exactly the expired codes |
| Sessions.Tables.Refresh | go/internal/server/handlers_auth.go:188-198 | The conditional UPDATE over the rows |
| Sessions.Tables.Claim | go/internal/server/handlers_auth.go:356-364 | The atomic claim of an approval |
| Sessions.Tables.Mint | go/internal/server/handlers_auth.go:404-412 | The INSERT, or its failure |
| Sessions.Tables.Restore | go/internal/server/handlers_auth.go:409-409 | Only an expired row is put back |
| Sessions.Tables.Approve | go/internal/server/handlers_auth.go:468-479 | Only live pending rows are approved |
| Schedule.Active | go/internal/schedule/schedule.go:64-86 | Active is membership of the minute of the week in the union of the windows on the 7x1440-minute circle |
| ScheduleProofs.TestIsCover | go/internal/schedule/schedule.go:69-85 | Its test of today's and yesterday's windows is membership in one arc of the circle |
| ScheduleProofs.NormalizeKeepsArmed | go/internal/schedule/schedule.go:180-218 | Normalizing changes no minute of the week |
| ScheduleProofs.NormalizeIsIdempotent | go/internal/schedule/schedule.go:180-218 | Normalizing twice is normalizing once, in whatever order the map is visited |
| ScheduleProofs.FormattedParses | go/internal/schedule/schedule.go:109-154 | Parsing a formatted window gives back the interval |
| ScheduleProofs.MinutesRead | go/internal/schedule/schedule.go:134-155 | Hours and minutes are a time of day up to 24:00, and nothing else is |
| ScheduleProofs.IntervalRead | go/internal/schedule/schedule.go:109-132 | Two different times are a window, wrapping when the second comes first; none starts at 24:00 or ends at 00:00 |
| ScheduleProofs.NotRead | go/internal/schedule/schedule.go:109-142 | What is not two times with a dash between is no window |
| ScheduleProofs.SortIsStable | go/internal/schedule/schedule.go:210-210 | The windows of a day are ordered by start and equal starts keep their order |
| ScheduleProofs.ValidKeepsWindows | go/internal/schedule/schedule.go:161-173 | Rules that validate lose no window and still validate |
| Schedule.Compile | go/internal/schedule/schedule.go:92-106 | The compiled windows of each weekday |
| Schedule.Normalize | go/internal/schedule/schedule.go:180-218 | The clean-up loop |

## Left out
- RecorderProofs.Run: RTP, codecs and the wiring of callbacks; access units and samples are the events.
- RecorderProofs.DecodeTimeOk: what the DTS extractor computes; it is any function that may fail, and pictures that hold a slice are taken to fill a sample.
- Recorder.Recorder.Receive: the hand-over of finalized samples to the live broadcaster, and the log.
- Recorder.SegmentFile.Close: the mvhd duration written back into the init, and fsync.
- Clock.MulDivStaysIn64Bits: overflow of 64-bit sums elsewhere; ticks and nanoseconds are unbounded.
- Recovery.Measure: reading the boxes; it starts from decoded fragments, and it is a method on values because the source's walk only reads.
- RecoveryProofs.MeasureAgrees: parts with a hole in their audio or with negative times, on which the two computations may differ by the hole.
- Muxer.Muxer.WriteSample: finding the track by its id (tracks go by position), the payload callback and the writer's errors.
- MuxPartsSpec.Walk: reading the payloads, and the errors of a malformed file (unknown track, trun before tfdt).
- MuxPartsProofs.StitchedSegment: one segment through one muxer; the follow-on segments and the gaps between them, which share it, are not composed.
- Filler.VideoFill.Accept: the choice of a segment's placeholder picture, which is a parameter.
- PauseEngine.StepOk: the loop and Start appear as atomic steps, not as methods, because their threads interleave; the back-off's length.
- PauseServer.StepOk: one camera; deleting it and its PTZ and talk caches.
- PauseServer.Server.Reconfigure: runs without another thread's step inside it; the interleavings are those of StepOk.
- LiveProofs.StepOk: the queue between recorder and marshaller, which may drop samples before they are taken; codec strings; the info page.
- LiveProofs.NothingTakenIsLost: sequences of samples after a SetTracks that failed on a running stream, which the engine rules out.
- Store.TrackStore.CommitActive: the .tmp files of an interrupted sidecar write, the empty staging directory, a build named like that directory, and a pending.json that cannot be removed.
- StoreProofs.ServedFilesMatch: the one-shot Publish, which the server does not use, and downloads in progress.
- RepairProofs.SamplesCutBack: rounding of the tool's floating-point thresholds (exact quotients here), the dry run, and samples that take their track's default duration.
- Repair.RepairMapped: reads past the end of a damaged file, which raise in the tool; the index database.
- Throttle.AuthThrottle.Begin: the nil throttle of tests, and the limiter for pairing codes.
- SessionsProofs.ExchangedAtMostOnce: passwords, roles, expiry of access tokens and the security log.
- Schedule.Active: reading weekday and minute off a clock; identifiers, names and storage of schedules.
- G.711 tables, ADTS headers and the resampler; disk hysteresis, event merging, slugs, sizes, user-agent labels and the last-admin guard; HTTP handlers, configuration, metrics and the web user interface.
