# Meet++ in Dafny

A model of the live-transcription pipeline of Meet++ (the agent, the speech
service it calls, the hand-over of the stage in the meeting API) and of a few
scripts around it, with proofs of what the pipeline promises in its comments and
documentation. `dafny verify dfyconfig.toml` checks everything.

## What is modelled

**Utterance segmentation** (`EnergyCut`, `Segmentation`, `SegmentationRuns`,
`SegmentationStarts`, `SegmentationSpeech`, `Segmenter`). `Segmenter` has the
growable buffer in an array and the segmenter whose fields are updated frame by
frame; every method is proved equal to a function of the state in `Segmentation`.
The speech model is an arbitrary function of its recurrent state and the frame.
`SegmentationRuns` keeps a history beside the state (the framed stream, the
probabilities heard, the boundaries, the pieces of speech closed) and proves, for
every sequence of process, flush and reset calls, where utterances start and end
and that they hold what process was given there. `SegmentationStarts` and
`SegmentationSpeech` say of the probabilities alone when an utterance opens and
ends, from where to where its speech is counted, and whether it is returned.
Thresholds and lengths are symbolic; `Params.Valid` collects the side conditions
that the defaults meet.

**The stage and the room metadata** (`Stage`, `StageRuns`, `RoomPatch`,
`StageRoom`). The five stage moves change a metadata document in place. They are
related to an account of the *base presenter*, the one that is there when no
stream is. The locked read-change-write of the metadata is a step protocol for
any number of clients; the stage's run is then the run of all clients' moves in
lock order. One promise needs a condition: that the presenter comes back to the
base after the last stream, whatever streams come and go, is certain exactly in
the states in which no stream is on the stage that nobody sends
(`ComesBackExactly`). The host's choice leaves such a state exactly when the
chosen key is not a stream that is not live, which can be told before the choice
(`ChoiceKeepsExactly`). Another promise does too: that concurrent patches lose no
update. A write that a client gave up on releases the lock and may still land;
an update is lost exactly when something is stored that was not made of the
document that is there, which takes such a landing (`LostExactly`,
`LandKeepsExactly`, `LateLanding`).

**The final pass** (`FinalPass`) with bounded concurrency and one request per
speaker, **the delivery queue** (`Poster`) with retries, expiry and items put
while a request is awaited, and **the transcription worker** (`Worker`) with its
two threads, drop policy and degrade flag. They are classes; awaits and lock
regions are where other tasks may act. A request that the queue gave up on may
still reach the server at any time later.

**The admission gate** (`Gate`) beside the FIFO semaphore of CPython 3.12 (the
version the install script prefers). A waiter that was granted a slot, or
cancelled, stays in the semaphore's queue until its task runs. The plain counters
agree with the semaphore except in two windows that `CheckAgrees` states exactly;
`WindowLetsThrough` and `WindowHoldsBack` are runs that reach them, for all
durations the service sends. So the waiting audio exceeds its limit exactly when
a request that does not fit arrives in the first window (`LimitKeptExactly`), and
a request that could run is refused exactly in the second (`RefusalsAreJust`).

**Repetition** (`Repetition`): the two loop detectors, in two services, on word
lists. **Clip cache** (`TtsCache`): interleavings of `get` for one clip, the lock
table whose entry disappears while others wait, cancellation, and deletion by the
retention job; deletion is harmless exactly in the states of `SafeToDelete`.
**Locale files** (`Locale`, `LocaleFiles`): flattening, rebuilding and patching
nested dictionaries, with the nodes updated in place. **Matching** (`Assign`),
**captions** (`Wrap`), **speaking time** (`Speaking`) and **replay cache**
(`Replay`).

Where arithmetic is on floating-point numbers, the model uses exact reals.

Four places where the code and its own words differ; the model follows the code.
The admission gate's comment says that the counters need no lock because there is
no await between check and update; that holds, but the counters still differ from
the semaphore between a grant and the moment the granted task runs. The stage's
documentation says that the previous presenter comes back when a stream stops;
while a stream is on the stage that the host chose and nobody sends, it does not.
The delivery queue's items are said to stay in order; a request that was given up
on and arrives after its items expired can come behind later ones, and the order
of first arrivals is kept exactly while no such request arrives
(`ArriveKeepsExactly`, `LateArrival`), so whenever nothing expired (`FirstArrivals`).
The replay cache is said to keep a signature as long as its timestamp is good; but
the clock is read again after the timestamp was checked, and a signature verified
within its window is accepted again exactly if the guard is asked when the cache
has forgotten it (`AgainExactly`), which takes a pause between the two readings
at least as long as the first acceptance came after the start of the window
(`SecondTakesDelay`), none at all if it came at that start.

## Model

| member | source | states |
|---|---|---|
| EnergyCut.WindowEnergy | meetpp-agent/agent/vad.py:424-426 | a window's energy computed as a difference of prefix sums is the direct sum of its squares |
| EnergyCut.ArangeHas | meetpp-agent/agent/vad.py:425 | every multiple of the hop that leaves room for a window is a candidate |
| EnergyCut.ArangeAligned | meetpp-agent/agent/vad.py:425 | every candidate window starts at a multiple of the hop |
| EnergyCut.QuietestWindow | meetpp-agent/agent/vad.py:420-427 | the chosen window has the least directly summed energy of all candidates, and is the first such |
| EnergyCut.CutIsQuietest | meetpp-agent/agent/vad.py:416-428 | the cut is the centre of a hop-aligned window of the search zone that none is quieter than, and every earlier one is strictly louder |
| EnergyCut.CutPosition | meetpp-agent/agent/vad.py:416-428 | the cut lies after the first sample, within the buffer and within the search zone |
| Segmentation.DefaultsAreValid | meetpp-agent/agent/vad.py:45-54 | the default thresholds and lengths meet the side conditions of the run theorems |
| Segmentation.Cut | meetpp-agent/agent/vad.py:398-413 | cutting shortens the buffer, so the cut loop ends; no sample is lost, and the open speech goes on, and is counted, from where the cut ended |
| Segmentation.Drain | meetpp-agent/agent/vad.py:295-304 | less than one frame stays pending |
| Segmentation.DrainSplit | meetpp-agent/agent/vad.py:295-304 | any input may be split at any sample: the utterances, the state and the rest are the same |
| Segmentation.ChunkIndependence | meetpp-agent/agent/vad.py:295-304 | with any samples pending, process(a) then process(b) returns and leaves what process(a + b) does |
| SegmentationRuns.FreshInv | meetpp-agent/agent/vad.py:263-279 | a new segmenter satisfies the run invariant |
| SegmentationRuns.HearKeeps | meetpp-agent/agent/vad.py:332-337 | appending a frame keeps the buffer equal to that slice of the framed stream, and all closed pieces intact |
| SegmentationRuns.ExpireKeeps | meetpp-agent/agent/vad.py:338-343 | a run that stays alive is no older than the maximum, counted from its first frame |
| SegmentationRuns.RunGrows | meetpp-agent/agent/vad.py:339-349 | the run starts at a loud frame with none below the end threshold since, and its counter is the number of loud frames heard in it |
| SegmentationRuns.TrimKeeps | meetpp-agent/agent/vad.py:354-358 | trimming leaves at most pre-roll plus the longest run, and drops exactly what lies before the later of the two limits |
| SegmentationRuns.TrimInv | meetpp-agent/agent/vad.py:354-359 | trimming never discards audio that a live run, or a run to come, needs for its pre-roll |
| SegmentationRuns.OpenKeeps | meetpp-agent/agent/vad.py:373-381 | an utterance opens at the later of onset minus pre-roll and the last boundary; the buffer-age limit never bites |
| SegmentationRuns.IdleFrame | meetpp-agent/agent/vad.py:338-359 | an idle frame keeps the invariant and returns nothing; if it opens, the utterance starts at the later of onset minus pre-roll and the last boundary, else the buffer stays within its limit |
| SegmentationRuns.SilenceKeeps | meetpp-agent/agent/vad.py:361-364 | the silence mark is the first frame below the end threshold since the last loud frame |
| SegmentationRuns.SilenceUnique | meetpp-agent/agent/vad.py:361-364 | there is at most one such frame |
| SegmentationRuns.FinishKeeps | meetpp-agent/agent/vad.py:383-396 | finishing emits exactly the stream between its indices, or discards it if and only if its speech is shorter than the minimum, and the tail seeds the next pre-roll |
| SegmentationRuns.CutKeeps | meetpp-agent/agent/vad.py:398-413 | a cut piece is the stream between its indices, within the maximum, and the open speech goes on and is counted from where it ended |
| SegmentationRuns.CutAllKeeps | meetpp-agent/agent/vad.py:368-371 | cutting repeats until the open speech is shorter than the maximum |
| SegmentationRuns.SpeechFrame | meetpp-agent/agent/vad.py:360-371 | a frame in speech keeps the invariant, and ends the utterance exactly when the first quiet frame since the last loud one is old enough |
| SegmentationRuns.EndKeeps | meetpp-agent/agent/vad.py:365-367 | an utterance that ends by silence fits the maximum although its end lies before the current frame |
| SegmentationRuns.FlushKeeps | meetpp-agent/agent/vad.py:306-314 | flush keeps the invariant with the end of the stream as the new boundary, and returns something only when speech was open |
| SegmentationRuns.ResetKeeps | meetpp-agent/agent/vad.py:316-320 | reset discards open speech, moves the boundary to the end of the stream and starts the model afresh |
| SegmentationRuns.PushAllIsDrain | meetpp-agent/agent/vad.py:295-304 | the history is a shadow: with it process computes what it computes without |
| SegmentationRuns.RunKeeps | meetpp-agent/agent/vad.py:244-413 | every sequence of process, flush and reset calls keeps the invariant |
| SegmentationRuns.StreamOfARun | meetpp-agent/agent/vad.py:295-320 | in every run the framed stream and what is pending are exactly what process was given, less what a reset throws away |
| SegmentationRuns.UtterancesOfARun | meetpp-agent/agent/vad.py:383-413 | in every run each utterance is what process was given between its indices, fits the maximum, holds the minimum of speech unless cut, reports no more speech than it has audio, and utterances are in order and disjoint |
| SegmentationRuns.CutContinues | meetpp-agent/agent/vad.py:398-413 | in every run the piece after a cut, or the speech still open, starts exactly where the cut ended |
| SegmentationRuns.EndingsOfARun | meetpp-agent/agent/vad.py:360-371 | in every run speech ends with a frame if and only if the silence since the last loud frame has then lasted long enough |
| SegmentationStarts.OneCurrent | meetpp-agent/agent/vad.py:338-349 | at most one run of loud frames is current |
| SegmentationStarts.MarkStep | meetpp-agent/agent/vad.py:339-353 | the run mark is the start of the current run: the first loud frame after the boundary, or after the run before was ended by a quiet frame or grew too old |
| SegmentationStarts.OpensExactly | meetpp-agent/agent/vad.py:338-359 | an idle frame opens an utterance if and only if the loud frames of the current run reach the start length, and then from the start of that run |
| SegmentationStarts.EndsQuietly | meetpp-agent/agent/vad.py:365-367 | an utterance that ends leaves no run behind: no loud frame since its end counts for the next |
| SegmentationSpeech.OpensOnce | meetpp-agent/agent/vad.py:338-352 | what opened after a boundary is determined: the run that was first evidence enough, and the frame with which it was |
| SegmentationSpeech.FromUnique | meetpp-agent/agent/vad.py:373-413 | from where speech is counted is determined |
| SegmentationSpeech.IdleSpoken | meetpp-agent/agent/vad.py:338-359 | an idle frame keeps the account of speech: it opens with the first evidence since the boundary, else there has been none |
| SegmentationSpeech.FinishCounts | meetpp-agent/agent/vad.py:383-396 | what finishing returns is counted from the onset to the silence, or to the end without one; it is nothing if and only if that is below the minimum, and then the counter of short pieces grows |
| SegmentationSpeech.EndsRight | meetpp-agent/agent/vad.py:365-396 | a closed piece ends with the post-roll after the first silent frame, and its speech with that frame |
| SegmentationSpeech.EndsSpoken | meetpp-agent/agent/vad.py:365-367 | a frame that ends speech keeps the account, and no loud frame since the end counts for the next |
| SegmentationSpeech.CutAllCounts | meetpp-agent/agent/vad.py:398-413 | each piece cut is counted from where the one before ended, is cut at the quietest place of the first maximum length, and what stays open is counted from the last cut |
| SegmentationSpeech.CutsAccounted | meetpp-agent/agent/vad.py:368-371 | each of them is accounted for, and cut as soon as there is too much audio |
| SegmentationSpeech.GoesOnSpoken | meetpp-agent/agent/vad.py:368-371 | a frame in speech that does not end it keeps the account |
| SegmentationSpeech.FlushSpoken | meetpp-agent/agent/vad.py:306-314 | flush closes a piece by the same rule, without post-roll beyond what was heard |
| SegmentationSpeech.ResetSpoken | meetpp-agent/agent/vad.py:316-320 | reset drops a piece, which is not counted as short |
| SegmentationSpeech.OpeningsOfARun | meetpp-agent/agent/vad.py:338-381 | in every run an idle segmenter opens with a frame if and only if the current run is evidence enough; it opens at the later of that run's start minus pre-roll and the last boundary, and an idle buffer stays within its limit |
| SegmentationSpeech.SpeechOfARun | meetpp-agent/agent/vad.py:338-413 | in every run speech is open if and only if there has been evidence since the boundary; start and end of every piece, from where to where its speech is counted, how long that is in milliseconds, whether it is returned, and the counter of short pieces are what the probabilities say |
| SegmentationSpeech.ProbsOfARun | meetpp-agent/agent/vad.py:295-337 | in every run the probabilities are the model's for the frames of what process was given, each in the state that the frames since the last reset left; a flush does not reset the model |
| Segmenter.Buffer.constructor | meetpp-agent/agent/vad.py:69-73 | the buffer holds the initial samples |
| Segmenter.Buffer.Append | meetpp-agent/agent/vad.py:78-85 | appending in place or into a grown array adds exactly the samples given |
| Segmenter.Buffer.DropFront | meetpp-agent/agent/vad.py:90-94 | shifting in place drops exactly the front samples, never more than there are |
| Segmenter.UtteranceSegmenter.constructor | meetpp-agent/agent/vad.py:248-279 | the fields start as the idle state on an empty stream, for any parameters |
| Segmenter.UtteranceSegmenter.ResetState | meetpp-agent/agent/vad.py:323-330 | the fields become the idle state on the given samples; stream position, model and pending samples stay |
| Segmenter.UtteranceSegmenter.Open | meetpp-agent/agent/vad.py:373-381 | the field updates are the opening of the transition system |
| Segmenter.UtteranceSegmenter.Finish | meetpp-agent/agent/vad.py:383-396 | the field updates and the result are the closing of the transition system |
| Segmenter.UtteranceSegmenter.Cut | meetpp-agent/agent/vad.py:398-413 | the field updates and the result are the cut of the transition system |
| Segmenter.UtteranceSegmenter.PushFrame | meetpp-agent/agent/vad.py:332-371 | one frame through the fields is one frame of the transition system |
| Segmenter.UtteranceSegmenter.PushSpeech | meetpp-agent/agent/vad.py:360-371 | the in-speech half of a frame on the fields is that of the transition system |
| Segmenter.UtteranceSegmenter.PushIdle | meetpp-agent/agent/vad.py:338-359 | the idle half of a frame on the fields is that of the transition system |
| Segmenter.UtteranceSegmenter.CutAll | meetpp-agent/agent/vad.py:368-371 | the loop over the fields is the recursive cutting, piece by piece in order |
| Segmenter.UtteranceSegmenter.Trim | meetpp-agent/agent/vad.py:354-358 | trimming the buffer in place is the trim of the transition system |
| Segmenter.UtteranceSegmenter.Process | meetpp-agent/agent/vad.py:295-304 | the framing loop computes Drain on what was pending and what came |
| Segmenter.UtteranceSegmenter.Flush | meetpp-agent/agent/vad.py:306-314 | flush on the fields is flush of the transition system; pending samples stay |
| Segmenter.UtteranceSegmenter.Reset | meetpp-agent/agent/vad.py:316-320 | reset on the fields is reset of the transition system; pending samples go |
| Stage.Metadata.PutLive | meeting-api/app/stage.py:43-47 | the live streams are stored, or the field goes when there are none |
| Stage.Metadata.PopPrev | meeting-api/app/stage.py:71 | the kept presenter, or nobody, takes the stage and is kept no longer |
| Stage.Metadata.StreamStarted | meeting-api/app/stage.py:50-62 | the in-place updates and the answer are those of the move |
| Stage.Metadata.StreamStopped | meeting-api/app/stage.py:65-78 | the in-place updates and the answer are those of the move |
| Stage.Metadata.BoardStarted | meeting-api/app/stage.py:81-92 | the in-place updates and the answer are those of the move |
| Stage.Metadata.BoardEnded | meeting-api/app/stage.py:95-103 | the in-place updates and the answer are those of the move |
| Stage.Metadata.Chosen | meeting-api/app/stage.py:106-110 | the in-place updates and the answer are those of the move |
| Stage.ScreenKey | meeting-api/app/stage.py:29-35 | the key of a screen share is a stream whoever shares |
| Stage.SetLiveMeans | meeting-api/app/stage.py:38-47 | what is stored reads back, whatever the field held before, and no other field changes |
| Stage.StartedMeans | meeting-api/app/stage.py:50-62 | on any well-typed document a start does to presenter, previous presenter and streams what the abstract move does |
| Stage.StoppedMeans | meeting-api/app/stage.py:65-78 | on any well-typed document a stop does what the abstract move does |
| Stage.ApplyMeans | meeting-api/app/stage.py:50-110 | every move does what the abstract move does, leaves the document well formed, and touches no other field |
| Stage.FalseMeansUnchanged | meeting-api/app/stage.py:50-103 | a move that answers False left the document as it was; a stream move does so if and only if the stream list was well formed |
| StageRuns.StepKeeps | meeting-api/app/stage.py:50-110 | streams never move the base presenter, the board and choices do as said, and the stage invariants hold on |
| StageRuns.LiveStageStep | meeting-api/app/stage.py:50-110 | exactly what each move does to a live stage: a careful choice or any start makes it live, a stop does if it is of the stream on the stage, the board has no say |
| StageRuns.StopIsIdempotent | meeting-api/app/stage.py:65-78 | repeating a stop changes nothing |
| StageRuns.RunKeeps | meeting-api/app/stage.py:50-110 | from any stage in every run the base is that of the account without streams, and with no stream live the presenter is the base if and only if the stage is live |
| StageRuns.BaseComesBack | meeting-api/app/stage.py:65-78 | in a run whose choices were of live streams only, the presenter is the base whenever no stream is live |
| StageRuns.ComesBackExactly | meeting-api/app/stage.py:65-78 | every sequence of stream moves that ends without live streams brings the base back if and only if no stream is on the stage that nobody sends |
| StageRuns.ChoiceKeepsExactly | meeting-api/app/stage.py:106-110 | a choice leaves it so if and only if the chosen key is not a stream that is not live |
| StageRuns.DeadChoiceSticks | meeting-api/app/stage.py:106-110 | after any choice of a stream that is not live, stopping the live streams leaves it on the stage while the base is nobody |
| StageRuns.StopAll | meeting-api/app/stage.py:65-78 | stopping the live streams one by one leaves a stream that nobody sends in place |
| StageRuns.PresenterReturns | meeting-api/app/stage.py:7-22 | from a live stage without live streams to the next moment without, whatever streams came and went, the presenter is the same |
| StageRuns.StreamsKeepBase | meeting-api/app/stage.py:50-78 | no sequence of stream starts and stops changes the base |
| StageRuns.NewestStreamPresents | meeting-api/app/stage.py:50-78 | as long as the host does not choose, a stream that presents is the most recent one still live |
| StageRuns.LiveStep | meeting-api/app/stage.py:50-78 | which streams are live after each move: a start adds its stream, a stop takes its stream away, nothing else changes any |
| StageRuns.PresenterStep | meeting-api/app/stage.py:50-110 | who presents after each move: a start takes a stage that has a presenter, a stop of the presenting stream gives it to the newest stream still live or the base presenter, the board takes it unless a stream holds it |
| StageRuns.StageIs | meeting-api/app/stage.py:50-110 | presenter, live streams and base presenter are all there is to a stage |
| StageRuns.LiveOfARun | meeting-api/app/stage.py:50-78 | in every run a stream is live if and only if its last start or stop was a start, and the live streams stand in the order in which they were last started |
| StageRuns.LiveOnce | meeting-api/app/stage.py:52 | in every run no stream stands twice among the live ones |
| StageRuns.NewestTakesOver | meeting-api/app/stage.py:65-78 | in every run, when the stream on the stage stops, the stage goes to the most recently started stream still live, or to the base presenter if there is none |
| RoomPatch.LockStep | meeting-api/app/room_metadata.py:27-38 | every step keeps mutual exclusion, and the holder's copy current unless something lands harmfully |
| RoomPatch.LogGrows | meeting-api/app/room_metadata.py:63-68 | one more entry keeps the log explaining the document if and only if it was made of the document that was there |
| RoomPatch.LandKeepsExactly | meeting-api/app/room_metadata.py:65-67 | an abandoned write that lands keeps the log right if and only if its change still makes that copy of the document, and the whole invariant if and only if nobody inside holds an older one |
| RoomPatch.StepKeeps | meeting-api/app/room_metadata.py:41-68 | every step of every client, and every harmless landing, keeps the protocol invariant |
| RoomPatch.InvHolds | meeting-api/app/room_metadata.py:41-68 | the invariant holds after every interleaving in which nothing lands harmfully |
| RoomPatch.NoLostUpdate | meeting-api/app/room_metadata.py:41-68 | unless something lands harmfully, the document is the fold, in lock order, of the changes that wrote, each applied to what the one before left; no two clients are inside together |
| RoomPatch.LostExactly | meeting-api/app/room_metadata.py:41-68 | in every interleaving whatever, no update was lost if and only if nothing was stored that was not made of the document that was there |
| RoomPatch.HarmlessNeverStale | meeting-api/app/room_metadata.py:52-67 | only a harmful landing leads to that |
| RoomPatch.LateLanding | meeting-api/app/room_metadata.py:52-67 | a run in which a write given up on lands after another client's patch; the patch is lost unless the change makes the same copy of what the patch left |
| RoomPatch.OkAlways | meeting-api/app/room_metadata.py:41-68 | what every change keeps holds of the document after every interleaving, late landings included |
| RoomPatch.SkippingLosesNothing | meeting-api/app/room_metadata.py:63-64 | if a change that answers False changes nothing, the document is the fold of all changes, skipped writes included |
| RoomPatch.ComputeMeans | meeting-api/app/room_metadata.py:54-64 | a call that has read applies its change unless it requires the room and saw none; then it is over, the lock is free and nothing else has changed |
| RoomPatch.SourcedStep | meeting-api/app/room_metadata.py:41-68 | every step keeps what SourcedAlways states |
| RoomPatch.SourcedAlways | meeting-api/app/room_metadata.py:41-68 | in every interleaving every write sent, abandoned or logged is what its call makes of the document it saw, so none is of a call that required a room and saw none; such a call answers None, and every other that answers concluded its change and answers the result |
| StageRoom.PatchKeeps | meeting-api/app/stage.py:50-110 | a stage move beside changes of other fields, which may depend on the document, acts on the stage as the move alone and leaves the other fields as changed; a skipped write would have written the same |
| StageRoom.PatchesAreHonest | meeting-api/app/room_metadata.py:48-51 | the stage moves meet the condition under which skipping loses nothing |
| StageRoom.ViewOfAll | meeting-api/app/stage.py:50-110 | folding documents and running moves agree |
| StageRoom.StageSurvivesInterleaving | meeting-api/app/room_metadata.py:27-68 | after every interleaving of any clients in which nothing stale was stored, from any stage, the stage is the run of all their moves in lock order, with the base presenter they say |
| StageRoom.AnswerExactly | meeting-api/app/stage.py:50-110 | a stream move or the end of the board answers False if and only if it changed nothing, the start of the board if and only if the board already presents, a choice never |
| StageRoom.InvariantsAlways | meeting-api/app/stage.py:50-110 | the document is well formed and the stage invariants hold after every interleaving, late landings included |
| StageRoom.ChoiceCanBeLost | meeting-api/app/room_metadata.py:65-67 | a run in which the host's choice is lost to a late landing and nobody presents |
| FinalPass.PickIsFull | meetpp-agent/agent/session.py:1091-1100 | what is started is distinct free speakers within the room left, and nothing startable is left behind |
| FinalPass.PickIsEarliest | meetpp-agent/agent/session.py:1091-1102 | what starts are the earliest entries that may, in time order, and what is left keeps its order |
| FinalPass.PickKeepsOrder | meetpp-agent/agent/session.py:1091-1100 | no entry is lost and no speaker's order changes |
| FinalPass.FillKeepsSpeakers | meetpp-agent/agent/session.py:1089-1100 | busy stays the set of the speakers that run, one task each, within the concurrency |
| FinalPass.FillKeepsOrder | meetpp-agent/agent/session.py:1091-1100 | settled, running and pending entries of a speaker stay in time order |
| FinalPass.SettleKeepsOrder | meetpp-agent/agent/session.py:1102-1105 | whichever request finishes, its speaker's entries stay in time order |
| FinalPass.SettleKeeps | meetpp-agent/agent/session.py:1102-1105 | finishing keeps busy, the limits and the order |
| FinalPass.SettleContexts | meetpp-agent/agent/session.py:1107-1126 | the context of each speaker is made of the texts of all its settled entries, and prompts already read stay right |
| FinalPass.Counted | meetpp-agent/agent/session.py:1071 | every settled entry is counted once |
| FinalPass.OutcomeIsJudged | meetpp-agent/agent/session.py:1109-1126 | an exception fails, an answer refines with its own text if and only if it is neither empty nor degenerate, and everything else keeps the earlier text |
| FinalPass.PostedMeans | meetpp-agent/agent/session.py:1124 | the texts handed on are exactly those of the good answers, each once |
| FinalPass.Scheduler.constructor | meetpp-agent/agent/session.py:1045-1071 | the pass starts with everything pending |
| FinalPass.Scheduler.Fill | meetpp-agent/agent/session.py:1090-1100 | starting is work-conserving, and something runs if anything was left to do, so the wait is never for nothing |
| FinalPass.Scheduler.StartFree | meetpp-agent/agent/session.py:1091-1100 | the scan with in-place removal starts the entries that Pick says and keeps the rest in order |
| FinalPass.Scheduler.ReadPrompt | meetpp-agent/agent/session.py:1051 | a prompt sees the texts of all earlier entries of its speaker |
| FinalPass.Scheduler.Settle | meetpp-agent/agent/session.py:1102-1126 | a finished request is settled once; only a text that is neither empty nor degenerate replaces the earlier one and is handed on; the invariants hold on; its answer is kept with the outcome it came to |
| FinalPass.Scheduler.AwaitSome | meetpp-agent/agent/session.py:1101-1102 | each round settles at least one request |
| FinalPass.Scheduler.Run | meetpp-agent/agent/session.py:1086-1126 | for every order and outcome the pass ends; ok + kept + fail is the number of entries; every entry is settled once, each speaker's in time order, every prompt made of all its earlier results; the refinements handed on are exactly the texts of the ok entries, in that order; success means no failure |
| Poster.CountsAdd | meetpp-agent/agent/poster.py:119-121 | the three ways to leave the queue cover all that left |
| Poster.ArriveKeepsExactly | meetpp-agent/agent/poster.py:246-285 | a request the server sees, at whatever time, keeps first arrivals in enqueue order if and only if everything new in it comes after all that has arrived |
| Poster.HeadIsHarmless | meetpp-agent/agent/poster.py:195-216 | a request from the head of the queue, its repetition after a lost answer, or a late one none of whose items expired unseen, is harmless |
| Poster.LateArrival | meetpp-agent/agent/poster.py:219-251 | a request that arrives after its items expired unseen and later ones were seen breaks the order |
| Poster.ExpireTold | meetpp-agent/agent/poster.py:219-227 | expiring exactly what is too old keeps the account of the loop |
| Poster.RequestTold | meetpp-agent/agent/poster.py:204-216 | one request, answered or not, keeps it |
| Poster.TurnTold | meetpp-agent/agent/poster.py:197-216 | a turn keeps it: every request held the batch of what was pending and nothing older than the window; every item that left was too old, or was in an accepted or a refused request, as its fate says; requests follow one another in queue order, and after a failure not before its delay |
| Poster.Poster.constructor | meetpp-agent/agent/poster.py:94-122 | a new queue is empty and idle |
| Poster.Poster.Conservation | meetpp-agent/agent/poster.py:119-148 | enqueued = sent + rejected + expired + pending |
| Poster.Poster.FirstArrivals | meetpp-agent/agent/poster.py:195-227 | at every suspension point first arrivals are in enqueue order unless a harmful request was seen, so always if nothing expired |
| Poster.Poster.Reach | meetpp-agent/agent/poster.py:246-249 | a request seen by the server keeps the queue's invariants, and harms the order if and only if it is not harmless, so never from the head |
| Poster.Poster.Put | meetpp-agent/agent/poster.py:141-144 | an item goes to the end with the time it was put |
| Poster.Poster.Suspend | meetpp-agent/agent/poster.py:201-212 | whatever other tasks put while the loop is suspended goes behind what is pending, whatever was given up on may arrive, and the invariants hold |
| Poster.Poster.Expire | meetpp-agent/agent/poster.py:219-227 | exactly the items older than the window are dropped, because the queue is in time order |
| Poster.Poster.TakeBatch | meetpp-agent/agent/poster.py:235-244 | the longest same-kind prefix within the limit; a status goes alone |
| Poster.Poster.Send | meetpp-agent/agent/poster.py:246-285 | the status code decides: below 400 sent, below 500 rejected, else or without an answer retry; items answered have reached the server, counters move by the batch, and the batch stays the front of the queue |
| Poster.Poster.Exchange | meetpp-agent/agent/poster.py:250-256 | while a request is awaited items are put and requests given up on may arrive, now or later; an answer below 500 means the server saw the items |
| Poster.Poster.PopLeft | meetpp-agent/agent/poster.py:215-216 | exactly the answered items leave, with their fate |
| Poster.Poster.Deliver | meetpp-agent/agent/poster.py:204-216 | the request holds the longest same-kind prefix; an answer gives exactly that batch its fate and ends the failures in a row; no answer leaves it pending and costs the attempt's delay |
| Poster.Poster.WaitToRetry | meetpp-agent/agent/poster.py:208-213 | waiting out a failure takes at least its delay, counts one retry and loses nothing, whatever is put meanwhile |
| Poster.Poster.Once | meetpp-agent/agent/poster.py:197-216 | one turn: exactly what is older than the window expires, and if anything is left one request is made of it, with that effect; with nothing to do it goes idle |
| Poster.Poster.Run | meetpp-agent/agent/poster.py:195-217 | conservation, time order, and order of first arrivals unless a harmful request arrived, hold at every suspension point of any stretch of the loop, and the account of its requests at every turn; fates, arrivals and requests are never revised |
| Poster.Poster.Delay | meetpp-agent/agent/poster.py:210 | each failure in a row has its delay from the table, and all after the table the last |
| Poster.Poster.SetIdle | meetpp-agent/agent/poster.py:198-217 | idle is set only with nothing pending, or when closing |
| Worker.FirstIsOldest | meetpp-agent/agent/worker.py:133-136 | the first match in the queue is the oldest of that session |
| Worker.BacklogIsOldestAge | meetpp-agent/agent/worker.py:128-137 | the measured backlog is the maximum age over all unfinished items of the session, zero when there are none |
| Worker.DegradedMeans | meetpp-agent/agent/worker.py:151-163 | degraded if and only if some measured backlog exceeded the upper bound and none since fell below the lower |
| Worker.AppendStep | meetpp-agent/agent/worker.py:96-102 | a submitted item has one fate: it waits |
| Worker.DropStep | meetpp-agent/agent/worker.py:139-144 | dropped items leave the queue and belong to the thread that dropped them |
| Worker.ReportStep | meetpp-agent/agent/worker.py:146-149 | a drop is reported once |
| Worker.PopStep | meetpp-agent/agent/worker.py:171-172 | the popped item is in flight and nowhere else |
| Worker.AnswerStep | meetpp-agent/agent/worker.py:189-190 | the item in flight is answered once |
| Worker.CancelStep | meetpp-agent/agent/worker.py:119-125 | cancelling takes exactly the session's waiting items; the one in flight completes |
| Worker.Selected | meetpp-agent/agent/worker.py:122-123 | the split by session loses and doubles nothing |
| Worker.STTWorker.constructor | meetpp-agent/agent/worker.py:52-76 | a new worker has nothing submitted and is not degraded |
| Worker.STTWorker.MeasuredBacklog | meetpp-agent/agent/worker.py:104-106 | at every point the reported backlog is the age of the oldest unfinished item |
| Worker.STTWorker.Stamp | meetpp-agent/agent/worker.py:97 | the time is taken before the lock, so it may be older than the append |
| Worker.STTWorker.Append | meetpp-agent/agent/worker.py:98-100 | the item is appended and exactly the items over the limit are taken off the front |
| Worker.STTWorker.Enqueue | meetpp-agent/agent/worker.py:99 | the stamped item goes to the end of the queue and waits |
| Worker.STTWorker.DropWaiting | meetpp-agent/agent/worker.py:100 | exactly the items over the limit go to the submitting thread's list of drops |
| Worker.STTWorker.Enforce | meetpp-agent/agent/worker.py:139-144 | exactly the items that waited longer than the limit are taken off |
| Worker.STTWorker.ReportDrop | meetpp-agent/agent/worker.py:146-149 | the thread's oldest unreported drop is reported, and nothing else changes fate |
| Worker.STTWorker.EnforceWhileLoading | meetpp-agent/agent/worker.py:199-204 | the drop policy applies while the model loads |
| Worker.STTWorker.NextItem | meetpp-agent/agent/worker.py:165-176 | no item older than the limit is popped, the head of the rest is, and the flag follows the backlog measured with it in flight |
| Worker.STTWorker.Pop | meetpp-agent/agent/worker.py:171-172 | the head of the queue goes in flight |
| Worker.STTWorker.UpdateDegrade | meetpp-agent/agent/worker.py:151-163 | the flag equals the hysteresis over the history of measured backlogs |
| Worker.STTWorker.Answer | meetpp-agent/agent/worker.py:179-191 | the item in flight gets its result |
| Worker.STTWorker.Land | meetpp-agent/agent/worker.py:192-195 | after its result nothing is in flight |
| Worker.STTWorker.CancelSession | meetpp-agent/agent/worker.py:119-125 | the session's waiting items are returned and cancelled, the rest stays in order |
| Worker.STTWorker.SubmitterStep | meetpp-agent/agent/worker.py:96-102 | the submitting thread reports its oldest drop, else appends what it stamped and takes off exactly what is overdue, else stamps; every item keeps one fate |
| Worker.STTWorker.WorkerStep | meetpp-agent/agent/worker.py:165-208 | the worker reports its oldest drop, else answers or lands the item in flight, else takes the oldest item that is not overdue if the model is ready, and while it loads takes none; every item keeps one fate |
| Worker.STTWorker.AnyRun | meetpp-agent/agent/worker.py:96-208 | in every interleaving, with time passing between any two clock readings, every submitted item has exactly one fate, which only develops, and the flag is the hysteresis of the backlogs |
| Gate.LockedMeans | meetpp-speech/meetpp_speech/app.py:62 | acquiring would suspend exactly when no slot is free or one is promised to a task that has not run yet |
| Gate.WakeOneKeeps | meetpp-speech/meetpp_speech/app.py:71 | waking moves one slot to the first pending waiter and keeps the books |
| Gate.ArriveKeeps | meetpp-speech/meetpp_speech/app.py:54-66 | an arrival, refused, waiting or running, keeps the invariant |
| Gate.CheckedFits | meetpp-speech/meetpp_speech/app.py:56-60 | a request admitted under the limit fits it together with all that were |
| Gate.LeaveKeeps | meetpp-speech/meetpp_speech/app.py:63-65 | a waiter that leaves takes exactly its own audio off the count |
| Gate.StepKeeps | meetpp-speech/meetpp_speech/app.py:53-71 | every step, cancellation included, keeps the invariant |
| Gate.GateOfARun | meetpp-speech/meetpp_speech/app.py:40-71 | in every run at most max_parallel requests run, the counters are exact, slots go in order of arrival, and the waiting audio admitted under the limit fits it |
| Gate.CheckAgrees | meetpp-speech/meetpp_speech/app.py:56 | the admission check says what the semaphore says if and only if neither window is open, and always when every task that can run has run |
| Gate.RefusalsAreJust | meetpp-speech/meetpp_speech/app.py:56-58 | a request that could run is refused if and only if the second window is open and its audio does not fit; one that comes to wait escaped the check if and only if the first is |
| Gate.Windows | meetpp-speech/meetpp_speech/app.py:56-62 | the two windows are exactly where the check lets through what must wait, and holds back what could run |
| Gate.OverflowStep | meetpp-speech/meetpp_speech/app.py:53-65 | a step takes the waiting audio over the limit if and only if it is a request that arrives in the first window and does not fit |
| Gate.LimitKeptExactly | meetpp-speech/meetpp_speech/app.py:41-65 | the limit is kept all through a run if and only if no such request arrives in it |
| Gate.WindowLetsThrough | meetpp-speech/meetpp_speech/app.py:33-71 | for all durations the service sends, a run in which a request is let through unchecked and the limit is exceeded |
| Gate.WindowHoldsBack | meetpp-speech/meetpp_speech/app.py:33-71 | for all durations the service sends, a run after which a request is refused although a slot is free, if and only if it does not fit beside the cancelled one |
| Gate.SttGate.constructor | meetpp-speech/meetpp_speech/app.py:45-51 | the gate starts empty |
| Gate.SttGate.Enter | meetpp-speech/meetpp_speech/app.py:54-66 | entering on the fields is the arrival step; a refusal changes nothing |
| Gate.SttGate.LeaveQueue | meetpp-speech/meetpp_speech/app.py:62-66 | a waiter's task that runs again does the resume or unwind step |
| Gate.SttGate.Exit | meetpp-speech/meetpp_speech/app.py:69-71 | leaving does the finish step |
| Repetition.CopiesMeans | meetpp-speech/meetpp_speech/repetition.py:50-55 | counting copies one after the other gives the most for which the words repeat |
| Repetition.CountCopies | meetpp-speech/meetpp_speech/repetition.py:51-55 | the inner loop counts all back-to-back copies |
| Repetition.FirstAt | meetpp-speech/meetpp_speech/repetition.py:47-58 | the first loop of one rule before the best so far, if there is one |
| Repetition.Detect | meetpp-speech/meetpp_speech/repetition.py:43-58 | a loop is found if and only if there is one; it is the earliest, of the shortest n-gram, with all its copies |
| Repetition.CutIsClean | meetpp-speech/meetpp_speech/repetition.py:62-66 | the words before the loop contain no loop: detection on the cut text finds nothing |
| Repetition.HasLoopOf | meetpp-agent/agent/tier2.py:53-61 | one check flags if and only if its n-gram repeats often enough somewhere, twice at least |
| Repetition.HasLoopFrom | meetpp-agent/agent/tier2.py:54-61 | the copying loop at one position answers if and only if enough copies start there, two at least |
| Repetition.HasLoop | meetpp-agent/agent/tier2.py:45-62 | the guard flags if and only if one of its checks holds somewhere, for any numbers of repeats |
| Repetition.DefaultChecks | meetpp-agent/agent/tier2.py:45-49 | the guard's default parameters give the checks that the two services are compared on |
| Repetition.ServicesAgree | meetpp-agent/agent/tier2.py:49-62 | the agent flags a word list if and only if the service finds a loop in it of a length the agent looks for |
| Repetition.CutPassesGuard | meetpp-agent/agent/tier2.py:45-62 | a text the service cut passes the agent's guard |
| Repetition.FlaggedIsFound | meetpp-speech/meetpp_speech/repetition.py:43-58 | where the service finds nothing the agent flags nothing |
| Assign.Match | meeting-api/tools/meetpp_benchmark.py:69-76 | the loop's result maps exactly the accepted pairs |
| Assign.OneToOne | meeting-api/tools/meetpp_benchmark.py:61-76 | accepted pairs reach the threshold and no two share a reference or a candidate |
| Assign.NoBlockingPair | meeting-api/tools/meetpp_benchmark.py:61-76 | every pair that reaches the threshold shares an index with an accepted pair that scores at least as much |
| Assign.HalfOfAny | meeting-api/tools/meetpp_benchmark.py:61-76 | the total is at least half that of any one-to-one matching of eligible pairs |
| Assign.HalfIsReached | meeting-api/tools/meetpp_benchmark.py:61-76 | half is reached, so the factor cannot be improved |
| TtsCache.GetKeeps | meetpp-agent/agent/tts.py:39-51 | a call up to its first await keeps the invariant |
| TtsCache.ResumeKeeps | meetpp-agent/agent/tts.py:49-51 | a waiter that takes the lock, or was cancelled, keeps the invariant |
| TtsCache.HeldStep | meetpp-agent/agent/tts.py:52-65 | every way a call goes on or ends inside the lock keeps the invariant |
| TtsCache.DeleteKeeps | meeting-api/app/meetpp/retention.py:80-107 | deleting the clip in a safe state keeps the invariant |
| TtsCache.StepKeeps | meetpp-agent/agent/tts.py:39-65 | every step of every call keeps the invariant |
| TtsCache.RunKeeps | meetpp-agent/agent/tts.py:39-65 | in every interleaving without deletion at most one call is between its second look and its release, across all locks the table ever held |
| TtsCache.NobodyStranded | meetpp-agent/agent/tts.py:48-49 | whoever waits is behind a call at work or about to run, also after cancellations |
| TtsCache.LeaveMeans | meetpp-agent/agent/tts.py:49-64 | a call that ends with the lock frees it for the first waiter, who is about to run; the writer that returns takes the lock off the table |
| TtsCache.NoneOnceMade | meetpp-agent/agent/tts.py:43-51 | once the clip is there no call starts a synthesis |
| TtsCache.NoneAfterSuccess | meetpp-agent/agent/tts.py:64-65 | after one call returned the clip none starts a synthesis, although the lock has left the table |
| TtsCache.OrphanMeansTwo | meetpp-agent/agent/tts.py:48-64 | a clip that goes while a call waits for a lock that left the table can be synthesised twice at a time |
| TtsCache.DeletionIsSafeExactlyWhen | meeting-api/app/meetpp/retention.py:80-107 | deleting an existing clip can lead to two syntheses at a time if and only if its writer is about to return or a call still waits for a lock that left the table |
| TtsCache.QueuesStep | meetpp-agent/agent/tts.py:49-51 | whoever is queued waits there, whatever retention deletes |
| TtsCache.LookMeans | meetpp-agent/agent/tts.py:43-53 | a look for the clip returns if and only if it is there; without it the call fails if tier 2 is down, synthesises if the lock is free, else waits |
| TtsCache.CallStep | meetpp-agent/agent/tts.py:52-65 | what each step does to a call that does not look: only an Ogg answer or a conversion leads to a write, only a write that landed to a return |
| TtsCache.CallsOfARun | meetpp-agent/agent/tts.py:39-65 | in every run, deletions or not, a call that finds the clip returns, a call returns only if it found the clip or wrote an Ogg file, and what is written, so the clip, was answered as Ogg or converted to it |
| TtsCache.TTSCache.constructor | meetpp-agent/agent/tts.py:34-37 | the table starts empty |
| TtsCache.TTSCache.Get | meetpp-agent/agent/tts.py:39-51 | a call up to its first await does the start step |
| TtsCache.TTSCache.LookAgain | meetpp-agent/agent/tts.py:50-53 | with the lock the call returns the clip and releases, or synthesises |
| TtsCache.TTSCache.Awake | meetpp-agent/agent/tts.py:49-51 | a waiter's task that runs again does the resume step |
| TtsCache.TTSCache.Go | meetpp-agent/agent/tts.py:52-65 | each later section of the call does its step |
| TtsCache.TTSCache.ReleaseLock | meetpp-agent/agent/tts.py:49 | leaving the lock frees it and wakes its first waiter |
| Locale.SplitOfJoin | scripts/translate_locales.py:126 | splitting a dotted key gives back its parts |
| Locale.JoinOfSplit | scripts/translate_locales.py:113 | joining the parts of any string gives it back |
| Locale.FlattenIsLeaves | scripts/translate_locales.py:109-119 | the dotted keys name the paths of the leaves, in order |
| Locale.FlattenDistinct | scripts/translate_missing_keys.py:60-68 | no path is listed twice, so the list is the dictionary |
| Locale.FlattenIsLookup | scripts/translate_missing_keys.py:60-68 | a dotted key is listed with a text if and only if looking it up gives that text |
| Locale.KeysArePrefixFree | scripts/translate_missing_keys.py:60-68 | no dotted key of a file lies above another |
| Locale.BuildLeaves | scripts/translate_locales.py:122-131 | rebuilding beside other keys appends the tree, less what keys cannot carry |
| Locale.RoundTrip | scripts/translate_locales.py:109-131 | unflatten(flatten(t)) is t without empty dictionaries and non-strings, in order; it is t if and only if there are none |
| Locale.TranslationKeepsShape | scripts/translate_locales.py:214-228 | the file written for a language is the English tree, string by string |
| Locale.SetAtMeans | scripts/translate_missing_keys.py:71-80 | a write sets its own key, clears what lies above or below it, and changes nothing else |
| Locale.SetAtKeeps | scripts/translate_missing_keys.py:71-80 | writing an English key keeps a file well keyed |
| Locale.Unrelated | scripts/translate_missing_keys.py:189-190 | writing one English key never disturbs another |
| Locale.Missing | scripts/translate_missing_keys.py:176-180 | exactly the English keys that the file lacks or that were invalidated |
| LocaleFiles.Node.Find | scripts/translate_missing_keys.py:75 | the first place of a key, or none |
| LocaleFiles.Node.Assign | scripts/translate_missing_keys.py:77-80 | assignment keeps the place of a key that is there and appends one that is not |
| LocaleFiles.Node.SetAt | scripts/translate_missing_keys.py:71-80 | going down the nodes in place does what SetAt says to the whole tree |
| LocaleFiles.Node.Flat | scripts/translate_missing_keys.py:60-68 | walking the nodes lists what Flatten says |
| LocaleFiles.Node.Insert | scripts/translate_locales.py:126-130 | setdefault down the nodes and assignment do what Insert says, and fail when it does |
| LocaleFiles.Unflatten | scripts/translate_locales.py:122-131 | the loop over pairs builds the tree that Build says, or fails |
| LocaleFiles.Update | scripts/translate_missing_keys.py:175-192 | every English key keeps its text if present and not invalidated, else has the new translation; a second run finds nothing missing; unrelated keys stay; nothing missing means nothing changed |
| Wrap.WrapLines | encode_bens_call.py:306-317 | the lines hold the words in order, each fits or is one long word, and none has room for the first word of the next |
| Wrap.TightIsLeast | encode_bens_call.py:303-318 | such a layout never has more lines than one that has further words to place before the same ones |
| Wrap.WrapIsLeast | encode_bens_call.py:303-318 | greedy wrapping uses the fewest lines of all layouts whose lines fit |
| Wrap.ChunksCover | encode_bens_call.py:318 | the chunks hold the lines in order, none is empty, and all but the last are full |
| Wrap.SharesMean | encode_bens_call.py:367-371 | shares are in proportion to weight, and the whole weight has the whole span |
| Wrap.Apportion | encode_bens_call.py:366-377 | the chunks' times start with the cue, follow one another without gap or overlap, end with it, and are in proportion to their characters |
| Wrap.ShowCue | encode_bens_call.py:362-377 | one cue from words to timed chunks: nothing shown if there are no words, else all of the above |
| Speaking.SumGrows | meetpp-agent/agent/session.py:369-378 | what a new active list adds to the summed intervals, 201st interval included |
| Speaking.NextExact | meetpp-agent/agent/session.py:369-378 | after a new list the intervals still sum to the time in the list from the forgotten point on |
| Speaking.NextKeeps | meetpp-agent/agent/session.py:369-378 | intervals stay sorted and disjoint, the last open exactly while the identity is in the list, at most 200 |
| Speaking.ForgetsLeast | meetpp-agent/agent/session.py:369-373 | nothing is forgotten until there are 200 intervals, then only the oldest |
| Speaking.LeftKeeps | meetpp-agent/agent/session.py:345-348 | who left starts afresh: nothing counts before |
| Speaking.ChangeKeeps | meetpp-agent/agent/session.py:369-388 | a new list, or a lost connection, keeps this for every identity |
| Speaking.LeaveKeeps | meetpp-agent/agent/session.py:341-348 | a departure keeps it for everyone else |
| Speaking.HeardAtMost | meetpp-agent/agent/session.py:795-800 | nobody is in the list for longer than the time there is |
| Speaking.SumMeans | meetpp-agent/agent/session.py:795-800 | the sum is the time in the active list since the forgotten point, between zero and the length of the window |
| Speaking.Speakers.constructor | meetpp-agent/agent/session.py:166-167 | nobody speaks at first |
| Speaking.Speakers.OnActiveSpeakers | meetpp-agent/agent/session.py:369-378 | the new list opens and closes exactly the intervals it should |
| Speaking.Speakers.EndSpeaking | meetpp-agent/agent/session.py:380-388 | a lost connection closes every open interval |
| Speaking.Speakers.Disconnected | meetpp-agent/agent/session.py:345-348 | a departure forgets that identity only |
| Speaking.Speakers.SpeakingSeconds | meetpp-agent/agent/session.py:795-800 | the loop returns the time in the active list, all of it unless something after the window's start was forgotten, and never more than the window |
| Replay.CachedIsRecent | meetpp-speech/meetpp_speech/auth.py:95-107 | while the clock does not step back, the cache pruned from the front holds exactly what was accepted lately |
| Replay.AcceptKeeps | meetpp-speech/meetpp_speech/auth.py:106-107 | accepting what is not recent keeps two acceptances of one signature at least two skews apart |
| Replay.ReplayGuard.constructor | meetpp-speech/meetpp_speech/auth.py:88-90 | nothing is accepted at first and entries are kept for two skews |
| Replay.ReplayGuard.Replayed | meetpp-speech/meetpp_speech/auth.py:95-107 | whatever the clock does, True if and only if the signature is in the cache pruned from the front; while it does not step back, if and only if it was accepted within the last two skews; otherwise it is remembered |
| Replay.ReplayGuard.Prune | meetpp-speech/meetpp_speech/auth.py:98-102 | pruning takes the expired entries off the front and stops at the first that has not expired |
| Replay.ReplayGuard.Accept | meetpp-speech/meetpp_speech/app.py:169-182 | with the clock read before the body, at the verification and at the guard, a genuine request is accepted if and only if its timestamp is in the window at the first two and its signature was not accepted lately at the third |
| Replay.AgainExactly | meetpp-speech/meetpp_speech/auth.py:46-107 | an accepted request passes again if and only if its timestamp is good before its body is read, its signature is verified before its window ends, and the guard is asked two skews or more after the acceptance |
| Replay.SecondTakesDelay | meetpp-speech/meetpp_speech/auth.py:81-107 | a second acceptance takes a request whose guard is asked later after its verification than the first was accepted after its window began |
| Replay.Spread | meetpp-speech/meetpp_speech/auth.py:81-107 | the n-th acceptance of one signature is n - 1 window lengths or more after its window began |
| Replay.DelayOfTheLast | meetpp-speech/meetpp_speech/auth.py:81-107 | n acceptances take n - 2 window lengths between verification and guard of the last, so with less than one window there are at most two |

## Left out

- The speech, language and voice models, audio encoding, HTTP, LiveKit, the database and the scheduler jobs are oracles or absent.
- Signing, tokens, logins and roles.
- Segmenter.UtteranceSegmenter.Process: a maximum length of zero, with which the program's cut loop would not end; the run theorems are for parameters that meet the side conditions of the defaults.
- Repetition.HasLoop: n-grams of no words.
- Floating-point rounding: probabilities, clocks, samples and scores are exact reals; caption times are not rounded to centiseconds.
- Tokenising, normalisation and case folding: repetition and matching start from word lists and scores; the character offset of the cut is not modelled.
- Sorting in `assign`: any order by falling score is allowed, so ties may be broken in any way; the similarity score is an arbitrary number.
- Room metadata: one room; the lock table and the polling interval, and a room that closes or reopens while a patch is under way.
- Documents whose presenter fields are neither strings nor null; the stage moves are proved for documents the program itself writes.
- `_final_pass` around the loop: reading audio, the retries of one request and the overall time limit; a request simply ends with an exception or a text, and whether a text is degenerate is given.
- Poster: a payload is opaque, sequence numbers sent back are ignored, and the cancellation of the loop when the session closes is not a step.
- Worker: several submitting threads (the order of stamps and appends could then differ), and races on the plain counters of processed and dropped items.
- Gate: other semaphore implementations than that of CPython 3.12; the admission counters of `/tts`, which repeat the pattern without the audio total and would add only easy members.
- Clip cache: one clip (clips share nothing but the table); an empty file counts as no clip; two writer threads that share a temporary file name after a cancellation are taken one at a time; a cancellation is delivered at the await where the call is suspended.
- The scripts' loops down a dotted path: the nodes are updated in place, but going down is recursion from node to node.
- Locale.RoundTrip: keys are distinct, not empty and hold no dot, as in the files of the repository; with a dot in a key the dotted form is ambiguous.
- The protection of placeholders in translated texts, and the fall-back to the English text when a translation fails: an answer is any function of key and text.
- Captions: reading cues from a file and escaping.
- Replay keys are signatures after trimming and lower-casing; that a signature covers its timestamp is taken for granted. No other request is let in between the verification of one and its guard, as there is no await between them.
- The order of captions across fall-backs to the first tier, which the program does not promise.
- Consumers, presence, liveness restarts, tier-2 health, banner rendering, the browser code and the remaining tools.
