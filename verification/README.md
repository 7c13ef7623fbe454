# Verified model of rkwhisper

`rkwhisper` is a speech-recognition daemon for a chip with three neural
processing cores.  The networks themselves are opaque; this project models the
integer code around them and proves what it keeps, in Dafny 4.11.  `dafny verify
dfyconfig.toml` checks all of it.

- **Live scheduler** (`live_*.dfy`, `pool.dfy`, `reorder.dfy`).  Several jobs share
  three workers through Ready, job and result channels.  A job buffers audio,
  scores it with a stateful VAD, cuts Whisper windows, rebases every offset after
  each cut and reorders results.  `LiveJob.ActiveLiveJob` has the program's mutable
  fields and methods, proved against functions on the value `Job`; `LiveSystem`
  is the step relation of the scheduler, its workers and the stream readers;
  `LiveRuns`, `LiveProgress` and `LiveResults` prove what every run keeps, that a
  job whose client is done is never stuck, that all work is bounded by the input, and
  what that means for clients.  `LivePlans` and `LiveDues` say when a window is due
  and that none is cut otherwise, `LiveCoverage` that no sample is skipped,
  `LiveTurns` that the dispatcher goes round, and `LiveCuts` and `LiveLoss` what a
  cut does to the VAD's scores and to speech.
- **Batch mode** (`batch*.dfy`) is a second instance of the same worker pool and
  refines the sequential loop; which leftovers of a failed call endanger the next,
  and that none can hang it.
- **Segmentation and packing** (`vad*.dfy`, `windows.dfy`).  Normal form, exact
  coverage, the meaning of the automaton, online stability; coverage and
  optimality of the packer.
- **The wire** (`ring.dfy`, `session.dfy`, `wire.dfy`, `messages*.dfy`,
  `layouts.dfy`, `utf8.dfy`, `codec.dfy`, `frames.dfy`).  The shared-memory ring as an object and as
  interleaved byte-level steps of its two ends; the hand-written protobuf codec
  (Protocol Buffers Encoding guide, sections "Base 128 Varints", "Message
  Structure" and "Length-Delimited Records") as functions with round-trip
  theorems, with the bytes of every message written out, and as the program's loops
  proved to compute them; frames.
- **Decoding** (`beam*.dfy`, `kv_cache.dfy`, `seek.dfy`) and **word error rate**
  (`levenshtein.dfy`).

Conventions.  Positions are integer samples.  The networks are functions: Whisper
of a window's start, samples and options, VAD of a window and a recurrent state, the decoder of a state and a
token.  A floating-point number on the wire is its four bytes, a string its UTF-8
bytes, a half-precision number its bit pattern.  Counters that are 64-bit in the
program are unbounded, except where the codec truncates them.  In `Only(Text, ...)`
and its like a response log is filtered by kind.

Where the program differs from what its documentation or its tests suggest, the
model follows the program:

- The test `vad_speech_budget_triggers_split_before_wallclock`
  (rkwhisper/src/whisper.rs:842-861) says the speech budget splits before the wall
  clock.  It never does so alone (`Windows.SpeechBudgetNeverFiresAlone`).
- A chunk that is an error makes a live job send an error as its final response
  and later a second one as well (`LiveResults.BrokenChunkEndsTwice`);
  `LiveResults.OneFinalResponse` gives the exact condition for a single one.
- A client that dies after storing its write counter and before signalling loses
  its last push, because the reader flushes a closed socket without draining
  (`Session.DyingClientLosesPush`).  Whether it does depends on what the reader
  was about to load when the client went; `Session.HungUpSessionDelivers` gives
  the exact condition.
- All batch calls use the same job id.  What a failed call leaves in the pool can be
  taken for an answer by the next one (`BatchLeftovers.HeldWorkDecides`); a retry
  of the same call is safe (`BatchLeftovers.RetryIsSafe`).
- A window cut inside a VAD window drops that window's score, and speech behind the
  cut can then be cleared as silence (`LiveLoss.ForcedCutLosesSpeech`).
- A worker error ends every active job, so isolation of jobs is not claimed.
- `decode_response` looks only at the first field of a frame
  (`MessageTheorems.ResponseRoundTrip` therefore allows anything after it), and a
  field number is what is left of the key in 32 bits.
- An audio stream with an odd number of bytes ends in an error
  (`Session.FinishedSessionDelivers`).
- `refresh_speech_state` leaves the scoring position behind when it clears the
  buffer; the invariant says when that can be seen.

## Model

| member | source | states |
|---|---|---|
| `LiveRuns.RunsAreOk` | rkwhisper/src/bin/rkwhisperd.rs:684-773 | in every state of every run (any interleaving of the scheduler's actions, the three workers and the stream readers) every active job satisfies `RunOk`, its tickets are exactly those the pool holds, every finished job has delivered everything and every aborted one keeps its log |
| `LiveRuns.StepKeepsSystemOk` | rkwhisper/src/bin/rkwhisperd.rs:699-770 | each single step (chunk, hang-up, admission, drain, refresh, removal, dispatch, delivery, worker move) keeps the system invariant |
| `LiveRuns.InitialOk` | rkwhisper/src/bin/rkwhisperd.rs:695-697 | the empty system satisfies it |
| `LiveRuns.DispatchOk` | rkwhisper/src/bin/rkwhisperd.rs:806-859 | a dispatch keeps it, whichever job the search selects |
| `LiveRuns.DeliverOk` | rkwhisper/src/bin/rkwhisperd.rs:739-759 | delivering the oldest result keeps it: Whisper, VAD and failed results, and results of jobs that are gone |
| `LiveRuns.RemoveCompletedOk` | rkwhisper/src/bin/rkwhisperd.rs:861-870 | removing complete jobs keeps it and every removed job has delivered everything |
| `LiveRuns.AdmitOk` | rkwhisper/src/bin/rkwhisperd.rs:707-724 | a job with a new id can join although leftovers of aborted jobs may still be in the pool |
| `LiveResults.SamplesAreConserved` | rkwhisper/src/bin/rkwhisperd.rs:475-488 | in every reachable state, for every job ever admitted: the chunks sent are those taken and those still on the channel, the samples taken are those drained and those buffered, and the windows are disjoint, increasing slices of 1 to 480000 samples at their claimed positions |
| `LiveResults.InFlightIsOutstanding` | rkwhisper/src/bin/rkwhisperd.rs:655-670 | in every reachable state `in_flight` is the number of a job's windows queued, running or reported, each outstanding once, never more than the limit |
| `LiveSteps.CompleteMeansNothingParked` | rkwhisper/src/bin/rkwhisperd.rs:460-465 | `is_complete` never looks at the parked results, yet a complete job has none and has emitted every window |
| `LiveSteps.FinishDelivers` | rkwhisper/src/bin/rkwhisperd.rs:467-473 | finishing a complete job leaves `Delivered`: every window's segments sent once, in window order, before its final response, nothing buffered or parked |
| `LiveResults.FinishedJobsDelivered` | rkwhisper/src/bin/rkwhisperd.rs:666-681 | so it is for every job finished in any run |
| `LiveResults.FinishedJobSentTranscripts` | rkwhisper/src/bin/rkwhisperd.rs:620-681 | its text responses are the segments of its windows one after the other: segment m of window k stands behind those of the windows before it, and there is no other |
| `LiveResults.FinishedJobReadItsStream` | rkwhisper/src/bin/rkwhisperd.rs:783-789 | a finished job to which no error was sent has lost its reader, emptied its channel and consumed every sample sent; after an error exactly the chunks left on the channel are lost |
| `LiveResults.OneFinalResponse` | rkwhisper/src/bin/rkwhisperd.rs:475-488 | in every run a job that has finished or been aborted has sent one final response for each error it took and one more; exactly one if and only if it took none, for a finished job if and only if none was sent |
| `LiveResults.BrokenChunkEndsTwice` | rkwhisper/src/bin/rkwhisperd.rs:467-488 | a run whose one job sends the error and then success as final responses |
| `LiveResults.LiveCutsFixedWindows` | rkwhisper/src/bin/rkwhisperd.rs:559-567 | in every run the windows of a finished job without VAD are exactly `fixed_audio_windows` of the samples received, which are all samples sent unless an error was among them, for every chunking and schedule |
| `LiveResults.SameStreamSameText` | rkwhisper/src/bin/rkwhisperd.rs:620-681 | two finished jobs without VAD, of one run or of two, that received the same samples with the same options sent the same segments |
| `LiveResults.OneVadWindowOutstanding` | rkwhisper/src/bin/rkwhisperd.rs:572-591 | in every reachable state at most one VAD window of a job is in the pool, once, and it is the newest |
| `LiveResults.ScoredOnceInOrder` | rkwhisper/src/bin/rkwhisperd.rs:578-618 | in every run no sample is scored twice, VAD windows are slices of the stream in order, the first starts from 256 zeros and window k+1 from the state returned for window k |
| `LiveResults.SpeechEventsAlternate` | rkwhisper/src/bin/rkwhisperd.rs:624-629 | in every run a job's speech responses announce the start and the end of each of its windows' spans, in order, each span inside the window dispatched with it; they alternate started/ended, start strictly before end, at positions that never go back across all its windows |
| `LiveCuts.CutLosesOnlyStraddled` | rkwhisper/src/bin/rkwhisperd.rs:635-642 | a cut keeps the score of every sample behind it if and only if no VAD window straddles it; at most one does, so less than one VAD window is affected |
| `LiveLoss.ForcedCutLosesSpeech` | rkwhisper/src/bin/rkwhisperd.rs:503-546 | a run at the default VAD window of 512: the client sends 30 s and 256 samples, all scored as speech, and the last 256 end up in no window of the closed job |
| `LiveCoverage.NothingIsSkipped` | rkwhisper/src/bin/rkwhisperd.rs:572-642 | in every run, for every job, active or ended: each received sample before the scoring position lies in a VAD window or a Whisper window the job has sent |
| `LiveCoverage.FinishedJobSkippedNothing` | rkwhisper/src/bin/rkwhisperd.rs:460-618 | so every sample a finished job received was given to the VAD or transcribed |
| `LiveCoverage.CutBeginsScored` | rkwhisper/src/bin/rkwhisperd.rs:515-546 | a window begins no later than the scoring position, because its first segment begins no later than some scored window |
| `LivePlans.PlanIsDue` | rkwhisper/src/bin/rkwhisperd.rs:514-570 | with VAD a plan exists if and only if there is speech and the audio has ended, or some segment ends at least 480000 samples after the first one starts, or 32000 samples are buffered behind the last; it starts with the first segment, ends with the furthest segment end within 480000 samples or at exactly 480000, and its events are the segments before its end, cut off there. Without VAD: 480000 samples are buffered or the audio has ended, and the plan is the first 480000 of them |
| `LiveDues.WindowsWereDue` | rkwhisper/src/bin/rkwhisperd.rs:514-664 | in every run every window of every job was cut while the job was active, no VAD window of it was in flight and such a plan was due, with the bounds and events due then |
| `LiveDues.AudioMovesByRule` | rkwhisper/src/bin/rkwhisperd.rs:475-512 | in every step of every run a job receives audio only while it is open and has fewer windows in flight than the limit, and then all that waits; audio leaves its buffer only with a window that is due, or all at once when the audio has ended, has been scored to its end and has no speech in it |
| `LiveDues.DrainMeans` | rkwhisper/src/bin/rkwhisperd.rs:775-792 | a drain takes all that waits from every open job with fewer windows in flight than the limit, and nothing from any other |
| `LiveDues.RefreshMeans` | rkwhisper/src/bin/rkwhisperd.rs:490-512 | a refresh drops every buffer whose audio has ended, has been scored to its end and has no speech in it, and changes no other job |
| `LiveDues.MayDispatchMeans` | rkwhisper/src/bin/rkwhisperd.rs:833-839 | a job may send a window if and only if one is due, fewer than the limit are in flight and no VAD window is |
| `LiveDues.DispatchGuardMeans` | rkwhisper/src/bin/rkwhisperd.rs:726-737 | a token is taken if and only if there is one and some job has a full VAD window or the rest of an ended stream to score, or may send a window |
| `LiveDues.ResultGuardMeans` | rkwhisper/src/bin/rkwhisperd.rs:726-745 | a result is waited for if and only if the pool holds work of an active job |
| `LiveDues.StuckMeansWaiting` | rkwhisper/src/bin/rkwhisperd.rs:699-770 | when the scheduler and the workers can change nothing more, each job left is open, has an empty channel, nothing in flight, less than a VAD window unscored and no window due: it waits for its client |
| `LiveChanges.JobCameFrom` | rkwhisper/src/bin/rkwhisperd.rs:699-770 | where each job of the state after a step comes from: it is new, unchanged, or an active one that was fed, drained, refreshed, scored, cut, answered, finished or aborted |
| `LiveInvariant.NewRunOk` | rkwhisper/src/bin/rkwhisperd.rs:437-456 | a new job satisfies the invariant |
| `LiveInvariant.RunIsSound` | rkwhisper/src/bin/rkwhisperd.rs:515-520 | the rebased scores stay in order, which is what the segmenter and the slices below need |
| `LiveSteps.DrainKeepsRunOk` | rkwhisper/src/bin/rkwhisperd.rs:775-792 | taking chunks keeps a job's invariant |
| `LiveSteps.RefreshKeepsRunOk` | rkwhisper/src/bin/rkwhisperd.rs:490-512 | dropping a speechless buffer keeps it, although the scoring position is left stale |
| `LiveSteps.VadSentKeepsRunOk` | rkwhisper/src/bin/rkwhisperd.rs:572-591 | sending a VAD window keeps it |
| `LiveSteps.VadDoneKeepsRunOk` | rkwhisper/src/bin/rkwhisperd.rs:611-618 | handling a VAD result keeps it: the result's start refers to the buffer it was cut from |
| `LiveSteps.CutKeepsRunOk` | rkwhisper/src/bin/rkwhisperd.rs:620-664 | cutting a Whisper window and rebasing all offsets keeps it |
| `LiveSteps.ResultKeepsRunOk` | rkwhisper/src/bin/rkwhisperd.rs:666-681 | handling a window result, in whatever order results come, keeps it |
| `LiveSystem.SearchInOrder` | rkwhisper/src/bin/rkwhisperd.rs:818-825 | the cyclic search skips exactly the jobs without work, from any cursor, and leaves the cursor behind the last job it looked at |
| `LiveSystem.SearchFinds` | rkwhisper/src/bin/rkwhisperd.rs:818-840 | from any cursor, however stale, a full round finds a job with work if there is one |
| `LiveSystem.SelectAgreesWithGuard` | rkwhisper/src/bin/rkwhisperd.rs:726-737 | whenever the guard holds the search selects a job that really has work, so no Ready token is lost; VAD work goes first |
| `LiveTurns.EveryoneHasATurn` | rkwhisper/src/bin/rkwhisperd.rs:818-840 | round robin: among n successive searches that pass the cursor on, one selects any job that has work each time |
| `LiveTurns.VadTurn` | rkwhisper/src/bin/rkwhisperd.rs:817-825 | the dispatcher selects a job with VAD work, or leaves the cursor closer to it |
| `LiveTurns.WindowTurn` | rkwhisper/src/bin/rkwhisperd.rs:827-843 | so it does for a window while no job has VAD work |
| `LiveTurns.WorkWaitsItsTurn` | rkwhisper/src/bin/rkwhisperd.rs:806-859 | in every run, while nobody joins or leaves and a job has work of which none is sent, VAD work or a window that no VAD work precedes, fewer pieces of work are sent than there are jobs |
| `LiveProgress.JobHasWork` | rkwhisper/src/bin/rkwhisperd.rs:699-770 | a job whose own client is done, because its reader has gone or it sent an error, can be drained, cleared or finished, or has work in the pool, or VAD work or a window to send, whatever other clients do |
| `LiveProgress.JobIsNeverStuck` | rkwhisper/src/bin/rkwhisperd.rs:699-770 | no deadlock: while such a job is active the scheduler or a worker, without any client's help, can take a step that changes something, even when results of aborted jobs fill the result channel |
| `LiveProgress.StepOnJob` | rkwhisper/src/bin/rkwhisperd.rs:699-770 | each step of anybody leaves such a job as it is or lowers a bound on its remaining work, or finishes it when complete, or aborts it |
| `LiveProgress.JobChangesBoundedly` | rkwhisper/src/bin/rkwhisperd.rs:699-770 | so from the moment its reader has gone at most that many steps of the rest of any run change the job, and if it is no longer active it was finished or aborted |
| `LiveProgress.StepFalls` | rkwhisper/src/bin/rkwhisperd.rs:699-770 | whatever clients are connected, every step of the scheduler or a worker that changes something lowers a bound on the work left |
| `LiveProgress.RunsTerminate` | rkwhisper/src/bin/rkwhisperd.rs:699-770 | so between two client steps the scheduler and the workers change something at most that often |
| `LiveProgress.WorkIsBoundedByInput` | rkwhisper/src/bin/rkwhisperd.rs:699-770 | in any run they change something at most 30 times for each sample sent, 6 times for each chunk, 13 times for each job and 3 times more |
| `LiveProgress.StuckMeansDone` | rkwhisper/src/bin/rkwhisperd.rs:699-702 | when they can change nothing more, no active job's client is done: every such job has been finished or aborted |
| `LiveJob.SoundPlanShape` | rkwhisper/src/bin/rkwhisperd.rs:514-570 | every dispatch plan is a non-empty slice of the buffer of at most 480000 samples that holds its speech events, strictly apart |
| `LiveJob.LastFittingFits` | rkwhisper/src/bin/rkwhisperd.rs:522-529 | the last fitting segment exists and fits a window opened at the first |
| `LiveJob.ActiveLiveJob.constructor` | rkwhisper/src/bin/rkwhisperd.rs:410-458 | a new job's fields, with the options of its header |
| `LiveJob.ActiveLiveJob.FinishIfComplete` | rkwhisper/src/bin/rkwhisperd.rs:460-473 | sends the final response exactly when the job is complete |
| `LiveJob.ActiveLiveJob.AcceptChunk` | rkwhisper/src/bin/rkwhisperd.rs:475-488 | audio, an error and the end of the channel |
| `LiveJob.ActiveLiveJob.DrainChunks` | rkwhisper/src/bin/rkwhisperd.rs:776-790 | empties the channel, in order, unless the job is closed or at its limit |
| `LiveJob.ActiveLiveJob.RefreshSpeechState` | rkwhisper/src/bin/rkwhisperd.rs:490-512 | computes `Refresh` |
| `LiveJob.ActiveLiveJob.NextDispatchPlan` | rkwhisper/src/bin/rkwhisperd.rs:514-570 | computes `NextPlan`, about which `LivePlans.PlanIsDue` speaks |
| `LiveJob.ActiveLiveJob.HasVadReadyNow` | rkwhisper/src/bin/rkwhisperd.rs:593-609 | computes `HasVadReady`, about which `LiveDues.DispatchGuardMeans` speaks |
| `LiveJob.ActiveLiveJob.TakeVadJob` | rkwhisper/src/bin/rkwhisperd.rs:572-591 | returns the next VAD window and marks it in flight, or changes nothing |
| `LiveJob.ActiveLiveJob.HandleVadResult` | rkwhisper/src/bin/rkwhisperd.rs:611-618 | computes `HandleVad`: neither repeats (`LiveResults.ScoredOnceInOrder`) nor skips (`LiveCoverage.NothingIsSkipped`) a sample |
| `LiveJob.ActiveLiveJob.RebaseProbs` | rkwhisper/src/bin/rkwhisperd.rs:636-641 | computes `Rebase`: scores at or after the cut, counted from it |
| `LiveJob.ActiveLiveJob.DispatchToWorker` | rkwhisper/src/bin/rkwhisperd.rs:620-664 | returns the window of the plan and leaves the rebased state, or changes nothing |
| `LiveJob.ActiveLiveJob.ReleaseResults` | rkwhisper/src/bin/rkwhisperd.rs:671-680 | releases the parked results whose turn has come |
| `LiveJob.ActiveLiveJob.HandleWindowResult` | rkwhisper/src/bin/rkwhisperd.rs:666-681 | computes `HandleResult` |
| `LiveLoop.DrainLiveChunks` | rkwhisper/src/bin/rkwhisperd.rs:775-792 | every job's turn |
| `LiveLoop.RefreshSpeechStates` | rkwhisper/src/bin/rkwhisperd.rs:766-768 | every job's turn |
| `LiveLoop.HasDispatchableLiveWork` | rkwhisper/src/bin/rkwhisperd.rs:794-804 | the guard: some job has VAD work or may cut a window |
| `LiveLoop.SelectJob` | rkwhisper/src/bin/rkwhisperd.rs:813-844 | the two cyclic passes compute `Select` and its cursor, about which `LiveTurns` speaks |
| `LiveLoop.DispatchReadyLiveWindow` | rkwhisper/src/bin/rkwhisperd.rs:806-859 | takes the selected job's work, touches no other job and passes the cursor on |
| `LiveLoop.RemoveCompletedJobs` | rkwhisper/src/bin/rkwhisperd.rs:861-870 | removing while iterating skips no job and keeps the others in order |
| `LiveLoop.FindJob` | rkwhisper/src/bin/rkwhisperd.rs:742 | the first job with the id |
| `LiveLoop.HandleNpuResult` | rkwhisper/src/bin/rkwhisperd.rs:740-750 | a result reaches the job it names and no other |
| `LiveLoop.FailAllJobs` | rkwhisper/src/bin/rkwhisperd.rs:751-757 | a worker error reaches every active job |
| `LiveLoop.TurnMatchesStep` | rkwhisper/src/bin/rkwhisperd.rs:806-859 | the dispatcher's result is the step relation's |
| `LiveLoop.RemovalMatchesStep` | rkwhisper/src/bin/rkwhisperd.rs:861-870 | so is the removal's |
| `LiveLoop.DeliveryMatchesStep` | rkwhisper/src/bin/rkwhisperd.rs:739-759 | so is what `HandleNpuResult` and `FailAllJobs` make of the jobs |
| `Reorder.ReleaseMeans` | rkwhisper/src/parallel.rs:578-586 | popping releases the longest stretch of parked results that starts at the next index, in index order, and leaves exactly the others parked |
| `Reorder.ReleaseInOrder` | rkwhisper/src/parallel.rs:578-586 | when parked results are the right ones, they are released as a stretch of the full list and only results beyond the next index stay parked |
| `Reorder.KeysFit` | rkwhisper/src/parallel.rs:562-580 | parked keys in a range are at most as many as the range is wide |
| `Pool.MoveKeepsTokens` | rkwhisper/src/parallel.rs:470-505 | every worker move keeps the token discipline: a worker's Ready token exists exactly while it waits with an empty queue |
| `Pool.SendKeepsTokens` | rkwhisper/src/parallel.rs:528-547 | sending to the worker of the oldest token keeps it, so the capacity-1 send never blocks |
| `Pool.AnnounceNeverBlocks` | rkwhisper/src/parallel.rs:502-504 | there is always room for a Ready token |
| `Pool.MoveKeepsWork` | rkwhisper/src/parallel.rs:474-505 | no job is lost or duplicated between its queue, its worker and the result channel |
| `Pool.SendAddsWork` | rkwhisper/src/parallel.rs:535-547 | sending adds exactly the job |
| `Pool.ReceiveRemovesWork` | rkwhisper/src/parallel.rs:568-571 | receiving removes exactly the result |
| `Pool.WorkIsSomewhere` | rkwhisper/src/parallel.rs:474-501 | outstanding work is with a worker or in the result channel |
| `Batch.TranscribeAudio` | rkwhisper/src/whisper.rs:134-175 | the sequential loop computes the text and segments of all windows in order |
| `Batch.ReleaseReady` | rkwhisper/src/parallel.rs:578-586 | the release loop computes the collector's state |
| `Batch.CollectOrdered` | rkwhisper/src/parallel.rs:553-594 | the collecting loop computes `CollectAll`, or stops when the channel closes early |
| `Batch.CollectsInAnyOrder` | rkwhisper/src/parallel.rs:567-587 | the collector finishes if and only if every missing window's reply arrives before an error, in any order, and then has released all windows in order |
| `Batch.AnyOrderIsSequential` | rkwhisper/src/parallel.rs:553-594 | with every reply given once, in any order, text, segments and callback order are the sequential loop's |
| `Batch.RunsAreOk` | rkwhisper/src/parallel.rs:349-360 | what every interleaving of dispatcher, workers and collector keeps, failing workers and a refusing callback included |
| `Batch.StepKeepsOk` | rkwhisper/src/parallel.rs:517-594 | each step keeps it |
| `Batch.ParallelIsSequential` | rkwhisper/src/parallel.rs:317-361 | for every interleaving, whichever workers fail: a call that returns a transcription returns the sequential loop's and leaves the pool clean for the next call; any call lets the callback hear only a beginning of it |
| `BatchLeftovers.HarmlessPoolIsSafe` | rkwhisper/src/parallel.rs:567-577 | on any pool a failed call may have left, every call that returns is sequential if all leftovers are harmless: errors, right answers, or indices no release can reach |
| `BatchLeftovers.RetryIsSafe` | rkwhisper/src/parallel.rs:567-577 | a call repeated with the same windows after a failure at any point is therefore safe |
| `BatchLeftovers.HeldWorkDecides` | rkwhisper/src/parallel.rs:567-577 | on a pool whose result channel is empty, whatever the workers hold, all calls are sequential if and only if everything they hold is harmless |
| `BatchLeftovers.HeldWorkIsTaken` | rkwhisper/src/parallel.rs:535-541 | a worker that holds anything harmful can make a call return another window's transcript, without any worker failing |
| `BatchLeftovers.LeftoverIsTaken` | rkwhisper/src/parallel.rs:535-541 | so can a harmful reply alone in the channel, whatever the workers hold, if one of them is free |
| `BatchLeftovers.OneLeftoverDecides` | rkwhisper/src/parallel.rs:567-577 | with one reply in the channel, a free worker and harmless work elsewhere, all calls are sequential if and only if that reply is harmless |
| `BatchLeftovers.ErrorShieldsFromLeftover` | rkwhisper/src/parallel.rs:568-571 | with several replies in the channel harm also depends on their order: behind an error none is ever taken |
| `BatchLeftovers.TwoWrongsMayAgree` | rkwhisper/src/parallel.rs:578-583 | and on each other: two wrong replies can join to the right text |
| `BatchLeftovers.CallsNeverHang` | rkwhisper/src/parallel.rs:349-360 | a call on any pool, however full of leftovers, can always go on until it has returned or failed, even when its collector is done before its dispatcher |
| `BatchLeftovers.CallsEnd` | rkwhisper/src/parallel.rs:349-360 | and it takes boundedly many steps |
| `Batch.StepFalls` | rkwhisper/src/parallel.rs:527-587 | every step lowers a bound, so a call takes boundedly many |
| `Batch.SomethingMoves` | rkwhisper/src/parallel.rs:527-587 | until the collector is done or has failed some step is enabled |
| `Batch.WindowJobsAreNumbered` | rkwhisper/src/parallel.rs:328-345 | the windows given to both forms are in bounds and numbered by position, and each carries its slice of the audio |
| `Batch.FixedJobsCarryAudio` | rkwhisper/src/whisper.rs:458-468 | without VAD the slices join to the whole audio |
| `Vad.SegmentsFromProbs` | rkwhisper/src/vad.rs:152-209 | the loops compute `Segments`, about which the following rows speak |
| `VadTheorems.SegmentsAreNormal` | rkwhisper/src/vad.rs:184-198 | segments are non-empty, inside the audio, at least 16 samples per millisecond of the minimum duration long and strictly apart |
| `VadTheorems.SegmentsCoverExactly` | rkwhisper/src/vad.rs:185-198 | a sample is in a segment if and only if it is within 16 samples per millisecond of padding of a run that is at least 16 samples per millisecond of the minimum duration long |
| `VadTheorems.LongRunInOneSegment` | rkwhisper/src/vad.rs:186-197 | every run that is long enough lies inside exactly one segment |
| `VadTheorems.RunsBridgeShortSilence` | rkwhisper/src/vad.rs:165-178 | two successive speech windows share a run if and only if no silent window between them starts 16 samples per millisecond of the minimum silence after the first ends |
| `VadTheorems.RunsAreFramedBySpeech` | rkwhisper/src/vad.rs:167-182 | every run starts where a speech window starts and ends where one ends |
| `VadTheorems.SpeechIsInRuns` | rkwhisper/src/vad.rs:165-182 | every speech window lies in a run |
| `VadOnline.SegmentsAreStable` | rkwhisper/src/vad.rs:152-209 | more windows and audio keep every segment but the last, keep the last one's start and only extend its end |
| `Windows.FixedWindowsTile` | rkwhisper/src/whisper.rs:458-468 | fixed windows tile the audio |
| `Windows.VadAudioWindows` | rkwhisper/src/whisper.rs:470-537 | the packing loop computes `PackedWindows`, about which the following rows speak |
| `Windows.PackedWindowsAreWellCut` | rkwhisper/src/whisper.rs:470-537 | windows are numbered from 0, in order, disjoint, non-empty, at most 30 s long and end where the speech ends |
| `Windows.PackedWindowsCoverSpeech` | rkwhisper/src/whisper.rs:480-534 | every speech sample is in a window |
| `Windows.PackingIsOptimal` | rkwhisper/src/whisper.rs:505-523 | when no segment exceeds a window, no list of windows of that size holding each segment whole is shorter |
| `Windows.PackingKeepsSegmentsWhole` | rkwhisper/src/whisper.rs:505-523 | and the packing is such a list |
| `Windows.SpeechBudgetNeverFiresAlone` | rkwhisper/src/whisper.rs:505-506 | the speech budget overflows only when the wall clock does |
| `Windows.TranscriptionWindowsFit` | rkwhisper/src/whisper.rs:177-213 | from probabilities to slices: every window is in bounds, fits the encoder, and together they cover the speech, or all of a speechless recording |
| `Ring.SharedAudioRing.constructor` | rkwhisper-protocol/src/lib.rs:322-332 | a new ring is empty |
| `Ring.SharedAudioRing.CopyIn` | rkwhisper-protocol/src/lib.rs:463-468 | the two block copies write exactly the pushed bytes at their positions modulo the capacity |
| `Ring.SharedAudioRing.CopyOut` | rkwhisper-protocol/src/lib.rs:441-447 | the two block copies read exactly the bytes between the counters |
| `Ring.SharedAudioRing.PushAvailable` | rkwhisper-protocol/src/lib.rs:452-473 | appends as much as fits and says how much; an overrun is reported and changes nothing |
| `Ring.SharedAudioRing.DrainAvailable` | rkwhisper-protocol/src/lib.rs:433-450 | yields everything in the ring in order and empties it; an overrun is reported and changes nothing |
| `Ring.CopyAppends` | rkwhisper-protocol/src/lib.rs:452-471 | a wrapped copy into free cells appends to the contents and disturbs nothing in them |
| `Session.FlushPcmChunks` | rkwhisper/src/daemon_stream.rs:75-103 | the flushing loop computes `FlushOf`: full chunks, then on a final flush the rest if it is even |
| `Session.SamplesAreLittleEndian` | rkwhisper/src/daemon.rs:110-118 | a sample is the 16-bit number whose low byte comes first |
| `Session.ChunksKeepBytes` | rkwhisper/src/daemon_stream.rs:81-91 | chunks and remainder join to the bytes flushed; all chunks are full |
| `Session.FlushKeepsBytes` | rkwhisper/src/daemon_stream.rs:75-103 | a flush loses no byte, and fails if and only if it is final and the stream so far is odd |
| `Session.CopyRunIsPush` | rkwhisper-protocol/src/lib.rs:463-468 | copied byte by byte, a push leaves the cells as the two block copies do |
| `Session.RunsAreOk` | rkwhisper-client/src/lib.rs:248-280 | what every interleaving of the two sides' counter loads, byte copies, counter stores and signals keeps |
| `Session.RingIsFifo` | rkwhisper-protocol/src/lib.rs:433-473 | under every interleaving, half-finished drains included, bytes delivered, then buffered, then left in the ring are the bytes pushed, in order |
| `Session.CopiesStayInBounds` | rkwhisper-protocol/src/lib.rs:433-473 | neither side ever sees an overrun and no copy leaves the ring |
| `Session.FinishedSessionDelivers` | rkwhisper/src/daemon_stream.rs:60-64 | a finished session completes if and only if the byte count is even; then its chunks hold exactly the samples sent, all but the last 512 long |
| `Session.HungUpSessionDelivers` | rkwhisper/src/daemon_stream.rs:48-51 | a session whose socket closed delivers a beginning of what was pushed, all of it if and only if nothing was unheard when the client hung up; only between storing its counter and signalling can that be |
| `Session.DyingClientLosesPush` | rkwhisper-client/src/lib.rs:255-260 | a run in which a client dies there and its push is lost |
| `Session.DyingClientMayBeHeard` | rkwhisper-client/src/lib.rs:255-260 | a run in which a client dies there and an earlier signal still saves its push |
| `Session.ReaderIsNotStuck` | rkwhisper/src/daemon_stream.rs:42-59 | no lost wake-up: while the ring holds bytes and the client is between pushes, or has gone with nothing unheard, the reader can act |
| `Wire.ReadDigits` | rkwhisper-protocol/src/lib.rs:933-947 | at most ten bytes are read, the value fits 64 bits and reading moves on inside the input |
| `Wire.VarintRoundTrip` | rkwhisper-protocol/src/lib.rs:906-947 | every 64-bit number is read back from its encoding, wherever that stands |
| `Wire.VarintIsBase128` | rkwhisper-protocol/src/lib.rs:906-916 | an encoding is the number in base 128, lowest digit first and without leading zeros, every byte but the last with its high bit set |
| `Wire.VarintMeans` | rkwhisper-protocol/src/lib.rs:933-947 | from any bytes: reading ends at the first byte without the high bit, which must be among the first ten, and gives the number modulo 2^64; otherwise the input is cut short or the number too long |
| `Wire.VarintCutShort` | rkwhisper-protocol/src/lib.rs:936-939 | an encoding cut short anywhere is rejected |
| `Wire.CastsRoundTrip` | rkwhisper-protocol/src/lib.rs:601-603 | sign extension to 64 bits and truncation to 32 are inverse |
| `Wire.CastsTruncate` | rkwhisper-protocol/src/lib.rs:601-603 | a cast to 32 bits changes a number by a multiple of 2^32 |
| `Wire.FieldRoundTrip` | rkwhisper-protocol/src/lib.rs:886-1000 | every field is read back from its encoding |
| `Wire.BytesFieldCutShort` | rkwhisper-protocol/src/lib.rs:949-961 | a length-delimited field cut short anywhere is rejected |
| `Wire.WalkOfEncoding` | rkwhisper-protocol/src/lib.rs:573-588 | a decoder's loop over an encoded list of fields applies them in order |
| `Wire.IdleFieldVanishes` | rkwhisper-protocol/src/lib.rs:586 | a field that a decoder ignores can stand between any two others |
| `MessageTheorems.ClientHelloRoundTrip` | rkwhisper-protocol/src/lib.rs:570-716 | a client hello is decoded from its encoding if and only if it names a model, and rejected as lacking one otherwise |
| `MessageTheorems.AudioRoundTrip` | rkwhisper-protocol/src/lib.rs:595-701 | audio formats round-trip, negative sample formats included |
| `MessageTheorems.VadRoundTrip` | rkwhisper-protocol/src/lib.rs:610-736 | VAD options round-trip, each present or absent |
| `MessageTheorems.UnknownFieldIsIgnored` | rkwhisper-protocol/src/lib.rs:570-593 | inserting a well-formed unknown field anywhere between two fields of a client hello changes nothing |
| `MessageTheorems.MissingFieldsDefault` | rkwhisper-protocol/src/lib.rs:78-93 | a hello that only names a model takes the default for everything else |
| `MessageTheorems.DefaultTexts` | rkwhisper-protocol/src/lib.rs:78-93 | the default language, task, token set and client name, letter by letter |
| `MessageTheorems.ResponseRoundTrip` | rkwhisper-protocol/src/lib.rs:627-757 | every response is decoded from its encoding, even with more bytes after it |
| `MessageTheorems.ResponsesDiffer` | rkwhisper-protocol/src/lib.rs:627-685 | no two responses have the same encoding |
| `MessageTheorems.CutResponseIsRejected` | rkwhisper-protocol/src/lib.rs:738-757 | every strict prefix of an encoded response is rejected |
| `MessageTheorems.EmptyBodies` | rkwhisper-protocol/src/lib.rs:759-884 | an empty body leaves every part of a response empty; an event must have a type, and a response a known number |
| `Layouts.ClientHelloBytes` | rkwhisper-protocol/src/lib.rs:703-716 | the bytes of a client hello, key by key |
| `Layouts.AudioFormatBytes` | rkwhisper-protocol/src/lib.rs:695-701 | those of an audio format; a negative sample format is written modulo 2^64 |
| `Layouts.VadOptionsBytes` | rkwhisper-protocol/src/lib.rs:718-736 | those of the VAD options; an option that is not set takes none |
| `Layouts.ResponseBytes` | rkwhisper-protocol/src/lib.rs:627-693 | those of each response |
| `Utf8Texts.Utf8IsEncodedText` | rkwhisper-protocol/src/lib.rs:963-967 | bytes are accepted as a string if and only if they are the UTF-8 encoding of a sequence of Unicode scalar values |
| `Codec.ProtoOutput.Varint` | rkwhisper-protocol/src/lib.rs:906-912 | the encoding loop appends `EncodeVarint` |
| `Codec.ProtoOutput.FieldVarint` | rkwhisper-protocol/src/lib.rs:886-889 | appends the field |
| `Codec.ProtoOutput.FieldFixed32` | rkwhisper-protocol/src/lib.rs:891-894 | appends the field |
| `Codec.ProtoOutput.FieldMessage` | rkwhisper-protocol/src/lib.rs:900-904 | appends the field |
| `Codec.EncodeClientHello` | rkwhisper-protocol/src/lib.rs:703-716 | the program writes exactly the bytes that `ClientHelloRoundTrip` shows to be decoded |
| `Codec.EncodeAudioFormat` | rkwhisper-protocol/src/lib.rs:695-701 | the program writes exactly the bytes that `AudioRoundTrip` shows to be decoded |
| `Codec.EncodeVadOptions` | rkwhisper-protocol/src/lib.rs:718-736 | the program writes exactly the bytes that `VadRoundTrip` shows to be decoded, present options only |
| `Codec.EncodeResponse` | rkwhisper-protocol/src/lib.rs:627-693 | the program writes exactly the bytes that `ResponseRoundTrip` shows to be decoded |
| `Codec.ProtoInput.Varint` | rkwhisper-protocol/src/lib.rs:933-947 | the shifting loop reads what `ReadVarint` says, overlong and truncated input included |
| `Codec.ProtoInput.Key` | rkwhisper-protocol/src/lib.rs:928-931 | field number (truncated to 32 bits) and wire type |
| `Codec.ProtoInput.Bytes` | rkwhisper-protocol/src/lib.rs:949-961 | length overflow and truncation are errors |
| `Codec.ProtoInput.String` | rkwhisper-protocol/src/lib.rs:963-967 | text that is not UTF-8 is an error |
| `Codec.ProtoInput.Fixed32` | rkwhisper-protocol/src/lib.rs:969-977 | four bytes or an error |
| `Codec.ProtoInput.Skip` | rkwhisper-protocol/src/lib.rs:979-999 | an unknown field is skipped to where a known one would end |
| `Codec.DecodeClientHello` | rkwhisper-protocol/src/lib.rs:570-593 | on every input, well-formed or not, the loop returns the hello or the error of the decoder in `ClientHelloRoundTrip` and `UnknownFieldIsIgnored` |
| `Codec.DecodeAudioFormat` | rkwhisper-protocol/src/lib.rs:595-608 | the same for the decoder in `AudioRoundTrip` |
| `Codec.DecodeVadOptions` | rkwhisper-protocol/src/lib.rs:610-625 | the same for the decoder in `VadRoundTrip` |
| `Codec.DecodeServerHello` | rkwhisper-protocol/src/lib.rs:759-776 | the same for field 1 of the decoder in `ResponseRoundTrip`: the last field of a number wins |
| `Codec.DecodeSegment` | rkwhisper-protocol/src/lib.rs:778-793 | the same for field 2: absent parts are empty text and zero |
| `Codec.DecodeDone` | rkwhisper-protocol/src/lib.rs:795-808 | the same for field 3 |
| `Codec.DecodeError` | rkwhisper-protocol/src/lib.rs:810-821 | the same for field 4 |
| `Codec.DecodeCancelled` | rkwhisper-protocol/src/lib.rs:823-845 | the same for field 5 |
| `Codec.DecodeBackOff` | rkwhisper-protocol/src/lib.rs:847-863 | the same for field 6: the delay is truncated to 32 bits |
| `Codec.DecodeSpeechEvent` | rkwhisper-protocol/src/lib.rs:865-884 | the same for field 7: event types other than 1 and 2 are errors |
| `Codec.DecodeResponse` | rkwhisper-protocol/src/lib.rs:738-757 | on every input the program returns the response or the error of the decoder in `ResponseRoundTrip` and `CutResponseIsRejected`; only the first field is looked at |
| `Frames.ByteStream.WriteFrame` | rkwhisper-protocol/src/lib.rs:181-193 | a frame of at most 1 MiB is appended with its length, a longer one refused |
| `Frames.ByteStream.ReadFrame` | rkwhisper-protocol/src/lib.rs:167-179 | the first frame is taken off the stream, or the limit or the early end reported |
| `Frames.LittleEndianRoundTrip` | rkwhisper-protocol/src/lib.rs:187-189 | lengths survive their four bytes |
| `Frames.FrameBehindLength` | rkwhisper-protocol/src/lib.rs:181-193 | a frame stands behind its length, lowest byte first |
| `Frames.FirstFrameMeans` | rkwhisper-protocol/src/lib.rs:167-179 | a frame is read if and only if it is at most 1 MiB long and all of it is there |
| `Frames.FramesRoundTrip` | rkwhisper-protocol/src/lib.rs:167-193 | a concatenation of written frames reads back as the same list |
| `Frames.CutStreamsAreNoticed` | rkwhisper-protocol/src/lib.rs:167-193 | however a stream of frames is cut, the reader gets exactly the complete ones and notices a cut inside one |
| `Frames.ResponsesArrive` | rkwhisper-protocol/src/lib.rs:163-179 | responses arrive in order and unchanged; a broken connection loses only a tail of them |
| `Levenshtein.FillTable` | rkwhisper-bench/src/rkwhisper_bench/cli.py:39-50 | every cell holds the distance of its two prefixes |
| `Levenshtein.DistanceIsLeast` | rkwhisper-bench/src/rkwhisper_bench/cli.py:45-50 | no rewriting of the one text into the other takes fewer edits than the table says, though equal words are matched greedily |
| `Levenshtein.DistanceIsSmooth` | rkwhisper-bench/src/rkwhisper_bench/cli.py:45-50 | dropping a word changes the distance by at most one |
| `Levenshtein.ProcessWords` | rkwhisper-bench/src/rkwhisper_bench/cli.py:35-67 | the counts are those of an alignment of the two texts, add up to both lengths, no alignment has fewer edits, and from the end it prefers matches to substitutions to deletions to insertions |
| `Levenshtein.BestIsUnique` | rkwhisper-bench/src/rkwhisper_bench/cli.py:53-66 | there is only one alignment with the fewest edits in which, from the end, each column is a match where a cheapest alignment can end in one, else a substitution, else a deletion, else an insertion |
| `Levenshtein.CountsAreDetermined` | rkwhisper-bench/src/rkwhisper_bench/cli.py:35-67 | so the two texts determine all four counts |
| `Levenshtein.Walk` | rkwhisper-bench/src/rkwhisper_bench/cli.py:53-66 | each step back extends the alignment by one column the table accounts for |
| `Beams.SelectTop` | rkwhisper/src/beam.rs:112-115 | some selection of k best tokens exists and is returned |
| `Beams.SortIsSorted` | rkwhisper/src/beam.rs:123-127 | the stable sort orders the candidates and keeps them all |
| `Beams.ChosenAreSound` | rkwhisper/src/beam.rs:94-128 | chosen candidates are distinct, extend live beams by the log probability the network gives the token, and are `size` many if any beam lives |
| `Beams.ChosenIsGlobalTop` | rkwhisper/src/beam.rs:94-128 | pruning each beam first loses nothing: the sum of the log probabilities of any live beam and of any token for it is at most that of a chosen one |
| `BeamSearching.BeamSearch.constructor` | rkwhisper/src/beam.rs:61-79 | the search starts with the primed beam |
| `BeamSearching.BeamSearch.Collect` | rkwhisper/src/beam.rs:94-120 | phase 1 collects the best tokens of every unfinished beam |
| `BeamSearching.BeamSearch.MoveFinished` | rkwhisper/src/beam.rs:130-135 | finished beams are moved out and leave nothing behind |
| `BeamSearching.BeamSearch.CountReferences` | rkwhisper/src/beam.rs:139-142 | counts each parent's uses |
| `BeamSearching.BeamSearch.MoveOrClone` | rkwhisper/src/beam.rs:145-152 | the last use of a parent moves it, earlier uses leave it |
| `BeamSearching.BeamSearch.Grow` | rkwhisper/src/beam.rs:139-178 | no absent parent is ever unwrapped, and the children are what copying the parent for each would give |
| `BeamSearching.BeamSearch.Step` | rkwhisper/src/beam.rs:81-182 | the new beams are the children of the chosen candidates, in order; ended and already finished ones go to the finished list |
| `BeamSearching.BeamSearch.BestResult` | rkwhisper/src/beam.rs:184-194 | a hypothesis whose log probability divided by its length norm, undivided without tokens, is the greatest among live and finished ones, the last of equals; nothing only when there is none |
| `BeamSearching.ChildrenAre` | rkwhisper/src/beam.rs:154-178 | the new beams, and the newly ended ones, are the children of exactly the choices that do not, or do, end, each once and in order |
| `BeamSearching.FinishedAreKept` | rkwhisper/src/beam.rs:130-135 | finished beams are kept, each once and in order |
| `BeamSearching.LikelihoodIsSum` | rkwhisper/src/beam.rs:96-178 | a likelihood is the sum of the log probabilities of the tokens, each after those before it, finite if and only if all of them are |
| `BeamSearching.StepKeepsSearchOk` | rkwhisper/src/beam.rs:81-182 | a step keeps: each hypothesis is the prompt and its own tokens, with the state, logits and likelihood of feeding exactly those; none occurs twice |
| `BeamSearching.SearchesAreOk` | rkwhisper/src/beam.rs:61-182 | so it is after any number of steps, however ties are broken, and the library's selection never fails |
| `KvCache.IndexFits` | rkwhisper/src/decoder.rs:375-380 | every element has a cell of its own inside the padded tensor |
| `KvCache.AtFits` | rkwhisper/src/decoder.rs:335-338 | every cell of the tensor is some element's |
| `KvCache.LayoutIsBlocked` | rkwhisper/src/decoder.rs:375-380 | the eight channels of a block lie side by side, then come columns, rows and blocks, as many blocks as the channels need |
| `KvCache.WritePresentToCacheSlot` | rkwhisper/src/decoder.rs:362-383 | writes one step's vector to its slot and disturbs no other cell |
| `KvCache.CacheIsWindow` | rkwhisper/src/decoder.rs:289-311 | after any number of steps each of the last T steps is found in its slot, and unused slots and padding lanes are zero |
| `KvCache.LaneIsOfHead` | rkwhisper/src/decoder.rs:362-383 | a step's vector is the heads' vectors one after the other |
| `KvCache.SlotHoldsOneStep` | rkwhisper/src/decoder.rs:163 | each used slot holds exactly one step of that window |
| `KvCache.FillMasks` | rkwhisper/src/decoder.rs:169-179 | the three masks, element by element |
| `KvCache.MasksFollowWindow` | rkwhisper/src/decoder.rs:169-179 | a slot is retained iff its step stays in the window, inserted iff it is the step's own, and open iff one or the other, never both; the masks are 0 and 1, and 0 and -65504 |
| `KvCache.PackEncKv` | rkwhisper/src/decoder.rs:343-358 | fills every cell of the packed encoder tensor, padding included |
| `KvCache.PackingRoundTrips` | rkwhisper/src/decoder.rs:343-358 | every element is found in its cell, and padding is zero |
| `KvCache.FlatIsRowMajor` | rkwhisper/src/decoder.rs:343-358 | in the source columns lie side by side, then rows, then channels |
| `KvCache.WhisperDecoderState.constructor` | rkwhisper/src/decoder.rs:44-56 | a new state holds the empty window in every layer |
| `KvCache.WhisperDecoderState.Reset` | rkwhisper/src/decoder.rs:58-67 | after a reset it does again |
| `KvCache.WhisperDecoderState.Advance` | rkwhisper/src/decoder.rs:289-311 | one step extends the window held by every layer and counts |
| `Seek.SeekLoop` | rkwhisper/src/whisper.rs:260-379 | at most 16 passes, each decoding the control prompt and the longest end of the output so far that leaves room for 64 tokens, all of it if there is room; all but the last end before the window's end and beyond the pass before; the loop stops only when done or stuck |
| `Seek.LastOfAppend` | rkwhisper/src/whisper.rs:351-362 | the last timestamp of the output is the newest pass's, or the older one's if that has none |
| `Seek.LastTimestampMeans` | rkwhisper/src/whisper.rs:351-362 | the last timestamp of a list of tokens is the last one that is a timestamp |
| `Seek.PromptShape` | rkwhisper/src/whisper.rs:265-273 | a prompt is the control prompt and the end of the output so far |
| `Seek.PromptIsLongest` | rkwhisper/src/whisper.rs:265-273 | it is the longest such end that leaves room for 64 tokens: all of the output if there is room |
| `Seek.RoomDependsOnBaseOnly` | rkwhisper/src/whisper.rs:265-278 | the room test fires if and only if the control prompt alone leaves no room |
| `Seek.SeekMovesForward` | rkwhisper/src/whisper.rs:364-375 | the last timestamps of all passes but the last strictly increase and stay before the window's end |

## Left out

- The networks, tokenizer, mel features and text post-processing: opaque or foreign. The trimming of the final text is not modelled; the untrimmed text is.
- Sockets, memory mapping, file and configuration loading, the client handshake: the ring's bytes and counters and an in-order queue of signals and frames are kept.
- The asynchronous runtime: `select!`, sleeps and channel wake-ups are the nondeterminism of the step relations. Loads and stores of the ring's counters are atomic steps; weaker memory orders are not modelled.
- Failed sends and workers that die: samples have been drained by then. Workers stay up; a worker may report an error for any job.
- The bounded response channel, which may block the scheduler while a client is slow.
- Seconds as 32-bit floats, PCM scaling, log-softmax values and rounding: no exact claim holds for them. Beam scores are real numbers or minus infinity.
- Error texts: the codec's errors are kinds, and truncation is one kind wherever it is noticed.
- Window sizes of 0 in the VAD configuration, on which the program loops forever: the model's configuration excludes them.
- In-flight and active-job limits of 0, which the configuration's validation refuses (rkwhisper/src/daemon.rs:225-241).
- Speech coverage of whole live VAD jobs: it fails at cuts, by what `LiveCuts.CutLosesOnlyStraddled` says of one cut. That every sample is scored or transcribed is proved (`LiveCoverage.NothingIsSkipped`), and coverage of speech for the offline packer.
- LiveTurns.WorkWaitsItsTurn: VAD work always goes before windows, so other clients' VAD work can keep a window waiting for as long as it keeps coming; round robin is proved for VAD work, and for windows while there is none. When a worker announces itself is not bounded.
- The polyphase resampler, token suppression and model-id checks: easy members.
- How jobs queue before a model's scheduler picks them up is not modelled.
- BatchLeftovers.HarmlessPoolIsSafe: exact while the result channel is empty (`BatchLeftovers.HeldWorkDecides`) or holds one reply and a worker is free (`BatchLeftovers.OneLeftoverDecides`). With more replies in the channel it is sufficient only: what they do depends on their order and on each other (`BatchLeftovers.ErrorShieldsFromLeftover`, `BatchLeftovers.TwoWrongsMayAgree`), so no condition on single replies is exact.
- Errors when reading signals from the socket, other than its end, which stop the reader without a final flush.
- Session.FinishedSessionDelivers: the program reports an end-of-stream signal and a closed socket alike as completion; the model keeps them apart.
- Codec.EncodeClientHello: for buffers shorter than 2^64 bytes, as every buffer in memory is. The same holds for the other round trips.
- Codec.DecodeResponse: the integers of `ProtoInput` are 64-bit positions; that a position plus four does not overflow is not modelled.
- Levenshtein.ProcessWords: takes the normalised words; lower-casing and punctuation are left out.
- Beams.SelectTop: stands for a library selection that promises neither an order nor how ties break; the theorems use only its contract.
- KvCache.FillMasks: how the network combines cache, masks and new vectors is opaque.
- Seek.SeekLoop: decoding one prompt, greedy or by beam, is a function of the prompt.
