# Recorder model

A Dafny model of the WebRTC recorder service. A browser session is recorded track by track into temporary
files. When the session closes, a row is inserted into the job table. The transcoding listener fetches the row and
runs it in a bounded worker pool, where ffmpeg merges the tracks into one file; the same row is then
handed to the upload listener, which streams the file to the storage service. Success, or an attempt numbered
MaxRetry or higher that fails, removes the row and its files.

The main part is a state machine of that pipeline (`Pipeline`): sessions, the table shared with other instances, the
files on disk, and the memory of both listeners, with every step of the two listeners, their pools, the workers, a
crash and a restart as interleaved atomic actions. Its invariants hold over all runs:

- `PipelineSafety`: a job is in memory at most once and its row is Active meanwhile; memory is bounded; pools are
  first in, first out.
- `PipelineAttempts`, `PipelineWaiting`, `PipelineProgress`: how often a row is fetched, how long it can be passed over,
  and a rank that every step lowers.
- `PipelineHolding`: exactly when an Active row is held by nobody, and that a stage with work never stands still.
- `PipelineFiles`, `PipelineSources`: who owns each temporary file, exactly which steps leave a file behind for good, and
  that a job's source is there until its first attempt has used it.
- `PipelineOutcome`: no job is lost, removal is justified, recovery after a crash.

The code itself is modelled as classes and loops proved against the functions the machine is made of: `JobStore` (the SQL
statements), `TempFiles`, `WorkerPool`, `Listener`, `MediaSession`, `UploadStream` and `Handlers`, where an undisturbed
`Execute` is shown to be a run of the machine, and an interrupted one to go on where it was. `Session` is a second machine, for the races around one session.
`Grid`, `FilterGraph`, `FilterText` and `FilterNumbers` are the ffmpeg filter builder; `RoundRobin`, `LicenseScope`,
`Permissions`, `Duration`, `RtpGap` and `Wav` the smaller algorithms. `Model`, `Arithmetic` and `Text` are shared.

`dafny verify dfyconfig.toml` checks everything within the default limits.

## What the proofs show about the code

- A failed transcode removes its own source files: `DeleteFile(&mp4File)` walks the job's tracks. The row's `retry` tells
  exactly whether the source is there: never attempted, all of it, in every run; waiting for a retry, none of it, when
  no removal failed and nothing crashed (`PipelineSources.SourceIffUnattempted`). Such retries do occur
  (`PipelineSources.RetryWithoutSource`).
- `successJob` removes the source before it updates the row. A crash between the two, or an update that fails, leaves
  the output without an owner and a row whose source is gone; both are among the leaks of
  `PipelineFiles.StepKeepsNoOrphansIff`.
- `DeleteFile` refuses a record without tracks and then also keeps its `Path` (`TempFiles.TempFileService.DeleteFile`).
- A session whose only track ends before the session is stored stays in the store without a job
  (`Session.TrackBeforeAddIsStranded`), and so can a session whose ICE failure overlaps a leaving track
  (`Session.IceFailureCanStrand`). Without evictions a stored session yields its one job if and only if some caller of
  `close` sees the counter at zero and gets to its Remove after the session was stored (`Session.OneJobIff`).
- Any administrative permission at all exempts its user from the role check on creation, because the permission slice is
  made with zero values and then appended to, and the zero value is the create permission (`Permissions.RbacSkipped`).
- A licence product with only blank classes counts only in the company of another (`LicenseScope.LicenceCounts`).
- A gap right after an RTP packet numbered 0 is not reported (`RtpGap.ReportsAreComplete`).
- The windows of the grid have a size for up to 1080 * 1081 videos and no further (`Grid.WindowsHaveSize`).
- A WAV header describes its stream consistently exactly when no field is cut (`Wav.HeaderConsistent`).

## Model

| member | source | states |
|---|---|---|
| `JobStore.FileJobStore.constructor` | internal/store/file_job.go:20-34 | building the store resets every row of the instance to Idle; a failed reset changes nothing and is not reported |
| `JobStore.FileJobStore.Create` | internal/store/file_job.go:36-44 | one new Idle row with no attempts, last in creation order, under a fresh id; nothing when the statement fails |
| `JobStore.FileJobStore.Update` | internal/store/file_job.go:46-64 | state, type, file and attempts of that row are replaced, its instance and age stay; an absent row stays absent |
| `JobStore.FileJobStore.Reset` | internal/store/file_job.go:66-73 | all rows of the instance become Idle, no other row changes |
| `JobStore.FileJobStore.Fetch` | internal/store/file_job.go:75-103 | for any oldest batch the database answers, exactly these rows become Active with one more attempt, and the jobs carry the attempts from before |
| `JobStore.FileJobStore.SetError` | internal/store/file_job.go:105-115 | the row becomes Idle and keeps everything else |
| `JobStore.FileJobStore.Delete` | internal/store/file_job.go:117-123 | that row and no other leaves the table |
| `TempFiles.TempFileService.NewFilePath` | internal/service/temp.go:67-80 | refuses a record that has a path; else the record gets a name never drawn before and nothing appears on disk |
| `TempFiles.TempFileService.NewWriter` | internal/service/temp.go:58-65 | a file appears on disk exactly when no error is returned; a failed open still leaves the record named |
| `TempFiles.TempFileService.DeleteFile` | internal/service/temp.go:38-52 | refuses a record without tracks; else removes every track and the path, apart from removals that fail, and reports the error of the last removal |
| `WorkerPool.Pool.constructor` | internal/utils/pool.go:21-30 | starts exactly the given number of workers on an empty channel of the given capacity |
| `WorkerPool.Pool.Resize` | internal/utils/pool.go:51-66 | ends with exactly n workers; growing keeps all, shrinking ends exactly the signalled idle ones |
| `WorkerPool.Pool.Exec` | internal/utils/pool.go:76-78 | one send on an open channel adds one task at the end, or hands it to an idle worker of an empty channel |
| `WorkerPool.Pool.Receive` | internal/utils/pool.go:35-42 | an idle worker gets the oldest waiting task, which leaves the channel |
| `WorkerPool.Pool.Wait` | internal/utils/pool.go:32-49 | after the close every worker finishes and leaves; nothing runs any more, and what was executed is a beginning of what was sent |
| `WorkerPool.Pool.ReceivedInOrder` | internal/utils/pool.go:32-49 | in every state, received tasks are a beginning of the sent ones, at most Queue wait, at most Workers run |
| `Listener.Listener.Round` | internal/service/transcoding.go:96-115 | a round passes every fetched job on once, in the order of the answer, whatever the workers do meanwhile; a failed fetch passes nothing on |
| `Listener.Listener.Listen` | internal/service/transcoding.go:80-118 | for any number of ticks, with anything done to the table in between, no send meets a closed channel: all batches are sent, numbered and in order, and then the pool is closed |
| `Listener.NumberedAsRow` | internal/service/transcoding.go:104-106 | the job passed on carries the attempt number its row has after the fetch, and that row is Active |
| `Handlers.JobHandler.ErrorJob` | internal/service/job.go:24-38 | performs the machine's steps for a failed attempt: cleanup at MaxRetry or later, else the row turns Idle again |
| `Handlers.JobHandler.Cleanup` | internal/service/job.go:40-50 | removes the files first and the row afterwards, whether or not the removals succeed |
| `Handlers.JobHandler.SuccessJob` | internal/service/transcoding.go:62-78 | removes the source and then hands the same row, with no attempts, to the upload stage |
| `Handlers.JobHandler.ExecuteTranscoding` | internal/service/transcoding.go:120-156 | for every outcome of ffmpeg, the removals and the store: a stored success leaves the same row Idle in the upload stage with no attempts and the output as an mp4 file with the job's start time, ending its duration later when both are positive and else at the job's end time; a failure leaves stage, file and attempts, or removes the row at MaxRetry or later; these are exactly the machine's steps for that outcome, in their order |
| `Handlers.JobHandler.NameOutput` | internal/service/transcoding.go:125-143 | the output is an mp4 file under the drawn name, with the job's tracks and times |
| `Handlers.JobHandler.SetEndTime` | internal/service/transcoding.go:153-155 | the end time is the start time plus the duration if both are positive, and else stays; nothing else changes |
| `Handlers.JobHandler.ExecuteUpload` | internal/service/uploader.go:94-176 | performs the machine's steps; cleans up as uploaded only if the whole file was sent |
| `Handlers.PathIsRun` | internal/service/transcoding.go:120-156 | such a path of worker steps is a run of the machine with the same table and disk, and the worker is idle when the path has left Execute |
| `Handlers.InterruptedGoesOn` | internal/service/transcoding.go:120-156 | however many steps of others come in between, short of a crash, a worker keeps its job and its phase and can still take each step it could take |
| `PipelineSafety.StepTouchesOnlyItsOwnRow` | internal/service/job.go:24-50 | apart from fetch and restart, a row of the instance changes only by the last step of the worker that holds it, which lets the job go |
| `PipelineSafety.StepKeepsInv` | internal/service/transcoding.go:80-156 | every step of sessions, listeners, pools, workers, crash, restart and other instances keeps the invariant |
| `PipelineSafety.RunKeepsInv` | internal/service/transcoding.go:80-156 | the invariant holds in every reachable state |
| `PipelineSafety.HeldOnceAndActive` | internal/store/file_job.go:75-103 | in every run a job is in at most one batch, queue or worker, and its row is Active, in that stage, with the holder's file and attempts |
| `PipelineSafety.TurnsIdleLast` | internal/service/job.go:34-37 | without a restart a row turns Idle only by its holder's last step, after which the job is nowhere in memory |
| `PipelineSafety.MemoryBounded` | internal/service/transcoding.go:49-50 | at most Workers run, at most Queue wait, at most 2 * (Queue + Workers) jobs of one type are in memory |
| `PipelineSafety.StartedInOrder` | internal/utils/pool.go:32-49 | workers start jobs in the order the listener passed them on, each once, and the channel holds exactly the rest |
| `PipelineAttempts.RunKeepsCounted` | internal/store/file_job.go:78-92 | in every run a row's attempts equal its fetches in its stage, and an Idle row has fewer than it may get |
| `PipelineAttempts.FetchesBounded` | internal/service/job.go:27-32 | fetches of a row in one stage never exceed max(1, MaxRetry) plus the restarts |
| `PipelineAttempts.AttemptNumberIsFetchCount` | internal/service/transcoding.go:104-106 | a holder's attempt number is its row's and is the number of fetches of the row in this stage |
| `PipelineWaiting.RoundTakesOlder` | internal/store/file_job.go:82-90 | a round that passes over a waiting row takes `limit` older rows, one of the fetches each has left |
| `PipelineWaiting.WaitingSpendsFetchesLeft` | internal/store/file_job.go:82-90 | from any moment on, rounds that pass over a waiting row, times the limit, are at most the fetches its older rows have left then, and one more for each per reset since |
| `PipelineWaiting.BoundedWaiting` | internal/store/file_job.go:82-90 | hence at most the older rows times max(1, MaxRetry) plus the resets since, however many went before |
| `PipelineHolding.StepStraysIff` | internal/service/job.go:34-49 | after a step an Active row is held by nobody if and only if the step lost its job, by a failed closing statement or a crash, or it was so before and the step is no reset |
| `PipelineHolding.StrayIffLost` | internal/store/file_job.go:66-73 | in every run an Active row is held by nobody if and only if some step lost its job and no reset has succeeded since |
| `PipelineHolding.MovesIff` | internal/utils/pool.go:32-49 | a job in memory can be moved on if and only if a worker has it or it is next in line for a free worker or a free place |
| `PipelineHolding.MemoryMoves` | internal/service/transcoding.go:104-115 | with a worker at hand, a stage with jobs in memory always has a step that lowers the rank of one of them or removes its row |
| `PipelineHolding.StageMoves` | internal/service/transcoding.go:91-117 | a running stage with a worker and an Idle row or a job in memory always has a step for one of its jobs |
| `PipelineProgress.StepLowersRank` | internal/service/job.go:24-50 | between restarts, every step that acts on a job lowers (stage, attempts left, place in memory) until the row is gone, and no step raises it |
| `PipelineFiles.RunKeepsFilesOk` | internal/service/temp.go:58-80 | in every run, crashes and failed removals included, no file name is owned twice |
| `PipelineFiles.StepKeepsNoOrphansIff` | internal/service/temp.go:38-52 | from a state in which every file on disk is owned, a step keeps it so if and only if it is not one of the listed leaks |
| `PipelineFiles.OrphanStays` | internal/service/temp.go:38-52 | a file nobody owns stays on disk and stays unowned under every step |
| `PipelineFiles.NoOrphansIffLeakFree` | internal/service/temp.go:38-80 | after any run every file on disk is owned if and only if no step of the run was a leak |
| `PipelineFiles.CleanRunKeeps` | internal/service/transcoding.go:125-150 | over clean runs every file is owned and the files of a row about to be deleted are already off the disk |
| `PipelineFiles.EveryFileHasOneOwner` | internal/service/media.go:113-123 | over clean runs each file on disk has exactly one owner: an open session, a row or a running transcode |
| `PipelineFiles.EmptyIffLeakFree` | internal/service/job.go:40-50 | once all sessions are closed and all rows gone, the disk is empty if and only if no step of the run was a leak |
| `PipelineFiles.NothingLeftBehind` | internal/service/job.go:40-50 | in particular a clean run then leaves nothing on disk |
| `PipelineSources.UnattemptedHasSource` | internal/service/media.go:113-123 | in every run, crashes and failures included, a transcoding row never attempted has all its track files on disk |
| `PipelineSources.FirstAttemptHasSource` | internal/service/transcoding.go:144-146 | in every run the first attempt has them too, from the fetch until its own worker removes them |
| `PipelineSources.SourceIffUnattempted` | internal/service/transcoding.go:148-151 | in clean runs a waiting transcoding row has all its track files if and only if it was never attempted, and none of them if and only if it was |
| `PipelineSources.RetryWithoutSource` | internal/service/transcoding.go:148-151 | for every configuration with a worker and more than one attempt, a run that ends with a retry waiting and its source gone |
| `PipelineOutcome.Conservation` | internal/store/file_job.go:36-44 | in every run the created jobs are exactly the rows and the deleted ones, never both |
| `PipelineOutcome.RemovalIsJustified` | internal/service/uploader.go:104-111 | a row leaves only after its upload succeeded or an attempt numbered MaxRetry or higher failed |
| `PipelineOutcome.CrashRecovery` | cmd/wire_gen.go:102-105 | after a crash in any reachable state the next start makes every row of the instance Idle and fetchable, changes no other row, and restores the invariant |
| `UploadStream.SendFile` | internal/service/uploader.go:119-175 | for all partial reads: the first message carries the file's type and, if and only if its start time is positive, its start and end times; without an error non-empty chunks of at most 256 * 1024 bytes follow that add up to the file; with an error the stream is a beginning of that |
| `Session.AtMostOneJob` | internal/service/webrtc.go:120-140 | a session yields at most one job in every run, ICE failures and evictions included |
| `Session.JobFollowsZero` | internal/service/media.go:247-252 | in every run a job is created only after some caller of close saw the track count at zero, and it lists all tracks listed at that moment |
| `Session.ExactlyOneJob` | internal/service/media.go:247-280 | without these, a session that had a track while stored is out of the store when its handlers are back, and one job was attempted or its one closer is about to |
| `Session.OneJobIff` | internal/service/media.go:247-252 | without evictions, ICE failures allowed, a session that was stored, with every goroutine back, yielded one job if and only if some caller of close saw zero and called Remove after Add; otherwise it is still stored, without a job |
| `Session.CloseAlone` | internal/service/media.go:247-280 | the steps of close, run alone, do what the code does in one go |
| `Session.IceFailureCanStrand` | internal/service/media.go:240-241 | a run in which an ICE failure and a leaving track leave the session stored without a job |
| `Session.TrackBeforeAddIsStranded` | internal/service/webrtc.go:75-84 | a run in which a track that ended before the session was stored leaves it stored without a job |
| `MediaSession.SessionStore.Get` | internal/store/session.go:36-47 | finds exactly the stored sessions; the found one becomes the most recent and the others keep their order |
| `MediaSession.SessionStore.Add` | internal/store/session.go:58-63 | the session becomes the most recent; the least recent one is evicted exactly when the store is full and the id is new |
| `MediaSession.SessionStore.Remove` | internal/store/session.go:49-56 | answers whether the session was stored; it is gone and the others keep their order |
| `MediaSession.WithoutKeepsOrder` | internal/store/session.go:49-63 | leaving one session out keeps the order of all others, which decides who is evicted next |
| `MediaSession.RtcUploadMediaSession.BeginTrack` | internal/service/media.go:100-130 | a started track is on disk, listed and counted; a failed open leaves the session as it was |
| `MediaSession.RtcUploadMediaSession.EndTrack` | internal/service/media.go:132-136 | only the end of the last counted track closes the session |
| `MediaSession.RtcUploadMediaSession.Close` | internal/service/media.go:247-280 | does nothing while tracks are counted; else the session leaves the store, and only if it was there a job is created |
| `MediaSession.RtcUploadMediaSession.StopVideoSession` | internal/service/webrtc.go:120-140 | one job whose end time is the moment of the stop if the session has a start time, and else as it was; or, if it cannot be created, the tracks are removed |
| `MediaSession.StopIsMachineStep` | internal/service/webrtc.go:120-140 | that outcome is the pipeline machine's step that stops a session |
| `MediaSession.RtcUploadMediaSession.CloseP2P` | internal/service/webrtc.go:108-118 | an unknown session is an error; a session with live tracks goes on |
| `Grid.GridShape` | internal/utils/transcoding.go:127-128 | cols is the least c with c * c >= n, and cols - 1 <= rows <= cols |
| `Grid.Layout` | internal/utils/transcoding.go:149-160 | the nested loops with their break emit exactly n positions, the k-th one the cell in row k div cols and column k mod cols |
| `Grid.CellsByRow` | internal/utils/transcoding.go:149-158 | row by row from the top and left to right: the cell in row r and column c starts at c * (1920 div cols), r * (1080 div rows) |
| `Grid.WindowSize` | internal/utils/transcoding.go:127-134 | a window is 1920 div cols wide and 1080 div rows high |
| `Grid.WindowsInsideFrame` | internal/utils/transcoding.go:130-158 | every window lies inside 1920 by 1080 |
| `Grid.WindowsDisjoint` | internal/utils/transcoding.go:130-158 | no two windows share a pixel |
| `Grid.WindowsHaveSize` | internal/utils/transcoding.go:133-134 | windows have a positive size if and only if there are at most 1080 * 1081 videos |
| `FilterGraph.TranscodingArgs` | internal/utils/transcoding.go:86-186 | nothing for a recording without audio and video; else the inputs in order, the text of the graph, and "-map" before each output |
| `FilterText.PrintParsesBack` | internal/utils/transcoding.go:123-182 | the printed text, split at its semicolons and read chain by chain, is the intended graph, for every channel list and time factor |
| `FilterText.NothingToEncode` | internal/utils/transcoding.go:106-108 | no arguments are built if and only if the machine's workers start no ffmpeg for the recording |
| `FilterText.GraphSize` | internal/utils/transcoding.go:123-180 | 2n + 1 chains for n >= 2 videos, one for one video, one more for audio |
| `FilterText.GraphWired` | internal/utils/transcoding.go:137-178 | each internal label is produced once and consumed once, each audio or video input is consumed once, each output is produced once |
| `FilterText.StreamsByType` | internal/utils/transcoding.go:95-101 | an input is consumed as a video, once, if and only if its type starts with "video", and as audio if and only if it starts with "audio" |
| `FilterText.SingleShape` | internal/utils/transcoding.go:124-125 | the only video is scaled into the whole frame and goes to the output |
| `FilterText.WindowShape` | internal/utils/transcoding.go:137-147 | of several videos the k-th is scaled and padded to the window size, through its own links |
| `FilterText.StackShape` | internal/utils/transcoding.go:149-168 | the padded videos are stacked in order, the k-th at the k-th cell |
| `FilterText.MixShape` | internal/utils/transcoding.go:174-178 | one last chain mixes all audio inputs, in order |
| `FilterText.MapsByType` | internal/utils/transcoding.go:171-180 | [v_out] is mapped if and only if some type starts with "video", and then [a_out] if and only if some type starts with "audio" |
| `FilterText.OneOfEachText` | internal/utils/transcoding.go:124-178 | the whole text for one video and one audio channel, at any positions among other channels |
| `FilterText.LabelTextInjective` | internal/utils/transcoding.go:138-142 | different labels print differently, so the wiring is that of the text |
| `FilterText.StreamNames` | internal/utils/transcoding.go:124-176 | the i-th input is written [i:v] as a video and [i:a] as audio |
| `FilterText.LinkNames` | internal/utils/transcoding.go:138-145 | the links are written [v_scaled_i] and [v_norm_i] |
| `FilterText.ArgsMatchGraph` | internal/utils/transcoding.go:114-116 | the i-th input argument is the i-th channel, and an output is mapped if and only if the graph produces it |
| `FilterNumbers.FilterReadsBack` | internal/utils/transcoding.go:123-178 | the numbers read from a printed filter are its width, height, positions and counts, in ffmpeg's order |
| `FilterNumbers.FilterNamed` | internal/utils/transcoding.go:123-178 | after the time factor comes the name of the filter: scale, pad, xstack or amix |
| `FilterNumbers.FilterSamples` | internal/utils/transcoding.go:138-177 | how the filters of a recording with two videos read, character by character |
| `Duration.FindsLast` | internal/utils/transcoding.go:276-282 | greedy matching without overlap ends with the last time stamp in the text |
| `Duration.ReadsBack` | internal/utils/transcoding.go:276-293 | for any text around it, the last time stamp with 1 to 9 fraction digits is read as its floor in milliseconds |
| `Duration.ClockText` | internal/utils/transcoding.go:17 | a stamp has two digits each for hours, minutes and seconds, in this order, and then the fraction |
| `Duration.NoStampIsZero` | internal/utils/transcoding.go:278-280 | a text without a time stamp gives 0 |
| `RtpGap.Track.Release` | internal/service/media.go:176-192 | after any packets, the last number, the logged counts and both time stamps are those of the stream |
| `RtpGap.ReportsAccount` | internal/service/media.go:176-182 | the counts logged are the numbers skipped, save those right after a packet numbered 0 |
| `RtpGap.ReportsAreComplete` | internal/service/media.go:176-182 | they add up to all numbers skipped if and only if no gap follows a packet numbered 0 |
| `RtpGap.ContiguousIsSilent` | internal/service/media.go:176-182 | a contiguous stream of any length logs nothing across wraps |
| `RtpGap.GapAfterZeroUnseen` | internal/service/media.go:176-182 | a stream that loses 100 packets after packet 0 and logs none |
| `RtpGap.FirstTimestampIsFirst` | internal/service/media.go:184-190 | the recorded first time stamp is the first packet's if and only if that is not 0 or all are 0 |
| `RtpGap.FirstTimestampAt` | internal/service/media.go:184-190 | the recorded first time stamp is the first one that differs from 0 |
| `RoundRobin.RrPicker.constructor` | infra/resolver/roundrobin.go:57-75 | every connection is listed, and a name is indexed if and only if a connection is registered under it, to such a connection |
| `RoundRobin.RrPicker.Pick` | infra/resolver/roundrobin.go:93-109 | a static pick never moves the counter and answers only a connection of that name; any other pick advances it by one with wrap-around |
| `RoundRobin.Build` | infra/resolver/roundrobin.go:50-75 | a picker is built if and only if a connection is ready |
| `RoundRobin.CounterIsRemainder` | infra/resolver/roundrobin.go:104-105 | start plus picks is the wraps times the range plus the counter |
| `RoundRobin.Fairness` | infra/resolver/roundrobin.go:103-108 | over any k picks from any start two connections differ by at most one plus the wraps, and by at most one if their number divides the range |
| `RoundRobin.WholeRounds` | infra/resolver/roundrobin.go:103-108 | whole rounds without a wrap serve every connection equally often |
| `RoundRobin.RrPicker.Fair` | infra/resolver/roundrobin.go:93-109 | the same bound in every state a picker reaches, by any calls in any order |
| `LicenseScope.LicenseActiveScope` | infra/auth/auth_connection.go:153-241 | the two loops compute the specified licences and scope |
| `LicenseScope.ScopeList.AddScope` | infra/auth/auth_connection.go:188-200 | the scope stays the duplicate-free list of all non-blank canonical names offered |
| `LicenseScope.ScopeList.KeepMatched` | infra/auth/auth_connection.go:222-238 | the deletion in place, stepping back after each, equals filtering, and it ends |
| `LicenseScope.ScopeMeaning` | infra/auth/auth_connection.go:153-241 | the scope holds exactly the non-blank canonical names of active products that match a user class, each once, by first appearance |
| `LicenseScope.NameIsGranted` | infra/auth/auth_connection.go:153-241 | a non-blank name is in the scope if and only if a product offers it, a class of the user matches it, and the product is neither expired nor yet to be issued |
| `LicenseScope.LicenceCounts` | infra/auth/auth_connection.go:203-220 | a licence counts if and only if its product is active and some active product offers a non-blank name |
| `LicenseScope.ActiveBounds` | infra/auth/auth_connection.go:203-220 | a product with classes counts from its issue moment on and until just before its expiry moment, where these are set |
| `Permissions.ParseAccess` | infra/auth/auth_connection.go:254-282 | fails, with no access, if and only if a letter is outside "xrwd"; else the low bits are the letters that occur, the high bits those that occur twice |
| `Permissions.OrderIsIrrelevant` | infra/auth/auth_connection.go:254-282 | permuted access strings mean the same |
| `Permissions.GrantBits` | infra/auth/auth_connection.go:254-282 | 8, 4, 2 and 1 stand for x, r, w and d, and sixteen times as much for a second occurrence |
| `Permissions.TransformScopes` | infra/auth/auth_connection.go:132-150 | every class in order, field by field, with access 0 for a string that does not parse |
| `Permissions.Session.GetPermission` | infra/auth/session.go:91-99 | the first class of that name, or a refusal under that name |
| `Permissions.DecisionMatchesReport` | infra/auth/permission.go:44-74 | an operation is allowed if and only if the class is present and either no access model is on or the string is valid and holds its letter |
| `Permissions.LettersDecide` | infra/auth/permission.go:32-74 | for the first class of a name under an access model, x, r, w and d in a valid string allow creation, reading, update and deletion, and nothing else does; without a model all is allowed |
| `Permissions.GatherAdminPermissions` | infra/auth/auth_connection.go:95-107 | the slice is as many create permissions as there are permissions, then the mapped ones in order |
| `Permissions.Session.UseRBAC` | infra/auth/session.go:39-51 | role checks apply if and only if the class asks for them and the operation is not among the administrative permissions |
| `Permissions.Session.HasLicense` | infra/auth/session.go:57-65 | finds exactly the listed licences |
| `Permissions.RbacSkipped` | infra/auth/session.go:39-51 | role checks are skipped for exactly the operations administered, except that creation is exempt whenever there is any permission |
| `Permissions.SkippedByName` | infra/auth/auth_connection.go:95-107 | reading, update and deletion are exempt if and only if "read", "write" and "delete" are among the permissions, and creation if and only if there is any |
| `Permissions.RoleCheckMatchesReport` | infra/auth/session.go:39-51 | from the report to the check: it applies if and only if the operation is not exempt and the first class of the name has role checks on, or there is no such class |
| `Permissions.ReaderEscapesCreateCheck` | infra/auth/auth_connection.go:96-102 | a user with only the read permission is exempt from the role check on creation |
| `Wav.HeaderReadsBack` | internal/service/wav.go:80-110 | reading the 44 bytes back gives every field, cut to its width |
| `Wav.HeaderBytes` | internal/service/wav.go:80-110 | the 44 bytes one by one: tags in ASCII, numbers with their lowest byte first |
| `Wav.HeaderConsistent` | internal/service/wav.go:96-104 | channels, rate, byte rate and block align agree if and only if none is cut |
| `Wav.WAVWriter.Write` | internal/service/wav.go:59-72 | the content stays one header and then the payloads in order, and the counter is the Write total modulo 2^32 |
| `Wav.WAVWriter.WriteRTP` | internal/service/wav.go:46-52 | a non-empty payload is appended past the counter, an empty one is not written |
| `Wav.NewWAVWriter` | internal/service/wav.go:23-44 | a writer is handed out if and only if there is a sink and the header went out; rate and channels that are not positive are replaced |

## Left out

- PostgreSQL, ffmpeg, pion, gRPC, clocks and the file system are outcomes chosen by the environment. A statement, a batch
  of removals in one `DeleteFile`, or an LRU call is one atomic step; a statement that fails has no effect.
- The columns `error`, `config` and `activity_at`, and the file fields the model does not use. The table's defaults for
  a new row (state Idle, no attempts) are taken as given: the schema is not part of this model.
- `created_at` is strictly increasing in insertion order within an instance; names from `NewID` never repeat.
- A graceful stop (`ctx.Done`) is treated like a crash. With `Workers` 0 the listener blocks for ever on its first full send.
- WorkerPool.Pool.Resize: sends and kill signals are taken at moments when they do not block; how long they block is not modelled.
- WorkerPool.Pool.Exit: a worker leaves through `ctx.Done` only when the pool is closed; in the code the two follow each
  other, and in the machine both are part of the crash.
- Handlers.JobHandler.ExecuteTranscoding: the probe of each track's duration is left out; the time factor it yields is any
  text free of `;`, `[` and `]` in `FilterGraph`.
- Session.ExactlyOneJob: for runs without ICE failure and eviction; `OneJobIff` gives the exact condition with ICE failures.
  The counter is an integer of any size, not an int32.
- `onDataChannel`: it has a value receiver, so it counts in a copy, but it lists its path in the shared file record: `ListChannel`
  in `Session`, and in `Pipeline` a `StartTrack` that sets no time (`now` 0). Listing a track is one atomic step, although
  handlers run in parallel. Closing encoders, writers and the connection has no effect in the model.
- Duration.ReadsBack: fractions of more than nine digits go through floating point; their value is a parameter.
- Grid.GridShape: the code computes the grid in floating point; the model uses the exact integer ceiling of the root and of the quotient.
- RtpGap.ReportsAccount: for positions that advance by 1 to 65535; a larger jump is invisible in 16 bits.
- UploadStream.SendFile: the server's answer is never received by the code, so success means sent, not stored. Of the
  metadata only the fields that depend on times and type are kept.
- LicenseScope.LicenseActiveScope: trimming, lower case and case-insensitive comparison are parameters, any functions.
- Permissions.DecisionMatchesReport: `GetSession` around it, its cache and its request are left out; so is the list of actions.
- Wav.WAVWriter.Write: the mutex is left out; each call runs alone.
- RoundRobin.Build: fewer than 2^32 connections; the order in which a Go map lists them is any order.
- `ProductLimit`, port ranges, codec numbering, command-line flags, logging, the Consul resolver and registration, generated code:
  plumbing that would only add easy members.
