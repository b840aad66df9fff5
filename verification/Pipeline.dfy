/** The recording job pipeline as a state machine: sessions, the job table, the temporary files,
    and the two listeners with their queues and workers, interleaved one atomic step at a time.

    A step is one SQL statement, one batch of file removals, one channel operation or one
    outcome of ffmpeg or of an upload. What the outside decides (answers, outcomes, new names)
    is part of the action, so a run is a sequence of actions. */
module Pipeline {
  import opened Model
  import opened JobStore
  import opened TempFiles

  /** Workers, Queue and MaxRetry of one listener (config/config.go). */
  datatype ListenerConfig = ListenerConfig(workers: nat, queue: nat, maxRetry: int) {
    function Limit(): nat { queue + workers }
    /** How many attempts a job gets when nothing restarts. */
    function Attempts(): nat { Max(1, maxRetry) }
  }

  datatype Config = Config(instance: string, transcoding: ListenerConfig, upload: ListenerConfig) {
    function Of(stage: Stage): ListenerConfig {
      match stage case Transcoding => transcoding case Upload => upload
    }
  }

  /** Why `cleanup` was called: from a successful upload, or from `errorJob`. */
  datatype Cause = Uploaded | Exhausted

  /** Where a worker stands inside Execute. */
  datatype Phase =
    | Started
    | Encoding(mp4: File)    // the output is named, ffmpeg is running
    | Produced(mp4: File)    // ffmpeg succeeded; successJob removes the source files next
    | HandOver(mp4: File)    // ... and then updates the row
    | Spoiled(mp4: File)     // ffmpeg failed; DeleteFile(&mp4File) is next
    | Failed                 // errorJob is next
    | Removing(cause: Cause) // cleanup removes the files next
    | Deleting(cause: Cause) // ... and then deletes the row

  datatype Exec = Exec(job: Job, phase: Phase)

  /** The memory of one listener: the fetched jobs not yet passed to the pool, the pool's channel
      buffer, and what each busy worker executes. */
  datatype Lane = Lane(batch: seq<Job>, queue: seq<Job>, running: map<nat, Exec>)

  const EMPTY_LANE := Lane([], [], map[])

  datatype State = State(
    table: Table, nextId: nat, clock: nat,
    disk: set<Path>, drawn: set<Path>,
    up: bool,
    sessions: map<nat, File>,
    transcoding: Lane, upload: Lane)
  {
    function At(stage: Stage): Lane {
      match stage case Transcoding => transcoding case Upload => upload
    }
  }

  /** What a worker does next inside Execute, errorJob and cleanup. */
  datatype Op =
    // transcodingJob.Execute and successJob
    | Begin(name: Path)
    | WriteOutput
    | EndEncoding(ok: bool, durationMs: int)
    | DropSource(stuck: set<Path>)
    | Publish(ok: bool)
    | Discard(stuck: set<Path>)
    // UploadJob.Execute
    | EndUpload(ok: bool)
    // errorJob and cleanup
    | Retry(ok: bool)
    | GiveUp
    | RemoveFiles(stuck: set<Path>)
    | DeleteJob(ok: bool)

  datatype Action =
    // sessions (internal/service/webrtc.go, internal/service/media.go)
    | OpenSession(sid: nat, config: File)
    | StartTrack(sid: nat, name: Path, mimeType: string, now: int) // or a data channel, which leaves the time as it is: now == 0
    | StopSession(sid: nat, ok: bool, stuck: set<Path>, now: int)
    | EvictSession(sid: nat)
    | LateTrack(name: Path)
    // listeners and pools
    | Fetch(stage: Stage, ids: seq<nat>)
    | Send(stage: Stage)
    | Handoff(stage: Stage, w: nat)
    | Take(stage: Stage, w: nat)
    | Work(stage: Stage, w: nat, op: Op)
    // the process and the rest of the cluster
    | Crash
    | Start(ok: bool)
    | Others(table: Table, nextId: nat)

  /** ffmpeg is started only when some channel is audio or video (internal/utils/transcoding.go:106-108,215-217). */
  predicate Playable(f: File) {
    exists i :: 0 <= i < |f.track| && ("video" <= f.track[i].mimeType || "audio" <= f.track[i].mimeType)
  }

  predicate Mine(c: Config, t: Table, id: nat) {
    id in t && t[id].instance == c.instance
  }

  /** Steps of other instances: they create, change and delete only their own rows. */
  ghost predicate OthersOnly(c: Config, t: Table, t': Table) {
    forall id :: Mine(c, t, id) || Mine(c, t', id) ==> id in t && id in t' && t'[id] == t[id]
  }

  ghost predicate IsFresh(s: State, name: Path) {
    name != "" && name !in s.drawn
  }

  /** Which worker steps the control flow of Execute, errorJob and cleanup allows next. */
  ghost predicate Ready(c: Config, stage: Stage, x: Exec, op: Op) {
    match op
    case Begin(_) => stage == Transcoding && x.phase.Started?
    case WriteOutput => x.phase.Encoding? && Playable(x.job.file)
    case EndEncoding(ok, _) => x.phase.Encoding? && (ok || Playable(x.job.file))
    case DropSource(_) => x.phase.Produced?
    case Publish(_) => x.phase.HandOver?
    case Discard(_) => x.phase.Spoiled?
    case EndUpload(_) => stage == Upload && x.phase.Started?
    case Retry(_) => x.phase.Failed? && x.job.retry < c.Of(stage).maxRetry
    case GiveUp => x.phase.Failed? && x.job.retry >= c.Of(stage).maxRetry
    case RemoveFiles(_) => x.phase.Removing?
    case DeleteJob(_) => x.phase.Deleting?
  }

  ghost predicate Idles(c: Config, s: State, stage: Stage, w: nat) {
    w < c.Of(stage).workers && w !in s.At(stage).running
  }

  ghost predicate Enabled(c: Config, s: State, a: Action) {
    match a
    case OpenSession(sid, config) => s.up && sid !in s.sessions && config.path == "" && config.track == []
    case StartTrack(sid, name, _, _) => s.up && sid in s.sessions && IsFresh(s, name)
    case StopSession(sid, _, _, _) => s.up && sid in s.sessions
    case EvictSession(sid) => s.up && sid in s.sessions
    case LateTrack(name) => s.up && IsFresh(s, name)
    case Fetch(stage, ids) =>
      s.up && s.At(stage).batch == [] && IsOldestBatch(s.table, c.instance, stage, c.Of(stage).Limit(), ids)
    case Send(stage) => s.At(stage).batch != [] && |s.At(stage).queue| < c.Of(stage).queue
    case Handoff(stage, w) => s.At(stage).batch != [] && s.At(stage).queue == [] && Idles(c, s, stage, w)
    case Take(stage, w) => s.At(stage).queue != [] && Idles(c, s, stage, w)
    case Crash => s.up
    case Start(_) => !s.up
    case Others(t, n) => OthersOnly(c, s.table, t) && s.nextId <= n && forall id :: id in t ==> id < n
    case Work(stage, w, op) =>
      && w in s.At(stage).running
      && Ready(c, stage, s.At(stage).running[w], op)
      && (op.Begin? ==> IsFresh(s, op.name))
  }

  /** The file mp4File after ffmpeg ended (internal/service/transcoding.go:153-155). */
  function Timed(mp4: File, durationMs: int): File {
    if durationMs > 0 && mp4.startTime > 0 then mp4.(endTime := mp4.startTime + durationMs) else mp4
  }

  function Stamped(f: File, now: int): File {
    if f.startTime > 0 then f.(endTime := now) else f
  }

  function WithTrack(f: File, name: Path, mimeType: string, now: int): File {
    f.(track := f.track + [MediaChannel(name, mimeType)], startTime := if f.startTime == 0 then now else f.startTime)
  }

  function Numbered(j: Job): Job {
    j.(retry := j.retry + 1)
  }

  /** The output record: a copy of the job's file, tracks included, under a new name. */
  function OutputFile(j: Job, name: Path): File {
    j.file.(path := name, mimeType := "video/mp4")
  }

  /** The row successJob writes: the output file, in the upload stage, with attempts counted from zero. */
  function UploadJobOf(j: Job, mp4: File): Job {
    Job(j.id, Upload, mp4, 0)
  }

  /** Where the worker stands after its step; `None` when it has left Execute. */
  ghost function Continues(c: Config, stage: Stage, x: Exec, op: Op): Option<Phase>
    requires Ready(c, stage, x, op)
  {
    match op
    case Begin(name) => Some(Encoding(OutputFile(x.job, name)))
    case WriteOutput => Some(x.phase)
    case EndEncoding(ok, durationMs) => Some(if ok then Produced(Timed(x.phase.mp4, durationMs)) else Spoiled(x.phase.mp4))
    case DropSource(_) => Some(HandOver(x.phase.mp4))
    case Publish(_) => None
    case Discard(_) => Some(Failed)
    case EndUpload(ok) => Some(if ok then Removing(Uploaded) else Failed)
    case Retry(_) => None
    case GiveUp => Some(Removing(Exhausted))
    case RemoveFiles(_) => Some(Deleting(x.phase.cause))
    case DeleteJob(_) => None
  }

  ghost function WorkTable(c: Config, t: Table, stage: Stage, x: Exec, op: Op): Table
    requires Ready(c, stage, x, op)
  {
    match op
    case Publish(ok) => if ok then UpdateRow(t, Idle, UploadJobOf(x.job, x.phase.mp4)) else t
    case Retry(ok) => if ok then SetErrorRow(t, x.job.id) else t
    case DeleteJob(ok) => if ok then DeleteRow(t, x.job.id) else t
    case _ => t
  }

  ghost function WorkDisk(c: Config, disk: set<Path>, stage: Stage, x: Exec, op: Op): set<Path>
    requires Ready(c, stage, x, op)
  {
    match op
    case WriteOutput => disk + {x.phase.mp4.path}
    case DropSource(stuck) => RemoveFile(disk, x.job.file, stuck)
    case Discard(stuck) => RemoveFile(disk, x.phase.mp4, stuck)
    case RemoveFiles(stuck) => RemoveFile(disk, x.job.file, stuck)
    case _ => disk
  }

  ghost function TableAfter(c: Config, s: State, a: Action): Table
    requires Enabled(c, s, a)
  {
    match a
    case StopSession(sid, ok, _, now) =>
      if ok then InsertRow(s.table, s.nextId, Transcoding, c.instance, Stamped(s.sessions[sid], now), s.clock) else s.table
    case Fetch(_, ids) => FetchRows(s.table, ids)
    case Work(stage, w, op) => WorkTable(c, s.table, stage, s.At(stage).running[w], op)
    case Start(ok) => if ok then ResetRows(s.table, c.instance) else s.table
    case Others(t, _) => t
    case _ => s.table
  }

  ghost function DiskAfter(c: Config, s: State, a: Action): set<Path>
    requires Enabled(c, s, a)
  {
    match a
    case StartTrack(_, name, _, _) => s.disk + {name}
    case LateTrack(name) => s.disk + {name}
    case StopSession(sid, ok, stuck, _) => if ok then s.disk else RemoveFile(s.disk, s.sessions[sid], stuck)
    case Work(stage, w, op) => WorkDisk(c, s.disk, stage, s.At(stage).running[w], op)
    case _ => s.disk
  }

  ghost function DrawnAfter(c: Config, s: State, a: Action): set<Path>
    requires Enabled(c, s, a)
  {
    match a
    case StartTrack(_, name, _, _) => s.drawn + {name}
    case LateTrack(name) => s.drawn + {name}
    case Work(_, _, op) => if op.Begin? then s.drawn + {op.name} else s.drawn
    case _ => s.drawn
  }

  ghost function SessionsAfter(c: Config, s: State, a: Action): map<nat, File>
    requires Enabled(c, s, a)
  {
    match a
    case OpenSession(sid, config) => s.sessions[sid := config]
    case StartTrack(sid, name, mimeType, now) => s.sessions[sid := WithTrack(s.sessions[sid], name, mimeType, now)]
    case StopSession(sid, _, _, _) => s.sessions - {sid}
    case EvictSession(sid) => s.sessions - {sid}
    case Crash => map[]
    case _ => s.sessions
  }

  /** What a step of its own listener or workers makes of a lane. */
  ghost function LaneStep(c: Config, s: State, lane: Lane, a: Action): Lane
    requires Enabled(c, s, a)
    requires a.Fetch? || a.Send? || a.Handoff? || a.Take? || a.Work?
    requires lane == s.At(a.stage)
  {
    match a
    case Fetch(_, ids) => lane.(batch := FetchedJobs(s.table, ids))
    case Send(_) => lane.(batch := lane.batch[1..], queue := lane.queue + [Numbered(lane.batch[0])])
    case Handoff(_, w) =>
      lane.(batch := lane.batch[1..], running := lane.running[w := Exec(Numbered(lane.batch[0]), Started)])
    case Take(_, w) => lane.(queue := lane.queue[1..], running := lane.running[w := Exec(lane.queue[0], Started)])
    case Work(stage, w, op) =>
      match Continues(c, stage, lane.running[w], op)
      case Some(phase) => lane.(running := lane.running[w := lane.running[w].(phase := phase)])
      case None => lane.(running := lane.running - {w})
  }

  /** The memory of one listener after the step. */
  ghost function LaneAfter(c: Config, s: State, stage: Stage, a: Action): Lane
    requires Enabled(c, s, a)
  {
    if a.Crash? then EMPTY_LANE
    else if (a.Fetch? || a.Send? || a.Handoff? || a.Take? || a.Work?) && a.stage == stage then LaneStep(c, s, s.At(stage), a)
    else s.At(stage)
  }

  ghost function Next(c: Config, s: State, a: Action): State
    requires Enabled(c, s, a)
  {
    var created := if a.StopSession? && a.ok then 1 else 0;
    State(
      TableAfter(c, s, a),
      if a.Others? then a.nextId else s.nextId + created,
      s.clock + created,
      DiskAfter(c, s, a),
      DrawnAfter(c, s, a),
      if a.Crash? then false else if a.Start? then true else s.up,
      SessionsAfter(c, s, a),
      LaneAfter(c, s, Transcoding, a),
      LaneAfter(c, s, Upload, a))
  }

  /** Before the first start: the instance has no rows, no files and nothing in memory. */
  ghost predicate Init(c: Config, s: State) {
    && !s.up && s.disk == {} && s.drawn == {} && s.sessions == map[]
    && s.transcoding == EMPTY_LANE && s.upload == EMPTY_LANE
    && (forall id :: id in s.table ==> id < s.nextId && !Mine(c, s.table, id))
  }

  /** `run` can happen from `s`, one enabled action after the other. */
  ghost predicate Feasible(c: Config, s: State, run: seq<Action>)
    decreases |run|, 0
  {
    run == [] || (Feasible(c, s, run[..|run| - 1]) && Enabled(c, After(c, s, run[..|run| - 1]), run[|run| - 1]))
  }

  ghost function After(c: Config, s: State, run: seq<Action>): State
    requires Feasible(c, s, run)
    decreases |run|, 1
  {
    if run == [] then s else Next(c, After(c, s, run[..|run| - 1]), run[|run| - 1])
  }
}
