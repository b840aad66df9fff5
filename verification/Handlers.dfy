/** The job handlers as the code runs them: errorJob, cleanup, successJob and the two Execute methods
    (internal/service/job.go, transcoding.go, uploader.go), working on the store and the temporary files.

    Each is proved to perform one path of worker steps of the `Pipeline` machine. */
module Handlers {
  import opened Model
  import opened JobStore
  import opened TempFiles
  import opened Pipeline
  import UploadStream

  /** The part of the state a worker's steps change, with its own phase (`None` outside Execute). */
  datatype Local = Local(table: Table, disk: set<Path>, phase: Option<Phase>)

  ghost predicate Can(c: Config, stage: Stage, job: Job, l: Local, op: Op) {
    l.phase.Some? && Ready(c, stage, Exec(job, l.phase.value), op)
  }

  ghost function Do(c: Config, stage: Stage, job: Job, l: Local, op: Op): Local
    requires Can(c, stage, job, l, op)
  {
    var x := Exec(job, l.phase.value);
    Local(WorkTable(c, l.table, stage, x, op), WorkDisk(c, l.disk, stage, x, op), Continues(c, stage, x, op))
  }

  /** `ops`, done one after the other from `l`, lead to `l'`. */
  ghost predicate Leads(c: Config, stage: Stage, job: Job, l: Local, ops: seq<Op>, l': Local)
    decreases |ops|
  {
    if ops == [] then l == l'
    else Can(c, stage, job, l, ops[0]) && Leads(c, stage, job, Do(c, stage, job, l, ops[0]), ops[1..], l')
  }

  lemma {:induction false} LeadsOn(c: Config, stage: Stage, job: Job, l: Local, ops: seq<Op>, m: Local, more: seq<Op>, l': Local)
    requires Leads(c, stage, job, l, ops, m) && Leads(c, stage, job, m, more, l')
    ensures Leads(c, stage, job, l, ops + more, l')
    decreases |ops|
  {
    if ops == [] {
      assert ops + more == more;
    } else {
      LeadsOn(c, stage, job, Do(c, stage, job, l, ops[0]), ops[1..], m, more, l');
      assert (ops + more)[1..] == ops[1..] + more;
    }
  }

  lemma LeadsByOne(c: Config, stage: Stage, job: Job, l: Local, op: Op)
    requires Can(c, stage, job, l, op)
    ensures Leads(c, stage, job, l, [op], Do(c, stage, job, l, op))
  {
  }

  /** The steps of errorJob, by the attempt number. */
  function ErrorOps(job: Job, maxRetry: int, stuck: set<Path>, stored: bool): seq<Op> {
    if job.retry >= maxRetry then [GiveUp, RemoveFiles(stuck), DeleteJob(stored)] else [Retry(stored)]
  }

  /** What the outside does during one transcoding: the drawn name, ffmpeg's outcome, the removals
      that fail, and whether the closing statement on the table succeeds. */
  datatype Fortune = Fortune(
    name: Path, wrote: bool, encoded: bool, durationMs: int,
    stuckSource: set<Path>, stuckOutput: set<Path>, stuckCleanup: set<Path>, stored: bool)

  function WriteOps(job: Job, f: Fortune): seq<Op> {
    if Playable(job.file) && f.wrote then [WriteOutput] else []
  }

  function EndOps(job: Job, f: Fortune): seq<Op> {
    if !Playable(job.file) then [EndEncoding(true, 0)]
    else if f.encoded then [EndEncoding(true, f.durationMs)]
    else [EndEncoding(false, f.durationMs), Discard(f.stuckOutput)]
  }

  function LastOps(job: Job, maxRetry: int, f: Fortune): seq<Op> {
    if Playable(job.file) && !f.encoded then ErrorOps(job, maxRetry, f.stuckCleanup, f.stored)
    else [DropSource(f.stuckSource), Publish(f.stored)]
  }

  /** The steps of one transcoding. */
  function TranscodingOps(job: Job, maxRetry: int, f: Fortune): seq<Op> {
    [Begin(f.name)] + WriteOps(job, f) + EndOps(job, f) + LastOps(job, maxRetry, f)
  }

  /** One step, or two, checked one at a time. */
  lemma EncodingEnds(c: Config, stage: Stage, job: Job, l: Local, ops: seq<Op>, l': Local)
    requires 1 <= |ops| <= 2 && Can(c, stage, job, l, ops[0])
    requires |ops| == 1 ==> Do(c, stage, job, l, ops[0]) == l'
    requires |ops| == 2 ==> Can(c, stage, job, Do(c, stage, job, l, ops[0]), ops[1])
                            && Do(c, stage, job, Do(c, stage, job, l, ops[0]), ops[1]) == l'
    ensures Leads(c, stage, job, l, ops, l')
  {
    if |ops| == 2 {
      LeadsByOne(c, stage, job, Do(c, stage, job, l, ops[0]), ops[1]);
      assert ops[1..] == [ops[1]];
    } else {
      assert ops == [ops[0]];
      LeadsByOne(c, stage, job, l, ops[0]);
    }
  }

  function UploadOps(job: Job, maxRetry: int, ok: bool, stuck: set<Path>, stored: bool): seq<Op> {
    [EndUpload(ok)] + (if ok then [RemoveFiles(stuck), DeleteJob(stored)] else ErrorOps(job, maxRetry, stuck, stored))
  }

  /** Some track is a video or an audio recording. */
  predicate Plays(track: seq<MediaChannel>) {
    exists i :: 0 <= i < |track| && ("video" <= track[i].mimeType || "audio" <= track[i].mimeType)
  }

  class JobHandler {
    const store: FileJobStore
    const temp: TempFileService
    const stage: Stage
    ghost const cfg: Config

    constructor (store: FileJobStore, temp: TempFileService, stage: Stage, ghost cfg: Config)
      ensures this.store == store && this.temp == temp && this.stage == stage && this.cfg == cfg
    {
      this.store, this.temp, this.stage, this.cfg := store, temp, stage, cfg;
    }

    ghost function Here(phase: Option<Phase>): Local
      reads store.db, temp
    {
      Local(store.db.rows, temp.disk, phase)
    }

    method Cleanup(job: Job, ghost cause: Cause, stuck: set<Path>, stored: bool)
      requires store.db.Valid()
      modifies store.db`rows, temp`disk
      ensures store.db.Valid()
      ensures Leads(cfg, stage, job, old(Here(Some(Removing(cause)))), [RemoveFiles(stuck), DeleteJob(stored)], Here(None))
      ensures store.db.rows == if stored then old(store.db.rows) - {job.id} else old(store.db.rows)
      ensures temp.disk == RemoveFile(old(temp.disk), job.file, stuck)
    {
      ghost var l := Here(Some(Removing(cause)));
      var _ := temp.DeleteFile(job.file, stuck);
      var _ := store.Delete(job.id, stored);
      assert [RemoveFiles(stuck), DeleteJob(stored)][1..] == [DeleteJob(stored)];
      LeadsByOne(cfg, stage, job, Do(cfg, stage, job, l, RemoveFiles(stuck)), DeleteJob(stored));
    }

    method ErrorJob(job: Job, maxRetry: int, stuck: set<Path>, stored: bool)
      requires store.db.Valid() && maxRetry == cfg.Of(stage).maxRetry
      modifies store.db`rows, temp`disk
      ensures store.db.Valid()
      ensures Leads(cfg, stage, job, old(Here(Some(Failed))), ErrorOps(job, maxRetry, stuck, stored), Here(None))
      ensures !stored ==> store.db.rows == old(store.db.rows)
      ensures stored && job.retry >= maxRetry ==> store.db.rows == old(store.db.rows) - {job.id}
      ensures stored && job.retry < maxRetry ==>
                && store.db.rows.Keys == old(store.db.rows).Keys
                && forall id :: id in store.db.rows ==>
                     store.db.rows[id] == if id == job.id then old(store.db.rows)[id].(state := Idle) else old(store.db.rows)[id]
      ensures temp.disk == if job.retry >= maxRetry then RemoveFile(old(temp.disk), job.file, stuck) else old(temp.disk)
    {
      ghost var l := Here(Some(Failed));
      if job.retry >= maxRetry {
        LeadsByOne(cfg, stage, job, l, GiveUp);
        Cleanup(job, Exhausted, stuck, stored);
        assert [GiveUp] + [RemoveFiles(stuck), DeleteJob(stored)] == ErrorOps(job, maxRetry, stuck, stored);
        LeadsOn(cfg, stage, job, l, [GiveUp], Do(cfg, stage, job, l, GiveUp),
                [RemoveFiles(stuck), DeleteJob(stored)], Here(None));
        return;
      }
      var _ := store.SetError(job.id, stored);
      LeadsByOne(cfg, stage, job, l, Retry(stored));
    }

    method SuccessJob(job: Job, trFile: File, stuck: set<Path>, stored: bool)
      requires store.db.Valid()
      modifies store.db`rows, temp`disk
      ensures store.db.Valid()
      ensures Leads(cfg, stage, job, old(Here(Some(Produced(trFile)))), [DropSource(stuck), Publish(stored)], Here(None))
      ensures store.db.rows.Keys == old(store.db.rows).Keys
      ensures forall id :: id in store.db.rows && !(stored && id == job.id) ==> store.db.rows[id] == old(store.db.rows)[id]
      ensures stored && job.id in store.db.rows ==>
                var row := old(store.db.rows)[job.id];
                store.db.rows[job.id] == Row(Upload, Idle, row.instance, trFile, 0, row.created)
      ensures temp.disk == RemoveFile(old(temp.disk), job.file, stuck)
    {
      ghost var l := Here(Some(Produced(trFile)));
      var _ := temp.DeleteFile(job.file, stuck);
      var uploadJob := job;
      uploadJob := uploadJob.(file := trFile);
      uploadJob := uploadJob.(stage := Upload);
      uploadJob := uploadJob.(retry := 0);
      var _ := store.Update(Idle, uploadJob, stored);
      assert [DropSource(stuck), Publish(stored)][1..] == [Publish(stored)];
      LeadsByOne(cfg, stage, job, Do(cfg, stage, job, l, DropSource(stuck)), Publish(stored));
    }

    /** TranscodingByPath as the handler sees it: without a playable channel ffmpeg is not started. */
    method TranscodingByPath(job: Job, mp4File: File, f: Fortune) returns (durationMs: int, err: bool)
      modifies temp`disk
      ensures err == (Playable(job.file) && !f.encoded)
      ensures durationMs == if Playable(job.file) && f.encoded then f.durationMs else 0
      ensures temp.disk == old(temp.disk) + if Playable(job.file) && f.wrote then {mp4File.path} else {}
      ensures Leads(cfg, stage, job, old(Here(Some(Encoding(mp4File)))), WriteOps(job, f), Here(Some(Encoding(mp4File))))
    {
      if !Playable(job.file) {
        return 0, false;
      }
      if f.wrote {
        LeadsByOne(cfg, stage, job, Here(Some(Encoding(mp4File))), WriteOutput);
        temp.disk := temp.disk + {mp4File.path};
      }
      if !f.encoded {
        return 0, true;
      }
      return f.durationMs, false;
    }

    /** The deferred call of Execute. */
    method FinishTranscoding(job: Job, maxRetry: int, mp4File: File, err: bool, f: Fortune)
      requires store.db.Valid() && maxRetry == cfg.Of(stage).maxRetry
      modifies store.db`rows, temp`disk
      ensures store.db.Valid()
      ensures Leads(cfg, stage, job, old(Here(Some(if err then Failed else Produced(mp4File)))),
                    if err then ErrorOps(job, maxRetry, f.stuckCleanup, f.stored)
                    else [DropSource(f.stuckSource), Publish(f.stored)],
                    Here(None))
      ensures forall id :: id in old(store.db.rows) && !(f.stored && id == job.id) ==>
                id in store.db.rows && store.db.rows[id] == old(store.db.rows)[id]
      ensures store.db.rows.Keys == old(store.db.rows).Keys - if err && f.stored && job.retry >= maxRetry then {job.id} else {}
      ensures f.stored && job.id in store.db.rows ==>
                var row := old(store.db.rows)[job.id];
                store.db.rows[job.id]
                == if err then row.(state := Idle) else Row(Upload, Idle, row.instance, mp4File, 0, row.created)
      ensures temp.disk == if !err then RemoveFile(old(temp.disk), job.file, f.stuckSource)
                           else if job.retry >= maxRetry then RemoveFile(old(temp.disk), job.file, f.stuckCleanup)
                           else old(temp.disk)
    {
      if err {
        ErrorJob(job, maxRetry, f.stuckCleanup, f.stored);
      } else {
        SuccessJob(job, mp4File, f.stuckSource, f.stored);
      }
    }

    /** The copy of the job's file that is to become the output. */
    method NameOutput(job: Job, name: Path) returns (mp4File: File, err: bool)
      requires name != "" && name !in temp.drawn
      modifies temp`drawn
      ensures !err && temp.drawn == old(temp.drawn) + {name} && mp4File == OutputFile(job, name)
      ensures mp4File == File(name, job.file.track, "video/mp4", job.file.startTime, job.file.endTime)
    {
      mp4File := job.file;
      mp4File := mp4File.(path := "");
      mp4File := mp4File.(mimeType := "video/mp4");
      mp4File, err := temp.NewFilePath(mp4File, name);
    }

    /** The output's end time follows from the start and the duration, if both are known. */
    method SetEndTime(mp4: File, durationMs: int) returns (timed: File)
      ensures timed == Timed(mp4, durationMs)
      ensures timed.path == mp4.path && timed.track == mp4.track
      ensures timed.mimeType == mp4.mimeType && timed.startTime == mp4.startTime
      ensures durationMs > 0 && mp4.startTime > 0 ==> timed.endTime - mp4.startTime == durationMs
      ensures durationMs <= 0 || mp4.startTime <= 0 ==> timed.endTime == mp4.endTime
    {
      timed := mp4;
      if durationMs > 0 && timed.startTime > 0 {
        timed := timed.(endTime := timed.startTime + durationMs);
      }
    }

    /** transcodingJob.Execute, with its deferred call. When ffmpeg succeeded, or had nothing to do, the stored row is the
        same job in the upload stage with the output as its file; otherwise it waits for a retry or is gone. */
    method ExecuteTranscoding(job: Job, maxRetry: int, f: Fortune)
      requires store.db.Valid() && stage == Transcoding && maxRetry == cfg.Of(stage).maxRetry
      requires f.name != "" && f.name !in temp.drawn
      modifies store.db`rows, temp
      ensures store.db.Valid() && temp.drawn == old(temp.drawn) + {f.name}
      ensures Leads(cfg, stage, job, old(Here(Some(Started))), TranscodingOps(job, maxRetry, f), Here(None))
      ensures forall id :: id in old(store.db.rows) && !(f.stored && id == job.id) ==>
                id in store.db.rows && store.db.rows[id] == old(store.db.rows)[id]
      ensures var failed := Plays(job.file.track) && !f.encoded;
              && store.db.rows.Keys
                 == old(store.db.rows).Keys - (if failed && f.stored && job.retry >= maxRetry then {job.id} else {})
              && (f.stored && job.id in store.db.rows ==>
                    var was, row := old(store.db.rows)[job.id], store.db.rows[job.id];
                    && row.state == Idle && row.instance == was.instance && row.created == was.created
                    && (failed ==> row.stage == was.stage && row.retry == was.retry && row.file == was.file)
                    && (!failed ==> row.stage == Upload && row.retry == 0)
                    && (!failed ==> row.file.path == f.name && row.file.track == job.file.track
                                    && row.file.mimeType == "video/mp4")
                    && (!failed ==> row.file.startTime == job.file.startTime)
                    && (!failed ==> row.file.endTime ==
                                    if Plays(job.file.track) && f.durationMs > 0 && job.file.startTime > 0
                                    then job.file.startTime + f.durationMs else job.file.endTime))
      ensures var made := old(temp.disk) + (if Plays(job.file.track) && f.wrote then {f.name} else {});
              var discarded := RemoveFile(made, File(f.name, job.file.track, "video/mp4", job.file.startTime, job.file.endTime),
                                          f.stuckOutput);
              temp.disk == (if !Plays(job.file.track) || f.encoded then RemoveFile(made, job.file, f.stuckSource)
                            else if job.retry >= maxRetry then RemoveFile(discarded, job.file, f.stuckCleanup)
                            else discarded)
    {
      ghost var l := Here(Some(Started));
      var mp4File, err := NameOutput(job, f.name);
      ghost var begun := Here(Some(Encoding(mp4File)));
      LeadsByOne(cfg, stage, job, l, Begin(f.name));
      var durationMs;
      durationMs, err := TranscodingByPath(job, mp4File, f);
      ghost var encoding := Here(Some(Encoding(mp4File)));
      LeadsOn(cfg, stage, job, l, [Begin(f.name)], begun, WriteOps(job, f), encoding);
      if err {
        var _ := temp.DeleteFile(mp4File, f.stuckOutput);
      } else {
        mp4File := SetEndTime(mp4File, durationMs);
      }
      ghost var ended := Here(Some(if err then Failed else Produced(mp4File)));
      EncodingEnds(cfg, stage, job, encoding, EndOps(job, f), ended);
      LeadsOn(cfg, stage, job, l, [Begin(f.name)] + WriteOps(job, f), encoding, EndOps(job, f), ended);
      FinishTranscoding(job, maxRetry, mp4File, err, f);
      LeadsOn(cfg, stage, job, l, [Begin(f.name)] + WriteOps(job, f) + EndOps(job, f), ended,
              LastOps(job, maxRetry, f), Here(None));
    }

    /** UploadJob.Execute: the job is cleaned up only if the whole file went out, and otherwise fails. */
    method ExecuteUpload(job: Job, maxRetry: int, content: seq<bv8>, readable: bool, connected: bool, greeted: bool,
                         answers: nat -> UploadStream.Answer, accepts: nat -> bool, stuck: set<Path>, stored: bool)
      returns (ok: bool, sent: seq<UploadStream.Message>)
      requires store.db.Valid() && stage == Upload && maxRetry == cfg.Of(stage).maxRetry
      modifies store.db`rows, temp`disk
      ensures store.db.Valid()
      ensures Leads(cfg, stage, job, old(Here(Some(Started))), UploadOps(job, maxRetry, ok, stuck, stored), Here(None))
      ensures ok || job.retry >= maxRetry ==>
                && store.db.rows == (if stored then old(store.db.rows) - {job.id} else old(store.db.rows))
                && temp.disk == RemoveFile(old(temp.disk), job.file, stuck)
      ensures !ok && job.retry < maxRetry ==>
                && temp.disk == old(temp.disk) && store.db.rows.Keys == old(store.db.rows).Keys
                && forall id :: id in store.db.rows ==>
                     store.db.rows[id]
                     == if stored && id == job.id then old(store.db.rows)[id].(state := Idle) else old(store.db.rows)[id]
      ensures ok ==> job.file.path in old(temp.disk)
                     && UploadStream.WellFormed(sent, job.file) && UploadStream.Payload(sent) == content
      ensures sent == [] || (UploadStream.WellFormed(sent, job.file) && UploadStream.Payload(sent) <= content)
    {
      ghost var l := Here(Some(Started));
      ok, sent := false, [];
      if readable && job.file.path in temp.disk {
        var src := new UploadStream.Source(content);
        var stream := new UploadStream.Stream();
        var err := UploadStream.SendFile(src, stream, job.file, connected, greeted, answers, accepts);
        ok, sent := !err, stream.sent;
      }
      LeadsByOne(cfg, stage, job, l, EndUpload(ok));
      if !ok {
        ghost var failed := Here(Some(Failed));
        ErrorJob(job, maxRetry, stuck, stored);
        LeadsOn(cfg, stage, job, l, [EndUpload(ok)], failed, ErrorOps(job, maxRetry, stuck, stored), Here(None));
      } else {
        ghost var done := Here(Some(Removing(Uploaded)));
        Cleanup(job, Uploaded, stuck, stored);
        LeadsOn(cfg, stage, job, l, [EndUpload(ok)], done, [RemoveFiles(stuck), DeleteJob(stored)], Here(None));
      }
    }
  }

  // ---- back to the machine

  /** The worker steps `ops` of worker `w`, as actions of the machine. */
  function Steps(stage: Stage, w: nat, ops: seq<Op>): seq<Action> {
    if ops == [] then [] else [Work(stage, w, ops[0])] + Steps(stage, w, ops[1..])
  }

  lemma {:induction false} RunAfterStep(c: Config, s: State, a: Action, run: seq<Action>)
    requires Enabled(c, s, a) && Feasible(c, Next(c, s, a), run)
    ensures Feasible(c, s, [a] + run) && After(c, s, [a] + run) == After(c, Next(c, s, a), run)
    decreases |run|
  {
    if run == [] {
      assert [a] + run == [a] && [a][..0] == [];
      assert Feasible(c, s, []) && After(c, s, []) == s;
      assert Feasible(c, s, [a]) && After(c, s, [a]) == Next(c, s, a);
    } else {
      var front, whole := run[..|run| - 1], [a] + run;
      RunAfterStep(c, s, a, front);
      assert whole[..|whole| - 1] == [a] + front && whole[|whole| - 1] == run[|run| - 1];
    }
  }

  /** A path of worker steps from the worker's own state is a run of the machine that leaves the table
      and the disk as the path does, and the worker idle when the path has left Execute. With the
      contracts of `ExecuteTranscoding` and `ExecuteUpload`: an undisturbed Execute is such a run. */
  lemma {:induction false} PathIsRun(c: Config, s: State, stage: Stage, w: nat, ops: seq<Op>, l': Local)
    requires w in s.At(stage).running
    requires var x := s.At(stage).running[w];
             && Leads(c, stage, x.job, Local(s.table, s.disk, Some(x.phase)), ops, l')
             && (ops != [] && ops[0].Begin? ==> IsFresh(s, ops[0].name))
    ensures Feasible(c, s, Steps(stage, w, ops))
    ensures var s' := After(c, s, Steps(stage, w, ops));
            && s'.table == l'.table && s'.disk == l'.disk
            && (w in s'.At(stage).running <==> l'.phase.Some?)
            && s'.sessions == s.sessions && s'.nextId == s.nextId
    decreases |ops|
  {
    if ops != [] {
      var x := s.At(stage).running[w];
      var a := Work(stage, w, ops[0]);
      var s1 := Next(c, s, a);
      var l1 := Do(c, stage, x.job, Local(s.table, s.disk, Some(x.phase)), ops[0]);
      if l1.phase.Some? {
        PathIsRun(c, s1, stage, w, ops[1..], l');
      } else {
        assert ops[1..] == [];
      }
      RunAfterStep(c, s, a, Steps(stage, w, ops[1..]));
    }
  }

  // ---- interrupted by others

  predicate OfWorker(a: Action, stage: Stage, w: nat) {
    a.Work? && a.stage == stage && a.w == w
  }

  lemma OthersKeepWorker(c: Config, s: State, a: Action, stage: Stage, w: nat)
    requires Enabled(c, s, a) && w in s.At(stage).running && !a.Crash? && !OfWorker(a, stage, w)
    ensures w in Next(c, s, a).At(stage).running
    ensures Next(c, s, a).At(stage).running[w] == s.At(stage).running[w]
  {
  }

  /** However many steps of others come between two steps of a worker, short of a crash, it goes on where it was:
      with the same job, in the same phase, and with every step it could take before still possible. */
  lemma {:induction false} InterruptedGoesOn(c: Config, s: State, run: seq<Action>, stage: Stage, w: nat)
    requires Feasible(c, s, run) && w in s.At(stage).running
    requires forall i :: 0 <= i < |run| ==> !run[i].Crash? && !OfWorker(run[i], stage, w)
    ensures var s' := After(c, s, run);
            && w in s'.At(stage).running && s'.At(stage).running[w] == s.At(stage).running[w]
            && forall op :: Enabled(c, s, Work(stage, w, op)) && (op.Begin? ==> IsFresh(s', op.name)) ==>
                 Enabled(c, s', Work(stage, w, op))
  {
    if run != [] {
      var before := run[..|run| - 1];
      InterruptedGoesOn(c, s, before, stage, w);
      OthersKeepWorker(c, After(c, s, before), run[|run| - 1], stage, w);
    }
  }
}
