/** Who owns the temporary files: every name has at most one owner in every run, and
    exactly which steps leave a file on disk that nobody will ever remove. */
module PipelineFiles {
  import opened Model
  import opened JobStore
  import opened TempFiles
  import opened Pipeline
  import opened PipelineSafety

  /** An open session owns its tracks, a row the files it lists, a transcoding worker its output. */
  datatype Owner = OfSession(sid: nat) | OfRow(id: nat) | OfWorker(w: nat)

  predicate HasOutput(phase: Phase) {
    phase.Encoding? || phase.Produced? || phase.HandOver? || phase.Spoiled?
  }

  predicate Outputs(s: State, w: nat) {
    w in s.transcoding.running && HasOutput(s.transcoding.running[w].phase)
  }

  function OutputOf(s: State, w: nat): File
    requires Outputs(s, w)
  {
    s.transcoding.running[w].phase.mp4
  }

  function Claims(c: Config, s: State, o: Owner): set<Path> {
    match o
    case OfSession(sid) => if sid in s.sessions then TrackPaths(s.sessions[sid]) else {}
    case OfRow(id) => if Mine(c, s.table, id) then PathsOf(s.table[id].file) else {}
    case OfWorker(w) => if Outputs(s, w) then {OutputOf(s, w).path} else {}
  }

  ghost predicate Exclusive(c: Config, s: State) {
    forall o, o', p :: p in Claims(c, s, o) && p in Claims(c, s, o') ==> o == o'
  }

  ghost predicate NamesDrawn(c: Config, s: State) {
    && "" !in s.drawn && s.disk <= s.drawn
    && forall o, p :: p in Claims(c, s, o) ==> p in s.drawn
  }

  /** Files without tracks never reach ffmpeg, so their output is not on disk. */
  ghost predicate Shapes(c: Config, s: State) {
    && (forall sid :: sid in s.sessions ==> s.sessions[sid].path == "")
    && (forall id :: Mine(c, s.table, id) ==>
          && (s.table[id].stage.Transcoding? ==> s.table[id].file.path == "")
          && (s.table[id].file.track == [] ==> s.table[id].file.path !in s.disk))
    && (forall w :: Outputs(s, w) ==> OutputOf(s, w).path != "")
    && (forall w :: Outputs(s, w) && OutputOf(s, w).track == [] ==> OutputOf(s, w).path !in s.disk)
  }

  ghost predicate FilesOk(c: Config, s: State) {
    Exclusive(c, s) && NamesDrawn(c, s) && Shapes(c, s)
  }

  // ---- who owned a name before the step

  /** The owner, before the step, of a name that `o` owns after it. */
  ghost function Former(c: Config, s: State, a: Action, o: Owner, p: Path): Owner
    requires Enabled(c, s, a)
  {
    match a
    case StopSession(sid, ok, _, _) => if ok && o == OfRow(s.nextId) then OfSession(sid) else o
    case Work(stage, w, op) =>
      if op.Publish? && op.ok && o == OfRow(s.At(stage).running[w].job.id) && p == s.At(stage).running[w].phase.mp4.path
      then OfWorker(w) else o
    case _ => o
  }

  ghost predicate Draws(a: Action, p: Path) {
    || (a.StartTrack? && a.name == p)
    || (a.LateTrack? && a.name == p)
    || (a.Work? && a.op.Begin? && a.op.name == p)
  }

  lemma WorkersAreBacked(c: Config, s: State, stage: Stage, w: nat)
    requires Inv(c, s) && w in s.At(stage).running
    ensures var x := s.At(stage).running[w];
            Mine(c, s.table, x.job.id) && s.table[x.job.id].file == x.job.file && s.table[x.job.id].stage == stage
  {
    assert Backed(c, s.table, stage, JobAt(s, AtWorker(stage, w)));
  }

  lemma SessionClaimsComeFrom(c: Config, s: State, a: Action, sid: nat, p: Path)
    requires Enabled(c, s, a) && p in Claims(c, Next(c, s, a), OfSession(sid))
    ensures Draws(a, p) || p in Claims(c, s, OfSession(sid))
  {
  }

  lemma RowClaimsComeFrom(c: Config, s: State, a: Action, id: nat, p: Path)
    requires Inv(c, s) && Shapes(c, s) && Enabled(c, s, a) && p in Claims(c, Next(c, s, a), OfRow(id))
    ensures p in Claims(c, s, Former(c, s, a, OfRow(id), p))
  {
    if a.Work? {
      WorkersAreBacked(c, s, a.stage, a.w);
      WorkedRowClaimsComeFrom(c, s, a, id, p);
    }
  }

  lemma WorkedRowClaimsComeFrom(c: Config, s: State, a: Action, id: nat, p: Path)
    requires Inv(c, s) && Shapes(c, s) && Enabled(c, s, a) && a.Work? && p in Claims(c, Next(c, s, a), OfRow(id))
    ensures p in Claims(c, s, Former(c, s, a, OfRow(id), p))
  {
    var x := s.At(a.stage).running[a.w];
    WorkersAreBacked(c, s, a.stage, a.w);
    if a.op.Publish? && a.op.ok && x.job.id == id {
      assert Next(c, s, a).table[id].file == x.phase.mp4 && TrackPaths(x.phase.mp4) == TrackPaths(x.job.file) by {
        assert LaneOk(c, s, a.stage);
      }
    }
  }

  lemma WorkerClaimsComeFrom(c: Config, s: State, a: Action, w: nat, p: Path)
    requires Inv(c, s) && Enabled(c, s, a) && p in Claims(c, Next(c, s, a), OfWorker(w))
    ensures Draws(a, p) || p in Claims(c, s, OfWorker(w))
  {
  }

  lemma ClaimsComeFrom(c: Config, s: State, a: Action, o: Owner, p: Path)
    requires Inv(c, s) && Shapes(c, s) && Enabled(c, s, a) && p in Claims(c, Next(c, s, a), o)
    ensures Draws(a, p) || p in Claims(c, s, Former(c, s, a, o, p))
  {
    match o
    case OfSession(sid) => SessionClaimsComeFrom(c, s, a, sid, p);
    case OfRow(id) => RowClaimsComeFrom(c, s, a, id, p);
    case OfWorker(w) => WorkerClaimsComeFrom(c, s, a, w, p);
  }

  /** A name drawn in this step has one owner after it, and it had none before. */
  lemma DrawnNameHasOneOwner(c: Config, s: State, a: Action, o: Owner, p: Path)
    requires Inv(c, s) && FilesOk(c, s) && Enabled(c, s, a) && Draws(a, p) && p in Claims(c, Next(c, s, a), o)
    ensures p !in Claims(c, s, Former(c, s, a, o, p))
    ensures (a.StartTrack? && o == OfSession(a.sid)) || (a.Work? && o == OfWorker(a.w))
  {
  }

  /** Only one owner takes a name over from a former owner. */
  lemma FormerIsInjective(c: Config, s: State, a: Action, o: Owner, o': Owner, p: Path)
    requires Inv(c, s) && FilesOk(c, s) && Enabled(c, s, a) && !Draws(a, p)
    requires p in Claims(c, Next(c, s, a), o) && p in Claims(c, Next(c, s, a), o')
    requires Former(c, s, a, o, p) == Former(c, s, a, o', p)
    ensures o == o'
  {
  }

  lemma StepKeepsExclusive(c: Config, s: State, a: Action)
    requires Inv(c, s) && FilesOk(c, s) && Enabled(c, s, a)
    ensures Exclusive(c, Next(c, s, a))
  {
    var s' := Next(c, s, a);
    forall o, o', p | p in Claims(c, s', o) && p in Claims(c, s', o')
      ensures o == o'
    {
      if Draws(a, p) {
        DrawnNameHasOneOwner(c, s, a, o, p);
        DrawnNameHasOneOwner(c, s, a, o', p);
      } else {
        ClaimsComeFrom(c, s, a, o, p);
        ClaimsComeFrom(c, s, a, o', p);
        FormerIsInjective(c, s, a, o, o', p);
      }
    }
  }

  /** A file appears on disk only under a name drawn in this step, or as the output of a worker that has tracks to encode. */
  lemma DiskComesFrom(c: Config, s: State, a: Action, p: Path)
    requires Inv(c, s) && Enabled(c, s, a) && p in Next(c, s, a).disk
    ensures || p in s.disk || Draws(a, p)
            || (a.Work? && a.op.WriteOutput? && p in Claims(c, s, OfWorker(a.w)) && OutputOf(s, a.w).track != [])
  {
  }

  lemma StepKeepsNamesDrawn(c: Config, s: State, a: Action)
    requires Inv(c, s) && FilesOk(c, s) && Enabled(c, s, a)
    ensures NamesDrawn(c, Next(c, s, a))
  {
    var s' := Next(c, s, a);
    forall o, p | p in Claims(c, s', o)
      ensures p in s'.drawn
    {
      ClaimsComeFrom(c, s, a, o, p);
    }
    forall p | p in s'.disk
      ensures p in s'.drawn
    {
      DiskComesFrom(c, s, a, p);
    }
  }

  lemma StepKeepsShapes(c: Config, s: State, a: Action)
    requires Inv(c, s) && FilesOk(c, s) && Enabled(c, s, a)
    ensures Shapes(c, Next(c, s, a))
  {
    var s' := Next(c, s, a);
    forall id | Mine(c, s'.table, id)
      ensures s'.table[id].stage.Transcoding? ==> s'.table[id].file.path == ""
      ensures s'.table[id].file.track == [] ==> s'.table[id].file.path !in s'.disk
    {
      RowKeepsShape(c, s, a, id);
    }
    forall w | Outputs(s', w)
      ensures OutputOf(s', w).path != ""
      ensures OutputOf(s', w).track == [] ==> OutputOf(s', w).path !in s'.disk
    {
      OutputKeepsShape(c, s, a, w);
    }
  }

  lemma RowKeepsShape(c: Config, s: State, a: Action, id: nat)
    requires Inv(c, s) && FilesOk(c, s) && Enabled(c, s, a) && Mine(c, Next(c, s, a).table, id)
    ensures var s' := Next(c, s, a);
            && (s'.table[id].stage.Transcoding? ==> s'.table[id].file.path == "")
            && (s'.table[id].file.track == [] ==> s'.table[id].file.path !in s'.disk)
  {
    RowKeepsStagePath(c, s, a, id);
    var s' := Next(c, s, a);
    var p := s'.table[id].file.path;
    if s'.table[id].file.track == [] && p in s'.disk {
      StepKeepsNamesDrawn(c, s, a);
      assert p != "" && p in Claims(c, s', OfRow(id));
      RowClaimsComeFrom(c, s, a, id, p);
      TracklessComesFrom(c, s, a, id);
      DiskComesFrom(c, s, a, p);
    }
  }

  lemma RowKeepsStagePath(c: Config, s: State, a: Action, id: nat)
    requires Inv(c, s) && FilesOk(c, s) && Enabled(c, s, a) && Mine(c, Next(c, s, a).table, id)
    ensures Next(c, s, a).table[id].stage.Transcoding? ==> Next(c, s, a).table[id].file.path == ""
  {
    if a.Work? {
      WorkersAreBacked(c, s, a.stage, a.w);
    }
  }

  /** The path of a row without tracks was not on disk before the step. */
  lemma TracklessComesFrom(c: Config, s: State, a: Action, id: nat)
    requires Inv(c, s) && FilesOk(c, s) && Enabled(c, s, a) && Mine(c, Next(c, s, a).table, id)
    requires Next(c, s, a).table[id].file.track == [] && Next(c, s, a).table[id].file.path != ""
    ensures Next(c, s, a).table[id].file.path !in s.disk
  {
    if a.Work? {
      WorkersAreBacked(c, s, a.stage, a.w);
      if a.op.Publish? {
        assert LaneOk(c, s, a.stage);
        assert Outputs(s, a.w);
      }
    }
  }

  lemma OutputComesFrom(c: Config, s: State, a: Action, w: nat)
    requires Inv(c, s) && Enabled(c, s, a) && Outputs(Next(c, s, a), w)
    ensures var mp4 := OutputOf(Next(c, s, a), w);
            if Outputs(s, w)
            then mp4.path == OutputOf(s, w).path && mp4.track == OutputOf(s, w).track && mp4.path in Claims(c, s, OfWorker(w))
            else a.Work? && a.op.Begin? && a.op.name == mp4.path
  {
  }

  lemma OutputKeepsShape(c: Config, s: State, a: Action, w: nat)
    requires Inv(c, s) && FilesOk(c, s) && Enabled(c, s, a) && Outputs(Next(c, s, a), w)
    ensures var s' := Next(c, s, a);
            && OutputOf(s', w).path != ""
            && (OutputOf(s', w).track == [] ==> OutputOf(s', w).path !in s'.disk)
  {
    var s' := Next(c, s, a);
    var p := OutputOf(s', w).path;
    OutputComesFrom(c, s, a, w);
    if OutputOf(s', w).track == [] && p in s'.disk {
      DiskComesFrom(c, s, a, p);
    }
  }

  lemma StepKeepsFilesOk(c: Config, s: State, a: Action)
    requires Inv(c, s) && FilesOk(c, s) && Enabled(c, s, a)
    ensures FilesOk(c, Next(c, s, a))
  {
    StepKeepsExclusive(c, s, a);
    StepKeepsNamesDrawn(c, s, a);
    StepKeepsShapes(c, s, a);
  }

  /** In every run, crashes and failed removals included, no name is owned twice. */
  lemma {:induction false} RunKeepsFilesOk(c: Config, s: State, run: seq<Action>)
    requires Init(c, s) && Feasible(c, s, run)
    ensures FilesOk(c, After(c, s, run))
  {
    if run != [] {
      var before := run[..|run| - 1];
      RunKeepsInv(c, s, before);
      RunKeepsFilesOk(c, s, before);
      StepKeepsFilesOk(c, After(c, s, before), run[|run| - 1]);
    }
  }

  // ---- files nobody owns

  ghost predicate Owned(c: Config, s: State, p: Path) {
    exists o :: p in Claims(c, s, o)
  }

  ghost predicate NoOrphans(c: Config, s: State) {
    forall p :: p in s.disk ==> Owned(c, s, p)
  }

  /** The step gives up the last claim on a file that stays on disk: a track that starts too late, an
      eviction, a crash, a row that could not be created or handed over, or a removal that failed just
      before its owner forgot the name. */
  ghost predicate Leaks(c: Config, s: State, a: Action)
    requires Enabled(c, s, a)
  {
    match a
    case LateTrack(_) => true
    case EvictSession(sid) => TrackPaths(s.sessions[sid]) * s.disk != {}
    case StopSession(sid, ok, stuck, _) => !ok && TrackPaths(s.sessions[sid]) * s.disk * stuck != {}
    case Crash => exists o: Owner, p: Path :: !o.OfRow? && p in Claims(c, s, o) && p in s.disk
    case Work(stage, w, op) =>
      var x := s.At(stage).running[w];
      match op {
        case Publish(ok) => !ok && x.phase.mp4.path in s.disk
        case Discard(stuck) => x.phase.mp4.path in s.disk && x.phase.mp4.path in stuck
        case DeleteJob(ok) => ok && PathsOf(x.job.file) * s.disk != {}
        case _ => false
      }
    case _ => false
  }

  /** The owner, after the step, of a name `o` owned before it. */
  ghost function Heir(c: Config, s: State, a: Action, o: Owner): Owner
    requires Enabled(c, s, a)
  {
    match a
    case StopSession(sid, ok, _, _) => if ok && o == OfSession(sid) then OfRow(s.nextId) else o
    case Work(stage, w, op) =>
      if op.Publish? && op.ok && o == OfWorker(w) then OfRow(s.At(stage).running[w].job.id) else o
    case _ => o
  }

  lemma HeirOwns(c: Config, s: State, a: Action, o: Owner, p: Path)
    requires Inv(c, s) && FilesOk(c, s) && Enabled(c, s, a) && p in Claims(c, s, o) && p in s.disk
    requires p in Next(c, s, a).disk && !Leaks(c, s, a)
    ensures p in Claims(c, Next(c, s, a), Heir(c, s, a, o))
  {
    if a.Work? {
      WorkersAreBacked(c, s, a.stage, a.w);
    }
    match o
    case OfSession(sid) => SessionHeirOwns(c, s, a, sid, p);
    case OfRow(id) => RowHeirOwns(c, s, a, id, p);
    case OfWorker(w) => WorkerHeirOwns(c, s, a, w, p);
  }

  lemma SessionHeirOwns(c: Config, s: State, a: Action, sid: nat, p: Path)
    requires Inv(c, s) && FilesOk(c, s) && Enabled(c, s, a) && p in Claims(c, s, OfSession(sid)) && p in s.disk
    requires p in Next(c, s, a).disk && !Leaks(c, s, a)
    ensures p in Claims(c, Next(c, s, a), Heir(c, s, a, OfSession(sid)))
  {
    if a.StartTrack? && a.sid == sid {
      var f := s.sessions[sid];
      assert WithTrack(f, a.name, a.mimeType, a.now).track[..|f.track|] == f.track;
    }
  }

  lemma RowHeirOwns(c: Config, s: State, a: Action, id: nat, p: Path)
    requires Inv(c, s) && FilesOk(c, s) && Enabled(c, s, a) && p in Claims(c, s, OfRow(id)) && p in s.disk
    requires p in Next(c, s, a).disk && !Leaks(c, s, a)
    ensures p in Claims(c, Next(c, s, a), OfRow(id))
  {
    if a.Work? {
      WorkersAreBacked(c, s, a.stage, a.w);
    }
  }

  lemma WorkerHeirOwns(c: Config, s: State, a: Action, w: nat, p: Path)
    requires Inv(c, s) && FilesOk(c, s) && Enabled(c, s, a) && p in Claims(c, s, OfWorker(w)) && p in s.disk
    requires p in Next(c, s, a).disk && !Leaks(c, s, a)
    ensures p in Claims(c, Next(c, s, a), Heir(c, s, a, OfWorker(w)))
  {
    if a.Work? {
      WorkersAreBacked(c, s, a.stage, a.w);
      var job := s.At(a.stage).running[a.w].job;
      assert Mine(c, s.table, job.id) && s.table[job.id].file == job.file && s.table[job.id].stage == a.stage;
      WorkerHeirOwnsAfterWork(c, s, a, w, p);
    }
  }

  lemma WorkerHeirOwnsAfterWork(c: Config, s: State, a: Action, w: nat, p: Path)
    requires Inv(c, s) && FilesOk(c, s) && Enabled(c, s, a) && p in Claims(c, s, OfWorker(w)) && p in s.disk
    requires a.Work? && p in Next(c, s, a).disk && !Leaks(c, s, a)
    requires var job := s.At(a.stage).running[a.w].job;
             Mine(c, s.table, job.id) && s.table[job.id].file == job.file && s.table[job.id].stage == a.stage
    ensures p in Claims(c, Next(c, s, a), Heir(c, s, a, OfWorker(w)))
  {
  }

  lemma QuietStepKeepsNoOrphans(c: Config, s: State, a: Action)
    requires Inv(c, s) && FilesOk(c, s) && Enabled(c, s, a) && NoOrphans(c, s) && !Leaks(c, s, a)
    ensures NoOrphans(c, Next(c, s, a))
  {
    var s' := Next(c, s, a);
    forall p | p in s'.disk
      ensures Owned(c, s', p)
    {
      DiskComesFrom(c, s, a, p);
      if p in s.disk {
        var o :| p in Claims(c, s, o);
        HeirOwns(c, s, a, o, p);
      } else if a.StartTrack? {
        var f := s'.sessions[a.sid];
        assert f.track[|f.track| - 1] in f.track;
        assert p in Claims(c, s', OfSession(a.sid));
      } else if a.Work? && a.op.WriteOutput? {
        assert p in Claims(c, s', OfWorker(a.w));
      }
    }
  }

  /** The file that a leaking step leaves behind, with the owner that forgets it. */
  lemma LeakedFile(c: Config, s: State, a: Action) returns (o: Owner, p: Path)
    requires Inv(c, s) && FilesOk(c, s) && Enabled(c, s, a) && Leaks(c, s, a) && !a.LateTrack?
    ensures p in Claims(c, s, o) && p in Next(c, s, a).disk && !Draws(a, p)
    ensures forall o' :: p in Claims(c, Next(c, s, a), o') ==> Former(c, s, a, o', p) != o
  {
    if a.Work? {
      WorkersAreBacked(c, s, a.stage, a.w);
      var x := s.At(a.stage).running[a.w];
      if a.op.DeleteJob? {
        p :| p in PathsOf(x.job.file) * s.disk;
        o := OfRow(x.job.id);
      } else {
        o, p := OfWorker(a.w), x.phase.mp4.path;
      }
    } else if a.Crash? {
      o, p :| !o.OfRow? && p in Claims(c, s, o) && p in s.disk;
    } else if a.EvictSession? {
      o := OfSession(a.sid);
      p :| p in TrackPaths(s.sessions[a.sid]) * s.disk;
    } else {
      o := OfSession(a.sid);
      p :| p in TrackPaths(s.sessions[a.sid]) * s.disk * a.stuck;
    }
  }

  lemma LeakMakesOrphan(c: Config, s: State, a: Action)
    requires Inv(c, s) && FilesOk(c, s) && Enabled(c, s, a) && Leaks(c, s, a)
    ensures !NoOrphans(c, Next(c, s, a))
  {
    var s' := Next(c, s, a);
    var o, p;
    if a.LateTrack? {
      p := a.name;
    } else {
      o, p := LeakedFile(c, s, a);
    }
    assert p in s'.disk;
    if Owned(c, s', p) {
      var o' :| p in Claims(c, s', o');
      if a.LateTrack? {
        DrawnNameHasOneOwner(c, s, a, o', p);
      } else {
        ClaimsComeFrom(c, s, a, o', p);
      }
    }
  }

  /** Ownership of the files on disk survives a step exactly when the step is not one of the leaks. */
  lemma StepKeepsNoOrphansIff(c: Config, s: State, a: Action)
    requires Inv(c, s) && FilesOk(c, s) && Enabled(c, s, a) && NoOrphans(c, s)
    ensures NoOrphans(c, Next(c, s, a)) <==> !Leaks(c, s, a)
  {
    if Leaks(c, s, a) {
      LeakMakesOrphan(c, s, a);
    } else {
      QuietStepKeepsNoOrphans(c, s, a);
    }
  }

  /** Only an owner's removal takes a file off the disk: its session's, its row's or its worker's. */
  lemma RemovalIsByOwner(c: Config, s: State, a: Action, p: Path)
    requires Inv(c, s) && FilesOk(c, s) && Enabled(c, s, a) && p in s.disk && p !in Next(c, s, a).disk
    ensures || (a.StopSession? && p in Claims(c, s, OfSession(a.sid)))
            || (a.Work? && p in Claims(c, s, OfRow(s.At(a.stage).running[a.w].job.id)))
            || (a.Work? && a.op.Discard? && p in Claims(c, s, OfWorker(a.w)))
  {
    if a.Work? {
      WorkersAreBacked(c, s, a.stage, a.w);
    }
  }

  /** An orphan stays: no step removes a file that nobody owns, and none gives it an owner. */
  lemma OrphanStays(c: Config, s: State, a: Action, p: Path)
    requires Inv(c, s) && FilesOk(c, s) && Enabled(c, s, a) && p in s.disk && !Owned(c, s, p)
    ensures p in Next(c, s, a).disk && !Owned(c, Next(c, s, a), p)
  {
    if p !in Next(c, s, a).disk {
      RemovalIsByOwner(c, s, a, p);
    }
    if Owned(c, Next(c, s, a), p) {
      var o :| p in Claims(c, Next(c, s, a), o);
      ClaimsComeFrom(c, s, a, o, p);
    }
  }

  /** No step of the run is a leak. */
  ghost predicate LeakFree(c: Config, s: State, run: seq<Action>)
    requires Feasible(c, s, run)
  {
    run == []
    || (LeakFree(c, s, run[..|run| - 1]) && !Leaks(c, After(c, s, run[..|run| - 1]), run[|run| - 1]))
  }

  /** After any run every file on disk is owned if and only if no step of the run was a leak. */
  lemma {:induction false} NoOrphansIffLeakFree(c: Config, s: State, run: seq<Action>)
    requires Init(c, s) && Feasible(c, s, run)
    ensures NoOrphans(c, After(c, s, run)) <==> LeakFree(c, s, run)
  {
    if run != [] {
      var before, a := run[..|run| - 1], run[|run| - 1];
      var s1 := After(c, s, before);
      NoOrphansIffLeakFree(c, s, before);
      RunKeepsInv(c, s, before);
      RunKeepsFilesOk(c, s, before);
      if NoOrphans(c, s1) {
        StepKeepsNoOrphansIff(c, s1, a);
      } else {
        var p :| p in s1.disk && !Owned(c, s1, p);
        OrphanStays(c, s1, a, p);
      }
    }
  }

  /** Once every session is closed and every row gone, the disk is empty if and only if no step of the run was a leak. */
  lemma EmptyIffLeakFree(c: Config, s: State, run: seq<Action>)
    requires Init(c, s) && Feasible(c, s, run)
    requires After(c, s, run).sessions == map[]
    requires forall id :: !Mine(c, After(c, s, run).table, id)
    ensures After(c, s, run).disk == {} <==> LeakFree(c, s, run)
  {
    RunKeepsInv(c, s, run);
    NoOrphansIffLeakFree(c, s, run);
    NobodyOwns(c, After(c, s, run));
    assert forall p :: !Owned(c, After(c, s, run), p);
  }

  lemma NobodyOwns(c: Config, s: State)
    requires Inv(c, s) && s.sessions == map[] && forall id :: !Mine(c, s.table, id)
    ensures forall o, p :: p !in Claims(c, s, o)
  {
    forall o, p | p in Claims(c, s, o)
      ensures false
    {
      if o.OfWorker? {
        WorkersAreBacked(c, s, Transcoding, o.w);
      }
    }
  }

  // ---- runs without leaks

  /** Nothing crashes, is evicted or starts late; removals succeed where a claim is about to be dropped,
      and so does the update that hands the output to the upload stage. All else may fail. */
  predicate Clean(a: Action) {
    match a
    case LateTrack(_) => false
    case EvictSession(_) => false
    case Crash => false
    case StopSession(_, ok, stuck, _) => ok || stuck == {}
    case Work(_, _, op) =>
      (match op
       case Publish(ok) => ok
       case Discard(stuck) => stuck == {}
       case RemoveFiles(stuck) => stuck == {}
       case _ => true)
    case _ => true
  }

  predicate SourceGone(x: Exec) {
    x.phase.Failed? || x.phase.Removing? || x.phase.Deleting?
  }

  /** In runs of clean steps: the files of a row about to be deleted are off the disk, and so are the
      source files of every transcoding job that has failed once. */
  ghost predicate Swept(c: Config, s: State) {
    && (!s.up ==> forall id :: !Mine(c, s.table, id))
    && (forall k: Stage, w :: w in s.At(k).running && s.At(k).running[w].phase.Deleting? ==>
          PathsOf(s.At(k).running[w].job.file) !! s.disk)
    && (forall w :: w in s.transcoding.running && SourceGone(s.transcoding.running[w]) ==>
          TrackPaths(s.transcoding.running[w].job.file) !! s.disk)
    && (forall id :: Mine(c, s.table, id) && s.table[id].stage.Transcoding? && s.table[id].state.Idle?
                     && s.table[id].retry > 0 ==>
          TrackPaths(s.table[id].file) !! s.disk)
  }

  lemma CleanStepDoesNotLeak(c: Config, s: State, a: Action)
    requires Inv(c, s) && Swept(c, s) && Enabled(c, s, a) && Clean(a)
    ensures !Leaks(c, s, a)
  {
    if a.Work? && a.op.DeleteJob? {
      assert PathsOf(s.At(a.stage).running[a.w].job.file) !! s.disk;
    }
  }

  /** What a row claims does not come back to the disk. */
  lemma RowFilesStayGone(c: Config, s: State, a: Action, id: nat, paths: set<Path>)
    requires Inv(c, s) && FilesOk(c, s) && Enabled(c, s, a)
    requires Mine(c, s.table, id) && paths <= PathsOf(s.table[id].file) && paths !! s.disk
    ensures paths !! Next(c, s, a).disk
  {
    forall p | p in paths
      ensures p !in Next(c, s, a).disk
    {
      assert p in Claims(c, s, OfRow(id));
      if p in Next(c, s, a).disk {
        DiskComesFrom(c, s, a, p);
      }
    }
  }

  lemma RemovalSweeps(c: Config, s: State, f: File)
    requires Inv(c, s) && Shapes(c, s) && NamesDrawn(c, s)
    requires f.track == [] ==> f.path !in s.disk
    ensures PathsOf(f) !! RemoveFile(s.disk, f, {})
  {
  }

  predicate RemovesOwn(a: Action, k: Stage, w: nat) {
    a.Work? && a.stage == k && a.w == w && (a.op.RemoveFiles? || a.op.Discard?)
  }

  /** The worker's own removal takes its files off the disk. */
  lemma OwnRemovalSweeps(c: Config, s: State, a: Action, k: Stage, w: nat)
    requires Inv(c, s) && FilesOk(c, s) && Swept(c, s) && Enabled(c, s, a) && Clean(a)
    requires RemovesOwn(a, k, w)
    requires w in Next(c, s, a).At(k).running
    ensures var x := Next(c, s, a).At(k).running[w];
            && (x.phase.Deleting? ==> PathsOf(x.job.file) !! Next(c, s, a).disk)
            && (k.Transcoding? && SourceGone(x) ==> TrackPaths(x.job.file) !! Next(c, s, a).disk)
  {
    var y := s.At(k).running[w];
    WorkersAreBacked(c, s, k, w);
    if a.op.RemoveFiles? {
      RemovalSweeps(c, s, y.job.file);
    } else {
      assert OutputOf(s, w).track == y.job.file.track;
    }
  }

  /** Without a removal of its own a worker enters none of the phases that follow one. */
  lemma PhaseComesFrom(c: Config, s: State, a: Action, k: Stage, w: nat)
    requires Enabled(c, s, a) && !RemovesOwn(a, k, w) && w in Next(c, s, a).At(k).running
    ensures var x := Next(c, s, a).At(k).running[w];
            x.phase.Deleting? || (k.Transcoding? && SourceGone(x)) ==>
              && w in s.At(k).running && s.At(k).running[w].job == x.job
              && (x.phase.Deleting? ==> s.At(k).running[w].phase.Deleting?)
              && (k.Transcoding? ==> SourceGone(s.At(k).running[w]))
  {
  }

  /** The worker's files are gone after its own step, or were gone before any step. */
  lemma StepKeepsWorkersSwept(c: Config, s: State, a: Action, k: Stage, w: nat)
    requires Inv(c, s) && FilesOk(c, s) && Swept(c, s) && Enabled(c, s, a) && Clean(a)
    requires w in Next(c, s, a).At(k).running
    ensures var x := Next(c, s, a).At(k).running[w];
            && (x.phase.Deleting? ==> PathsOf(x.job.file) !! Next(c, s, a).disk)
            && (k.Transcoding? && SourceGone(x) ==> TrackPaths(x.job.file) !! Next(c, s, a).disk)
  {
    if RemovesOwn(a, k, w) {
      OwnRemovalSweeps(c, s, a, k, w);
    } else {
      PhaseComesFrom(c, s, a, k, w);
      var x := Next(c, s, a).At(k).running[w];
      if x.phase.Deleting? {
        WorkersAreBacked(c, s, k, w);
        RowFilesStayGone(c, s, a, x.job.id, PathsOf(x.job.file));
      } else if k.Transcoding? && SourceGone(x) {
        WorkersAreBacked(c, s, k, w);
        RowFilesStayGone(c, s, a, x.job.id, TrackPaths(x.job.file));
      }
    }
  }

  lemma StepKeepsRowsSwept(c: Config, s: State, a: Action, id: nat)
    requires Inv(c, s) && FilesOk(c, s) && Swept(c, s) && Enabled(c, s, a) && Clean(a)
    requires var t := Next(c, s, a).table;
             Mine(c, t, id) && t[id].stage.Transcoding? && t[id].state.Idle? && t[id].retry > 0
    ensures TrackPaths(Next(c, s, a).table[id].file) !! Next(c, s, a).disk
  {
    if a.Work? {
      WorkersAreBacked(c, s, a.stage, a.w);
      assert Backed(c, s.table, a.stage, JobAt(s, AtWorker(a.stage, a.w)));
    }
    if Mine(c, s.table, id) {
      if TrackPaths(s.table[id].file) !! s.disk {
        RowFilesStayGone(c, s, a, id, TrackPaths(s.table[id].file));
      }
    }
  }

  lemma StepKeepsSwept(c: Config, s: State, a: Action)
    requires Inv(c, s) && FilesOk(c, s) && Swept(c, s) && Enabled(c, s, a) && Clean(a)
    ensures Swept(c, Next(c, s, a))
  {
    var s' := Next(c, s, a);
    forall k: Stage, w | w in s'.At(k).running
      ensures s'.At(k).running[w].phase.Deleting? ==> PathsOf(s'.At(k).running[w].job.file) !! s'.disk
      ensures k.Transcoding? && SourceGone(s'.At(k).running[w]) ==> TrackPaths(s'.At(k).running[w].job.file) !! s'.disk
    {
      StepKeepsWorkersSwept(c, s, a, k, w);
    }
    forall w | w in s'.transcoding.running
      ensures SourceGone(s'.transcoding.running[w]) ==> TrackPaths(s'.transcoding.running[w].job.file) !! s'.disk
    {
      StepKeepsWorkersSwept(c, s, a, Transcoding, w);
    }
    forall id | Mine(c, s'.table, id) && s'.table[id].stage.Transcoding? && s'.table[id].state.Idle? && s'.table[id].retry > 0
      ensures TrackPaths(s'.table[id].file) !! s'.disk
    {
      StepKeepsRowsSwept(c, s, a, id);
    }
  }

  ghost predicate AllClean(run: seq<Action>) {
    forall i :: 0 <= i < |run| ==> Clean(run[i])
  }

  lemma {:induction false} CleanRunKeeps(c: Config, s: State, run: seq<Action>)
    requires Init(c, s) && Feasible(c, s, run) && AllClean(run)
    ensures var s' := After(c, s, run); Inv(c, s') && FilesOk(c, s') && Swept(c, s') && NoOrphans(c, s')
  {
    RunKeepsInv(c, s, run);
    RunKeepsFilesOk(c, s, run);
    if run != [] {
      var before := run[..|run| - 1];
      var a := run[|run| - 1];
      CleanRunKeeps(c, s, before);
      StepKeepsSwept(c, After(c, s, before), a);
      CleanStepDoesNotLeak(c, After(c, s, before), a);
      QuietStepKeepsNoOrphans(c, After(c, s, before), a);
    }
  }

  /** Over every clean run each file on disk has exactly one owner. */
  lemma EveryFileHasOneOwner(c: Config, s: State, run: seq<Action>, p: Path)
    requires Init(c, s) && Feasible(c, s, run) && AllClean(run) && p in After(c, s, run).disk
    ensures exists o :: p in Claims(c, After(c, s, run), o)
                        && forall o' :: p in Claims(c, After(c, s, run), o') ==> o' == o
  {
    var s' := After(c, s, run);
    CleanRunKeeps(c, s, run);
    assert Owned(c, s', p);
    var o :| p in Claims(c, s', o);
    assert forall o' :: p in Claims(c, s', o') ==> o' == o;
  }

  /** Once every session is closed and every row gone, a clean run has left nothing on disk. */
  lemma NothingLeftBehind(c: Config, s: State, run: seq<Action>)
    requires Init(c, s) && Feasible(c, s, run) && AllClean(run)
    requires After(c, s, run).sessions == map[]
    requires forall id :: !Mine(c, After(c, s, run).table, id)
    ensures After(c, s, run).disk == {}
  {
    CleanRunKeeps(c, s, run);
    NobodyOwns(c, After(c, s, run));
    assert forall p :: p in After(c, s, run).disk ==> Owned(c, After(c, s, run), p);
  }
}
