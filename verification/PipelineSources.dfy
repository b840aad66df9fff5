/** The source files of a transcoding job: on disk until its first attempt has used them. */
module PipelineSources {
  import opened Model
  import opened JobStore
  import opened TempFiles
  import opened Pipeline
  import opened PipelineSafety
  import opened PipelineFiles

  /** The worker has not come to a removal of the source yet. */
  predicate Untouched(phase: Phase) {
    phase.Started? || phase.Encoding? || phase.Produced? || phase.Spoiled?
  }

  /** A transcoding job at its first attempt that still needs its source. */
  predicate FirstAttempt(s: State, p: Slot)
  {
    && Full(s, p) && p.stage == Transcoding && JobAt(s, p).retry == 1
    && (p.AtWorker? ==> Untouched(s.transcoding.running[p.w].phase))
  }

  ghost predicate SourcesKept(c: Config, s: State) {
    && (forall sid :: sid in s.sessions ==> TrackPaths(s.sessions[sid]) <= s.disk)
    && (forall id :: Mine(c, s.table, id) && s.table[id].state.Active? ==> s.table[id].retry > 0)
    && (forall id :: Mine(c, s.table, id) && s.table[id].stage.Transcoding? && s.table[id].retry == 0 ==>
          TrackPaths(s.table[id].file) <= s.disk)
    && (forall p :: FirstAttempt(s, p) ==> TrackPaths(JobAt(s, p).file) <= s.disk)
  }

  lemma SessionKeepsTracks(c: Config, s: State, a: Action, sid: nat)
    requires Inv(c, s) && FilesOk(c, s) && SourcesKept(c, s) && Enabled(c, s, a) && sid in Next(c, s, a).sessions
    ensures TrackPaths(Next(c, s, a).sessions[sid]) <= Next(c, s, a).disk
  {
    var s' := Next(c, s, a);
    forall p | p in TrackPaths(s'.sessions[sid])
      ensures p in s'.disk
    {
      SessionClaimsComeFrom(c, s, a, sid, p);
      if !Draws(a, p) && p !in s'.disk {
        RemovalIsByOwner(c, s, a, p);
      }
    }
  }

  /** What an unattempted row, or one at its first attempt, owns is removed by nobody else. */
  lemma RowKeepsFiles(c: Config, s: State, a: Action, id: nat, paths: set<Path>)
    requires Inv(c, s) && FilesOk(c, s) && Enabled(c, s, a) && Mine(c, s.table, id)
    requires paths <= PathsOf(s.table[id].file) && paths <= s.disk
    requires a.Work? && (a.op.DropSource? || a.op.Discard? || a.op.RemoveFiles?) ==> s.At(a.stage).running[a.w].job.id != id
    ensures paths <= Next(c, s, a).disk
  {
    forall p | p in paths
      ensures p in Next(c, s, a).disk
    {
      assert p in Claims(c, s, OfRow(id));
      if p !in Next(c, s, a).disk {
        RemovalIsByOwner(c, s, a, p);
      }
    }
  }

  lemma ActiveIsNumbered(c: Config, s: State, a: Action, id: nat)
    requires Inv(c, s) && SourcesKept(c, s) && Enabled(c, s, a)
    requires Mine(c, Next(c, s, a).table, id) && Next(c, s, a).table[id].state.Active?
    ensures Next(c, s, a).table[id].retry > 0
  {
    if !a.Fetch? && !a.Start? && Mine(c, s.table, id) {
      StepTouchesOnlyItsOwnRow(c, s, a, id);
    }
  }

  /** An unattempted row comes from a session, or was there before. */
  lemma UnattemptedComesFrom(c: Config, s: State, a: Action, id: nat)
    requires Inv(c, s) && SourcesKept(c, s) && Enabled(c, s, a) && Mine(c, Next(c, s, a).table, id)
    requires Next(c, s, a).table[id].stage.Transcoding? && Next(c, s, a).table[id].retry == 0
    ensures if id in s.table
            then Mine(c, s.table, id) && s.table[id].stage.Transcoding? && s.table[id].retry == 0
                 && Next(c, s, a).table[id].file == s.table[id].file
                 && (a.Work? ==> s.At(a.stage).running[a.w].job.id != id)
            else a.StopSession? && a.ok && TrackPaths(Next(c, s, a).table[id].file) == TrackPaths(s.sessions[a.sid])
  {
    if a.Work? {
      WorkersAreBacked(c, s, a.stage, a.w);
      assert Backed(c, s.table, a.stage, JobAt(s, AtWorker(a.stage, a.w)));
    }
  }

  lemma UnattemptedKeepsSource(c: Config, s: State, a: Action, id: nat)
    requires Inv(c, s) && FilesOk(c, s) && SourcesKept(c, s) && Enabled(c, s, a) && Mine(c, Next(c, s, a).table, id)
    requires Next(c, s, a).table[id].stage.Transcoding? && Next(c, s, a).table[id].retry == 0
    ensures TrackPaths(Next(c, s, a).table[id].file) <= Next(c, s, a).disk
  {
    UnattemptedComesFrom(c, s, a, id);
    if id in s.table {
      RowKeepsFiles(c, s, a, id, TrackPaths(s.table[id].file));
    }
  }

  /** A job at its first attempt was so before, or has just been fetched for the first time. */
  lemma FirstAttemptComesFrom(c: Config, s: State, a: Action, p: Slot)
    requires Inv(c, s) && Enabled(c, s, a) && FirstAttempt(Next(c, s, a), p)
    ensures var j := JobAt(Next(c, s, a), p);
            && Mine(c, s.table, j.id) && s.table[j.id].file == j.file && s.table[j.id].stage.Transcoding?
            && (s.table[j.id].retry == 0 || exists q :: FirstAttempt(s, q) && JobAt(s, q) == j)
            && (a.Work? && (a.op.DropSource? || a.op.Discard? || a.op.RemoveFiles?) ==> s.At(a.stage).running[a.w].job.id != j.id)
  {
    if a.Fetch? {
      FetchedFirstAttempt(c, s, a, p);
    } else {
      OriginHolds(c, s, a, p);
      var q := Origin(a, s, p);
      assert Backed(c, s.table, q.stage, JobAt(s, q));
      FirstAttemptMoves(c, s, a, p);
      assert a.Work? ==> Full(s, AtWorker(a.stage, a.w));
    }
  }

  lemma FirstAttemptMoves(c: Config, s: State, a: Action, p: Slot)
    requires Enabled(c, s, a) && !a.Fetch? && FirstAttempt(Next(c, s, a), p)
    requires Full(s, Origin(a, s, p)) && JobAt(Next(c, s, a), p) == JobAt(s, Origin(a, s, p))
    ensures FirstAttempt(s, Origin(a, s, p))
    ensures a.Work? && (a.op.DropSource? || a.op.Discard? || a.op.RemoveFiles?) ==> Origin(a, s, p) != AtWorker(a.stage, a.w)
  {
  }

  lemma FetchedFirstAttempt(c: Config, s: State, a: Action, p: Slot)
    requires Inv(c, s) && Enabled(c, s, a) && a.Fetch? && FirstAttempt(Next(c, s, a), p)
    ensures var j := JobAt(Next(c, s, a), p);
            && Mine(c, s.table, j.id) && s.table[j.id].file == j.file && s.table[j.id].stage.Transcoding?
            && (s.table[j.id].retry == 0 || (FirstAttempt(s, p) && JobAt(s, p) == j))
  {
    FetchedOrKept(c, s, a, p);
    if p.InBatch? && p.stage == a.stage {
      assert Eligible(s.table, c.instance, a.stage, a.ids[p.i]);
    } else {
      assert Backed(c, s.table, p.stage, JobAt(s, p));
    }
  }

  lemma FirstAttemptKeepsSource(c: Config, s: State, a: Action, p: Slot)
    requires Inv(c, s) && FilesOk(c, s) && SourcesKept(c, s) && Enabled(c, s, a) && FirstAttempt(Next(c, s, a), p)
    ensures TrackPaths(JobAt(Next(c, s, a), p).file) <= Next(c, s, a).disk
  {
    var j := JobAt(Next(c, s, a), p);
    FirstAttemptComesFrom(c, s, a, p);
    RowKeepsFiles(c, s, a, j.id, TrackPaths(j.file));
  }

  lemma StepKeepsSources(c: Config, s: State, a: Action)
    requires Inv(c, s) && FilesOk(c, s) && SourcesKept(c, s) && Enabled(c, s, a)
    ensures SourcesKept(c, Next(c, s, a))
  {
    var s' := Next(c, s, a);
    forall sid | sid in s'.sessions
      ensures TrackPaths(s'.sessions[sid]) <= s'.disk
    {
      SessionKeepsTracks(c, s, a, sid);
    }
    forall id | Mine(c, s'.table, id)
      ensures s'.table[id].state.Active? ==> s'.table[id].retry > 0
      ensures s'.table[id].stage.Transcoding? && s'.table[id].retry == 0 ==> TrackPaths(s'.table[id].file) <= s'.disk
    {
      if s'.table[id].state.Active? {
        ActiveIsNumbered(c, s, a, id);
      }
      if s'.table[id].stage.Transcoding? && s'.table[id].retry == 0 {
        UnattemptedKeepsSource(c, s, a, id);
      }
    }
    forall p | FirstAttempt(s', p)
      ensures TrackPaths(JobAt(s', p).file) <= s'.disk
    {
      FirstAttemptKeepsSource(c, s, a, p);
    }
  }

  lemma {:induction false} RunKeepsSources(c: Config, s: State, run: seq<Action>)
    requires Init(c, s) && Feasible(c, s, run)
    ensures SourcesKept(c, After(c, s, run))
  {
    if run != [] {
      var before := run[..|run| - 1];
      RunKeepsInv(c, s, before);
      RunKeepsFilesOk(c, s, before);
      RunKeepsSources(c, s, before);
      StepKeepsSources(c, After(c, s, before), run[|run| - 1]);
    }
  }

  /** In every run, crashes and failures of all kinds included: a transcoding row that was never attempted
      has all its track files on disk. */
  lemma UnattemptedHasSource(c: Config, s: State, run: seq<Action>, id: nat)
    requires Init(c, s) && Feasible(c, s, run)
    requires var t := After(c, s, run).table; Mine(c, t, id) && t[id].stage.Transcoding? && t[id].retry == 0
    ensures TrackPaths(After(c, s, run).table[id].file) <= After(c, s, run).disk
  {
    RunKeepsSources(c, s, run);
  }

  /** ... and so has the first attempt, from the fetch on until its own worker removes them. */
  lemma FirstAttemptHasSource(c: Config, s: State, run: seq<Action>, p: Slot)
    requires Init(c, s) && Feasible(c, s, run) && FirstAttempt(After(c, s, run), p)
    ensures TrackPaths(JobAt(After(c, s, run), p).file) <= After(c, s, run).disk
  {
    RunKeepsSources(c, s, run);
  }

  /** In a clean run the row's attempts tell exactly whether the source is there: all of it before the first
      attempt, none of it for a retry. */
  lemma SourceIffUnattempted(c: Config, s: State, run: seq<Action>, id: nat)
    requires Init(c, s) && Feasible(c, s, run) && AllClean(run)
    requires Eligible(After(c, s, run).table, c.instance, Transcoding, id)
    requires After(c, s, run).table[id].file.track != []
    ensures var row, disk := After(c, s, run).table[id], After(c, s, run).disk;
            && (TrackPaths(row.file) <= disk <==> row.retry == 0)
            && (TrackPaths(row.file) !! disk <==> row.retry > 0)
  {
    RunKeepsSources(c, s, run);
    CleanRunKeeps(c, s, run);
    var row := After(c, s, run).table[id];
    assert row.file.track[0] in row.file.track;
    assert row.file.track[0].path in TrackPaths(row.file);
  }

  // ---- a run that ends in such a retry

  const EMPTY := State(map[], 0, 0, {}, {}, false, map[], EMPTY_LANE, EMPTY_LANE)

  const OPENED := File("", [], "", 0, 0)

  const RECORDED := File("", [MediaChannel("a.raw", "video")], "", 5, 9)

  lemma Extended(c: Config, run: seq<Action>, a: Action) returns (run': seq<Action>)
    requires Feasible(c, EMPTY, run) && Enabled(c, After(c, EMPTY, run), a) && AllClean(run) && Clean(a)
    ensures run' == run + [a] && Feasible(c, EMPTY, run') && AllClean(run')
    ensures After(c, EMPTY, run') == Next(c, After(c, EMPTY, run), a)
  {
    run' := run + [a];
    assert run'[..|run'| - 1] == run;
  }

  lemma ProcessStarts(c: Config) returns (run: seq<Action>)
    ensures Feasible(c, EMPTY, run) && AllClean(run) && After(c, EMPTY, run) == EMPTY.(up := true)
  {
    run := Extended(c, [], Start(true));
  }

  lemma SessionRecords(c: Config) returns (run: seq<Action>)
    ensures Feasible(c, EMPTY, run) && AllClean(run)
    ensures After(c, EMPTY, run) == EMPTY.(
              up := true, sessions := map[0 := RECORDED.(endTime := 0)], disk := {"a.raw"}, drawn := {"a.raw"})
  {
    run := ProcessStarts(c);
    run := Extended(c, run, OpenSession(0, OPENED));
    assert After(c, EMPTY, run) == EMPTY.(up := true, sessions := map[0 := OPENED]);
    assert WithTrack(OPENED, "a.raw", "video", 5) == RECORDED.(endTime := 0);
    run := Extended(c, run, StartTrack(0, "a.raw", "video", 5));
  }

  lemma SessionEnds(c: Config) returns (run: seq<Action>)
    ensures Feasible(c, EMPTY, run) && AllClean(run)
    ensures After(c, EMPTY, run) == EMPTY.(
              table := map[0 := Row(Transcoding, Idle, c.instance, RECORDED, 0, 0)], nextId := 1, clock := 1,
              disk := {"a.raw"}, drawn := {"a.raw"}, up := true)
  {
    run := SessionRecords(c);
    run := Extended(c, run, StopSession(0, true, {}, 9));
  }

  const ATTEMPTED := EMPTY.(nextId := 1, clock := 1, disk := {"a.raw"}, drawn := {"a.raw"}, up := true)

  lemma JobFetched(c: Config) returns (run: seq<Action>)
    requires c.transcoding.workers > 0
    ensures Feasible(c, EMPTY, run) && AllClean(run)
    ensures After(c, EMPTY, run) == ATTEMPTED.(
              table := map[0 := Row(Transcoding, Active, c.instance, RECORDED, 1, 0)],
              transcoding := Lane([Job(0, Transcoding, RECORDED, 0)], [], map[]))
  {
    run := SessionEnds(c);
    run := Extended(c, run, Fetch(Transcoding, [0]));
  }

  const FIRST := Job(0, Transcoding, RECORDED, 1)

  /** The state while worker 0 is in `phase` of the first attempt. */
  function During(c: Config, phase: Phase): State {
    ATTEMPTED.(
      table := map[0 := Row(Transcoding, Active, c.instance, RECORDED, 1, 0)],
      transcoding := Lane([], [], map[0 := Exec(FIRST, phase)]))
  }

  lemma JobStarts(c: Config) returns (run: seq<Action>)
    requires c.transcoding.workers > 0
    ensures Feasible(c, EMPTY, run) && AllClean(run) && After(c, EMPTY, run) == During(c, Started)
  {
    run := JobFetched(c);
    run := Extended(c, run, Handoff(Transcoding, 0));
  }

  lemma EncodingStarts(c: Config) returns (run: seq<Action>)
    requires c.transcoding.workers > 0
    ensures Feasible(c, EMPTY, run) && AllClean(run)
    ensures After(c, EMPTY, run) == During(c, Encoding(OutputFile(FIRST, "b.mp4"))).(drawn := {"a.raw", "b.mp4"})
  {
    run := JobStarts(c);
    run := Extended(c, run, Work(Transcoding, 0, Begin("b.mp4")));
  }

  lemma EncodingFails(c: Config) returns (run: seq<Action>)
    requires c.transcoding.workers > 0
    ensures Feasible(c, EMPTY, run) && AllClean(run)
    ensures After(c, EMPTY, run) == During(c, Spoiled(OutputFile(FIRST, "b.mp4"))).(drawn := {"a.raw", "b.mp4"})
  {
    run := EncodingStarts(c);
    assert Playable(RECORDED) by {
      assert RECORDED.track[0].mimeType == "video";
    }
    run := Extended(c, run, Work(Transcoding, 0, EndEncoding(false, 0)));
  }

  lemma SourceDiscarded(c: Config) returns (run: seq<Action>)
    requires c.transcoding.workers > 0
    ensures Feasible(c, EMPTY, run) && AllClean(run)
    ensures After(c, EMPTY, run) == During(c, Failed).(drawn := {"a.raw", "b.mp4"}, disk := {})
  {
    run := EncodingFails(c);
    SourceOf(OutputFile(FIRST, "b.mp4"), {"a.raw"});
    run := Extended(c, run, Work(Transcoding, 0, Discard({})));
  }

  /** For every configuration with a worker and more than one attempt there is a clean run after which a
      transcoding row waits for its retry, with the one file it needs removed by the attempt before. */
  lemma RetryWithoutSource(c: Config) returns (run: seq<Action>)
    requires c.transcoding.workers > 0 && c.transcoding.maxRetry > 1
    ensures Init(c, EMPTY) && Feasible(c, EMPTY, run) && AllClean(run)
    ensures var s := After(c, EMPTY, run);
            && Eligible(s.table, c.instance, Transcoding, 0) && s.table[0].retry == 1
            && TrackPaths(s.table[0].file) == {"a.raw"} && s.disk == {}
  {
    run := SourceDiscarded(c);
    SourceOf(RECORDED, {"a.raw"});
    run := Extended(c, run, Work(Transcoding, 0, Retry(true)));
  }

  lemma SourceOf(f: File, disk: set<Path>)
    requires f.track == RECORDED.track && disk == {"a.raw"}
    ensures TrackPaths(RECORDED) == {"a.raw"} && RemoveFile(disk, f, {}) == {}
  {
    assert f.track[0] == MediaChannel("a.raw", "video");
  }
}
