/** What every step keeps: a job is in memory at most once and its row is Active all that time. */
module PipelineSafety {
  import opened Model
  import opened JobStore
  import opened Pipeline

  /** A place in memory that can hold a job. */
  datatype Slot = InBatch(stage: Stage, i: nat) | InQueue(stage: Stage, i: nat) | AtWorker(stage: Stage, w: nat)

  predicate Full(s: State, p: Slot) {
    match p
    case InBatch(k, i) => i < |s.At(k).batch|
    case InQueue(k, i) => i < |s.At(k).queue|
    case AtWorker(k, w) => w in s.At(k).running
  }

  /** The job in a slot. The listener numbers a fetched job when it passes it on, so a job
      of the batch counts with the number it is about to get. */
  function JobAt(s: State, p: Slot): Job
    requires Full(s, p)
  {
    match p
    case InBatch(k, i) => Numbered(s.At(k).batch[i])
    case InQueue(k, i) => s.At(k).queue[i]
    case AtWorker(k, w) => s.At(k).running[w].job
  }

  /** The row of a held job is this instance's, Active, in that stage, with the same file and attempt number. */
  predicate Backed(c: Config, t: Table, stage: Stage, j: Job) {
    && j.stage == stage
    && Mine(c, t, j.id)
    && t[j.id] == Row(stage, Active, c.instance, j.file, j.retry, t[j.id].created)
  }

  ghost predicate AllBacked(c: Config, s: State) {
    forall p :: Full(s, p) ==> Backed(c, s.table, p.stage, JobAt(s, p))
  }

  ghost predicate HeldOnce(s: State) {
    forall p, q :: Full(s, p) && Full(s, q) && JobAt(s, p).id == JobAt(s, q).id ==> p == q
  }

  predicate PhaseFits(c: Config, stage: Stage, x: Exec) {
    match x.phase
    case Started | Failed => true
    case Encoding(mp4) => stage == Transcoding && mp4.track == x.job.file.track
    case Produced(mp4) => stage == Transcoding && mp4.track == x.job.file.track
    case HandOver(mp4) => stage == Transcoding && mp4.track == x.job.file.track
    case Spoiled(mp4) => stage == Transcoding && mp4.track == x.job.file.track && mp4.track != []
    case Removing(cause) => CauseFits(c, stage, x.job, cause)
    case Deleting(cause) => CauseFits(c, stage, x.job, cause)
  }

  /** `cleanup` runs only after a successful upload or when the attempts are used up. */
  predicate CauseFits(c: Config, stage: Stage, j: Job, cause: Cause) {
    if cause.Uploaded? then stage == Upload else j.retry >= c.Of(stage).maxRetry
  }

  /** Bounds of one listener: at most Workers tasks run and at most Queue wait in the channel. */
  ghost predicate LaneOk(c: Config, s: State, stage: Stage) {
    var lane := s.At(stage);
    && |lane.batch| <= c.Of(stage).Limit()
    && |lane.queue| <= c.Of(stage).queue
    && (forall w :: w in lane.running ==> w < c.Of(stage).workers && PhaseFits(c, stage, lane.running[w]))
    && (!s.up ==> lane == EMPTY_LANE)
  }

  ghost predicate RowsOk(c: Config, s: State) {
    && (forall id :: id in s.table ==> id < s.nextId)
    && (forall id :: Mine(c, s.table, id) ==> s.table[id].created < s.clock)
    && (forall i, j :: Mine(c, s.table, i) && Mine(c, s.table, j) && s.table[i].created == s.table[j].created ==> i == j)
    && (!s.up ==> s.sessions == map[])
  }

  ghost predicate Inv(c: Config, s: State) {
    RowsOk(c, s) && LaneOk(c, s, Transcoding) && LaneOk(c, s, Upload) && AllBacked(c, s) && HeldOnce(s)
  }

  // ---- one step

  /** Where the job now in slot `p` was before the step; Fetch is the only step that brings a job in. */
  function Origin(a: Action, s: State, p: Slot): Slot {
    match a
    case Send(k) =>
      if p.InBatch? && p.stage == k then InBatch(k, p.i + 1)
      else if p == InQueue(k, |s.At(k).queue|) then InBatch(k, 0) else p
    case Handoff(k, w) =>
      if p.InBatch? && p.stage == k then InBatch(k, p.i + 1) else if p == AtWorker(k, w) then InBatch(k, 0) else p
    case Take(k, w) =>
      if p.InQueue? && p.stage == k then InQueue(k, p.i + 1) else if p == AtWorker(k, w) then InQueue(k, 0) else p
    case _ => p
  }

  lemma PassedOnHolds(c: Config, s: State, a: Action, p: Slot)
    requires Enabled(c, s, a) && (a.Send? || a.Handoff? || a.Take?) && Full(Next(c, s, a), p) && p.stage == a.stage
    ensures Full(s, Origin(a, s, p)) && Origin(a, s, p).stage == p.stage
    ensures JobAt(Next(c, s, a), p) == JobAt(s, Origin(a, s, p))
  {
  }

  lemma OriginHolds(c: Config, s: State, a: Action, p: Slot)
    requires Enabled(c, s, a) && !a.Fetch? && Full(Next(c, s, a), p)
    ensures Full(s, Origin(a, s, p)) && Origin(a, s, p).stage == p.stage
    ensures JobAt(Next(c, s, a), p) == JobAt(s, Origin(a, s, p))
  {
    if (a.Send? || a.Handoff? || a.Take?) && p.stage == a.stage {
      PassedOnHolds(c, s, a, p);
    }
  }

  /** Two jobs never come from one place. */
  lemma OriginsDiffer(c: Config, s: State, a: Action, p: Slot, q: Slot)
    requires Enabled(c, s, a) && !a.Fetch? && Full(Next(c, s, a), p) && Full(Next(c, s, a), q)
    requires Origin(a, s, p) == Origin(a, s, q)
    ensures p == q
  {
  }

  lemma StepKeepsHeldOnce(c: Config, s: State, a: Action)
    requires Enabled(c, s, a) && !a.Fetch? && HeldOnce(s)
    ensures HeldOnce(Next(c, s, a))
  {
    var s' := Next(c, s, a);
    forall p, q | Full(s', p) && Full(s', q) && JobAt(s', p).id == JobAt(s', q).id
      ensures p == q
    {
      OriginHolds(c, s, a, p);
      OriginHolds(c, s, a, q);
      OriginsDiffer(c, s, a, p, q);
    }
  }

  /** The job whose row the step writes, if any. The step takes that job out of memory. */
  function Written(s: State, a: Action): Option<Slot> {
    match a
    case Work(k, w, op) => if op.Publish? || op.Retry? || op.DeleteJob? then Some(AtWorker(k, w)) else None
    case _ => None
  }

  /** Apart from Fetch and Start, a row of this instance changes only by the last step of the worker that holds it. */
  lemma StepTouchesOnlyItsOwnRow(c: Config, s: State, a: Action, id: nat)
    requires Inv(c, s) && Enabled(c, s, a) && !a.Fetch? && !a.Start? && Mine(c, s.table, id)
    ensures var s' := Next(c, s, a);
            || (id in s'.table && s'.table[id] == s.table[id])
            || (&& Written(s, a).Some? && Full(s, Written(s, a).value) && JobAt(s, Written(s, a).value).id == id
                && forall p :: Full(s', p) ==> JobAt(s', p).id != id)
  {
    var s' := Next(c, s, a);
    if Written(s, a).Some? && JobAt(s, Written(s, a).value).id == id {
      forall p | Full(s', p)
        ensures JobAt(s', p).id != id
      {
        OriginHolds(c, s, a, p);
      }
    }
  }

  lemma StepKeepsAllBacked(c: Config, s: State, a: Action)
    requires Inv(c, s) && Enabled(c, s, a) && !a.Fetch?
    ensures AllBacked(c, Next(c, s, a))
  {
    var s' := Next(c, s, a);
    forall p | Full(s', p)
      ensures Backed(c, s'.table, p.stage, JobAt(s', p))
    {
      OriginHolds(c, s, a, p);
      var q := Origin(a, s, p);
      assert Backed(c, s.table, q.stage, JobAt(s, q));
      if !a.Start? {
        StepTouchesOnlyItsOwnRow(c, s, a, JobAt(s, q).id);
      }
    }
  }

  /** A fetched job is in the new batch; every other slot keeps its job, which was not fetched. */
  lemma FetchedOrKept(c: Config, s: State, a: Action, p: Slot)
    requires Inv(c, s) && Enabled(c, s, a) && a.Fetch? && Full(Next(c, s, a), p)
    ensures var s' := Next(c, s, a);
            if p.InBatch? && p.stage == a.stage
            then p.i < |a.ids| && JobAt(s', p) == Numbered(FetchedJobs(s.table, a.ids)[p.i]) && a.ids[p.i] in a.ids
            else Full(s, p) && JobAt(s', p) == JobAt(s, p) && JobAt(s, p).id !in a.ids
  {
    if !(p.InBatch? && p.stage == a.stage) {
      assert Full(s, p) && JobAt(Next(c, s, a), p) == JobAt(s, p);
      assert Backed(c, s.table, p.stage, JobAt(s, p));
    }
  }

  lemma FetchKeepsMemory(c: Config, s: State, a: Action)
    requires Inv(c, s) && Enabled(c, s, a) && a.Fetch?
    ensures AllBacked(c, Next(c, s, a)) && HeldOnce(Next(c, s, a))
  {
    var s' := Next(c, s, a);
    forall p | Full(s', p)
      ensures Backed(c, s'.table, p.stage, JobAt(s', p))
    {
      FetchedOrKept(c, s, a, p);
      if Full(s, p) {
        assert Backed(c, s.table, p.stage, JobAt(s, p));
      }
    }
    forall p, q | Full(s', p) && Full(s', q) && JobAt(s', p).id == JobAt(s', q).id
      ensures p == q
    {
      FetchedOrKept(c, s, a, p);
      FetchedOrKept(c, s, a, q);
    }
  }

  lemma StepKeepsRowsOk(c: Config, s: State, a: Action)
    requires Inv(c, s) && Enabled(c, s, a)
    ensures RowsOk(c, Next(c, s, a))
  {
    var s' := Next(c, s, a);
    forall id | Mine(c, s'.table, id)
      ensures if id in s.table then Mine(c, s.table, id) && s'.table[id].created == s.table[id].created
              else a.StopSession? && id == s.nextId && s'.table[id].created == s.clock
    {
    }
  }

  lemma StepKeepsLaneOk(c: Config, s: State, a: Action, stage: Stage)
    requires Inv(c, s) && Enabled(c, s, a)
    ensures LaneOk(c, Next(c, s, a), stage)
  {
  }

  lemma StepKeepsInv(c: Config, s: State, a: Action)
    requires Inv(c, s) && Enabled(c, s, a)
    ensures Inv(c, Next(c, s, a))
  {
    StepKeepsRowsOk(c, s, a);
    StepKeepsLaneOk(c, s, a, Transcoding);
    StepKeepsLaneOk(c, s, a, Upload);
    if a.Fetch? {
      FetchKeepsMemory(c, s, a);
    } else {
      StepKeepsHeldOnce(c, s, a);
      StepKeepsAllBacked(c, s, a);
    }
  }

  // ---- every run

  lemma {:induction false} RunKeepsInv(c: Config, s: State, run: seq<Action>)
    requires Init(c, s) && Feasible(c, s, run)
    ensures Inv(c, After(c, s, run))
  {
    if run != [] {
      var before := run[..|run| - 1];
      RunKeepsInv(c, s, before);
      StepKeepsInv(c, After(c, s, before), run[|run| - 1]);
    }
  }

  /** In every reachable state a job sits in at most one batch, queue or worker, and its row is Active,
      of that stage, with the holder's file and attempt number. */
  lemma HeldOnceAndActive(c: Config, s: State, run: seq<Action>, p: Slot, q: Slot)
    requires Init(c, s) && Feasible(c, s, run)
    requires Full(After(c, s, run), p) && Full(After(c, s, run), q)
    requires JobAt(After(c, s, run), p).id == JobAt(After(c, s, run), q).id
    ensures p == q && Backed(c, After(c, s, run).table, p.stage, JobAt(After(c, s, run), p))
  {
    RunKeepsInv(c, s, run);
  }

  /** Without a restart, a row turns Idle only as the last thing its holder does: the step that hands the
      output over or records the error of a failed attempt. After it the job is nowhere in memory. */
  lemma TurnsIdleLast(c: Config, s: State, run: seq<Action>, a: Action, id: nat)
    requires Init(c, s) && Feasible(c, s, run) && Enabled(c, After(c, s, run), a) && !a.Start?
    requires Mine(c, After(c, s, run).table, id) && After(c, s, run).table[id].state.Active?
    requires var t := Next(c, After(c, s, run), a).table; id in t && t[id].state.Idle?
    ensures a.Work? && (a.op.Publish? || a.op.Retry?) && a.op.ok
    ensures var s1 := After(c, s, run);
            Full(s1, AtWorker(a.stage, a.w)) && JobAt(s1, AtWorker(a.stage, a.w)).id == id
    ensures forall p :: Full(Next(c, After(c, s, run), a), p) ==> JobAt(Next(c, After(c, s, run), a), p).id != id
  {
    RunKeepsInv(c, s, run);
    if !a.Fetch? {
      StepTouchesOnlyItsOwnRow(c, After(c, s, run), a, id);
    }
  }

  lemma {:induction false} FewWorkers(running: set<nat>, n: nat)
    requires forall w :: w in running ==> w < n
    ensures |running| <= n
  {
    if n == 0 {
      assert running == {};
    } else {
      FewWorkers(running - {n - 1}, n - 1);
    }
  }

  /** At most Workers tasks of a stage run, at most Queue wait in its channel, and at most
      2 * (Queue + Workers) of its jobs are in memory. */
  lemma MemoryBounded(c: Config, s: State, run: seq<Action>, stage: Stage)
    requires Init(c, s) && Feasible(c, s, run)
    ensures var lane := After(c, s, run).At(stage);
            var k := c.Of(stage);
            && |lane.running| <= k.workers && |lane.queue| <= k.queue
            && |lane.batch| + |lane.queue| + |lane.running| <= 2 * (k.queue + k.workers)
  {
    RunKeepsInv(c, s, run);
    var lane := After(c, s, run).At(stage);
    assert LaneOk(c, After(c, s, run), stage);
    FewWorkers(lane.running.Keys, c.Of(stage).workers);
    assert |lane.running| == |lane.running.Keys|;
  }

  // ---- the order of the jobs

  /** The job the step passes to the pool of `stage`. */
  ghost function Passes(c: Config, s: State, a: Action, stage: Stage): seq<Job>
    requires Enabled(c, s, a)
  {
    if (a.Send? || a.Handoff?) && a.stage == stage then [Numbered(s.At(stage).batch[0])] else []
  }

  /** The job a worker of `stage` starts with the step. */
  ghost function Starting(c: Config, s: State, a: Action, stage: Stage): seq<Job>
    requires Enabled(c, s, a)
  {
    if (a.Take? || a.Handoff?) && a.stage == stage then [Next(c, s, a).At(stage).running[a.w].job] else []
  }

  /** The jobs the listener has passed to its pool since the process started, in order. */
  ghost function PassedOn(c: Config, s: State, run: seq<Action>, stage: Stage): seq<Job>
    requires Feasible(c, s, run)
  {
    if run == [] || run[|run| - 1].Crash? then []
    else PassedOn(c, s, run[..|run| - 1], stage) + Passes(c, After(c, s, run[..|run| - 1]), run[|run| - 1], stage)
  }

  /** The jobs the workers have started since then, in order. */
  ghost function StartedJobs(c: Config, s: State, run: seq<Action>, stage: Stage): seq<Job>
    requires Feasible(c, s, run)
  {
    if run == [] || run[|run| - 1].Crash? then []
    else StartedJobs(c, s, run[..|run| - 1], stage) + Starting(c, After(c, s, run[..|run| - 1]), run[|run| - 1], stage)
  }

  lemma QueueMoves(c: Config, s: State, a: Action, stage: Stage)
    requires Enabled(c, s, a) && !a.Crash?
    ensures s.At(stage).queue + Passes(c, s, a, stage) == Starting(c, s, a, stage) + Next(c, s, a).At(stage).queue
  {
  }

  /** Workers start jobs in the order the listener passed them on, each once: what was started is a
      beginning of what was passed on, and the channel holds exactly the rest. */
  lemma {:induction false} StartedInOrder(c: Config, s: State, run: seq<Action>, stage: Stage)
    requires Init(c, s) && Feasible(c, s, run)
    ensures PassedOn(c, s, run, stage) == StartedJobs(c, s, run, stage) + After(c, s, run).At(stage).queue
  {
    if run != [] && !run[|run| - 1].Crash? {
      var before := run[..|run| - 1];
      var s1 := After(c, s, before);
      StartedInOrder(c, s, before, stage);
      QueueMoves(c, s1, run[|run| - 1], stage);
      Regroup(PassedOn(c, s, before, stage), StartedJobs(c, s, before, stage), s1.At(stage).queue,
              Passes(c, s1, run[|run| - 1], stage), Starting(c, s1, run[|run| - 1], stage), After(c, s, run).At(stage).queue);
    }
  }

  lemma Regroup(passed: seq<Job>, started: seq<Job>, queue: seq<Job>, more: seq<Job>, next: seq<Job>, queue': seq<Job>)
    requires passed == started + queue && queue + more == next + queue'
    ensures passed + more == started + next + queue'
  {
    calc {
      passed + more;
      started + (queue + more);
      started + next + queue';
    }
  }
}
