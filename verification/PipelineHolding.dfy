/** Who holds an Active row, and why a stage never stands still. */
module PipelineHolding {
  import opened Model
  import opened JobStore
  import opened Pipeline
  import opened PipelineSafety
  import opened PipelineAttempts
  import opened PipelineWaiting
  import opened PipelineProgress

  // ---- Active rows that nobody holds

  ghost predicate Held(s: State, id: nat) {
    exists p :: Holds(s, p, id)
  }

  /** The row is Active, so no listener fetches it, and no batch, queue or worker has its job. */
  ghost predicate Stray(c: Config, s: State, id: nat) {
    Mine(c, s.table, id) && s.table[id].state.Active? && !Held(s, id)
  }

  /** The step takes the job out of memory and leaves its row Active: the closing statement fails, or the process dies. */
  ghost predicate Loses(s: State, a: Action, id: nat) {
    match a
    case Work(k, w, op) =>
      && (op.Publish? || op.Retry? || op.DeleteJob?) && !op.ok
      && w in s.At(k).running && s.At(k).running[w].job.id == id
    case Crash => Held(s, id)
    case _ => false
  }

  /** After a step other than a fetch a job is held if and only if it was held and its holder was not at the last step. */
  lemma HeldAfter(c: Config, s: State, a: Action, id: nat)
    requires Inv(c, s) && Enabled(c, s, a) && !a.Fetch?
    ensures Held(Next(c, s, a), id) <==>
              && Held(s, id) && !a.Crash?
              && !(a.Work? && (a.op.Publish? || a.op.Retry? || a.op.DeleteJob?) && s.At(a.stage).running[a.w].job.id == id)
  {
    var s' := Next(c, s, a);
    if p :| Holds(s', p, id) {
      OriginHolds(c, s, a, p);
      assert Holds(s, Origin(a, s, p), id);
      if a.Work? && s.At(a.stage).running[a.w].job.id == id {
        assert Holds(s, AtWorker(a.stage, a.w), id);
        assert Origin(a, s, p) == AtWorker(a.stage, a.w);
      }
    }
    if p :| Holds(s, p, id) {
      StaysHeld(c, s, a, p);
    }
  }

  /** Where a held job goes, unless its holder was at the last step. */
  function Onward(s: State, a: Action, p: Slot): Slot {
    match a
    case Send(k) =>
      if p.InBatch? && p.stage == k then (if p.i == 0 then InQueue(k, |s.At(k).queue|) else InBatch(k, p.i - 1)) else p
    case Handoff(k, w) =>
      if p.InBatch? && p.stage == k then (if p.i == 0 then AtWorker(k, w) else InBatch(k, p.i - 1)) else p
    case Take(k, w) =>
      if p.InQueue? && p.stage == k then (if p.i == 0 then AtWorker(k, w) else InQueue(k, p.i - 1)) else p
    case _ => p
  }

  lemma StaysHeld(c: Config, s: State, a: Action, p: Slot)
    requires Inv(c, s) && Enabled(c, s, a) && !a.Fetch? && Full(s, p)
    ensures || a.Crash?
            || (a.Work? && (a.op.Publish? || a.op.Retry? || a.op.DeleteJob?) && p == AtWorker(a.stage, a.w))
            || Holds(Next(c, s, a), Onward(s, a, p), JobAt(s, p).id)
  {
    if a.Send? || a.Handoff? || a.Take? {
      PassedOnStays(c, s, a, p);
    } else if a.Work? {
      WorkStays(c, s, a, p);
    }
  }

  lemma WorkStays(c: Config, s: State, a: Action, p: Slot)
    requires Enabled(c, s, a) && a.Work? && Full(s, p)
    ensures || ((a.op.Publish? || a.op.Retry? || a.op.DeleteJob?) && p == AtWorker(a.stage, a.w))
            || Holds(Next(c, s, a), p, JobAt(s, p).id)
  {
  }

  lemma PassedOnStays(c: Config, s: State, a: Action, p: Slot)
    requires Enabled(c, s, a) && (a.Send? || a.Handoff? || a.Take?) && Full(s, p)
    ensures Holds(Next(c, s, a), Onward(s, a, p), JobAt(s, p).id)
  {
    if p.stage == a.stage {
      match p
      case InBatch(_, _) => BatchMoves(c, s, a, p);
      case InQueue(_, _) => QueueMovesUp(c, s, a, p);
      case AtWorker(_, _) =>
    }
  }

  lemma BatchMoves(c: Config, s: State, a: Action, p: Slot)
    requires Enabled(c, s, a) && (a.Send? || a.Handoff? || a.Take?) && Full(s, p) && p.InBatch? && p.stage == a.stage
    ensures Holds(Next(c, s, a), Onward(s, a, p), JobAt(s, p).id)
  {
  }

  lemma QueueMovesUp(c: Config, s: State, a: Action, p: Slot)
    requires Enabled(c, s, a) && (a.Send? || a.Handoff? || a.Take?) && Full(s, p) && p.InQueue? && p.stage == a.stage
    ensures Holds(Next(c, s, a), Onward(s, a, p), JobAt(s, p).id)
  {
  }

  lemma HeldIsActive(c: Config, s: State, id: nat)
    requires Inv(c, s) && Held(s, id)
    ensures Mine(c, s.table, id) && s.table[id].state.Active? && s.up
  {
    var p :| Holds(s, p, id);
    assert Backed(c, s.table, p.stage, JobAt(s, p));
  }

  /** Exactly which steps leave a row stray: a step that loses its job, and every step but a reset if it was stray before. */
  lemma StepStraysIff(c: Config, s: State, a: Action, id: nat)
    requires Inv(c, s) && Enabled(c, s, a)
    ensures Stray(c, Next(c, s, a), id) <==> Loses(s, a, id) || (Stray(c, s, id) && !IsReset(a))
  {
    if Held(s, id) {
      HeldIsActive(c, s, id);
    }
    if a.Fetch? {
      FetchStraysIff(c, s, a, id);
    } else {
      HeldAfter(c, s, a, id);
      if a.Work? {
        assert Backed(c, s.table, a.stage, JobAt(s, AtWorker(a.stage, a.w)));
        assert Holds(s, AtWorker(a.stage, a.w), s.At(a.stage).running[a.w].job.id);
      }
      if Mine(c, s.table, id) && !a.Start? {
        StepTouchesOnlyItsOwnRow(c, s, a, id);
      }
    }
  }

  lemma FetchStraysIff(c: Config, s: State, a: Action, id: nat)
    requires Inv(c, s) && Enabled(c, s, a) && a.Fetch?
    ensures Stray(c, Next(c, s, a), id) <==> Stray(c, s, id)
  {
    var s' := Next(c, s, a);
    if i :| 0 <= i < |a.ids| && a.ids[i] == id {
      assert Eligible(s.table, c.instance, a.stage, id);
      assert Holds(s', InBatch(a.stage, i), id);
    } else {
      if p :| Holds(s, p, id) {
        assert Holds(s', p, id);
      }
      if p :| Holds(s', p, id) {
        FetchedOrKept(c, s, a, p);
        assert Holds(s, p, id);
      }
    }
  }

  /** The i-th step of the run loses the job, and no reset follows. */
  ghost predicate LostAt(c: Config, s: State, run: seq<Action>, i: nat, id: nat)
    requires Feasible(c, s, run)
  {
    && i < |run| && Feasible(c, s, run[..i]) && Loses(After(c, s, run[..i]), run[i], id)
    && forall j :: i < j < |run| ==> !IsReset(run[j])
  }

  ghost predicate Lost(c: Config, s: State, run: seq<Action>, id: nat)
    requires Feasible(c, s, run)
  {
    exists i: nat :: LostAt(c, s, run, i, id)
  }

  lemma LostBefore(c: Config, s: State, run: seq<Action>, i: nat, id: nat)
    requires Feasible(c, s, run) && run != [] && i < |run| - 1
    ensures LostAt(c, s, run, i, id) <==> LostAt(c, s, run[..|run| - 1], i, id) && !IsReset(run[|run| - 1])
  {
    var before := run[..|run| - 1];
    assert before[..i] == run[..i] && before[i] == run[i];
    assert forall j :: i < j < |before| ==> before[j] == run[j];
  }

  lemma LostStep(c: Config, s: State, run: seq<Action>, id: nat)
    requires Feasible(c, s, run) && run != []
    ensures var before, a := run[..|run| - 1], run[|run| - 1];
            Lost(c, s, run, id) <==> Loses(After(c, s, before), a, id) || (Lost(c, s, before, id) && !IsReset(a))
  {
    var last: nat := |run| - 1;
    assert LostAt(c, s, run, last, id) <==> Loses(After(c, s, run[..last]), run[last], id);
    if i: nat :| LostAt(c, s, run, i, id) && i < last {
      LostBefore(c, s, run, i, id);
    }
    if i: nat :| LostAt(c, s, run[..last], i, id) {
      LostBefore(c, s, run, i, id);
    }
  }

  /** In every run: an Active row of the instance is held by nobody if and only if its closing statement failed,
      or the process died with its job in memory, and no reset has succeeded since. */
  lemma {:induction false} StrayIffLost(c: Config, s: State, run: seq<Action>, id: nat)
    requires Init(c, s) && Feasible(c, s, run)
    ensures Stray(c, After(c, s, run), id) <==> Lost(c, s, run, id)
  {
    if run != [] {
      var before := run[..|run| - 1];
      RunKeepsInv(c, s, before);
      StrayIffLost(c, s, before, id);
      StepStraysIff(c, After(c, s, before), run[|run| - 1], id);
      LostStep(c, s, run, id);
    }
  }

  // ---- no stage stands still

  lemma {:induction false} UnusedName(names: set<Path>) returns (name: Path)
    ensures name != "" && forall n :: n in names ==> |n| < |name|
  {
    if names == {} {
      name := "n";
    } else {
      var n :| n in names;
      name := UnusedName(names - {n});
      if |n| >= |name| {
        name := n + "n";
      }
    }
  }

  /** A busy worker always has a next step. */
  lemma WorkerCanStep(c: Config, s: State, stage: Stage, w: nat) returns (op: Op)
    requires Inv(c, s) && w in s.At(stage).running
    ensures Enabled(c, s, Work(stage, w, op)) && !op.WriteOutput?
  {
    var x := s.At(stage).running[w];
    var name := UnusedName(s.drawn);
    assert LaneOk(c, s, stage);
    match x.phase {
      case Started => op := if stage == Transcoding then Begin(name) else EndUpload(true);
      case Encoding(_) => op := EndEncoding(true, 0);
      case Produced(_) => op := DropSource({});
      case HandOver(_) => op := Publish(true);
      case Spoiled(_) => op := Discard({});
      case Failed => op := if x.job.retry >= c.Of(stage).maxRetry then GiveUp else Retry(true);
      case Removing(_) => op := RemoveFiles({});
      case Deleting(_) => op := DeleteJob(true);
    }
  }

  ghost predicate SomeIdle(c: Config, s: State, stage: Stage) {
    exists w :: Idles(c, s, stage, w)
  }

  /** The job is with a worker, or is the next one for the worker or the channel that has room. */
  ghost predicate CanMove(c: Config, s: State, p: Slot) {
    match p
    case AtWorker(_, _) => true
    case InQueue(k, i) => i == 0 && SomeIdle(c, s, k)
    case InBatch(k, i) => i == 0 && (|s.At(k).queue| < c.Of(k).queue || (s.At(k).queue == [] && SomeIdle(c, s, k)))
  }

  /** Exactly when a job in memory can be moved, and so have its rank lowered: every worker's job always can. */
  lemma MovesIff(c: Config, s: State, p: Slot, id: nat)
    requires Inv(c, s) && Holds(s, p, id)
    ensures (exists a :: Enabled(c, s, a) && ActsOn(s, a, id)) <==> CanMove(c, s, p)
  {
    if CanMove(c, s, p) {
      var a := MoveOf(c, s, p);
    }
    if a :| Enabled(c, s, a) && ActsOn(s, a, id) {
      MoverIsAtHead(c, s, a, p, id);
    }
  }

  lemma MoveOf(c: Config, s: State, p: Slot) returns (a: Action)
    requires Inv(c, s) && Full(s, p) && CanMove(c, s, p)
    ensures Enabled(c, s, a) && ActsOn(s, a, JobAt(s, p).id) && !a.Start? && !a.Fetch?
  {
    match p {
      case AtWorker(k, w) =>
        var op := WorkerCanStep(c, s, k, w);
        a := Work(k, w, op);
      case InQueue(k, _) =>
        var w :| Idles(c, s, k, w);
        a := Take(k, w);
      case InBatch(k, _) =>
        if |s.At(k).queue| < c.Of(k).queue {
          a := Send(k);
        } else {
          var w :| Idles(c, s, k, w);
          a := Handoff(k, w);
        }
    }
  }

  lemma MoverIsAtHead(c: Config, s: State, a: Action, p: Slot, id: nat)
    requires Inv(c, s) && Holds(s, p, id) && Enabled(c, s, a) && ActsOn(s, a, id)
    ensures CanMove(c, s, p)
  {
    HeldIsActive(c, s, id);
    if !a.Fetch? {
      assert Holds(s, Before(s, a), id) && p == Before(s, a);
    }
  }

  /** With a worker at hand, a stage that has jobs in memory can always move one of them closer to leaving the table. */
  lemma MemoryMoves(c: Config, s: State, run: seq<Action>, stage: Stage) returns (a: Action, id: nat)
    requires Init(c, s) && Feasible(c, s, run) && c.Of(stage).workers > 0
    requires exists p :: Full(After(c, s, run), p) && p.stage == stage
    ensures var s1 := After(c, s, run);
            && Enabled(c, s1, a) && ActsOn(s1, a, id) && Mine(c, s1.table, id) && s1.table[id].stage == stage
            && (Mine(c, Next(c, s1, a).table, id) ==>
                  Below(RankOf(c, run + [a], Next(c, s1, a), id), RankOf(c, run, s1, id)))
  {
    var s1 := After(c, s, run);
    RunKeepsInv(c, s, run);
    var p := Foremost(c, s1, stage);
    a := MoveOf(c, s1, p);
    id := JobAt(s1, p).id;
    assert Backed(c, s1.table, p.stage, JobAt(s1, p));
    if Mine(c, Next(c, s1, a).table, id) {
      StepLowersRank(c, s, run, a, id);
    }
  }

  lemma Foremost(c: Config, s: State, stage: Stage) returns (p: Slot)
    requires c.Of(stage).workers > 0 && exists q :: Full(s, q) && q.stage == stage
    ensures Full(s, p) && p.stage == stage && CanMove(c, s, p)
  {
    var lane := s.At(stage);
    if w :| w in lane.running {
      p := AtWorker(stage, w);
    } else {
      assert Idles(c, s, stage, 0);
      if lane.queue != [] {
        p := InQueue(stage, 0);
      } else {
        p := InBatch(stage, 0);
      }
    }
  }

  lemma {:induction false} Oldest(t: Table, ids: set<nat>) returns (m: nat)
    requires ids != {} && forall id :: id in ids ==> id in t
    ensures m in ids && forall id :: id in ids ==> t[m].created <= t[id].created
  {
    m :| m in ids;
    if ids != {m} {
      var n := Oldest(t, ids - {m});
      if t[n].created < t[m].created {
        m := n;
      }
    }
  }

  /** The database can always answer a fetch, and with something as long as there is an Idle row. */
  lemma {:induction false} BatchExists(t: Table, instance: string, stage: Stage, limit: nat) returns (ids: seq<nat>)
    ensures IsOldestBatch(t, instance, stage, limit, ids)
    ensures limit > 0 && (exists id :: Eligible(t, instance, stage, id)) ==> ids != []
  {
    ids := [];
    if limit > 0 {
      ids := BatchExists(t, instance, stage, limit - 1);
      var rest := set id | id in t && Eligible(t, instance, stage, id) && id !in ids;
      if rest != {} {
        var m := Oldest(t, rest);
        assert |ids| == limit - 1;
        forall id | Eligible(t, instance, stage, id) && id !in ids + [m]
          ensures forall taken :: taken in ids + [m] ==> t[taken].created <= t[id].created
        {
          assert id in rest;
        }
        ids := ids + [m];
      } else {
        assert forall id :: Eligible(t, instance, stage, id) ==> id in t && id !in rest;
      }
    }
  }

  /** With a worker at hand, a running stage with an Idle row or a job in memory has a step that acts on one of its jobs. */
  lemma StageMoves(c: Config, s: State, run: seq<Action>, stage: Stage) returns (a: Action, id: nat)
    requires Init(c, s) && Feasible(c, s, run) && After(c, s, run).up && c.Of(stage).workers > 0
    requires || (exists p :: Full(After(c, s, run), p) && p.stage == stage)
             || exists row :: Eligible(After(c, s, run).table, c.instance, stage, row)
    ensures var s1 := After(c, s, run);
            Enabled(c, s1, a) && ActsOn(s1, a, id) && Mine(c, s1.table, id) && s1.table[id].stage == stage
  {
    var s1 := After(c, s, run);
    var head := InBatch(stage, 0);
    assert Full(s1, head) <==> s1.At(stage).batch != [];
    if exists p :: Full(s1, p) && p.stage == stage {
      a, id := MemoryMoves(c, s, run, stage);
    } else {
      var ids := BatchExists(s1.table, c.instance, stage, c.Of(stage).Limit());
      a, id := Fetch(stage, ids), ids[0];
      assert Eligible(s1.table, c.instance, stage, ids[0]);
    }
  }
}
