/** What becomes of a job: conservation, justified removal, recovery after a crash, and progress. */
module PipelineOutcome {
  import opened Model
  import opened JobStore
  import opened Pipeline
  import opened PipelineSafety
  import opened PipelineAttempts

  // ---- conservation

  function MyRows(c: Config, t: Table): set<nat> {
    set id | id in t && Mine(c, t, id)
  }

  predicate Creates(a: Action) { a.StopSession? && a.ok }

  predicate Deletes(a: Action) { a.Work? && a.op.DeleteJob? && a.op.ok }

  /** The ids of the jobs that `run` creates, and of those it deletes. */
  ghost function CreatedIds(c: Config, s: State, run: seq<Action>): set<nat>
    requires Feasible(c, s, run)
  {
    if run == [] then {}
    else
      CreatedIds(c, s, run[..|run| - 1])
      + if Creates(run[|run| - 1]) then {After(c, s, run[..|run| - 1]).nextId} else {}
  }

  ghost function DeletedIds(c: Config, s: State, run: seq<Action>): set<nat>
    requires Feasible(c, s, run)
  {
    if run == [] then {}
    else
      var a := run[|run| - 1];
      DeletedIds(c, s, run[..|run| - 1])
      + if Deletes(a) then {After(c, s, run[..|run| - 1]).At(a.stage).running[a.w].job.id} else {}
  }

  lemma StepMovesRows(c: Config, s: State, a: Action)
    requires Inv(c, s) && Enabled(c, s, a)
    ensures var rows := MyRows(c, s.table);
            var rows' := MyRows(c, Next(c, s, a).table);
            if Creates(a) then rows' == rows + {s.nextId} && s.nextId !in rows
            else if Deletes(a) then
              var id := s.At(a.stage).running[a.w].job.id; rows' == rows - {id} && id in rows
            else rows' == rows
  {
    if a.Work? {
      assert Backed(c, s.table, a.stage, JobAt(s, AtWorker(a.stage, a.w)));
    }
    if a.Others? {
      forall id
        ensures Mine(c, a.table, id) <==> Mine(c, s.table, id)
      {
      }
    }
  }

  ghost predicate Accounted(c: Config, s: State, created: set<nat>, deleted: set<nat>) {
    && created == MyRows(c, s.table) + deleted && MyRows(c, s.table) !! deleted
    && forall id :: id in created ==> id < s.nextId
  }

  lemma StepKeepsAccounted(c: Config, s: State, a: Action, created: set<nat>, deleted: set<nat>)
    requires Inv(c, s) && Enabled(c, s, a) && Accounted(c, s, created, deleted)
    ensures Accounted(c, Next(c, s, a),
                      created + (if Creates(a) then {s.nextId} else {}),
                      deleted + if Deletes(a) then {s.At(a.stage).running[a.w].job.id} else {})
  {
    StepMovesRows(c, s, a);
  }

  /** Every job ever created is a row of the table or was deleted, never both: none is lost, none comes back. */
  lemma {:induction false} Conservation(c: Config, s: State, run: seq<Action>)
    requires Init(c, s) && Feasible(c, s, run)
    ensures Accounted(c, After(c, s, run), CreatedIds(c, s, run), DeletedIds(c, s, run))
  {
    if run == [] {
      assert MyRows(c, s.table) == {};
    } else {
      var before := run[..|run| - 1];
      Conservation(c, s, before);
      RunKeepsInv(c, s, before);
      StepKeepsAccounted(c, After(c, s, before), run[|run| - 1], CreatedIds(c, s, before), DeletedIds(c, s, before));
    }
  }

  // ---- why a row goes away

  /** The step that decides that job `id` is finished: its upload succeeded, or an attempt numbered
      MaxRetry or higher failed. */
  ghost predicate Decides(c: Config, s: State, a: Action, id: nat) {
    && a.Work? && a.w in s.At(a.stage).running && s.At(a.stage).running[a.w].job.id == id
    && (|| (a.stage == Upload && a.op == EndUpload(true))
        || (a.op.GiveUp? && s.At(a.stage).running[a.w].job.retry >= c.Of(a.stage).maxRetry))
  }

  ghost predicate Decided(c: Config, s: State, run: seq<Action>, id: nat)
    requires Feasible(c, s, run)
  {
    exists i :: 0 <= i < |run| && Feasible(c, s, run[..i]) && Decides(c, After(c, s, run[..i]), run[i], id)
  }

  predicate CleansUp(x: Exec) {
    x.phase.Removing? || x.phase.Deleting?
  }

  lemma StaysDecided(c: Config, s: State, run: seq<Action>, id: nat)
    requires run != [] && Feasible(c, s, run) && Decided(c, s, run[..|run| - 1], id)
    ensures Decided(c, s, run, id)
  {
    var before := run[..|run| - 1];
    var i :| 0 <= i < |before| && Feasible(c, s, before[..i]) && Decides(c, After(c, s, before[..i]), before[i], id);
    assert before[..i] == run[..i] && before[i] == run[i];
  }

  /** A worker that cleans up did so before, or has just decided to. */
  lemma CleanupComesFrom(c: Config, s: State, a: Action, k: Stage, w: nat)
    requires Enabled(c, s, a) && w in Next(c, s, a).At(k).running && CleansUp(Next(c, s, a).At(k).running[w])
    ensures var id := Next(c, s, a).At(k).running[w].job.id;
            || (w in s.At(k).running && CleansUp(s.At(k).running[w]) && s.At(k).running[w].job.id == id)
            || Decides(c, s, a, id)
  {
  }

  lemma {:induction false} CleanupWasDecided(c: Config, s: State, run: seq<Action>, k: Stage, w: nat)
    requires Init(c, s) && Feasible(c, s, run)
    requires w in After(c, s, run).At(k).running && CleansUp(After(c, s, run).At(k).running[w])
    ensures Decided(c, s, run, After(c, s, run).At(k).running[w].job.id)
    decreases |run|
  {
    if run != [] {
      var before := run[..|run| - 1];
      var a := run[|run| - 1];
      var s1 := After(c, s, before);
      var id := After(c, s, run).At(k).running[w].job.id;
      if w in s1.At(k).running && CleansUp(s1.At(k).running[w]) && s1.At(k).running[w].job.id == id {
        CleanupWasDecided(c, s, before, k, w);
        StaysDecided(c, s, run, id);
      } else {
        CleanupComesFrom(c, s1, a, k, w);
        assert run[..|run| - 1] == before;
      }
    }
  }

  /** A row of this instance leaves the table only by the delete of its holder, and only when an earlier
      step of the run decided so: a successful upload, or a failure at attempt MaxRetry or later. */
  lemma RemovalIsJustified(c: Config, s: State, run: seq<Action>, a: Action, id: nat)
    requires Init(c, s) && Feasible(c, s, run) && Enabled(c, After(c, s, run), a)
    requires Mine(c, After(c, s, run).table, id) && id !in Next(c, After(c, s, run), a).table
    ensures Deletes(a) && After(c, s, run).At(a.stage).running[a.w].job.id == id
    ensures Decided(c, s, run, id)
  {
    RunKeepsInv(c, s, run);
    if !a.Fetch? && !a.Start? {
      StepTouchesOnlyItsOwnRow(c, After(c, s, run), a, id);
    }
    CleanupWasDecided(c, s, run, a.stage, a.w);
  }

  // ---- crash and restart

  /** After a crash at any moment, the next start makes every row of the instance Idle and ready to be
      fetched, with its stage, file and attempts as they were, and changes no other instance's row;
      all that `Inv` says holds again, so the run goes on as safely as before. */
  lemma CrashRecovery(c: Config, s: State, run: seq<Action>)
    requires Init(c, s) && Feasible(c, s, run) && After(c, s, run).up
    ensures var t := After(c, s, run).table;
            Enabled(c, After(c, s, run), Crash) &&
            var down := Next(c, After(c, s, run), Crash);
            Enabled(c, down, Start(true)) &&
            var s' := Next(c, down, Start(true));
            && Inv(c, s')
            && s'.up && s'.transcoding == EMPTY_LANE && s'.upload == EMPTY_LANE
            && s'.table.Keys == t.Keys
            && (forall id :: Mine(c, t, id) ==>
                  s'.table[id] == t[id].(state := Idle) && Eligible(s'.table, c.instance, t[id].stage, id))
            && (forall id :: id in t && !Mine(c, t, id) ==> s'.table[id] == t[id])
  {
    RunKeepsInv(c, s, run);
    StepKeepsInv(c, After(c, s, run), Crash);
    StepKeepsInv(c, Next(c, After(c, s, run), Crash), Start(true));
  }
}
