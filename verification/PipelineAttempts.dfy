/** Bounded attempts: how often a row can be fetched in each stage, over every run. */
module PipelineAttempts {
  import opened Model
  import opened JobStore
  import opened Pipeline
  import opened PipelineSafety

  predicate Fetched(a: Action, stage: Stage, id: nat) {
    a.Fetch? && a.stage == stage && id in a.ids
  }

  /** How often `run` fetches the row `id` in `stage`. */
  function Fetches(run: seq<Action>, stage: Stage, id: nat): nat {
    if run == [] then 0
    else Fetches(run[..|run| - 1], stage, id) + (if Fetched(run[|run| - 1], stage, id) then 1 else 0)
  }

  function Starts(run: seq<Action>): nat {
    if run == [] then 0 else Starts(run[..|run| - 1]) + (if run[|run| - 1].Start? then 1 else 0)
  }

  /** Starts after the first one: each resets the rows a crash left Active. */
  function Restarts(run: seq<Action>): nat {
    Max(0, Starts(run) - 1)
  }

  function Bound(c: Config, run: seq<Action>, stage: Stage): nat {
    c.Of(stage).Attempts() + Restarts(run)
  }

  ghost predicate Counted(c: Config, s: State, run: seq<Action>) {
    && (s.up ==> Starts(run) > 0)
    && (forall k: Stage, id: nat :: Fetches(run, k, id) <= Bound(c, run, k))
    && (forall k: Stage, id: nat :: id >= s.nextId ==> Fetches(run, k, id) == 0)
    && (forall id :: Mine(c, s.table, id) ==>
          && Starts(run) > 0
          && Fetches(run, s.table[id].stage, id) == s.table[id].retry
          && (s.table[id].state.Idle? ==> s.table[id].retry < Bound(c, run, s.table[id].stage))
          && (s.table[id].stage.Transcoding? ==> Fetches(run, Upload, id) == 0))
  }

  lemma FetchesStep(run: seq<Action>, a: Action, stage: Stage, id: nat)
    ensures Fetches(run + [a], stage, id) == Fetches(run, stage, id) + (if Fetched(a, stage, id) then 1 else 0)
    ensures Starts(run + [a]) == Starts(run) + (if a.Start? then 1 else 0)
  {
    assert (run + [a])[..|run + [a]| - 1] == run;
  }

  lemma CountedRows(c: Config, s: State, run: seq<Action>, a: Action, id: nat)
    requires Inv(c, s) && Counted(c, s, run) && Enabled(c, s, a)
    requires Mine(c, Next(c, s, a).table, id)
    ensures var row := Next(c, s, a).table[id];
            && Starts(run + [a]) > 0
            && Fetches(run + [a], row.stage, id) == row.retry
            && (row.state.Idle? ==> row.retry < Bound(c, run + [a], row.stage))
            && (row.stage.Transcoding? ==> Fetches(run + [a], Upload, id) == 0)
  {
    FetchesStep(run, a, Transcoding, id);
    FetchesStep(run, a, Upload, id);
    if a.Work? && Mine(c, s.table, id) {
      WorkKeepsAttempts(c, s, run, a, id);
    } else if !a.Fetch? && Mine(c, s.table, id) && !a.Start? {
      StepTouchesOnlyItsOwnRow(c, s, a, id);
    }
  }

  /** A worker's step leaves the row as it is, or turns it Idle: for another attempt that the stage allows,
      or for the first attempt of the upload stage. */
  lemma WorkKeepsAttempts(c: Config, s: State, run: seq<Action>, a: Action, id: nat)
    requires Inv(c, s) && Counted(c, s, run) && Enabled(c, s, a) && a.Work?
    requires Mine(c, s.table, id) && Mine(c, Next(c, s, a).table, id)
    ensures var row, row' := s.table[id], Next(c, s, a).table[id];
            || row' == row
            || (row'.stage == row.stage && row'.retry == row.retry < c.Of(row.stage).maxRetry)
            || (row.stage.Transcoding? && row'.stage.Upload? && row'.retry == 0)
  {
    assert Backed(c, s.table, a.stage, JobAt(s, AtWorker(a.stage, a.w)));
  }

  lemma StepKeepsCounted(c: Config, s: State, run: seq<Action>, a: Action)
    requires Inv(c, s) && Counted(c, s, run) && Enabled(c, s, a)
    ensures Counted(c, Next(c, s, a), run + [a])
  {
    var s' := Next(c, s, a);
    forall id | Mine(c, s'.table, id)
      ensures && Starts(run + [a]) > 0
              && Fetches(run + [a], s'.table[id].stage, id) == s'.table[id].retry
              && (s'.table[id].state.Idle? ==> s'.table[id].retry < Bound(c, run + [a], s'.table[id].stage))
              && (s'.table[id].stage.Transcoding? ==> Fetches(run + [a], Upload, id) == 0)
    {
      CountedRows(c, s, run, a, id);
    }
    forall k: Stage, id: nat
      ensures Fetches(run + [a], k, id) <= Bound(c, run + [a], k)
      ensures id >= s'.nextId ==> Fetches(run + [a], k, id) == 0
    {
      FetchesStep(run, a, k, id);
      if Fetched(a, k, id) {
        assert Eligible(s.table, c.instance, k, id);
      }
    }
    FetchesStep(run, a, Transcoding, 0);
  }

  lemma {:induction false} RunKeepsCounted(c: Config, s: State, run: seq<Action>)
    requires Init(c, s) && Feasible(c, s, run)
    ensures Counted(c, After(c, s, run), run)
  {
    if run != [] {
      var before := run[..|run| - 1];
      RunKeepsInv(c, s, before);
      RunKeepsCounted(c, s, before);
      StepKeepsCounted(c, After(c, s, before), before, run[|run| - 1]);
      assert before + [run[|run| - 1]] == run;
    }
  }

  /** No row is attempted more often in a stage than max(1, MaxRetry) plus the number of restarts. */
  lemma FetchesBounded(c: Config, s: State, run: seq<Action>, stage: Stage, id: nat)
    requires Init(c, s) && Feasible(c, s, run)
    ensures Fetches(run, stage, id) <= Max(1, c.Of(stage).maxRetry) + Restarts(run)
  {
    RunKeepsCounted(c, s, run);
  }

  /** The attempt number a holder works with is the row's, and is the number of fetches of the row in this stage. */
  lemma AttemptNumberIsFetchCount(c: Config, s: State, run: seq<Action>, p: Slot)
    requires Init(c, s) && Feasible(c, s, run) && Full(After(c, s, run), p)
    ensures var s' := After(c, s, run);
            var j := JobAt(s', p);
            j.id in s'.table && j.retry == s'.table[j.id].retry == Fetches(run, p.stage, j.id)
  {
    RunKeepsInv(c, s, run);
    RunKeepsCounted(c, s, run);
    var s' := After(c, s, run);
    assert Backed(c, s'.table, p.stage, JobAt(s', p));
  }
}
