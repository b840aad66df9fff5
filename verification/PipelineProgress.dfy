/** Progress: between two starts, every step that acts on a job brings it closer to leaving the table. */
module PipelineProgress {
  import opened Model
  import opened JobStore
  import opened Pipeline
  import opened PipelineSafety
  import opened PipelineAttempts

  /** Lexicographic: stage, then attempts left, then the place in memory. */
  datatype Rank = Rank(stage: nat, attempts: nat, place: nat)

  predicate Below(r: Rank, r': Rank) {
    || r.stage < r'.stage
    || (r.stage == r'.stage && r.attempts < r'.attempts)
    || (r.stage == r'.stage && r.attempts == r'.attempts && r.place < r'.place)
  }

  function StepsLeft(phase: Phase): nat {
    match phase
    case Started => 7
    case Encoding(_) => 6
    case Produced(_) => 5
    case HandOver(_) => 4
    case Spoiled(_) => 5
    case Failed => 4
    case Removing(_) => 2
    case Deleting(_) => 1
  }

  function Place(s: State, p: Slot): nat
    requires Full(s, p)
  {
    match p
    case InBatch(_, _) => 9
    case InQueue(_, _) => 8
    case AtWorker(k, w) => StepsLeft(s.At(k).running[w].phase)
  }

  ghost predicate Holds(s: State, p: Slot, id: nat) {
    Full(s, p) && JobAt(s, p).id == id
  }

  /** 0 when nobody holds the job. */
  ghost function PlaceOf(s: State, id: nat): nat {
    if p :| Holds(s, p, id) then Place(s, p) else 0
  }

  ghost function RankOf(c: Config, run: seq<Action>, s: State, id: nat): Rank
    requires Mine(c, s.table, id)
  {
    var row := s.table[id];
    var b := Bound(c, run, row.stage);
    Rank(if row.stage.Transcoding? then 1 else 0,
         if row.retry > b then 0 else 2 * (b - row.retry) + (if row.state.Active? then 1 else 0),
         PlaceOf(s, id))
  }

  /** The step moves, starts or finishes the job; writing more of the output is not a move. */
  ghost predicate ActsOn(s: State, a: Action, id: nat) {
    match a
    case Fetch(_, ids) => id in ids
    case Send(k) => s.At(k).batch != [] && s.At(k).batch[0].id == id
    case Handoff(k, _) => s.At(k).batch != [] && s.At(k).batch[0].id == id
    case Take(k, _) => s.At(k).queue != [] && s.At(k).queue[0].id == id
    case Work(k, w, op) => w in s.At(k).running && s.At(k).running[w].job.id == id && !op.WriteOutput?
    case _ => false
  }

  lemma PlaceIsUnique(s: State, p: Slot, id: nat)
    requires HeldOnce(s) && Holds(s, p, id)
    ensures PlaceOf(s, id) == Place(s, p)
  {
  }

  /** Where the job a step acts on stands before it, and, unless it leaves memory, after it. */
  function Before(s: State, a: Action): Slot
    requires a.Send? || a.Handoff? || a.Take? || a.Work?
  {
    match a
    case Send(k) => InBatch(k, 0)
    case Handoff(k, _) => InBatch(k, 0)
    case Take(k, _) => InQueue(k, 0)
    case Work(k, w, _) => AtWorker(k, w)
  }

  function Behind(s: State, a: Action): Slot
    requires a.Send? || a.Handoff? || a.Take? || a.Work?
  {
    match a
    case Send(k) => InQueue(k, |s.At(k).queue|)
    case Handoff(k, w) => AtWorker(k, w)
    case Take(k, w) => AtWorker(k, w)
    case Work(k, w, _) => AtWorker(k, w)
  }

  lemma MovedJob(c: Config, s: State, a: Action, id: nat)
    requires Inv(c, s) && Enabled(c, s, a) && !a.Fetch? && ActsOn(s, a, id)
    ensures Holds(s, Before(s, a), id)
    ensures var s' := Next(c, s, a);
            if Full(s', Behind(s, a)) then Holds(s', Behind(s, a), id) && Place(s', Behind(s, a)) < Place(s, Before(s, a))
            else Place(s, Before(s, a)) > 0
  {
  }

  /** The place of a job that the step does not act on never grows. */
  lemma OtherJobsKeepPlace(c: Config, s: State, a: Action, p: Slot)
    requires Inv(c, s) && Enabled(c, s, a) && !a.Fetch? && Full(Next(c, s, a), p)
    requires !ActsOn(s, a, JobAt(Next(c, s, a), p).id)
    ensures Full(s, Origin(a, s, p)) && Place(Next(c, s, a), p) == Place(s, Origin(a, s, p))
  {
    OriginHolds(c, s, a, p);
    if a.Work? {
      OtherWorkersKeepPlace(c, s, a, p);
    } else if a.Send? || a.Handoff? || a.Take? {
      OthersPassedOnKeepPlace(c, s, a, p);
    }
  }

  lemma OtherWorkersKeepPlace(c: Config, s: State, a: Action, p: Slot)
    requires Enabled(c, s, a) && a.Work? && Full(Next(c, s, a), p)
    requires !ActsOn(s, a, JobAt(Next(c, s, a), p).id)
    ensures Full(s, p) && Place(Next(c, s, a), p) == Place(s, p)
  {
  }

  lemma OthersPassedOnKeepPlace(c: Config, s: State, a: Action, p: Slot)
    requires Enabled(c, s, a) && (a.Send? || a.Handoff? || a.Take?) && Full(Next(c, s, a), p)
    requires Full(s, Origin(a, s, p)) && JobAt(Next(c, s, a), p) == JobAt(s, Origin(a, s, p))
    requires !ActsOn(s, a, JobAt(Next(c, s, a), p).id)
    ensures Place(Next(c, s, a), p) == Place(s, Origin(a, s, p))
  {
  }

  lemma PlaceOfShrinks(c: Config, s: State, a: Action, id: nat)
    requires Inv(c, s) && Enabled(c, s, a) && !a.Fetch?
    ensures PlaceOf(Next(c, s, a), id) <= PlaceOf(s, id)
    ensures ActsOn(s, a, id) ==> PlaceOf(Next(c, s, a), id) < PlaceOf(s, id)
  {
    var s' := Next(c, s, a);
    StepKeepsInv(c, s, a);
    if ActsOn(s, a, id) {
      MovedJob(c, s, a, id);
      PlaceIsUnique(s, Before(s, a), id);
      if Full(s', Behind(s, a)) {
        PlaceIsUnique(s', Behind(s, a), id);
      } else {
        forall p | Holds(s', p, id)
          ensures false
        {
          OriginHolds(c, s, a, p);
        }
      }
    } else if p :| Holds(s', p, id) {
      OriginHolds(c, s, a, p);
      OtherJobsKeepPlace(c, s, a, p);
      PlaceIsUnique(s', p, id);
      PlaceIsUnique(s, Origin(a, s, p), id);
    }
  }

  lemma FetchKeepsPlace(c: Config, s: State, a: Action, id: nat)
    requires Inv(c, s) && Enabled(c, s, a) && a.Fetch? && id !in a.ids
    ensures PlaceOf(Next(c, s, a), id) == PlaceOf(s, id)
  {
    var s' := Next(c, s, a);
    StepKeepsInv(c, s, a);
    if p :| Holds(s', p, id) {
      FetchedOrKept(c, s, a, p);
      assert Holds(s, p, id);
      PlaceIsUnique(s', p, id);
      PlaceIsUnique(s, p, id);
    } else {
      forall p | Holds(s, p, id)
        ensures false
      {
        assert Holds(s', p, id);
      }
    }
  }

  /** With no restart in between, no step raises the rank of a job that stays in the table,
      and every step that acts on the job lowers it. */
  lemma StepLowersRank(c: Config, s: State, run: seq<Action>, a: Action, id: nat)
    requires Init(c, s) && Feasible(c, s, run) && Enabled(c, After(c, s, run), a) && !a.Start?
    requires Mine(c, After(c, s, run).table, id) && Mine(c, Next(c, After(c, s, run), a).table, id)
    ensures var r := RankOf(c, run, After(c, s, run), id);
            var r' := RankOf(c, run + [a], Next(c, After(c, s, run), a), id);
            (r' == r || Below(r', r)) && (ActsOn(After(c, s, run), a, id) ==> Below(r', r))
  {
    var s1 := After(c, s, run);
    RunKeepsInv(c, s, run);
    RunKeepsCounted(c, s, run);
    RankStep(c, s1, run, a, id);
  }

  lemma RankStep(c: Config, s: State, run: seq<Action>, a: Action, id: nat)
    requires Inv(c, s) && Counted(c, s, run) && Enabled(c, s, a) && !a.Start?
    requires Mine(c, s.table, id) && Mine(c, Next(c, s, a).table, id)
    ensures var r := RankOf(c, run, s, id);
            var r' := RankOf(c, run + [a], Next(c, s, a), id);
            (r' == r || Below(r', r)) && (ActsOn(s, a, id) ==> Below(r', r))
  {
    FetchesStep(run, a, s.table[id].stage, id);
    if a.Fetch? {
      if id !in a.ids {
        FetchKeepsPlace(c, s, a, id);
      }
    } else {
      PlaceOfShrinks(c, s, a, id);
      StepTouchesOnlyItsOwnRow(c, s, a, id);
      if a.Work? {
        assert Backed(c, s.table, a.stage, JobAt(s, AtWorker(a.stage, a.w)));
      }
    }
  }
}
