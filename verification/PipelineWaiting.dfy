/** Bounded waiting: an Idle row is passed over only as often as older rows have fetches left. */
module PipelineWaiting {
  import opened Arithmetic
  import opened Model
  import opened JobStore
  import opened Pipeline
  import opened PipelineSafety
  import opened PipelineAttempts

  /** The rows of this instance created before `cut`. */
  function OlderRows(c: Config, t: Table, cut: nat): set<nat> {
    set id | id in t && Mine(c, t, id) && t[id].created < cut
  }

  /** Fetch rounds of one listener. */
  function Rounds(run: seq<Action>, stage: Stage): nat {
    if run == [] then 0
    else Rounds(run[..|run| - 1], stage) + (if run[|run| - 1].Fetch? && run[|run| - 1].stage == stage then 1 else 0)
  }

  predicate IsReset(a: Action) { a.Start? && a.ok }

  function Resets(run: seq<Action>): nat {
    if run == [] then 0 else Resets(run[..|run| - 1]) + (if IsReset(run[|run| - 1]) then 1 else 0)
  }

  /** How often a row can still be fetched in its stage when nothing resets it: an Idle row once at least,
      however many attempts it has behind it, an Active one only if its failure leaves it in the table. */
  function FetchesLeft(k: ListenerConfig, row: Row): nat {
    Max(if row.state.Idle? then 1 else 0, k.Attempts() - row.retry)
  }

  /** How many more times the row can be taken in `stage` ahead of one created at `cut`.
      A transcoding row still has all its upload attempts before it. */
  function Left(c: Config, t: Table, stage: Stage, cut: nat, id: nat): nat {
    if id !in OlderRows(c, t, cut) then 0
    else if t[id].stage == stage then FetchesLeft(c.Of(stage), t[id])
    else if stage == Upload then c.upload.Attempts()
    else 0
  }

  function LeftOf(c: Config, t: Table, stage: Stage, cut: nat): nat -> nat {
    id => Left(c, t, stage, cut, id)
  }

  function Sum(n: nat, f: nat -> nat): nat {
    if n == 0 then 0 else Sum(n - 1, f) + f(n - 1)
  }

  /** The fetches left to all rows with ids below n. */
  function Total(c: Config, t: Table, stage: Stage, cut: nat, n: nat): nat {
    Sum(n, LeftOf(c, t, stage, cut))
  }

  lemma {:induction false} SumAtMost(n: nat, f: nat -> nat, support: set<nat>, most: nat)
    requires forall id: nat :: id < n ==> f(id) <= if id in support then most else 0
    ensures Sum(n, f) <= |support| * most
  {
    if n > 0 {
      if n - 1 in support {
        SumAtMost(n - 1, f, support - {n - 1}, most);
        assert |support - {n - 1}| == |support| - 1;
        Products(|support| - 1, 1, most);
      } else {
        SumAtMost(n - 1, f, support, most);
      }
    }
  }

  lemma {:induction false} SumDrops(n: nat, f: nat -> nat, g: nat -> nat, taken: set<nat>)
    requires forall id: nat :: id < n ==> g(id) + (if id in taken then 1 else 0) <= f(id)
    requires forall id :: id in taken ==> id < n
    ensures Sum(n, g) + |taken| <= Sum(n, f)
  {
    if n == 0 {
      assert taken == {};
    } else {
      var rest := taken - {n - 1};
      SumDrops(n - 1, f, g, rest);
      assert |taken| == |rest| + if n - 1 in taken then 1 else 0;
    }
  }

  lemma {:induction false} SumRises(n: nat, f: nat -> nat, g: nat -> nat, raised: set<nat>)
    requires forall id: nat :: id < n ==> g(id) <= f(id) + if id in raised then 1 else 0
    ensures Sum(n, g) <= Sum(n, f) + |raised|
  {
    if n > 0 {
      if n - 1 in raised {
        SumRises(n - 1, f, g, raised - {n - 1});
        assert |raised - {n - 1}| == |raised| - 1;
      } else {
        SumRises(n - 1, f, g, raised);
      }
    }
  }

  lemma {:induction false} DistinctMembers(ids: seq<nat>)
    requires forall i, j :: 0 <= i < j < |ids| ==> ids[i] != ids[j]
    ensures |Members(ids)| == |ids|
  {
    if ids == [] {
      assert Members(ids) == {};
    } else {
      var init := ids[..|ids| - 1];
      DistinctMembers(init);
      assert ids == init + [ids[|ids| - 1]];
      assert Members(ids) == Members(init) + {ids[|ids| - 1]};
    }
  }

  /** A waiting row stays eligible as long as it is not fetched. */
  lemma StaysEligible(c: Config, s: State, a: Action, stage: Stage, id: nat)
    requires Inv(c, s) && Enabled(c, s, a)
    requires Eligible(s.table, c.instance, stage, id) && !Fetched(a, stage, id)
    ensures var s' := Next(c, s, a);
            Eligible(s'.table, c.instance, stage, id) && s'.table[id].created == s.table[id].created
  {
    if !a.Fetch? && !a.Start? {
      StepTouchesOnlyItsOwnRow(c, s, a, id);
      if a.Work? {
        assert Backed(c, s.table, a.stage, JobAt(s, AtWorker(a.stage, a.w)));
      }
    }
  }

  /** No step but a reset gives an older row a fetch back. */
  lemma LeftNeverGrows(c: Config, s: State, a: Action, stage: Stage, cut: nat, id: nat)
    requires Inv(c, s) && Enabled(c, s, a) && cut <= s.clock && !IsReset(a)
    ensures Left(c, Next(c, s, a).table, stage, cut, id) <= Left(c, s.table, stage, cut, id)
  {
    var s' := Next(c, s, a);
    if id in OlderRows(c, s'.table, cut) && id in s.table && a.Work? {
      assert Backed(c, s.table, a.stage, JobAt(s, AtWorker(a.stage, a.w)));
    }
  }

  /** A reset gives each older row one fetch back at most. */
  lemma ResetGivesOne(c: Config, s: State, a: Action, stage: Stage, cut: nat, id: nat)
    requires Enabled(c, s, a) && IsReset(a)
    ensures var t' := Next(c, s, a).table;
            Left(c, t', stage, cut, id) <= Left(c, s.table, stage, cut, id) + if id in OlderRows(c, s.table, cut) then 1 else 0
  {
  }

  lemma OlderRowsStayOlder(c: Config, s: State, a: Action, cut: nat)
    requires Inv(c, s) && Enabled(c, s, a) && cut <= s.clock
    ensures OlderRows(c, Next(c, s, a).table, cut) <= OlderRows(c, s.table, cut)
  {
  }

  /** A round that passes over the waiting row takes `limit` older rows, one fetch of each. */
  lemma RoundTakesOlder(c: Config, s: State, a: Action, stage: Stage, id: nat, n: nat)
    requires Inv(c, s) && Enabled(c, s, a)
    requires Eligible(s.table, c.instance, stage, id)
    requires a.Fetch? && a.stage == stage && id !in a.ids
    requires forall j :: j in OlderRows(c, s.table, s.table[id].created) ==> j < n
    ensures Total(c, Next(c, s, a).table, stage, s.table[id].created, n) + c.Of(stage).Limit()
            <= Total(c, s.table, stage, s.table[id].created, n)
  {
    var s' := Next(c, s, a);
    var cut := s.table[id].created;
    DistinctMembers(a.ids);
    forall j | j in Members(a.ids)
      ensures j < n && Left(c, s'.table, stage, cut, j) < Left(c, s.table, stage, cut, j)
    {
      assert Eligible(s.table, c.instance, stage, j);
      assert j in OlderRows(c, s.table, cut);
    }
    forall j: nat | j < n
      ensures Left(c, s'.table, stage, cut, j) <= Left(c, s.table, stage, cut, j)
    {
      LeftNeverGrows(c, s, a, stage, cut, j);
    }
    SumDrops(n, LeftOf(c, s.table, stage, cut), LeftOf(c, s'.table, stage, cut), Members(a.ids));
  }

  /** Row `id`, created at `cut`, waits, and the rows before it are among `older`. */
  ghost predicate Waits(c: Config, t: Table, stage: Stage, id: nat, cut: nat, older: set<nat>) {
    Eligible(t, c.instance, stage, id) && t[id].created == cut && OlderRows(c, t, cut) <= older
  }

  /** What a run takes in rounds of `limit`, and what its resets give back, `k` each. */
  function Spent(run: seq<Action>, stage: Stage, limit: nat): nat {
    if run == [] then 0 else Spent(run[..|run| - 1], stage, limit) + SpentBy(run[|run| - 1], stage, limit)
  }

  function SpentBy(a: Action, stage: Stage, limit: nat): nat {
    if a.Fetch? && a.stage == stage then limit else 0
  }

  function Given(run: seq<Action>, k: nat): nat {
    if run == [] then 0 else Given(run[..|run| - 1], k) + GivenBy(run[|run| - 1], k)
  }

  function GivenBy(a: Action, k: nat): nat {
    if IsReset(a) then k else 0
  }

  lemma {:induction false} AsProducts(run: seq<Action>, stage: Stage, limit: nat, k: nat)
    ensures Spent(run, stage, limit) == Rounds(run, stage) * limit && Given(run, k) == Resets(run) * k
  {
    if run != [] {
      var front := run[..|run| - 1];
      AsProducts(front, stage, limit, k);
      Products(Rounds(front, stage), 1, limit);
      Products(Resets(front), 1, k);
    }
  }

  /** Any other step spends none, and gives none back unless it is a reset. */
  lemma OtherStepKeepsTotal(c: Config, s: State, a: Action, stage: Stage, cut: nat, n: nat, older: set<nat>)
    requires Inv(c, s) && Enabled(c, s, a) && cut <= s.clock && OlderRows(c, s.table, cut) <= older
    ensures Total(c, Next(c, s, a).table, stage, cut, n)
            <= Total(c, s.table, stage, cut, n) + GivenBy(a, |older|)
  {
    var raised := if IsReset(a) then older else {};
    forall j: nat | j < n
      ensures Left(c, Next(c, s, a).table, stage, cut, j) <= Left(c, s.table, stage, cut, j) + if j in raised then 1 else 0
    {
      if IsReset(a) {
        ResetGivesOne(c, s, a, stage, cut, j);
      } else {
        LeftNeverGrows(c, s, a, stage, cut, j);
      }
    }
    SumRises(n, LeftOf(c, s.table, stage, cut), LeftOf(c, Next(c, s, a).table, stage, cut), raised);
  }

  lemma StepSpendsTotal(c: Config, s: State, a: Action, stage: Stage, id: nat, cut: nat, n: nat, older: set<nat>)
    requires Inv(c, s) && Enabled(c, s, a) && forall j :: j in older ==> j < n
    requires Waits(c, s.table, stage, id, cut, older) && !Fetched(a, stage, id)
    ensures Waits(c, Next(c, s, a).table, stage, id, cut, older)
    ensures Total(c, Next(c, s, a).table, stage, cut, n) + SpentBy(a, stage, c.Of(stage).Limit())
            <= Total(c, s.table, stage, cut, n) + GivenBy(a, |older|)
  {
    StaysEligible(c, s, a, stage, id);
    OlderRowsStayOlder(c, s, a, cut);
    if a.Fetch? && a.stage == stage {
      RoundTakesOlder(c, s, a, stage, id, n);
    } else {
      OtherStepKeepsTotal(c, s, a, stage, cut, n, older);
    }
  }

  lemma {:induction false} WaitingSpendsTotal(c: Config, s: State, pre: seq<Action>, win: seq<Action>, stage: Stage,
                                              id: nat, cut: nat, n: nat, older: set<nat>)
    requires Init(c, s) && Feasible(c, s, pre) && Feasible(c, s, pre + win) && forall j :: j in older ==> j < n
    requires Waits(c, After(c, s, pre).table, stage, id, cut, older)
    requires forall i :: 0 <= i < |win| ==> !Fetched(win[i], stage, id)
    ensures Waits(c, After(c, s, pre + win).table, stage, id, cut, older)
    ensures Total(c, After(c, s, pre + win).table, stage, cut, n) + Spent(win, stage, c.Of(stage).Limit())
            <= Total(c, After(c, s, pre).table, stage, cut, n) + Given(win, |older|)
    decreases |win|
  {
    if win == [] {
      assert pre + win == pre;
    } else {
      var a := win[|win| - 1];
      var win' := win[..|win| - 1];
      var mid := pre + win';
      assert (pre + win)[..|pre + win| - 1] == mid;
      RunKeepsInv(c, s, mid);
      WaitingSpendsTotal(c, s, pre, win', stage, id, cut, n, older);
      StepSpendsTotal(c, After(c, s, mid), a, stage, id, cut, n, older);
    }
  }

  lemma WaitsFromHere(c: Config, s: State, stage: Stage, id: nat)
    requires Inv(c, s) && Eligible(s.table, c.instance, stage, id)
    ensures var older := OlderRows(c, s.table, s.table[id].created);
            Waits(c, s.table, stage, id, s.table[id].created, older) && forall j :: j in older ==> j < s.nextId
  {
  }

  lemma SpendsFromHere(c: Config, s: State, pre: seq<Action>, win: seq<Action>, stage: Stage, id: nat)
    requires Init(c, s) && Feasible(c, s, pre) && Feasible(c, s, pre + win)
    requires Eligible(After(c, s, pre).table, c.instance, stage, id)
    requires forall i :: 0 <= i < |win| ==> !Fetched(win[i], stage, id)
    ensures var s1 := After(c, s, pre);
            var cut := s1.table[id].created;
            Spent(win, stage, c.Of(stage).Limit())
            <= Total(c, s1.table, stage, cut, s1.nextId) + Given(win, |OlderRows(c, s1.table, cut)|)
  {
    var s1 := After(c, s, pre);
    var cut := s1.table[id].created;
    RunKeepsInv(c, s, pre);
    WaitsFromHere(c, s1, stage, id);
    WaitingSpendsTotal(c, s, pre, win, stage, id, cut, s1.nextId, OlderRows(c, s1.table, cut));
  }

  /** From any moment at which row `id` waits, as long as it is not fetched: the rounds of its listener that pass it
      over, times the batch limit, are at most the fetches that the older rows have left at that moment,
      and one more for each of them for every reset since. */
  lemma WaitingSpendsFetchesLeft(c: Config, s: State, pre: seq<Action>, win: seq<Action>, stage: Stage, id: nat, limit: nat)
    requires limit == c.Of(stage).queue + c.Of(stage).workers
    requires Init(c, s) && Feasible(c, s, pre) && Feasible(c, s, pre + win)
    requires Eligible(After(c, s, pre).table, c.instance, stage, id)
    requires forall i :: 0 <= i < |win| ==> !Fetched(win[i], stage, id)
    ensures var s1 := After(c, s, pre);
            var cut := s1.table[id].created;
            Rounds(win, stage) * limit
            <= Total(c, s1.table, stage, cut, s1.nextId) + Resets(win) * |OlderRows(c, s1.table, cut)|
  {
    var s1 := After(c, s, pre);
    var cut := s1.table[id].created;
    SpendsFromHere(c, s, pre, win, stage, id);
    InRounds(win, stage, limit, Total(c, s1.table, stage, cut, s1.nextId), |OlderRows(c, s1.table, cut)|);
  }

  lemma InRounds(win: seq<Action>, stage: Stage, limit: nat, total: nat, k: nat)
    requires Spent(win, stage, limit) <= total + Given(win, k)
    ensures Rounds(win, stage) * limit <= total + Resets(win) * k
  {
    AsProducts(win, stage, limit, k);
  }

  lemma TotalAtMost(c: Config, t: Table, stage: Stage, cut: nat, n: nat)
    ensures Total(c, t, stage, cut, n) <= |OlderRows(c, t, cut)| * Max(1, c.Of(stage).maxRetry)
  {
    SumAtMost(n, LeftOf(c, t, stage, cut), OlderRows(c, t, cut), Max(1, c.Of(stage).maxRetry));
  }

  lemma AtMostPerRow(win: seq<Action>, stage: Stage, limit: nat, total: nat, k: nat, most: nat)
    requires Spent(win, stage, limit) <= total + Given(win, k) && total <= k * most
    ensures Rounds(win, stage) * limit <= k * (most + Resets(win))
  {
    AsProducts(win, stage, limit, k);
    assert k * (most + Resets(win)) == k * most + Resets(win) * k;
  }

  lemma AtMostOlder(c: Config, t: Table, stage: Stage, cut: nat, n: nat, win: seq<Action>, limit: nat)
    requires limit == c.Of(stage).Limit()
    requires Spent(win, stage, c.Of(stage).Limit()) <= Total(c, t, stage, cut, n) + Given(win, |OlderRows(c, t, cut)|)
    ensures Rounds(win, stage) * limit <= |OlderRows(c, t, cut)| * (Max(1, c.Of(stage).maxRetry) + Resets(win))
  {
    TotalAtMost(c, t, stage, cut, n);
    AtMostPerRow(win, stage, limit, Total(c, t, stage, cut, n), |OlderRows(c, t, cut)|, Max(1, c.Of(stage).maxRetry));
  }

  /** Hence at most the older rows times max(1, MaxRetry) and the resets since, however many went before. */
  lemma BoundedWaiting(c: Config, s: State, pre: seq<Action>, win: seq<Action>, stage: Stage, id: nat, limit: nat)
    requires limit == c.Of(stage).queue + c.Of(stage).workers
    requires Init(c, s) && Feasible(c, s, pre) && Feasible(c, s, pre + win)
    requires Eligible(After(c, s, pre).table, c.instance, stage, id)
    requires forall i :: 0 <= i < |win| ==> !Fetched(win[i], stage, id)
    ensures var t := After(c, s, pre).table;
            Rounds(win, stage) * limit
            <= |OlderRows(c, t, t[id].created)| * (Max(1, c.Of(stage).maxRetry) + Resets(win))
  {
    var s1 := After(c, s, pre);
    var cut := s1.table[id].created;
    SpendsFromHere(c, s, pre, win, stage, id);
    AtMostOlder(c, s1.table, stage, cut, s1.nextId, win, limit);
  }
}
