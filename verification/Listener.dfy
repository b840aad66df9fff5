/** One round of a listener (internal/service/transcoding.go:80-118, uploader.go:54-92): fetch a batch,
    number each job and pass it to the pool. */
module Listener {
  import opened Model
  import opened JobStore
  import opened WorkerPool
  import Pipeline

  function NumberedAll(jobs: seq<Job>): seq<Job> {
    seq(|jobs|, i requires 0 <= i < |jobs| => Pipeline.Numbered(jobs[i]))
  }

  /** A job is passed on with the attempt number that its row has after the fetch, and the row is Active. */
  lemma NumberedAsRow(t: Table, instance: string, stage: Stage, limit: nat, ids: seq<nat>, i: nat)
    requires IsOldestBatch(t, instance, stage, limit, ids) && i < |ids|
    ensures ids[i] in t
    ensures var row := FetchRows(t, ids)[ids[i]];
            NumberedAll(FetchedJobs(t, ids))[i] == Job(ids[i], stage, row.file, row.retry)
            && row.state == Active && row.retry == t[ids[i]].retry + 1
  {
    assert Eligible(t, instance, stage, ids[i]);
  }

  /** What the ticker finds: the table as everybody else has left it, and the answer of the database. */
  datatype Tick = Tick(rows: Table, nextId: nat, clock: nat, answer: Option<seq<nat>>)

  ghost predicate Answers(t: Tick, instance: string, stage: Stage, limit: nat) {
    && (forall id :: id in t.rows ==> id < t.nextId && t.rows[id].created < t.clock)
    && (t.answer.Some? ==> IsOldestBatch(t.rows, instance, stage, limit, t.answer.value))
  }

  function Batch(t: Tick): seq<Job> {
    match t.answer
    case Some(ids) => if forall id :: id in ids ==> id in t.rows then NumberedAll(FetchedJobs(t.rows, ids)) else []
    case None => []
  }

  function Batches(ticks: seq<Tick>): seq<Job> {
    if ticks == [] then [] else Batches(ticks[..|ticks| - 1]) + Batch(ticks[|ticks| - 1])
  }

  lemma OneMoreBatch(ticks: seq<Tick>, k: nat, before: seq<Job>)
    requires k < |ticks|
    ensures before + Batches(ticks[..k]) + Batch(ticks[k]) == before + Batches(ticks[..k + 1])
  {
    assert ticks[..k + 1][..k] == ticks[..k];
  }

  class Listener {
    const store: FileJobStore
    const pool: Pool<Job>
    const limit: nat
    const stage: Stage

    constructor (store: FileJobStore, stage: Stage, workers: nat, queue: nat)
      ensures this.store == store && this.stage == stage && limit == queue + workers
      ensures fresh(pool) && pool.Valid() && !pool.closed && pool.size == workers && pool.capacity == queue && pool.sent == []
    {
      this.store, this.stage, this.limit := store, stage, queue + workers;
      pool := new Pool(workers, queue);
    }

    /** While a send would block, other goroutines run: some worker finishes its task and goes back to the channel. */
    method AwaitSend() returns (receiver: Option<nat>)
      requires pool.Valid() && !pool.closed && pool.size > 0
      modifies pool`tasks, pool`busy, pool`received
      ensures pool.Valid()
      ensures match receiver
              case None => |pool.tasks| < pool.capacity
              case Some(w) => pool.tasks == [] && w in pool.workers && w !in pool.busy
    {
      if |pool.tasks| < pool.capacity {
        return None;
      }
      assert pool.workers != {};
      var w :| w in pool.workers;
      if w in pool.busy {
        pool.Finish(w);
      }
      if |pool.tasks| == 0 {
        return Some(w);
      }
      pool.Receive(w);
      receiver := None;
    }

    /** Every fetched job goes to the pool once, in the order of the answer; a failed fetch passes nothing on.
        With no worker the first blocked send never returns. */
    method Round(answer: Option<seq<nat>>) returns (err: bool)
      requires store.db.Valid() && pool.Valid() && !pool.closed && pool.size > 0
      requires answer.Some? ==> IsOldestBatch(store.db.rows, store.instance, stage, limit, answer.value)
      modifies store.db`rows, pool`tasks, pool`busy, pool`received, pool`sent
      ensures store.db.Valid() && pool.Valid() && err == answer.None?
      ensures err ==> store.db.rows == old(store.db.rows) && pool.sent == old(pool.sent)
      ensures !err ==> store.db.rows == FetchRows(old(store.db.rows), answer.value)
      ensures !err ==> pool.sent == old(pool.sent) + NumberedAll(FetchedJobs(old(store.db.rows), answer.value))
    {
      var jobs;
      jobs, err := store.Fetch(limit, stage, answer);
      if err {
        return;
      }
      PassOn(jobs);
    }

    method PassOn(jobs: seq<Job>)
      requires pool.Valid() && !pool.closed && pool.size > 0
      modifies pool`tasks, pool`busy, pool`received, pool`sent
      ensures pool.Valid() && pool.sent == old(pool.sent) + NumberedAll(jobs)
    {
      var i := 0;
      while i < |jobs|
        invariant 0 <= i <= |jobs|
        invariant pool.Valid() && pool.sent == old(pool.sent) + NumberedAll(jobs[..i])
      {
        var job := jobs[i];
        job := job.(retry := job.retry + 1);
        var receiver := AwaitSend();
        pool.Exec(job, receiver);
        assert NumberedAll(jobs[..i + 1]) == NumberedAll(jobs[..i]) + [job];
        i := i + 1;
      }
      assert jobs[..i] == jobs;
    }

    method OnTick(t: Tick)
      requires pool.Valid() && !pool.closed && pool.size > 0 && Answers(t, store.instance, stage, limit)
      modifies store.db, pool`tasks, pool`busy, pool`received, pool`sent
      ensures pool.Valid() && pool.sent == old(pool.sent) + Batch(t)
    {
      store.db.rows, store.db.nextId, store.db.clock := t.rows, t.nextId, t.clock;
      assert t.answer.Some? ==> forall id :: id in t.answer.value ==> Eligible(t.rows, store.instance, stage, id);
      var _ := Round(t.answer);
    }

    /** listen: one round per tick until the context is done, and then, in the deferred call, the close. Everything
        ever sent was sent before the close, and it is the batches of all rounds, numbered, in order. */
    method Listen(ticks: seq<Tick>)
      requires pool.Valid() && !pool.closed && pool.size > 0
      requires forall k :: 0 <= k < |ticks| ==> Answers(ticks[k], store.instance, stage, limit)
      modifies store.db, pool`tasks, pool`busy, pool`received, pool`sent, pool`closed
      ensures pool.Valid() && pool.closed
      ensures pool.sent == old(pool.sent) + Batches(ticks)
    {
      var k := 0;
      while k < |ticks|
        invariant 0 <= k <= |ticks| && pool.Valid() && !pool.closed
        invariant pool.sent == old(pool.sent) + Batches(ticks[..k])
      {
        OnTick(ticks[k]);
        OneMoreBatch(ticks, k, old(pool.sent));
        k := k + 1;
      }
      assert ticks[..k] == ticks;
      pool.Close();
    }
  }
}
