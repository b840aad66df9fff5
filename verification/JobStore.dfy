/** The job table and its store (internal/store/file_job.go).

    Each SQL statement is one atomic step. Its effect on the table is a function,
    which the store's methods are proved against and the protocol in `Pipeline` is built from. */
module JobStore {
  import opened Model

  /** A row of webrtc_rec.file_jobs. `created` is the insertion order behind created_at. */
  datatype Row = Row(stage: Stage, state: JobState, instance: string, file: File, retry: nat, created: nat)

  type Table = map<nat, Row>

  function InsertRow(t: Table, id: nat, stage: Stage, instance: string, f: File, created: nat): Table {
    t[id := Row(stage, Idle, instance, f, 0, created)]
  }

  function UpdateRow(t: Table, state: JobState, j: Job): Table {
    if j.id in t then t[j.id := t[j.id].(state := state, stage := j.stage, file := j.file, retry := j.retry)] else t
  }

  function ResetRows(t: Table, instance: string): Table {
    map id | id in t :: if t[id].instance == instance then t[id].(state := Idle) else t[id]
  }

  predicate Eligible(t: Table, instance: string, stage: Stage, id: nat) {
    id in t && t[id].state == Idle && t[id].instance == instance && t[id].stage == stage
  }

  /** What the inner select may answer: at most `limit` eligible rows, none of them repeated,
      no eligible row left out unless the limit is reached, and none left out that is older than
      one taken. The order of the answer is not fixed by the statement. */
  ghost predicate IsOldestBatch(t: Table, instance: string, stage: Stage, limit: nat, ids: seq<nat>) {
    && |ids| <= limit
    && (forall i, j :: 0 <= i < j < |ids| ==> ids[i] != ids[j])
    && (forall id :: id in ids ==> Eligible(t, instance, stage, id))
    && (forall id :: Eligible(t, instance, stage, id) && id !in ids ==>
          && |ids| == limit
          && forall taken :: taken in ids ==> t[taken].created <= t[id].created)
  }

  function FetchRows(t: Table, ids: seq<nat>): Table {
    map id | id in t :: if id in ids then t[id].(state := Active, retry := t[id].retry + 1) else t[id]
  }

  /** `returning x.*` reads the subselect, so `retry` is the value before the update. */
  function FetchedJobs(t: Table, ids: seq<nat>): (jobs: seq<Job>)
    requires forall id :: id in ids ==> id in t
    ensures |jobs| == |ids|
    ensures forall i :: 0 <= i < |ids| ==> jobs[i] == Job(ids[i], t[ids[i]].stage, t[ids[i]].file, t[ids[i]].retry)
  {
    seq(|ids|, i requires 0 <= i < |ids| => Job(ids[i], t[ids[i]].stage, t[ids[i]].file, t[ids[i]].retry))
  }

  function SetErrorRow(t: Table, id: nat): Table {
    if id in t then t[id := t[id].(state := Idle)] else t
  }

  function DeleteRow(t: Table, id: nat): Table {
    t - {id}
  }

  /** The shared database: several instances keep rows in the same table. */
  class Database {
    var rows: Table
    var nextId: nat
    var clock: nat

    constructor ()
      ensures rows == map[] && nextId == 0 && clock == 0
    {
      rows, nextId, clock := map[], 0, 0;
    }

    ghost predicate Valid()
      reads this
    {
      forall id :: id in rows ==> id < nextId && rows[id].created < clock
    }
  }

  /** The store of one instance. Each method takes the database's answer: `ok == false` (or `None`)
      is a statement that failed, which leaves the table alone and is reported to the caller. */
  class FileJobStore {
    const db: Database
    const instance: string

    /** NewFileJobStore: a failed Reset is only logged. */
    constructor (db: Database, instance: string, ok: bool)
      requires db.Valid()
      modifies db
      ensures this.db == db && this.instance == instance
      ensures db.Valid() && db.nextId == old(db.nextId) && db.clock == old(db.clock)
      ensures db.rows.Keys == old(db.rows).Keys
      ensures forall id :: id in db.rows ==>
                db.rows[id] == old(db.rows)[id].(state := if ok && old(db.rows)[id].instance == instance then Idle
                                                          else old(db.rows)[id].state)
    {
      this.db := db;
      this.instance := instance;
      new;
      var _ := Reset(ok);
    }

    method Create(stage: Stage, f: File, ok: bool) returns (err: bool)
      requires db.Valid()
      modifies db
      ensures db.Valid() && err == !ok
      ensures ok ==> && db.rows.Keys == old(db.rows).Keys + {old(db.nextId)} && old(db.nextId) !in old(db.rows)
                     && db.rows[old(db.nextId)] == Row(stage, Idle, instance, f, 0, old(db.clock))
                     && forall id :: id in old(db.rows) ==> db.rows[id] == old(db.rows)[id] && db.rows[id].created < old(db.clock)
      ensures ok ==> && db.rows == InsertRow(old(db.rows), old(db.nextId), stage, instance, f, old(db.clock))
                     && db.nextId == old(db.nextId) + 1 && db.clock == old(db.clock) + 1
      ensures !ok ==> db.rows == old(db.rows) && db.nextId == old(db.nextId) && db.clock == old(db.clock)
    {
      if ok {
        db.rows := db.rows[db.nextId := Row(stage, Idle, instance, f, 0, db.clock)];
        db.nextId, db.clock := db.nextId + 1, db.clock + 1;
      }
      err := !ok;
    }

    method Update(state: JobState, j: Job, ok: bool) returns (err: bool)
      requires db.Valid()
      modifies db`rows
      ensures db.Valid() && err == !ok && db.rows.Keys == old(db.rows).Keys
      ensures ok && j.id in db.rows ==>
                var row := old(db.rows)[j.id];
                db.rows[j.id] == Row(j.stage, state, row.instance, j.file, j.retry, row.created)
      ensures forall id :: id in db.rows && !(ok && id == j.id) ==> db.rows[id] == old(db.rows)[id]
      ensures db.rows == if ok then UpdateRow(old(db.rows), state, j) else old(db.rows)
    {
      if ok && j.id in db.rows {
        var row := db.rows[j.id];
        db.rows := db.rows[j.id := Row(j.stage, state, row.instance, j.file, j.retry, row.created)];
      }
      err := !ok;
    }

    method Reset(ok: bool) returns (err: bool)
      requires db.Valid()
      modifies db`rows
      ensures db.Valid() && err == !ok && db.rows.Keys == old(db.rows).Keys
      ensures forall id :: id in db.rows && ok && db.rows[id].instance == instance ==>
                Eligible(db.rows, instance, db.rows[id].stage, id)
                && db.rows[id].(state := old(db.rows)[id].state) == old(db.rows)[id]
      ensures forall id :: id in db.rows && !(ok && db.rows[id].instance == instance) ==> db.rows[id] == old(db.rows)[id]
      ensures ok ==> db.rows == ResetRows(old(db.rows), instance)
    {
      if ok {
        db.rows := map id | id in db.rows ::
          var row := db.rows[id];
          Row(row.stage, if row.instance == instance then Idle else row.state, row.instance, row.file, row.retry, row.created);
      }
      err := !ok;
    }

    /** For whichever oldest batch the database answers, exactly its rows are taken and numbered up;
        the jobs still carry the attempt numbers from before. */
    method Fetch(limit: nat, stage: Stage, answer: Option<seq<nat>>) returns (jobs: seq<Job>, err: bool)
      requires db.Valid()
      requires answer.Some? ==> IsOldestBatch(db.rows, instance, stage, limit, answer.value)
      modifies db`rows
      ensures db.Valid() && err == answer.None?
      ensures answer.None? ==> jobs == [] && db.rows == old(db.rows)
      ensures db.rows.Keys == old(db.rows).Keys
      ensures answer.Some? ==> |jobs| == |answer.value| && forall i :: 0 <= i < |jobs| ==>
                var id := answer.value[i];
                && id in db.rows && Eligible(old(db.rows), instance, stage, id)
                && jobs[i] == Job(id, stage, old(db.rows)[id].file, old(db.rows)[id].retry)
                && db.rows[id] == old(db.rows)[id].(state := Active, retry := old(db.rows)[id].retry + 1)
      ensures answer.Some? ==> forall id :: id in db.rows && id !in answer.value ==> db.rows[id] == old(db.rows)[id]
      ensures answer.Some? ==> && jobs == FetchedJobs(old(db.rows), answer.value)
                               && db.rows == FetchRows(old(db.rows), answer.value)
    {
      jobs, err := [], answer.None?;
      if answer.Some? {
        var ids, rows := answer.value, db.rows;
        assert forall i :: 0 <= i < |ids| ==> Eligible(rows, instance, stage, ids[i]);
        jobs := seq(|ids|, i requires 0 <= i < |ids| && ids[i] in rows =>
          var row := rows[ids[i]];
          Job(ids[i], row.stage, row.file, row.retry));
        db.rows := map id | id in rows ::
          var row := rows[id];
          if id in ids then Row(row.stage, Active, row.instance, row.file, row.retry + 1, row.created) else row;
      }
    }

    method SetError(id: nat, ok: bool) returns (err: bool)
      requires db.Valid()
      modifies db`rows
      ensures db.Valid() && err == !ok && db.rows.Keys == old(db.rows).Keys
      ensures forall k :: k in db.rows ==>
                var row := old(db.rows)[k];
                db.rows[k] == Row(row.stage, if ok && k == id then Idle else row.state, row.instance, row.file,
                                  row.retry, row.created)
      ensures db.rows == if ok then SetErrorRow(old(db.rows), id) else old(db.rows)
    {
      if ok && id in db.rows {
        db.rows := db.rows[id := db.rows[id].(state := Idle)];
      }
      err := !ok;
    }

    method Delete(id: nat, ok: bool) returns (err: bool)
      requires db.Valid()
      modifies db`rows
      ensures db.Valid() && err == !ok
      ensures forall k :: k in db.rows <==> k in old(db.rows) && !(ok && k == id)
      ensures forall k :: k in db.rows ==> db.rows[k] == old(db.rows)[k]
      ensures db.rows == if ok then DeleteRow(old(db.rows), id) else old(db.rows)
    {
      if ok {
        db.rows := map k | k in db.rows && k != id :: db.rows[k];
      }
      err := !ok;
    }
  }
}
