/** The session object and its store as the code runs them (internal/service/media.go, webrtc.go,
    internal/store/session.go). `Session` interleaves these pieces; here each runs alone. */
module MediaSession {
  import opened Model
  import opened JobStore
  import opened TempFiles
  import Pipeline

  predicate Distinct(ids: seq<nat>) {
    forall i, j :: 0 <= i < j < |ids| ==> ids[i] != ids[j]
  }

  /** The bounded LRU of sessions, most recently used first. */
  class SessionStore {
    var recent: seq<nat>
    const capacity: nat

    ghost predicate Valid()
      reads this
    {
      && |recent| <= capacity
      && Distinct(recent)
    }

    constructor (capacity: nat)
      requires capacity > 0
      ensures Valid() && recent == [] && this.capacity == capacity
    {
      recent, this.capacity := [], capacity;
    }

    method Get(id: nat) returns (found: bool)
      requires Valid()
      modifies this`recent
      ensures Valid() && found == (id in old(recent))
      ensures recent == if found then [id] + Without(old(recent), id) else old(recent)
      ensures forall k :: 0 <= k < |old(recent)| && old(recent)[k] == id ==>
                recent == [id] + old(recent)[..k] + old(recent)[k + 1..]
      ensures Members(recent) == old(Members(recent))
    {
      found := id in recent;
      if found {
        BecomesFirst(recent, id);
        recent := [id] + Without(recent, id);
      }
    }

    /** Evicts the least recently used session when the store is full and the id is new. */
    method Add(id: nat) returns (evicted: Option<nat>)
      requires Valid() && capacity > 0
      modifies this`recent
      ensures Valid() && recent != [] && recent[0] == id
      ensures id !in old(recent) ==>
                recent == [id] + if |old(recent)| == capacity then old(recent)[..capacity - 1] else old(recent)
      ensures forall k :: 0 <= k < |old(recent)| && old(recent)[k] == id ==>
                recent == [id] + old(recent)[..k] + old(recent)[k + 1..]
      ensures evicted == if id !in old(recent) && |old(recent)| == capacity then Some(old(recent)[capacity - 1]) else None
      ensures Members(recent) == (old(Members(recent)) - (if evicted.Some? then {evicted.value} else {})) + {id}
    {
      evicted := None;
      if id in recent {
        BecomesFirst(recent, id);
        recent := [id] + Without(recent, id);
      } else if |recent| == capacity {
        evicted := Some(recent[capacity - 1]);
        DropsLast(recent);
        ComesFirst(recent[..capacity - 1], id);
        recent := [id] + recent[..capacity - 1];
      } else {
        ComesFirst(recent, id);
        recent := [id] + recent;
      }
    }

    method Remove(id: nat) returns (found: bool)
      requires Valid()
      modifies this`recent
      ensures Valid() && found == (id in old(recent))
      ensures recent == Without(old(recent), id) && Members(recent) == old(Members(recent)) - {id}
      ensures forall k :: 0 <= k < |old(recent)| && old(recent)[k] == id ==>
                recent == old(recent)[..k] + old(recent)[k + 1..]
    {
      WithoutFacts(recent, id);
      WithoutAt(recent, id);
      found := id in recent;
      recent := Without(recent, id);
    }
  }

  function Without(ids: seq<nat>, id: nat): seq<nat> {
    if ids == [] then [] else if ids[0] == id then Without(ids[1..], id) else [ids[0]] + Without(ids[1..], id)
  }

  lemma {:induction false} WithoutFacts(ids: seq<nat>, id: nat)
    requires Distinct(ids)
    ensures Members(Without(ids, id)) == Members(ids) - {id}
    ensures |Without(ids, id)| == |ids| - (if id in ids then 1 else 0)
    ensures Distinct(Without(ids, id))
  {
    if ids != [] {
      WithoutFacts(ids[1..], id);
      assert ids == [ids[0]] + ids[1..];
      MembersOfSum([ids[0]], ids[1..]);
      MembersOfSum([ids[0]], Without(ids[1..], id));
      assert ids[0] !in Members(ids[1..]);
      assert forall x :: x in Without(ids[1..], id) ==> x in Members(Without(ids[1..], id));
    }
  }

  lemma ComesFirst(ids: seq<nat>, id: nat)
    requires Distinct(ids) && id !in ids
    ensures Distinct([id] + ids) && Members([id] + ids) == Members(ids) + {id}
  {
    MembersOfSum([id], ids);
  }

  lemma BecomesFirst(ids: seq<nat>, id: nat)
    requires Distinct(ids) && id in ids
    ensures var recent := [id] + Without(ids, id);
            && Distinct(recent) && |recent| == |ids| && Members(recent) == Members(ids)
            && forall k :: 0 <= k < |ids| && ids[k] == id ==> recent == [id] + ids[..k] + ids[k + 1..]
  {
    WithoutFacts(ids, id);
    WithoutAt(ids, id);
    assert id !in Without(ids, id) by {
      assert id !in Members(Without(ids, id));
    }
    ComesFirst(Without(ids, id), id);
    forall k | 0 <= k < |ids| && ids[k] == id
      ensures [id] + Without(ids, id) == [id] + ids[..k] + ids[k + 1..]
    {
      assert [id] + (ids[..k] + ids[k + 1..]) == [id] + ids[..k] + ids[k + 1..];
    }
  }

  lemma DropsLast(ids: seq<nat>)
    requires ids != [] && Distinct(ids)
    ensures Members(ids[..|ids| - 1]) == Members(ids) - {ids[|ids| - 1]}
  {
    assert ids == ids[..|ids| - 1] + [ids[|ids| - 1]];
    MembersOfSum(ids[..|ids| - 1], [ids[|ids| - 1]]);
  }

  /** Leaving one id out keeps the others in their order. */
  lemma {:induction false} WithoutKeepsOrder(before: seq<nat>, id: nat, after: seq<nat>)
    requires id !in before && id !in after
    ensures Without(before + [id] + after, id) == before + after
    ensures Without(before + after, id) == before + after
  {
    if before == [] {
      assert [] + [id] + after == [id] + after && ([id] + after)[1..] == after && [] + after == after;
      WithoutAbsent(after, id);
    } else {
      WithoutKeepsOrder(before[1..], id, after);
      assert (before + [id] + after)[1..] == before[1..] + [id] + after && (before + after)[1..] == before[1..] + after;
    }
  }

  lemma WithoutAt(ids: seq<nat>, id: nat)
    requires Distinct(ids)
    ensures forall k :: 0 <= k < |ids| && ids[k] == id ==> Without(ids, id) == ids[..k] + ids[k + 1..]
  {
    forall k | 0 <= k < |ids| && ids[k] == id
      ensures Without(ids, id) == ids[..k] + ids[k + 1..]
    {
      WithoutKeepsOrder(ids[..k], id, ids[k + 1..]);
      assert ids == ids[..k] + [id] + ids[k + 1..];
    }
  }

  lemma {:induction false} WithoutAbsent(ids: seq<nat>, id: nat)
    requires id !in ids
    ensures Without(ids, id) == ids
  {
    if ids != [] {
      WithoutAbsent(ids[1..], id);
    }
  }

  lemma MembersOfSum(a: seq<nat>, b: seq<nat>)
    ensures Members(a + b) == Members(a) + Members(b)
  {
  }

  class RtcUploadMediaSession {
    const id: nat
    var fileConfig: File
    var countTrack: int
    var cancelled: bool
    const sessions: SessionStore
    const jobs: FileJobStore
    const temp: TempFileService

    constructor (id: nat, file: File, sessions: SessionStore, jobs: FileJobStore, temp: TempFileService)
      ensures this.id == id && fileConfig == file && countTrack == 0 && !cancelled
      ensures this.sessions == sessions && this.jobs == jobs && this.temp == temp
    {
      this.id, fileConfig, countTrack, cancelled := id, file, 0, false;
      this.sessions, this.jobs, this.temp := sessions, jobs, temp;
    }

    /** onTrack up to the recording loop: the track record is a copy of the session's file, which must have no
        path of its own yet; a failed open returns before the track is listed or counted. */
    method BeginTrack(mimeType: string, name: Path, ok: bool, now: int) returns (started: bool)
      requires name != "" && name !in temp.drawn
      modifies this`fileConfig, this`countTrack, temp
      ensures started == (ok && old(fileConfig).path == "")
      ensures started ==> && fileConfig.track == old(fileConfig).track + [MediaChannel(name, mimeType)]
                          && fileConfig.startTime == (if old(fileConfig).startTime != 0 then old(fileConfig).startTime else now)
                          && fileConfig.path == "" && fileConfig.mimeType == old(fileConfig).mimeType
                          && fileConfig.endTime == old(fileConfig).endTime
      ensures started ==> && fileConfig == Pipeline.WithTrack(old(fileConfig), name, mimeType, now)
                          && countTrack == old(countTrack) + 1 && temp.disk == old(temp.disk) + {name}
      ensures !started ==> fileConfig == old(fileConfig) && countTrack == old(countTrack) && temp.disk == old(temp.disk)
    {
      var t, err := temp.NewWriter(fileConfig, name, ok);
      if err {
        return false;
      }
      fileConfig := fileConfig.(track := fileConfig.track + [MediaChannel(t.path, mimeType)]);
      if fileConfig.startTime == 0 {
        fileConfig := fileConfig.(startTime := now);
      }
      countTrack := countTrack + 1;
      started := true;
    }

    /** The deferred end of onTrack: only the last counted track closes the session. */
    method EndTrack(now: int, ok: bool, stuck: set<Path>)
      requires jobs.db.Valid() && sessions.Valid()
      modifies this`fileConfig, this`countTrack, this`cancelled, sessions`recent, jobs.db, temp`disk
      ensures jobs.db.Valid() && sessions.Valid() && countTrack == old(countTrack) - 1
      ensures Closes(old(countTrack) == 1, old(fileConfig), old(sessions.recent), old(jobs.db.rows), old(jobs.db.nextId),
                     old(jobs.db.clock), old(temp.disk), now, ok, stuck)
    {
      countTrack := countTrack - 1;
      Close(now, ok, stuck);
    }

    /** The whole outcome of `close`. `idle` is the counter being zero when it is loaded. */
    ghost predicate Closes(idle: bool, f: File, recent: seq<nat>, rows: Table, nextId: nat, clock: nat, disk: set<Path>,
                           now: int, ok: bool, stuck: set<Path>)
      reads this, sessions, jobs.db, temp
    {
      && (!idle ==> fileConfig == f && sessions.recent == recent && jobs.db.rows == rows && temp.disk == disk)
      && (idle ==> cancelled && sessions.recent == Without(recent, id))
      && (idle && id !in recent ==> fileConfig == f && jobs.db.rows == rows && temp.disk == disk)
      && (idle && id in recent ==>
            && fileConfig == Pipeline.Stamped(f, now)
            && jobs.db.rows == (if ok then InsertRow(rows, nextId, Transcoding, jobs.instance, fileConfig, clock) else rows)
            && temp.disk == (if ok then disk else RemoveFile(disk, fileConfig, stuck)))
    }

    method Close(now: int, ok: bool, stuck: set<Path>)
      requires jobs.db.Valid() && sessions.Valid()
      modifies this`fileConfig, this`cancelled, sessions`recent, jobs.db, temp`disk
      ensures jobs.db.Valid() && sessions.Valid()
      ensures Closes(countTrack == 0, old(fileConfig), old(sessions.recent), old(jobs.db.rows), old(jobs.db.nextId),
                     old(jobs.db.clock), old(temp.disk), now, ok, stuck)
    {
      if countTrack != 0 {
        return;
      }
      cancelled := true;
      StopVideoSession(now, ok, stuck);
    }

    method StopVideoSession(now: int, ok: bool, stuck: set<Path>)
      requires jobs.db.Valid() && sessions.Valid()
      modifies this`fileConfig, sessions`recent, jobs.db, temp`disk
      ensures jobs.db.Valid() && sessions.Valid() && sessions.recent == Without(old(sessions.recent), id)
      ensures fileConfig.track == old(fileConfig).track && fileConfig.path == old(fileConfig).path
      ensures fileConfig.startTime == old(fileConfig).startTime && fileConfig.mimeType == old(fileConfig).mimeType
      ensures fileConfig.endTime ==
              if id in old(sessions.recent) && old(fileConfig).startTime > 0 then now else old(fileConfig).endTime
      ensures id in old(sessions.recent) && ok ==>
                && jobs.db.rows.Keys == old(jobs.db.rows).Keys + {old(jobs.db.nextId)}
                && jobs.db.rows[old(jobs.db.nextId)] == Row(Transcoding, Idle, jobs.instance, fileConfig, 0, old(jobs.db.clock))
      ensures id !in old(sessions.recent) ==>
                fileConfig == old(fileConfig) && jobs.db.rows == old(jobs.db.rows) && temp.disk == old(temp.disk)
      ensures id in old(sessions.recent) ==>
                && fileConfig == Pipeline.Stamped(old(fileConfig), now)
                && jobs.db.rows == (if ok then InsertRow(old(jobs.db.rows), old(jobs.db.nextId), Transcoding, jobs.instance,
                                                         fileConfig, old(jobs.db.clock))
                                    else old(jobs.db.rows))
                && temp.disk == (if ok then old(temp.disk) else RemoveFile(old(temp.disk), fileConfig, stuck))
    {
      var found := sessions.Remove(id);
      if !found {
        return;
      }
      if fileConfig.startTime > 0 {
        fileConfig := fileConfig.(endTime := now);
      }
      var err := jobs.Create(Transcoding, fileConfig, ok);
      if err {
        var _ := temp.DeleteFile(fileConfig, stuck);
      }
    }

    /** CloseP2P: an unknown session is an error. */
    method CloseP2P(now: int, ok: bool, stuck: set<Path>) returns (err: bool)
      requires jobs.db.Valid() && sessions.Valid()
      modifies this`fileConfig, this`cancelled, sessions`recent, jobs.db, temp`disk
      ensures jobs.db.Valid() && sessions.Valid() && err == (id !in old(sessions.recent))
      ensures err || countTrack != 0 ==>
                && fileConfig == old(fileConfig) && jobs.db.rows == old(jobs.db.rows) && temp.disk == old(temp.disk)
                && Members(sessions.recent) == old(Members(sessions.recent))
      ensures !err && countTrack == 0 ==>
                && Members(sessions.recent) == old(Members(sessions.recent)) - {id}
                && fileConfig == Pipeline.Stamped(old(fileConfig), now)
                && jobs.db.rows == (if ok then InsertRow(old(jobs.db.rows), old(jobs.db.nextId), Transcoding, jobs.instance,
                                                         fileConfig, old(jobs.db.clock))
                                    else old(jobs.db.rows))
                && temp.disk == (if ok then old(temp.disk) else RemoveFile(old(temp.disk), fileConfig, stuck))
    {
      var found := sessions.Get(id);
      err := !found;
      if found {
        WithoutFacts(sessions.recent, id);
        Close(now, ok, stuck);
      }
    }
  }

  /** What StopVideoSession does to the table and the disk is the machine's step that stops a session. */
  lemma StopIsMachineStep(c: Pipeline.Config, s: Pipeline.State, sid: nat, ok: bool, stuck: set<Path>, now: int)
    requires Pipeline.Enabled(c, s, Pipeline.StopSession(sid, ok, stuck, now))
    ensures var s' := Pipeline.Next(c, s, Pipeline.StopSession(sid, ok, stuck, now));
            var f := Pipeline.Stamped(s.sessions[sid], now);
            && s'.table == (if ok then InsertRow(s.table, s.nextId, Transcoding, c.instance, f, s.clock) else s.table)
            && s'.disk == (if ok then s.disk else RemoveFile(s.disk, f, stuck))
            && sid !in s'.sessions
  {
  }
}
