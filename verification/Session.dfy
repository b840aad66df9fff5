/** The life of one recording session (internal/service/media.go, webrtc.go): onTrack handlers, CloseP2P,
    failed renegotiations and ICE failures all run `close` concurrently and race on the track counter
    and on the session store. */
module Session {
  import opened Model

  /** Where the session is: being negotiated, in the session store, or out of it. */
  datatype Stored = Negotiating | InStore | Gone

  /** Where a goroutine stands. A track handler passes through all of these; a caller of `close`
      starts at Closing, and an ICE failure first sets the counter to zero. */
  datatype Pc =
    | Opening    // onTrack: NewWriter is next
    | Appended   // the track is listed; counting it is next
    | Recording  // the track is counted
    | Zeroing    // ICE failure: Store(0) is next
    | Closing    // close: Load is next
    | Stopping   // stopVideoSession: Remove is next
    | Creating   // Remove returned true: CreateJob is next
    | Deleting   // CreateJob failed: DeleteFile is next
    | Done

  datatype Routine = Routine(handler: bool, pc: Pc)

  /** `created` lists the track list of every CreateJob attempt. `added` and `live` record history: the
      session was once stored; it had a counted track while stored. */
  datatype State = State(
    stored: Stored, count: int, track: seq<Path>, routines: map<nat, Routine>,
    created: seq<seq<Path>>, added: bool, live: bool)

  datatype Action =
    | Add
    | NegotiationFails(r: nat)
    | StartTrack(r: nat)
    | ListChannel(name: Path) // onDataChannel: the path is listed in the shared file record, the count of a copy changes
    | CallClose(r: nat)
    | IceFails(r: nat)
    | Evict
    | Advance(r: nat, ok: bool, name: Path)

  predicate Enabled(s: State, a: Action) {
    match a
    case Add => s.stored == Negotiating
    case NegotiationFails(r) => s.stored == Negotiating && r !in s.routines
    case StartTrack(r) => r !in s.routines
    case ListChannel(_) => true
    case CallClose(r) => s.stored == InStore && r !in s.routines
    case IceFails(r) => r !in s.routines
    case Evict => s.stored == InStore
    case Advance(r, _, _) => r in s.routines && s.routines[r].pc != Done
  }

  function Spawn(s: State, r: nat, handler: bool, pc: Pc): State {
    s.(routines := s.routines[r := Routine(handler, pc)])
  }

  function Move(s: State, r: nat, pc: Pc): State
    requires r in s.routines
  {
    s.(routines := s.routines[r := s.routines[r].(pc := pc)])
  }

  /** One step of goroutine `r`; `ok` and `name` are what the file system, the store or NewID answer. */
  function Advanced(s: State, r: nat, ok: bool, name: Path): State
    requires r in s.routines && s.routines[r].pc != Done
  {
    match s.routines[r].pc
    case Opening => if ok then Move(s.(track := s.track + [name]), r, Appended) else Move(s, r, Done)
    case Appended => Move(s.(count := s.count + 1, live := s.live || s.stored == InStore), r, Recording)
    case Recording => Move(s.(count := s.count - 1), r, Closing)
    case Zeroing => Move(s.(count := 0), r, Closing)
    case Closing => Move(s, r, if s.count != 0 then Done else Stopping)
    case Stopping => if s.stored == InStore then Move(s.(stored := Gone), r, Creating) else Move(s, r, Done)
    case Creating => Move(s.(created := s.created + [s.track]), r, if ok then Done else Deleting)
    case Deleting => Move(s, r, Done)
  }

  function Next(s: State, a: Action): State
    requires Enabled(s, a)
  {
    match a
    case Add => s.(stored := InStore, added := true, live := s.live || s.count > 0)
    case NegotiationFails(r) => Spawn(s, r, false, Closing).(stored := Gone)
    case StartTrack(r) => Spawn(s, r, true, Opening)
    case ListChannel(name) => s.(track := s.track + [name])
    case CallClose(r) => Spawn(s, r, false, Closing)
    case IceFails(r) => Spawn(s, r, false, Zeroing)
    case Evict => s.(stored := Gone)
    case Advance(r, ok, name) => Advanced(s, r, ok, name)
  }

  const INIT := State(Negotiating, 0, [], map[], [], false, false)

  predicate Feasible(run: seq<Action>)
    decreases |run|, 0
  {
    run == [] || (Feasible(run[..|run| - 1]) && Enabled(After(run[..|run| - 1]), run[|run| - 1]))
  }

  function After(run: seq<Action>): State
    requires Feasible(run)
    decreases |run|, 1
  {
    if run == [] then INIT else Next(After(run[..|run| - 1]), run[|run| - 1])
  }

  // ---- at most one job

  predicate At(s: State, r: nat, pc: Pc) {
    r in s.routines && s.routines[r].pc == pc
  }

  /** The right to create the job: it lies with the store, then with the one goroutine whose Remove
      succeeded, and is used up by that goroutine's attempt. */
  ghost predicate OneTicket(s: State) {
    && |s.created| <= 1
    && (s.stored != Gone ==> s.created == [] && forall r :: !At(s, r, Creating))
    && (forall r :: At(s, r, Creating) ==> s.created == [])
    && (forall r, q :: At(s, r, Creating) && At(s, q, Creating) ==> r == q)
    && (forall i :: 0 <= i < |s.created| ==> s.created[i] <= s.track)
  }

  lemma CreatingComesFrom(s: State, a: Action, r: nat)
    requires Enabled(s, a) && At(Next(s, a), r, Creating)
    ensures At(s, r, Creating) || (a.Advance? && a.r == r && s.stored == InStore && Next(s, a).stored == Gone)
    ensures At(s, r, Creating) ==> !(a.Advance? && a.r == r)
    ensures !At(s, r, Creating) ==> At(s, r, Stopping)
  {
    if Moves(a, r) {
      MovedPc(s, a, r);
    } else {
      OthersStandStill(s, a, r);
    }
  }

  /** Where the moved goroutine goes. */
  lemma MovedPc(s: State, a: Action, r: nat)
    requires Enabled(s, a) && Moves(a, r)
    ensures r in Next(s, a).routines
    ensures var pc := Next(s, a).routines[r].pc;
            match a
            case Advance(_, ok, _) =>
              pc == (match s.routines[r].pc
                     case Opening => if ok then Appended else Done
                     case Appended => Recording
                     case Recording => Closing
                     case Zeroing => Closing
                     case Closing => if s.count != 0 then Done else Stopping
                     case Stopping => if s.stored == InStore then Creating else Done
                     case Creating => if ok then Done else Deleting
                     case Deleting => Done)
            case _ => pc == Closing || pc == Opening || pc == Zeroing
  {
  }

  lemma StepKeepsOneTicket(s: State, a: Action)
    requires Enabled(s, a) && OneTicket(s)
    ensures OneTicket(Next(s, a))
  {
    var s' := Next(s, a);
    forall r, q | At(s', r, Creating) && At(s', q, Creating)
      ensures r == q && s'.created == [] && s'.stored == Gone
    {
      CreatingComesFrom(s, a, r);
      CreatingComesFrom(s, a, q);
      if a.Advance? {
        assert At(s, a.r, Creating) <==> s.routines[a.r].pc == Creating;
      }
    }
    if a.Advance? {
      assert At(s, a.r, Creating) <==> s.routines[a.r].pc == Creating;
    }
  }

  /** In every run, with ICE failures, evictions and any overlap, a session yields at most one job,
      and the job lists the tracks that were listed when it was created. */
  lemma {:induction false} AtMostOneJob(run: seq<Action>)
    requires Feasible(run)
    ensures OneTicket(After(run))
  {
    if run != [] {
      AtMostOneJob(run[..|run| - 1]);
      StepKeepsOneTicket(After(run[..|run| - 1]), run[|run| - 1]);
    }
  }

  // ---- what the job holds

  /** At its i-th step the run lets goroutine `r` load the counter in `close`, and it is zero. */
  predicate LoadsZero(run: seq<Action>, i: nat, r: nat) {
    && i < |run| && Feasible(run[..i])
    && run[i].Advance? && run[i].r == r && At(After(run[..i]), r, Closing) && After(run[..i]).count == 0
  }

  lemma LoadsZeroLater(run: seq<Action>, i: nat, r: nat)
    requires run != [] && LoadsZero(run[..|run| - 1], i, r)
    ensures LoadsZero(run, i, r)
  {
    assert run[..|run| - 1][..i] == run[..i];
  }

  lemma StoppingComesFrom(s: State, a: Action, r: nat)
    requires Enabled(s, a) && (At(Next(s, a), r, Stopping) || At(Next(s, a), r, Creating))
    ensures || At(s, r, Stopping) || At(s, r, Creating)
            || (a.Advance? && a.r == r && At(s, r, Closing) && s.count == 0)
  {
    if Moves(a, r) {
      MovedPc(s, a, r);
    } else {
      OthersStandStill(s, a, r);
    }
  }

  /** Whoever is about to remove the session, or has removed it and is about to create the job, has seen zero. */
  lemma {:induction false} CloserSawZero(run: seq<Action>, r: nat) returns (i: nat)
    requires Feasible(run) && (At(After(run), r, Stopping) || At(After(run), r, Creating))
    ensures LoadsZero(run, i, r)
    decreases |run|
  {
    if run == [] {
      assert false;
    }
    var before := run[..|run| - 1];
    StoppingComesFrom(After(before), run[|run| - 1], r);
    if At(After(before), r, Stopping) || At(After(before), r, Creating) {
      i := CloserSawZero(before, r);
      LoadsZeroLater(run, i, r);
    } else {
      i := |before|;
    }
  }

  lemma {:induction false} TracksGrow(run: seq<Action>, i: nat)
    requires Feasible(run) && i <= |run| && Feasible(run[..i])
    ensures After(run[..i]).track <= After(run).track
    decreases |run|
  {
    if i < |run| {
      var before := run[..|run| - 1];
      assert before[..i] == run[..i];
      TracksGrow(before, i);
    } else {
      assert run[..i] == run;
    }
  }

  lemma CreatesTheTracks(s: State, a: Action, t: seq<Path>)
    requires Enabled(s, a) && Next(s, a).created == [t] && s.created != [t]
    ensures a.Advance? && At(s, a.r, Creating) && t == s.track
  {
    if a.Advance? && At(s, a.r, Creating) {
      assert (s.created + [s.track])[0] == t && s.created == [];
    }
  }

  /** In every run: a job is created only after some caller of `close` has seen the counter at zero, and it lists
      all tracks listed at that moment. */
  lemma {:induction false} JobFollowsZero(run: seq<Action>, t: seq<Path>) returns (i: nat, r: nat)
    requires Feasible(run) && After(run).created == [t]
    ensures LoadsZero(run, i, r) && After(run[..i]).track <= t
    decreases |run|
  {
    if run == [] {
      assert false;
    }
    var before, a := run[..|run| - 1], run[|run| - 1];
    if After(before).created == [t] {
      i, r := JobFollowsZero(before, t);
    } else {
      CreatesTheTracks(After(before), a, t);
      r := a.r;
      i := CloserSawZero(before, r);
      TracksGrow(before, i);
    }
    assert before[..i] == run[..i];
    LoadsZeroLater(run, i, r);
  }

  // ---- close on its own

  function StepsToDone(pc: Pc): nat {
    match pc
    case Opening => 8
    case Appended => 7
    case Recording => 6
    case Zeroing => 5
    case Closing => 4
    case Stopping => 3
    case Creating => 2
    case Deleting => 1
    case Done => 0
  }

  /** Goroutine `r` runs to its end with nobody in between. */
  function Alone(s: State, r: nat, ok: bool): State
    requires r in s.routines
    decreases StepsToDone(s.routines[r].pc)
  {
    if s.routines[r].pc == Done then s else Alone(Advanced(s, r, ok, ""), r, ok)
  }

  /** The steps of `close` amount to what its code does in one go (`MediaSession`): nothing while tracks are
      counted, else the session leaves the store, and only if it was there one job with its tracks is attempted. */
  lemma CloseAlone(s: State, r: nat, ok: bool)
    requires At(s, r, Closing)
    ensures var s' := Alone(s, r, ok);
            && At(s', r, Done) && s'.count == s.count && s'.track == s.track
            && (if s.count == 0 && s.stored == InStore then s'.stored == Gone && s'.created == s.created + [s.track]
                else s'.stored == s.stored && s'.created == s.created)
  {
    var s1 := Advanced(s, r, ok, "");
    assert Alone(s, r, ok) == Alone(s1, r, ok);
    if s.count != 0 {
      assert Alone(s1, r, ok) == s1;
    } else {
      StopAlone(s1, r, ok);
    }
  }

  lemma StopAlone(s: State, r: nat, ok: bool)
    requires At(s, r, Stopping)
    ensures var s' := Alone(s, r, ok);
            && At(s', r, Done) && s'.count == s.count && s'.track == s.track
            && (if s.stored == InStore then s'.stored == Gone && s'.created == s.created + [s.track]
                else s'.stored == s.stored && s'.created == s.created)
  {
    var s1 := Advanced(s, r, ok, "");
    assert Alone(s, r, ok) == Alone(s1, r, ok);
    if s.stored != InStore {
      assert Alone(s1, r, ok) == s1;
    } else {
      CreateAlone(s1, r, ok);
    }
  }

  lemma CreateAlone(s: State, r: nat, ok: bool)
    requires At(s, r, Creating)
    ensures var s' := Alone(s, r, ok);
            && At(s', r, Done) && s'.count == s.count && s'.track == s.track
            && s'.stored == s.stored && s'.created == s.created + [s.track]
  {
    var s1 := Advanced(s, r, ok, "");
    assert Alone(s, r, ok) == Alone(s1, r, ok);
    if ok {
      assert Alone(s1, r, ok) == s1;
    } else {
      var s2 := Advanced(s1, r, ok, "");
      assert Alone(s1, r, ok) == Alone(s2, r, ok) == s2;
    }
  }

  // ---- exactly one job

  ghost function Counted(s: State): set<nat> {
    set r | r in s.routines && s.routines[r].pc == Recording
  }

  ghost predicate WillClose(s: State, r: nat) {
    r in s.routines && s.routines[r].handler && (s.routines[r].pc == Closing || s.routines[r].pc == Stopping)
  }

  ghost predicate HandlersOnly(s: State) {
    forall r :: r in s.routines ==> Attends(s.routines[r])
  }

  /** Only a track handler writes, lists and counts. */
  predicate Attends(x: Routine) {
    (x.pc == Opening || x.pc == Appended || x.pc == Recording) ==> x.handler
  }

  /** Without ICE failures the counter counts, and a stored session that had a track still has a handler
      that will bring it down. Without evictions a session leaves the store only by handing on its ticket. */
  ghost predicate Attended(s: State) {
    && HandlersOnly(s)
    && s.count == |Counted(s)|
    && (forall r :: !At(s, r, Zeroing))
    && (s.live || s.stored == InStore ==> s.added)
    && (s.stored == Negotiating ==> !s.added)
    && (s.live && s.stored == InStore ==> s.count > 0 || exists r :: WillClose(s, r))
    && (s.added && s.stored == Gone ==> |s.created| == 1 || exists r :: At(s, r, Creating))
  }

  predicate Calm(a: Action) {
    !a.IceFails? && !a.Evict?
  }

  predicate Moves(a: Action, r: nat) {
    (a.Advance? || a.NegotiationFails? || a.StartTrack? || a.CallClose? || a.IceFails?) && a.r == r
  }

  /** The goroutine whose pc the step sets, with the new pc; every other goroutine stands still. */
  lemma OthersStandStill(s: State, a: Action, r: nat)
    requires Enabled(s, a) && !Moves(a, r)
    ensures r in Next(s, a).routines <==> r in s.routines
    ensures r in s.routines ==> Next(s, a).routines[r] == s.routines[r]
  {
  }

  lemma CountedMoves(s: State, a: Action)
    requires Enabled(s, a)
    ensures Counted(Next(s, a)) ==
            if a.Advance? && s.routines[a.r].pc == Appended then Counted(s) + {a.r}
            else if a.Advance? && s.routines[a.r].pc == Recording then Counted(s) - {a.r}
            else Counted(s)
  {
    var s' := Next(s, a);
    forall r
      ensures r in Counted(s') <==>
              if a.Advance? && a.r == r then s.routines[r].pc == Appended else r in Counted(s)
    {
      if !Moves(a, r) {
        OthersStandStill(s, a, r);
      }
    }
  }

  predicate Starts(s: State, a: Action) {
    a.Advance? && At(s, a.r, Appended)
  }

  predicate Ends(s: State, a: Action) {
    a.Advance? && At(s, a.r, Recording)
  }

  lemma CountMoves(s: State, a: Action)
    requires Enabled(s, a) && Calm(a) && forall r :: !At(s, r, Zeroing)
    ensures Next(s, a).count == s.count + (if Starts(s, a) then 1 else if Ends(s, a) then -1 else 0)
  {
    if a.Advance? {
      assert !At(s, a.r, Zeroing);
    }
  }

  lemma CountFollows(s: State, a: Action)
    requires Enabled(s, a) && Calm(a) && Attended(s)
    ensures Next(s, a).count == |Counted(Next(s, a))|
  {
    CountMoves(s, a);
    CountedMoves(s, a);
    var before := Counted(s);
    if Starts(s, a) {
      assert a.r !in before;
    } else if Ends(s, a) {
      assert a.r in before;
    }
  }

  lemma StepKeepsCloser(s: State, a: Action)
    requires Enabled(s, a) && Calm(a) && Attended(s)
    ensures var s' := Next(s, a);
            s'.live && s'.stored == InStore ==> s'.count > 0 || exists r :: WillClose(s', r)
  {
    var s' := Next(s, a);
    CountFollows(s, a);
    if s'.live && s'.stored == InStore && s'.count <= 0 {
      if a.Advance? && s.routines[a.r].pc == Recording {
        assert WillClose(s', a.r);
      } else {
        if a.Advance? {
          assert !At(s, a.r, Zeroing);
        }
        var r :| WillClose(s, r);
        assert WillClose(s', r);
      }
    }
  }

  lemma StepKeepsTicket(s: State, a: Action)
    requires Enabled(s, a) && Calm(a) && Attended(s) && OneTicket(s)
    ensures var s' := Next(s, a);
            s'.added && s'.stored == Gone ==> |s'.created| == 1 || exists r :: At(s', r, Creating)
  {
    var s' := Next(s, a);
    if a.Advance? {
      assert At(s, a.r, Creating) <==> s.routines[a.r].pc == Creating;
    }
    if s'.added && s'.stored == Gone {
      if a.Advance? && s.routines[a.r].pc == Stopping && s.stored == InStore {
        assert At(s', a.r, Creating);
      } else if |s.created| == 0 && s.stored == Gone {
        var r :| At(s, r, Creating);
        assert At(s', r, Creating) || |s'.created| == 1;
      }
    }
  }

  lemma StepKeepsAttended(s: State, a: Action)
    requires Enabled(s, a) && Calm(a) && Attended(s) && OneTicket(s)
    ensures Attended(Next(s, a))
  {
    CountFollows(s, a);
    StepKeepsCloser(s, a);
    StepKeepsTicket(s, a);
    StepKeepsHandlers(s, a);
    StepKeepsStage(s, a);
  }

  lemma StepKeepsHandlers(s: State, a: Action)
    requires Enabled(s, a) && Calm(a) && HandlersOnly(s) && forall r :: !At(s, r, Zeroing)
    ensures HandlersOnly(Next(s, a)) && forall r :: !At(Next(s, a), r, Zeroing)
  {
    var s' := Next(s, a);
    forall r | r in s'.routines ensures Attends(s'.routines[r]) && s'.routines[r].pc != Zeroing {
      assert !At(s, r, Zeroing);
      if !Moves(a, r) {
        OthersStandStill(s, a, r);
      }
    }
  }

  lemma StepKeepsStage(s: State, a: Action)
    requires Enabled(s, a) && Calm(a) && (s.live || s.stored == InStore ==> s.added) && (s.stored == Negotiating ==> !s.added)
    ensures var s' := Next(s, a); (s'.live || s'.stored == InStore ==> s'.added) && (s'.stored == Negotiating ==> !s'.added)
  {
  }

  ghost predicate AllCalm(run: seq<Action>) {
    forall i :: 0 <= i < |run| ==> Calm(run[i])
  }

  lemma {:induction false} RunKeepsAttended(run: seq<Action>)
    requires Feasible(run) && AllCalm(run)
    ensures Attended(After(run)) && OneTicket(After(run))
  {
    AtMostOneJob(run);
    if run == [] {
      assert Counted(INIT) == {};
    } else {
      RunKeepsAttended(run[..|run| - 1]);
      StepKeepsAttended(After(run[..|run| - 1]), run[|run| - 1]);
    }
  }

  ghost predicate HandlersReturned(s: State) {
    forall r :: r in s.routines && s.routines[r].handler ==> s.routines[r].pc == Done
  }

  predicate AllDone(s: State) {
    forall r :: r in s.routines ==> s.routines[r].pc == Done
  }

  /** With no ICE failure and no eviction: once a session that had a track while stored has all its handlers
      back, it is out of the store, and its one job has been attempted or is about to be, by the one
      caller of `close` whose Remove succeeded. */
  lemma ExactlyOneJob(run: seq<Action>)
    requires Feasible(run) && AllCalm(run) && After(run).live && HandlersReturned(After(run))
    ensures After(run).stored == Gone
    ensures |After(run).created| == 1 || exists r :: At(After(run), r, Creating) && !After(run).routines[r].handler
    ensures AllDone(After(run)) ==> |After(run).created| == 1
  {
    RunKeepsAttended(run);
    var s := After(run);
    assert Counted(s) == {};
  }

  // ---- exactly when a stored session yields its job

  predicate NoEvictions(run: seq<Action>) {
    forall i :: 0 <= i < |run| ==> !run[i].Evict?
  }

  /** At its j-th step the run lets goroutine `r`, past the guard of `close`, call Remove for a session that was stored. */
  predicate Removes(run: seq<Action>, j: nat, r: nat) {
    && j < |run| && Feasible(run[..j])
    && run[j].Advance? && run[j].r == r && At(After(run[..j]), r, Stopping) && After(run[..j]).added
  }

  /** Goroutine `r` sees the counter at zero and then calls Remove after Add. */
  predicate SeesZeroAndRemoves(run: seq<Action>, i: nat, j: nat, r: nat) {
    i < j && LoadsZero(run, i, r) && Removes(run, j, r)
  }

  predicate Staged(s: State) {
    (s.stored == InStore ==> s.added) && (s.stored == Negotiating ==> !s.added)
  }

  lemma {:induction false} RunKeepsStaged(run: seq<Action>)
    requires Feasible(run)
    ensures Staged(After(run))
  {
    if run != [] {
      RunKeepsStaged(run[..|run| - 1]);
    }
  }

  lemma StaysGone(s: State, a: Action)
    requires Enabled(s, a) && s.stored == Gone
    ensures Next(s, a).stored == Gone
  {
  }

  lemma RemoveMakesGone(s: State, a: Action)
    requires Enabled(s, a) && a.Advance? && At(s, a.r, Stopping) && s.added && Staged(s)
    ensures Next(s, a).stored == Gone
  {
  }

  /** Once out of the store, the session stays out. */
  lemma {:induction false} RemovedIsGone(run: seq<Action>, j: nat, r: nat)
    requires Feasible(run) && Removes(run, j, r)
    ensures After(run).stored == Gone
    decreases |run|
  {
    var before := run[..|run| - 1];
    assert before[..j] == run[..j];
    if j < |before| {
      RemovedIsGone(before, j, r);
      StaysGone(After(before), run[|run| - 1]);
    } else {
      RunKeepsStaged(before);
      RemoveMakesGone(After(before), run[|run| - 1]);
    }
  }

  /** The ticket lies with the goroutine about to create the job, or is used up. */
  ghost predicate Taken(s: State) {
    s.created != [] || exists r :: At(s, r, Creating)
  }

  /** A session that was stored leaves the store only by handing on its ticket, unless it is evicted. */
  ghost predicate HandedOn(s: State) {
    s.added && s.stored == Gone ==> Taken(s)
  }

  lemma StepKeepsHandedOn(s: State, a: Action)
    requires Enabled(s, a) && !a.Evict? && Staged(s) && HandedOn(s)
    ensures HandedOn(Next(s, a))
  {
    var s' := Next(s, a);
    if a.Advance? && s.routines[a.r].pc == Stopping && s.stored == InStore {
      assert At(s', a.r, Creating);
    } else if s.stored == Gone && s.added && s.created == [] {
      var r :| At(s, r, Creating);
      assert At(s', r, Creating) || s'.created != [];
    }
  }

  lemma {:induction false} RunKeepsHandedOn(run: seq<Action>)
    requires Feasible(run) && NoEvictions(run)
    ensures HandedOn(After(run))
  {
    if run != [] {
      var before := run[..|run| - 1];
      RunKeepsHandedOn(before);
      RunKeepsStaged(before);
      StepKeepsHandedOn(After(before), run[|run| - 1]);
    }
  }

  lemma TakenComesFrom(s: State, a: Action)
    requires Enabled(s, a) && Taken(Next(s, a)) && !Taken(s)
    ensures a.Advance? && At(s, a.r, Stopping) && s.stored == InStore
  {
    if a.Advance? && s.routines[a.r].pc == Creating {
      assert At(s, a.r, Creating);
    }
    if r :| At(Next(s, a), r, Creating) {
      CreatingComesFrom(s, a, r);
      assert !At(s, r, Creating);
    }
  }

  lemma RemovesLater(run: seq<Action>, j: nat, r: nat)
    requires run != [] && Removes(run[..|run| - 1], j, r)
    ensures Removes(run, j, r)
  {
    assert run[..|run| - 1][..j] == run[..j];
  }

  /** A job, or a goroutine about to create it, stems from a Remove of the stored session. */
  lemma {:induction false} TicketWasTaken(run: seq<Action>) returns (j: nat, r: nat)
    requires Feasible(run) && Taken(After(run))
    ensures Removes(run, j, r)
    decreases |run|
  {
    if run == [] {
      assert false;
    }
    var before, a := run[..|run| - 1], run[|run| - 1];
    if Taken(After(before)) {
      j, r := TicketWasTaken(before);
      RemovesLater(run, j, r);
    } else {
      RunKeepsStaged(before);
      TakenComesFrom(After(before), a);
      j, r := |before|, a.r;
    }
  }

  lemma RemoverSawZero(run: seq<Action>, j: nat, r: nat) returns (i: nat)
    requires Feasible(run) && Removes(run, j, r)
    ensures SeesZeroAndRemoves(run, i, j, r)
  {
    i := CloserSawZero(run[..j], r);
    assert run[..j][..i] == run[..i];
  }

  /** Without evictions, whatever else happens, ICE failures included: a session that was stored, with every
      goroutine back, yielded one job if and only if some caller of `close` saw the counter at zero and called
      Remove after Add; otherwise it is still stored and there is no job. */
  lemma OneJobIff(run: seq<Action>)
    requires Feasible(run) && NoEvictions(run) && After(run).added && AllDone(After(run))
    ensures |After(run).created| == 1 <==> exists i, j, r :: SeesZeroAndRemoves(run, i, j, r)
    ensures |After(run).created| != 1 ==> After(run).stored == InStore && After(run).created == []
  {
    var s := After(run);
    AtMostOneJob(run);
    RunKeepsStaged(run);
    RunKeepsHandedOn(run);
    if s.created != [] {
      var j, r := TicketWasTaken(run);
      var i := RemoverSawZero(run, j, r);
    }
    if i, j, r :| SeesZeroAndRemoves(run, i, j, r) {
      RemovedIsGone(run, j, r);
    }
  }

  // ---- where the promise ends

  lemma Stores() returns (run: seq<Action>)
    ensures Feasible(run) && NoEvictions(run) && After(run) == State(InStore, 0, [], map[], [], true, false)
  {
    run := Extended([], Add);
  }

  lemma RecordingInStore() returns (run: seq<Action>)
    ensures Feasible(run) && NoEvictions(run)
    ensures After(run) == State(InStore, 1, ["a.raw"], map[0 := Routine(true, Recording)], [], true, true)
  {
    run := Stores();
    run := Extended(run, StartTrack(0));
    assert After(run) == State(InStore, 0, [], map[0 := Routine(true, Opening)], [], true, false);
    run := Extended(run, Advance(0, true, "a.raw"));
    assert After(run) == State(InStore, 0, ["a.raw"], map[0 := Routine(true, Appended)], [], true, false);
    run := Extended(run, Advance(0, true, ""));
  }

  /** An ICE failure stores zero and closes in two steps. A handler that leaves in between makes the counter
      negative, and then nobody removes the session: it stays stored without a job. */
  lemma IceFailureCanStrand() returns (run: seq<Action>)
    ensures Feasible(run) && NoEvictions(run) && After(run).live && After(run).stored == InStore && After(run).created == []
    ensures AllDone(After(run))
  {
    run := RecordingInStore();
    run := Extended(run, IceFails(1));
    run := Extended(run, Advance(1, true, ""));
    assert After(run)
           == State(InStore, 0, ["a.raw"], map[0 := Routine(true, Recording), 1 := Routine(false, Closing)], [], true, true);
    run := Extended(run, Advance(0, true, ""));
    assert After(run)
           == State(InStore, -1, ["a.raw"], map[0 := Routine(true, Closing), 1 := Routine(false, Closing)], [], true, true);
    run := Extended(run, Advance(1, true, ""));
    run := Extended(run, Advance(0, true, ""));
    assert After(run)
           == State(InStore, -1, ["a.raw"], map[0 := Routine(true, Done), 1 := Routine(false, Done)], [], true, true);
  }

  lemma EarlyTrackEnds() returns (run: seq<Action>)
    ensures Feasible(run) && AllCalm(run)
    ensures After(run) == State(Negotiating, 0, ["a.raw"], map[0 := Routine(true, Closing)], [], false, false)
  {
    run := Extended([], StartTrack(0));
    assert After(run) == State(Negotiating, 0, [], map[0 := Routine(true, Opening)], [], false, false);
    run := Extended(run, Advance(0, true, "a.raw"));
    assert After(run) == State(Negotiating, 0, ["a.raw"], map[0 := Routine(true, Appended)], [], false, false);
    run := Extended(run, Advance(0, true, ""));
    assert After(run) == State(Negotiating, 1, ["a.raw"], map[0 := Routine(true, Recording)], [], false, false);
    run := Extended(run, Advance(0, true, ""));
  }

  /** A track that ends before the session is stored closes nothing: the session is stored afterwards
      and stays, without a job, until somebody closes it. */
  lemma TrackBeforeAddIsStranded() returns (run: seq<Action>)
    ensures Feasible(run) && AllCalm(run)
    ensures After(run).stored == InStore && |After(run).track| == 1 && After(run).created == [] && AllDone(After(run))
  {
    run := EarlyTrackEnds();
    run := Extended(run, Advance(0, true, ""));
    assert After(run) == State(Negotiating, 0, ["a.raw"], map[0 := Routine(true, Stopping)], [], false, false);
    run := Extended(run, Advance(0, true, ""));
    assert After(run) == State(Negotiating, 0, ["a.raw"], map[0 := Routine(true, Done)], [], false, false);
    run := Extended(run, Add);
    assert After(run) == State(InStore, 0, ["a.raw"], map[0 := Routine(true, Done)], [], true, false);
  }

  lemma Extended(run: seq<Action>, a: Action) returns (run': seq<Action>)
    requires Feasible(run) && Enabled(After(run), a)
    ensures run' == run + [a] && Feasible(run') && After(run') == Next(After(run), a)
    ensures AllCalm(run) && Calm(a) ==> AllCalm(run')
    ensures NoEvictions(run) && !a.Evict? ==> NoEvictions(run')
  {
    run' := run + [a];
    assert run'[..|run'| - 1] == run;
  }
}
