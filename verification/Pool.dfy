/** The worker pool (internal/utils/pool.go): a channel of tasks with a bounded buffer, and workers that drain it.

    Each method is one channel operation of the listener or of a worker, taken at a moment when it
    does not block; the preconditions say when that is. */
module WorkerPool {
  import opened Model

  class Pool<T> {
    var size: nat
    var tasks: seq<T>
    const capacity: nat
    var closed: bool
    /** The live worker goroutines, and what each busy one executes. */
    var workers: set<nat>
    var nextWorker: nat
    var busy: map<nat, T>
    /** Everything ever sent and received, in order. */
    ghost var sent: seq<T>
    ghost var received: seq<T>

    /** Bounds, and first in first out: what was received is a beginning of what was sent, and the
        channel holds exactly the rest. A pool that was not closed has lost no worker. */
    ghost predicate Valid()
      reads this
    {
      && |tasks| <= capacity
      && sent == received + tasks
      && busy.Keys <= workers && (forall w :: w in workers ==> w < nextWorker)
      && |workers| <= size && (!closed ==> |workers| == size)
    }

    constructor (workerCount: nat, queueCount: nat)
      ensures Valid() && size == workerCount && capacity == queueCount && |workers| == workerCount
      ensures tasks == [] && busy == map[] && sent == [] && !closed
    {
      size, tasks, capacity, closed := 0, [], queueCount, false;
      workers, nextWorker, busy, sent, received := {}, 0, map[], [], [];
      new;
      Resize(workerCount, []);
    }

    /** Grows by starting workers and shrinks by kill signals. `killed` are the idle workers that receive
        the signals; each send blocks until one does. */
    method Resize(n: nat, killed: seq<nat>)
      requires Valid() && !closed
      requires |killed| == Max(0, size - n) && Idle(killed)
      modifies this`size, this`workers, this`nextWorker
      ensures Valid() && size == n && |workers| == n
      ensures old(size) <= n ==> old(workers) <= workers
      ensures old(size) >= n ==> workers == old(workers) - Members(killed)
    {
      Grow(n);
      Shrink(n, killed);
    }

    /** The first loop of Resize. */
    method Grow(n: nat)
      requires Valid() && !closed
      modifies this`size, this`workers, this`nextWorker
      ensures Valid() && size == Max(old(size), n) && old(workers) <= workers
      ensures old(size) >= n ==> workers == old(workers)
    {
      while size < n
        invariant Valid() && old(workers) <= workers && old(size) <= size <= Max(old(size), n)
        invariant old(size) >= n ==> workers == old(workers)
        decreases n - size
      {
        AddWorker();
      }
    }

    /** The second loop of Resize. */
    method Shrink(n: nat, killed: seq<nat>)
      requires Valid() && !closed && size >= n && |killed| == size - n && Idle(killed)
      modifies this`size, this`workers
      ensures Valid() && size == n && workers == old(workers) - Members(killed)
    {
      var k := 0;
      while size > n
        invariant Valid() && k <= |killed| && size == n + (|killed| - k)
        invariant workers == old(workers) - Members(killed[..k])
        decreases size
      {
        OneMore(killed, k);
        Kill(killed[k]);
        k := k + 1;
      }
      assert killed[..k] == killed;
    }

    method AddWorker()
      requires Valid()
      modifies this`size, this`workers, this`nextWorker
      ensures Valid() && size == old(size) + 1 && old(workers) < workers
    {
      size := size + 1;
      workers := workers + {nextWorker};
      nextWorker := nextWorker + 1;
    }

    /** The kill signal reaches the idle worker `w`. */
    method Kill(w: nat)
      requires Valid() && size > 0 && w in workers && w !in busy
      modifies this`size, this`workers
      ensures Valid() && size == old(size) - 1 && workers == old(workers) - {w}
    {
      size := size - 1;
      workers := workers - {w};
    }

    static lemma OneMore(ws: seq<nat>, k: nat)
      requires k < |ws| && forall i, j :: 0 <= i < j < |ws| ==> ws[i] != ws[j]
      ensures Members(ws[..k + 1]) == Members(ws[..k]) + {ws[k]} && ws[k] !in Members(ws[..k])
    {
      assert ws[..k + 1] == ws[..k] + [ws[k]];
    }

    /** Live workers that execute nothing, none of them twice. */
    ghost predicate Idle(ws: seq<nat>)
      reads this
    {
      && (forall i :: 0 <= i < |ws| ==> ws[i] in workers && ws[i] !in busy)
      && (forall i, j :: 0 <= i < j < |ws| ==> ws[i] != ws[j])
    }

    /** The send completes when the buffer has room, or by handing over to an idle worker of an empty channel. */
    method Exec(task: T, receiver: Option<nat>)
      requires Valid() && !closed
      requires match receiver
               case None => |tasks| < capacity
               case Some(w) => tasks == [] && w in workers && w !in busy
      modifies this`tasks, this`busy, this`sent, this`received
      ensures Valid() && sent == old(sent) + [task]
      ensures match receiver
              case None => tasks == old(tasks) + [task] && busy == old(busy) && received == old(received)
              case Some(w) => tasks == [] && busy == old(busy)[w := task] && received == old(received) + [task]
    {
      sent := sent + [task];
      match receiver {
        case None => tasks := tasks + [task];
        case Some(w) =>
          busy := busy[w := task];
          received := received + [task];
      }
    }

    /** An idle worker receives the oldest task. */
    method Receive(w: nat)
      requires Valid() && tasks != [] && w in workers && w !in busy
      modifies this`tasks, this`busy, this`received
      ensures Valid()
      ensures busy == old(busy)[w := old(tasks)[0]] && tasks == old(tasks)[1..]
      ensures received == old(received) + [old(tasks)[0]]
    {
      busy := busy[w := tasks[0]];
      received := received + [tasks[0]];
      tasks := tasks[1..];
    }

    method Finish(w: nat)
      requires Valid() && w in busy
      modifies this`busy
      ensures Valid() && busy == old(busy) - {w}
    {
      busy := busy - {w};
    }

    method Close()
      requires Valid() && !closed
      modifies this`closed
      ensures Valid() && closed
    {
      closed := true;
    }

    /** An idle worker leaves once the context is done, which is also when the channel is closed. */
    method Exit(w: nat)
      requires Valid() && w in workers && w !in busy && closed
      modifies this`workers
      ensures Valid() && workers == old(workers) - {w}
    {
      workers := workers - {w};
    }

    /** After the close every worker finishes what it executes and may take up more tasks before it leaves.
        Then nothing runs, and what was executed is a beginning of what was sent; the rest is abandoned. */
    method Wait()
      requires Valid() && closed
      modifies this`tasks, this`busy, this`received, this`workers
      ensures Valid() && workers == {} && busy == map[]
      ensures old(received) <= received && sent == received + tasks
    {
      while workers != {}
        invariant Valid() && closed && old(received) <= received
        decreases |workers|, |tasks|
      {
        var w :| w in workers;
        if w in busy {
          Finish(w);
        }
        if tasks != [] {
          if * {
            Receive(w);
          } else {
            Exit(w);
          }
        } else {
          Exit(w);
        }
      }
    }

    lemma ReceivedInOrder()
      requires Valid()
      ensures received <= sent && |busy| <= size
      ensures |sent| - |received| <= capacity
    {
      Smaller(busy.Keys, workers);
      assert |busy| == |busy.Keys|;
    }

    static lemma {:induction false} Smaller(a: set<nat>, b: set<nat>)
      requires a <= b
      ensures |a| <= |b|
    {
      if x :| x in a {
        Smaller(a - {x}, b - {x});
      }
    }
  }
}
