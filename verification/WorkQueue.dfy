/** The work queue behind every task queue (task_queue.go over client-go's `workqueue.Type`) and the fate of a
    key that is added to it. */
module WorkQueue {

  /** `queue` is the order of work, `dirty` what needs work, `processing` what is being worked on. */
  datatype WorkQueue = WorkQueue(queue: seq<string>, dirty: set<string>, processing: set<string>) {

    ghost predicate Valid() {
      && (forall i, j :: 0 <= i < j < |queue| ==> queue[i] != queue[j])
      && (forall k :: k in queue <==> k in dirty && k !in processing)
    }

    predicate Idle() { dirty == {} && processing == {} }

    function Add(k: string): (q: WorkQueue)
      ensures Valid() ==> q.Valid()
    {
      if k in dirty then this
      else if k in processing then this.(dirty := dirty + {k})
      else WorkQueue(queue + [k], dirty + {k}, processing)
    }

    function Get(): (q: WorkQueue)
      requires |queue| > 0
      ensures Valid() ==> q.Valid()
    {
      WorkQueue(queue[1..], dirty - {queue[0]}, processing + {queue[0]})
    }

    function Done(k: string): (q: WorkQueue)
      requires k in processing
      ensures Valid() ==> q.Valid()
    {
      WorkQueue(if k in dirty then queue + [k] else queue, dirty, processing - {k})
    }
  }

  const EMPTY := WorkQueue([], {}, {})

  /** A sync that failed leaves its key waiting again, and no longer in progress. */
  lemma FailedKeyWaits(q: WorkQueue, k: string)
    requires q.Valid() && k in q.processing
    ensures var r := q.Add(k).Done(k); r.Valid() && k in r.queue && k !in r.processing
  {
    var r := q.Add(k).Done(k);
    assert k in r.dirty && k !in r.processing;
  }

  // ----- runs of one queue, with any number of workers -----

  datatype Op = Adding(key: string) | Getting | Finishing(key: string)

  predicate OpEnabled(q: WorkQueue, op: Op) {
    match op
    case Adding(_) => true
    case Getting => |q.queue| > 0
    case Finishing(k) => k in q.processing
  }

  function ApplyOp(q: WorkQueue, op: Op): WorkQueue
    requires OpEnabled(q, op)
  {
    match op
    case Adding(k) => q.Add(k)
    case Getting => q.Get()
    case Finishing(k) => q.Done(k)
  }

  /** Every operation of the run is possible where it happens. */
  predicate CanRunOps(q: WorkQueue, ops: seq<Op>)
    decreases |ops|
  {
    |ops| > 0 ==> OpEnabled(q, ops[0]) && CanRunOps(ApplyOp(q, ops[0]), ops[1..])
  }

  function RunOps(q: WorkQueue, ops: seq<Op>): WorkQueue
    requires CanRunOps(q, ops)
    decreases |ops|
  {
    if |ops| == 0 then q else RunOps(ApplyOp(q, ops[0]), ops[1..])
  }

  /** The `i`-th operation hands `k` to a worker. */
  predicate Takes(q: WorkQueue, ops: seq<Op>, i: nat, k: string)
    requires CanRunOps(q, ops) && i < |ops|
    decreases |ops|
  {
    if i == 0 then ops[0].Getting? && q.queue[0] == k else Takes(ApplyOp(q, ops[0]), ops[1..], i - 1, k)
  }

  predicate TakenFrom(q: WorkQueue, ops: seq<Op>, from: nat, k: string)
    requires CanRunOps(q, ops)
  {
    exists j :: from <= j < |ops| && Takes(q, ops, j, k)
  }

  /** A key that needs work still needs it at the end, unless a worker took it. */
  lemma {:induction false} DirtyUntilTaken(q: WorkQueue, ops: seq<Op>, k: string)
    requires CanRunOps(q, ops) && k in q.dirty
    ensures k in RunOps(q, ops).dirty || TakenFrom(q, ops, 0, k)
    decreases |ops|
  {
    if |ops| > 0 {
      var next := ApplyOp(q, ops[0]);
      if k in next.dirty {
        DirtyUntilTaken(next, ops[1..], k);
        if TakenFrom(next, ops[1..], 0, k) {
          var j :| 0 <= j < |ops[1..]| && Takes(next, ops[1..], j, k);
          assert Takes(q, ops, j + 1, k);
        }
      } else {
        assert Takes(q, ops, 0, k);
      }
    }
  }

  /** No lost work: after an Add, a sync of the key begins later in the run, or the key is still waiting at its end. */
  lemma {:induction false} NoLostWork(q: WorkQueue, ops: seq<Op>, i: nat, k: string)
    requires CanRunOps(q, ops) && i < |ops| && ops[i] == Adding(k)
    ensures k in RunOps(q, ops).dirty || TakenFrom(q, ops, i + 1, k)
    decreases |ops|
  {
    var next := ApplyOp(q, ops[0]);
    if i == 0 {
      DirtyUntilTaken(next, ops[1..], k);
      if TakenFrom(next, ops[1..], 0, k) {
        var j :| 0 <= j < |ops[1..]| && Takes(next, ops[1..], j, k);
        assert Takes(q, ops, j + 1, k);
      }
    } else {
      assert ops[1..][i - 1] == ops[i];
      NoLostWork(next, ops[1..], i - 1, k);
      if TakenFrom(next, ops[1..], i, k) {
        var j :| i <= j < |ops[1..]| && Takes(next, ops[1..], j, k);
        assert Takes(q, ops, j + 1, k);
      }
    }
  }

  lemma {:induction false} BusyUntilFinished(q: WorkQueue, ops: seq<Op>, j: nat, k: string) returns (m: nat)
    requires q.Valid() && CanRunOps(q, ops) && k in q.processing && j < |ops| && Takes(q, ops, j, k)
    ensures m < j && ops[m] == Finishing(k)
    decreases |ops|
  {
    m := 0;
    var next := ApplyOp(q, ops[0]);
    if j > 0 && k in next.processing {
      m := BusyUntilFinished(next, ops[1..], j - 1, k);
      m := m + 1;
    }
  }

  /** In a run from a valid queue, the `j`-th operation hands `k` to a worker. */
  ghost predicate HandsOut(q: WorkQueue, ops: seq<Op>, j: nat, k: string) {
    q.Valid() && CanRunOps(q, ops) && j < |ops| && Takes(q, ops, j, k)
  }

  lemma {:induction false} HandsOutLater(q: WorkQueue, ops: seq<Op>, j: nat, k: string)
    requires HandsOut(q, ops, j, k) && j > 0
    ensures OpEnabled(q, ops[0]) && HandsOut(ApplyOp(q, ops[0]), ops[1..], j - 1, k)
  {
  }

  lemma {:induction false} BothLater(q: WorkQueue, ops: seq<Op>, i: nat, j: nat, k: string) returns (next: WorkQueue)
    requires HandsOut(q, ops, i, k) && HandsOut(q, ops, j, k) && 0 < i < j
    ensures HandsOut(next, ops[1..], i - 1, k) && HandsOut(next, ops[1..], j - 1, k)
  {
    next := ApplyOp(q, ops[0]);
    HandsOutLater(q, ops, i, k);
    HandsOutLater(q, ops, j, k);
  }

  /** No key is synced twice at once: between two hand-outs of a key, a worker finished it. */
  lemma {:induction false} NeverTwiceAtOnce(q: WorkQueue, ops: seq<Op>, i: nat, j: nat, k: string) returns (m: nat)
    requires HandsOut(q, ops, i, k) && HandsOut(q, ops, j, k) && i < j
    ensures i < m < j && ops[m] == Finishing(k)
    decreases |ops|
  {
    if i == 0 {
      m := TakenThenTaken(q, ops, j, k);
    } else {
      var next := BothLater(q, ops, i, j, k);
      m := NeverTwiceAtOnce(next, ops[1..], i - 1, j - 1, k);
      m := m + 1;
    }
  }

  lemma {:induction false} TakenThenTaken(q: WorkQueue, ops: seq<Op>, j: nat, k: string) returns (m: nat)
    requires HandsOut(q, ops, 0, k) && HandsOut(q, ops, j, k) && 0 < j
    ensures 0 < m < j && ops[m] == Finishing(k)
  {
    HandsOutLater(q, ops, j, k);
    m := BusyUntilFinished(ApplyOp(q, ops[0]), ops[1..], j - 1, k);
    m := m + 1;
  }

  /** `a` waits, and `b` does not wait in front of it. */
  predicate Ahead(queue: seq<string>, a: string, b: string) {
    exists p :: 0 <= p < |queue| && queue[p] == a && b !in queue[..p + 1]
  }

  lemma AheadStays(q: WorkQueue, op: Op, a: string, b: string)
    requires OpEnabled(q, op) && Ahead(q.queue, a, b) && !(op.Getting? && q.queue[0] == a)
    ensures Ahead(ApplyOp(q, op).queue, a, b)
  {
    var p :| 0 <= p < |q.queue| && q.queue[p] == a && b !in q.queue[..p + 1];
    var next := ApplyOp(q, op).queue;
    if op.Getting? {
      assert next[p - 1] == a && next[..p] == q.queue[..p + 1][1..];
    } else {
      assert next[p] == a && next[..p + 1] == q.queue[..p + 1];
    }
  }

  /** First in, first out: in every run, with any number of workers, a key is not handed out before one that already
      waited when it did not, or that waited in front of it. */
  lemma {:induction false} FirstInFirstOut(q: WorkQueue, ops: seq<Op>, a: string, b: string, j: nat) returns (i: nat)
    requires HandsOut(q, ops, j, b) && Ahead(q.queue, a, b)
    ensures i < j && HandsOut(q, ops, i, a)
    decreases |ops|
  {
    var p :| 0 <= p < |q.queue| && q.queue[p] == a && b !in q.queue[..p + 1];
    assert q.queue[..p + 1][0] == q.queue[0];
    if ops[0].Getting? && q.queue[0] == a {
      i := 0;
    } else {
      AheadStays(q, ops[0], a, b);
      HandsOutLater(q, ops, j, b);
      i := FirstInFirstOut(ApplyOp(q, ops[0]), ops[1..], a, b, j - 1);
      i := i + 1;
    }
  }

  // ----- task queues -----

  /** `TaskQueue`, holding the library's queue itself. */
  class TaskQueue {
    var queue: seq<string>
    var dirty: set<string>
    var processing: set<string>

    ghost function View(): WorkQueue
      reads this
    {
      WorkQueue(queue, dirty, processing)
    }

    constructor ()
      ensures View() == EMPTY
    {
      queue, dirty, processing := [], {}, {};
    }

    /** `Enqueue` and `Requeue`, once the key of the object is known. */
    method Enqueue(key: string)
      requires View().Valid()
      modifies this
      ensures View().Valid() && View() == old(View()).Add(key)
    {
      if key in dirty {
        return;
      }
      dirty := dirty + {key};
      if key in processing {
        return;
      }
      queue := queue + [key];
    }

    method Get() returns (key: string)
      requires View().Valid() && |queue| > 0
      modifies this
      ensures View().Valid() && key == old(queue)[0] && View() == old(View()).Get()
    {
      key := queue[0];
      queue := queue[1..];
      processing := processing + {key};
      dirty := dirty - {key};
    }

    method Finish(key: string)
      requires View().Valid() && key in processing
      modifies this
      ensures View().Valid() && View() == old(View()).Done(key)
    {
      processing := processing - {key};
      if key in dirty {
        queue := queue + [key];
      }
    }

    /** One turn of the worker's loop, given what the sync function returns. A failed key waits again. */
    method WorkOne(failed: bool) returns (key: string)
      requires View().Valid() && |queue| > 0
      modifies this
      ensures View().Valid() && key == old(queue)[0]
      ensures View() == var q := old(View()).Get(); (if failed then q.Add(key) else q).Done(key)
      ensures key !in processing && (failed ==> key in queue) && (!failed ==> key !in dirty)
    {
      key := Get();
      if failed {
        FailedKeyWaits(View(), key);
        Enqueue(key);
      }
      Finish(key);
    }
  }
}
