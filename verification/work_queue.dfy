// The client-go work queue, as its contract defines it: an item is queued at
// most once, and never while it is being processed.
module WorkQueue {

  datatype Queue = Queue(items: seq<nat>, dirty: set<nat>, processing: set<nat>,
                         shuttingDown: bool, drain: bool)

  const EMPTY := Queue([], {}, {}, false, false)

  // Dropped after shutdown; only noted while the item is being processed.
  function Add(q: Queue, x: nat): Queue {
    if q.shuttingDown || x in q.dirty then q
    else q.(dirty := q.dirty + {x}, items := if x in q.processing then q.items else q.items + [x])
  }

  function Get(q: Queue): Queue
    requires q.items != []
  {
    var x := q.items[0];
    q.(items := q.items[1..], processing := q.processing + {x}, dirty := q.dirty - {x})
  }

  // Queues the item again if it was added meanwhile.
  function Done(q: Queue, x: nat): Queue {
    q.(processing := q.processing - {x}, items := if x in q.dirty then q.items + [x] else q.items)
  }

  predicate Quits(q: Queue) { q.items == [] && q.shuttingDown }

  function ShutDown(q: Queue): Queue { q.(shuttingDown := true, drain := false) }

  function ShutDownWithDrain(q: Queue): Queue { q.(shuttingDown := true, drain := true) }

  // What ShutDownWithDrain waits for.
  predicate Drained(q: Queue) { q.processing == {} || !q.drain }

  ghost predicate QueueOk(q: Queue) {
    (forall i, j :: 0 <= i < j < |q.items| ==> q.items[i] != q.items[j])
    && (forall x :: x in q.items <==> x in q.dirty && x !in q.processing)
  }

  lemma AddOk(q: Queue, x: nat)
    requires QueueOk(q)
    ensures QueueOk(Add(q, x)) && Add(q, x).processing == q.processing
    ensures forall y :: y in Add(q, x).dirty <==> y in q.dirty || (y == x && !q.shuttingDown)
    ensures q.items <= Add(q, x).items
  {
    var q' := Add(q, x);
    assert forall y :: y in q'.items <==> y in q.items || (q'.items != q.items && y == x);
  }

  lemma GetOk(q: Queue)
    requires QueueOk(q) && q.items != []
    ensures QueueOk(Get(q)) && q.items[0] !in q.processing && q.items[0] in q.dirty
    ensures forall y :: y in Get(q).dirty <==> y in q.dirty && y != q.items[0]
    ensures forall y :: y in Get(q).processing <==> y in q.processing || y == q.items[0]
    ensures Get(q).items == q.items[1..]
  {
    var x := q.items[0];
    assert q.items == [x] + q.items[1..];
    assert x in q.items;
    assert x !in q.items[1..];
  }

  lemma DoneOk(q: Queue, x: nat)
    requires QueueOk(q) && x in q.processing
    ensures QueueOk(Done(q, x)) && Done(q, x).dirty == q.dirty && q.items <= Done(q, x).items
    ensures forall y :: y in Done(q, x).processing <==> y in q.processing && y != x
  {
    var q' := Done(q, x);
    assert x !in q.items;
    assert forall y :: y in q'.items <==> y in q.items || (x in q.dirty && y == x);
  }

  // Why only items that came from Get may ask for a retry: an item that is not
  // in processing is handed out at once, and the first Done then takes the
  // processing mark off the second attempt.
  lemma ReAddedOutsideProcessing(q: Queue, x: nat)
    requires QueueOk(q) && !q.shuttingDown && q.items == [] && x !in q.dirty && x !in q.processing
    ensures Get(Add(q, x)).processing == q.processing + {x}
    ensures x !in Done(Get(Add(q, x)), x).processing
  {
  }
}
