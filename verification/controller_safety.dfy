// What every run of the controller keeps, whatever the handlers send.
module ControllerSafety {
  import opened Wrappers
  import opened WorkQueue
  import opened EventStatus
  import opened Controller

  // ---------- the invariant, part by part ----------

  predicate InBounds(s: State) {
    (forall i :: 0 <= i < |s.loops| ==> s.loops[i].item < |s.items| && s.loops[i].chan < |s.chans|)
    && (forall i :: 0 <= i < |s.producers| ==> s.producers[i].chan < |s.chans|)
    && (forall i :: 0 <= i < |s.items| ==> s.items[i].chan < |s.chans|)
  }

  // Only items that came from the informer are ever queued.
  ghost predicate QueueHoldsInformerItems(s: State) {
    forall x :: x in s.queue.dirty || x in s.queue.processing || x in s.delayed ==>
      x < |s.items| && !s.items[x].child
  }

  predicate KindsAgree(s: State)
    requires InBounds(s)
  {
    (forall i :: 0 <= i < |s.loops| ==> s.items[s.loops[i].item].child == s.chans[s.loops[i].chan].forChild)
    && (forall i :: 0 <= i < |s.items| ==> s.items[i].child == s.chans[s.items[i].chan].forChild)
  }

  predicate MessageOk(s: State, m: Status, forChild: bool) {
    (AsksRetry(m) ==> !forChild)
    && (m.kind == CreateChild ==> m.childChan.Some? && m.childChan.value < |s.chans| && s.chans[m.childChan.value].forChild)
  }

  predicate MessagesOk(s: State) {
    forall i :: 0 <= i < |s.chans| ==> BufferOk(s, s.chans[i])
  }

  predicate BufferOk(s: State, c: Chan) {
    |c.buf| <= BUFFER_SIZE && forall m <- c.buf :: MessageOk(s, m, c.forChild)
  }

  predicate LiveProcessed(s: State)
    requires InBounds(s)
  {
    forall i :: 0 <= i < |s.loops| && s.loops[i].running && !s.items[s.loops[i].item].child ==>
      s.loops[i].item in s.queue.processing
  }

  predicate LiveApart(s: State) {
    forall i, j :: 0 <= i < j < |s.loops| && s.loops[i].running && s.loops[j].running ==>
      s.loops[i].item != s.loops[j].item
  }

  predicate ProcessedLive(s: State) {
    forall x <- s.queue.processing :: exists i :: 0 <= i < |s.loops| && s.loops[i].running && s.loops[i].item == x
  }

  // An item is in processing exactly while its one status loop runs.
  ghost predicate OneLive(s: State)
    requires InBounds(s)
  {
    LiveProcessed(s) && LiveApart(s) && ProcessedLive(s)
  }

  function One(b: bool): nat { if b then 1 else 0 }

  function Largest(asks: seq<Status>): nat {
    if asks == [] then 0
    else
      var before, last := Largest(asks[..|asks| - 1]), asks[|asks| - 1].maxRetryCount;
      if last > before then last else before
  }

  lemma LargestSnoc(asks: seq<Status>, st: Status)
    ensures Largest(asks) <= Largest(asks + [st]) && st.maxRetryCount <= Largest(asks + [st])
  {
    assert (asks + [st])[..|asks + [st]| - 1] == asks;
  }

  // Attempts made and attempts due are paid for by retries granted, and those
  // by the limits the item's own requests named.
  predicate Paid(s: State) {
    forall x :: 0 <= x < |s.items| && !s.items[x].child ==>
      s.items[x].dispatched + One(x in s.queue.dirty) + One(x in s.delayed) <= 1 + s.items[x].retryCount
      && s.items[x].retryCount <= Largest(s.items[x].asks)
  }

  predicate LoopOk(s: State, l: Loop) {
    l.callbacks == CallbacksOf(l.consumed, l.start)
    && (l.running ==> l.item < |s.items| && s.items[l.item].retryCount == CountAfter(l.consumed, l.start))
  }

  predicate LoopsOk(s: State) { forall i :: 0 <= i < |s.loops| ==> LoopOk(s, s.loops[i]) }

  predicate Active(w: Worker) { w.Ready? || w.Busy? || w.Draining? }

  // While anything is in processing some worker is still there.
  predicate WorkersOk(s: State) {
    (s.queue.processing != {} ==> exists w :: 0 <= w < |s.workers| && Active(s.workers[w]))
    && (forall w :: 0 <= w < |s.workers| && s.workers[w].Draining? ==> s.queue.drain && s.queue.shuttingDown)
  }

  ghost predicate Safe(s: State) {
    InBounds(s) && QueueHoldsInformerItems(s) && KindsAgree(s) && MessagesOk(s) && QueueOk(s.queue)
    && OneLive(s) && Paid(s) && LoopsOk(s) && WorkersOk(s)
  }

  lemma InitialSafe(workers: nat)
    ensures Safe(Initial(workers))
  {
  }

  // ---------- steps of workers alone ----------

  // All but workers and the marks of a shutdown are as before.
  lemma SameWork(s: State, s': State)
    requires Safe(s)
    requires s' == s.(queue := s'.queue, workers := s'.workers)
    requires s'.queue.items == s.queue.items && s'.queue.dirty == s.queue.dirty && s'.queue.processing == s.queue.processing
    requires WorkersOk(s')
    ensures Safe(s')
  {
    hide WorkersOk;
    KeptMessages(s, s');
    SameLoops(s, s');
    SameLive(s, s');
  }

  lemma WorkerMoves(s: State, w: nat, to: Worker, queue: Queue)
    requires Safe(s) && w < |s.workers|
    requires queue == s.queue || queue == ShutDownWithDrain(s.queue)
    requires Active(s.workers[w]) ==> Active(to) || s.queue.processing == {}
    requires to.Draining? ==> queue.drain && queue.shuttingDown
    ensures Safe(SetWorker(s.(queue := queue), w, to))
  {
    var s' := SetWorker(s.(queue := queue), w, to);
    assert WorkersOk(s') by { MovedWorkers(s, s', w); }
    SameWork(s, s');
  }

  lemma MovedWorkers(s: State, s': State, w: nat)
    requires WorkersOk(s) && w < |s.workers| == |s'.workers|
    requires forall v :: 0 <= v < |s.workers| && v != w ==> s'.workers[v] == s.workers[v]
    requires s'.queue == s.queue || s'.queue == ShutDownWithDrain(s.queue)
    requires Active(s.workers[w]) ==> Active(s'.workers[w]) || s.queue.processing == {}
    requires s'.workers[w].Draining? ==> s'.queue.drain && s'.queue.shuttingDown
    ensures WorkersOk(s')
  {
    if s.queue.processing != {} {
      var v :| 0 <= v < |s.workers| && Active(s.workers[v]);
      assert Active(s'.workers[v]);
    }
  }

  lemma ShutDownSafe(s: State)
    requires Safe(s) && !s.queue.shuttingDown
    ensures Safe(s.(queue := ShutDown(s.queue)))
  {
    SameWork(s, s.(queue := ShutDown(s.queue)));
  }

  // ---------- adding to the queue ----------

  lemma FireSafe(s: State, x: nat)
    requires Safe(s) && x in s.delayed
    ensures Safe(s.(delayed := s.delayed - {x}, queue := Add(s.queue, x)))
  {
    AddOk(s.queue, x);
    assert OneLive(s.(delayed := s.delayed - {x}, queue := Add(s.queue, x)));
  }

  lemma InformLive(s: State)
    requires InBounds(s) && OneLive(s)
    ensures InBounds(DoInform(s)) && OneLive(DoInform(s))
  {
    var s' := DoInform(s);
    assert forall y :: 0 <= y < |s.items| ==> s'.items[y] == s.items[y];
  }

  lemma InformItems(s: State)
    requires InBounds(s) && KindsAgree(s) && QueueHoldsInformerItems(s) && Paid(s) && InBounds(DoInform(s))
    ensures KindsAgree(DoInform(s)) && QueueHoldsInformerItems(DoInform(s)) && Paid(DoInform(s))
  {
    var s' := DoInform(s);
    var x := |s.items|;
    assert x !in s.queue.dirty && x !in s.delayed;
    assert forall y :: 0 <= y < |s.items| ==> s'.items[y] == s.items[y];
    assert forall i :: 0 <= i < |s.chans| ==> s'.chans[i] == s.chans[i];
  }

  lemma InformSafe(s: State)
    requires Safe(s)
    ensures Safe(DoInform(s))
  {
    var s' := DoInform(s);
    AddOk(s.queue, |s.items|);
    InformLive(s);
    InformItems(s);
    KeptMessages(s, s');
    SameLoops(s, s');
  }

  // Loops are as they were and so are the retry counts they look at.
  lemma SameLoops(s: State, s': State)
    requires LoopsOk(s) && s'.loops == s.loops && |s.items| <= |s'.items|
    requires forall y :: 0 <= y < |s.items| ==> s'.items[y].retryCount == s.items[y].retryCount
    ensures LoopsOk(s')
  {
    forall i | 0 <= i < |s'.loops| ensures LoopOk(s', s'.loops[i]) { assert LoopOk(s, s.loops[i]); }
  }

  // Messages stay in order when channels are only added or kept and none forgotten.
  lemma KeptMessages(s: State, s': State)
    requires MessagesOk(s) && |s.chans| <= |s'.chans|
    requires forall i :: 0 <= i < |s.chans| ==> s'.chans[i].forChild == s.chans[i].forChild && s'.chans[i].buf == s.chans[i].buf
    requires forall i :: |s.chans| <= i < |s'.chans| ==> s'.chans[i].buf == []
    ensures MessagesOk(s')
  {
    forall i | 0 <= i < |s'.chans| ensures BufferOk(s', s'.chans[i]) {
      if i < |s.chans| {
        assert BufferOk(s, s.chans[i]);
        KeptBuffer(s, s', s.chans[i]);
      }
    }
  }

  lemma KeptBuffer(s: State, s': State, c: Chan)
    requires BufferOk(s, c) && |s.chans| <= |s'.chans|
    requires forall i :: 0 <= i < |s.chans| ==> s'.chans[i].forChild == s.chans[i].forChild
    ensures BufferOk(s', c)
  {
    forall m <- c.buf ensures MessageOk(s', m, c.forChild) { assert MessageOk(s, m, c.forChild); }
  }

  // ---------- sending and closing ----------

  // s' differs from s only in what is in, or known about, channels, and in producers.
  predicate OnlyChans(s: State, s': State) {
    s' == s.(chans := s'.chans, producers := s'.producers)
    && |s.chans| <= |s'.chans|
    && (forall i :: 0 <= i < |s.chans| ==> s'.chans[i].forChild == s.chans[i].forChild)
    && (forall i :: 0 <= i < |s'.producers| ==> s'.producers[i].chan < |s'.chans|)
  }

  lemma OnlyChansSafe(s: State, s': State)
    requires Safe(s) && OnlyChans(s, s') && MessagesOk(s')
    ensures Safe(s')
  {
    assert InBounds(s');
    assert OneLive(s');
    assert LoopsOk(s') by {
      forall i | 0 <= i < |s'.loops| ensures LoopOk(s', s'.loops[i]) { assert LoopOk(s, s.loops[i]); }
    }
  }

  lemma PutMessages(s: State, s': State, c: nat, m: Status)
    requires MessagesOk(s) && |s.chans| <= |s'.chans| && c < |s.chans|
    requires |s.chans[c].buf| < BUFFER_SIZE
    requires forall i :: 0 <= i < |s.chans| && i != c ==> s'.chans[i] == s.chans[i]
    requires s'.chans[c] == Put(s.chans[c], m)
    requires forall i :: |s.chans| <= i < |s'.chans| ==> s'.chans[i].buf == []
    requires MessageOk(s', m, s.chans[c].forChild)
    ensures MessagesOk(s')
  {
    forall i | 0 <= i < |s'.chans| ensures BufferOk(s', s'.chans[i]) {
      if i < |s.chans| {
        assert BufferOk(s, s.chans[i]);
        KeptBuffer(s, s', s.chans[i]);
      }
    }
  }

  lemma SendSafe(s: State, p: nat, m: Status, contract: Contract)
    requires Safe(s) && CanSend(s, p) && MaySend(s, p, m, contract)
    ensures Safe(DoSend(s, p, m))
  {
    var s' := DoSend(s, p, m);
    PutMessages(s, s', s.producers[p].chan, m);
    OnlyChansSafe(s, s');
  }

  lemma SendChildSafe(s: State, p: nat)
    requires Safe(s) && CanSend(s, p)
    ensures Safe(DoSendChild(s, p))
  {
    var c, m := s.producers[p].chan, ChildStatus(|s.chans|);
    var s' := DoSendChild(s, p);
    PutMessages(s, s', c, m);
    OnlyChansSafe(s, s');
  }

  lemma CloseSafe(s: State, p: nat)
    requires Safe(s) && p < |s.producers|
    ensures Safe(DoClose(s, p))
  {
    var s' := DoClose(s, p);
    KeptMessages(s, s');
    OnlyChansSafe(s, s');
  }

  // ---------- dispatching ----------

  lemma DispatchShape(s: State, s': State, w: nat)
    requires Enabled(s, Dispatch(w), Free) && s' == DoDispatch(s, w)
    ensures |s'.items| == |s.items| && |s'.loops| == |s.loops| + 1 && |s'.chans| == |s.chans|
            && |s'.producers| == |s.producers| + 1 && |s'.workers| == |s.workers|
    ensures var x := s.queue.items[0];
            (forall y :: 0 <= y < |s.items| && y != x ==> s'.items[y] == s.items[y])
            && s'.items[x] == s.items[x].(dispatched := s.items[x].dispatched + 1)
            && (forall i :: 0 <= i < |s.chans| && i != s.items[x].chan ==> s'.chans[i] == s.chans[i])
            && s'.chans[s.items[x].chan] == s.chans[s.items[x].chan].(hasProducer := true, hasLoop := true, start := s.items[x].retryCount)
            && s'.loops[|s.loops|] == Loop(x, s.items[x].chan, true, s.items[x].retryCount, [], [])
            && s'.producers[|s.producers|] == Producer(s.items[x].chan, true)
    ensures forall i :: 0 <= i < |s.loops| ==> s'.loops[i] == s.loops[i]
    ensures forall i :: 0 <= i < |s.producers| ==> s'.producers[i] == s.producers[i]
    ensures s'.queue == Get(s.queue) && s'.delayed == s.delayed
    ensures Active(s'.workers[w])
  {
  }

  // Which loops run for whom carries over, with one more.
  predicate OneMore(s: State, s': State, x: nat, processed: bool) {
    && |s'.loops| == |s.loops| + 1 && |s.items| <= |s'.items|
    && (forall i :: 0 <= i < |s.loops| ==> s'.loops[i].item == s.loops[i].item && s'.loops[i].running == s.loops[i].running)
    && (forall y :: 0 <= y < |s.items| ==> s'.items[y].child == s.items[y].child)
    && s'.loops[|s.loops|].item == x && s'.loops[|s.loops|].running
    && s'.queue.processing == s.queue.processing + if processed then {x} else {}
  }

  lemma OneMoreProcessed(s: State, s': State, x: nat, processed: bool)
    requires InBounds(s) && InBounds(s') && LiveProcessed(s) && OneMore(s, s', x, processed)
    requires x < |s'.items| && (processed || s'.items[x].child)
    ensures LiveProcessed(s')
  {
    forall i | 0 <= i < |s'.loops| && s'.loops[i].running && !s'.items[s'.loops[i].item].child
      ensures s'.loops[i].item in s'.queue.processing
    {
      if i < |s.loops| { assert s.loops[i].item in s.queue.processing; }
    }
  }

  lemma OneMoreApart(s: State, s': State, x: nat, processed: bool)
    requires LiveApart(s) && OneMore(s, s', x, processed)
    requires forall i :: 0 <= i < |s.loops| && s.loops[i].running ==> s.loops[i].item != x
    ensures LiveApart(s')
  {
  }

  lemma OneMoreFound(s: State, s': State, x: nat, processed: bool)
    requires ProcessedLive(s) && OneMore(s, s', x, processed)
    ensures ProcessedLive(s')
  {
    forall y <- s'.queue.processing
      ensures exists i :: 0 <= i < |s'.loops| && s'.loops[i].running && s'.loops[i].item == y
    {
      if y !in s.queue.processing {
        assert s'.loops[|s.loops|].item == y;
      } else {
        var i :| 0 <= i < |s.loops| && s.loops[i].running && s.loops[i].item == y;
        assert s'.loops[i].item == y;
      }
    }
  }

  lemma OneMoreLive(s: State, s': State, x: nat, processed: bool)
    requires InBounds(s) && OneLive(s) && InBounds(s') && OneMore(s, s', x, processed)
    requires x < |s'.items| && (processed || s'.items[x].child)
    requires forall i :: 0 <= i < |s.loops| && s.loops[i].running ==> s.loops[i].item != x
    ensures OneLive(s')
  {
    hide LiveProcessed, LiveApart, ProcessedLive, OneMore;
    OneMoreProcessed(s, s', x, processed);
    OneMoreApart(s, s', x, processed);
    OneMoreFound(s, s', x, processed);
  }

  lemma NotRunning(s: State, x: nat)
    requires InBounds(s) && LiveProcessed(s) && x !in s.queue.processing && x < |s.items| && !s.items[x].child
    ensures forall i :: 0 <= i < |s.loops| && s.loops[i].running ==> s.loops[i].item != x
  {
  }

  lemma DispatchLive(s: State, s': State, w: nat)
    requires InBounds(s) && OneLive(s) && QueueOk(s.queue) && Enabled(s, Dispatch(w), Free)
    requires QueueHoldsInformerItems(s)
    requires s' == DoDispatch(s, w) && InBounds(s')
    ensures OneLive(s')
  {
    hide LiveProcessed, LiveApart, ProcessedLive;
    GetOk(s.queue);
    DispatchShape(s, s', w);
    NotRunning(s, s.queue.items[0]);
    OneMoreLive(s, s', s.queue.items[0], true);
  }

  lemma DispatchItems(s: State, s': State, w: nat)
    requires InBounds(s) && KindsAgree(s) && Paid(s) && QueueHoldsInformerItems(s) && QueueOk(s.queue)
    requires Enabled(s, Dispatch(w), Free) && s' == DoDispatch(s, w)
    ensures InBounds(s') && KindsAgree(s') && Paid(s') && QueueHoldsInformerItems(s')
  {
    GetOk(s.queue);
    DispatchShape(s, s', w);
    assert InBounds(s');
  }

  lemma DispatchLoops(s: State, s': State, w: nat)
    requires LoopsOk(s) && Enabled(s, Dispatch(w), Free) && s' == DoDispatch(s, w)
    ensures LoopsOk(s')
  {
    DispatchShape(s, s', w);
    forall i | 0 <= i < |s'.loops| ensures LoopOk(s', s'.loops[i]) {
      if i < |s.loops| { assert LoopOk(s, s.loops[i]); }
    }
  }

  lemma DispatchSafe(s: State, w: nat)
    requires Safe(s) && Enabled(s, Dispatch(w), Free)
    ensures Safe(DoDispatch(s, w))
  {
    var s' := DoDispatch(s, w);
    GetOk(s.queue);
    DispatchShape(s, s', w);
    DispatchItems(s, s', w);
    DispatchLive(s, s', w);
    KeptMessages(s, s');
    DispatchLoops(s, s', w);
  }

  // ---------- the status loop ----------

  lemma EndShape(s: State, s': State, l: nat)
    requires CanEnd(s, l) && s' == DoEnd(s, l)
    ensures |s'.items| == |s.items| && |s'.loops| == |s.loops| && s'.chans == s.chans && s'.producers == s.producers
    ensures var x := s.loops[l].item;
            (forall y :: 0 <= y < |s.items| && y != x ==> s'.items[y] == s.items[y])
            && s'.items[x] == s.items[x].(silent := s.items[x].silent + One(Asks(s.loops[l].consumed) == 0))
            && s'.queue == Done(s.queue, x)
    ensures forall i :: 0 <= i < |s.loops| && i != l ==> s'.loops[i] == s.loops[i]
    ensures s'.loops[l] == s.loops[l].(running := false)
    ensures s'.delayed == s.delayed && s'.workers == s.workers
  {
  }

  lemma EndItems(s: State, s': State, l: nat)
    requires InBounds(s) && KindsAgree(s) && Paid(s) && QueueHoldsInformerItems(s)
    requires CanEnd(s, l) && s' == DoEnd(s, l)
    ensures InBounds(s') && KindsAgree(s') && Paid(s') && QueueHoldsInformerItems(s')
  {
    EndShape(s, s', l);
    assert InBounds(s');
  }

  lemma EndLoops(s: State, s': State, l: nat)
    requires LoopsOk(s) && CanEnd(s, l) && s' == DoEnd(s, l)
    ensures LoopsOk(s')
  {
    EndShape(s, s', l);
    forall i | 0 <= i < |s'.loops| ensures LoopOk(s', s'.loops[i]) { assert LoopOk(s, s.loops[i]); }
  }

  lemma EndSafe(s: State, l: nat)
    requires Safe(s) && CanEnd(s, l)
    ensures Safe(DoEnd(s, l))
  {
    var s' := DoEnd(s, l);
    EndQueue(s, l, s.loops[l].item);
    EndShape(s, s', l);
    EndItems(s, s', l);
    EndLive(s, s', l);
    KeptMessages(s, s');
    EndLoops(s, s', l);
  }

  // A child was never in processing, nor was it ever added.
  lemma EndQueue(s: State, l: nat, x: nat)
    requires Safe(s) && CanEnd(s, l) && x == s.loops[l].item
    ensures QueueOk(Done(s.queue, x))
  {
    if x in s.queue.processing {
      DoneOk(s.queue, x);
    } else {
      assert s.items[x].child;
      assert Done(s.queue, x) == s.queue;
    }
  }

  lemma EndLive(s: State, s': State, l: nat)
    requires InBounds(s) && OneLive(s) && CanEnd(s, l) && InBounds(s')
    requires s' == DoEnd(s, l)
    ensures OneLive(s')
  {
    var x := s.loops[l].item;
    assert forall i :: 0 <= i < |s.loops| ==>
        s'.loops[i] == (if i == l then s.loops[l].(running := false) else s.loops[i]);
    assert forall y :: 0 <= y < |s.items| ==> s'.items[y].child == s.items[y].child;
    forall i | 0 <= i < |s'.loops| && s'.loops[i].running && !s'.items[s'.loops[i].item].child
      ensures s'.loops[i].item in s'.queue.processing
    {
      assert s.loops[i].item in s.queue.processing;
      assert s.loops[i].item != x;
    }
    forall y <- s'.queue.processing
      ensures exists i :: 0 <= i < |s'.loops| && s'.loops[i].running && s'.loops[i].item == y
    {
      var i :| 0 <= i < |s.loops| && s.loops[i].running && s.loops[i].item == y;
      assert i != l;
      assert s'.loops[i].item == y;
    }
  }

  // ---------- receiving ----------

  lemma Snoc(ms: seq<Status>, m: Status, start: nat)
    ensures CountAfter(ms + [m], start)
         == CountAfter(ms, start) + One(EffectOf(m, CountAfter(ms, start)).NotifyAndRetry?)
    ensures CallbacksOf(ms + [m], start)
         == CallbacksOf(ms, start) + match EffectOf(m, CountAfter(ms, start))
                                     case Notify(st) => [st]
                                     case NotifyAndRetry(st, _) => [st]
                                     case _ => []
  {
    assert (ms + [m])[..|ms|] == ms;
  }

  // The chans of s' are those of s after a take, and perhaps fresh ones.
  lemma TakenMessages(s: State, s': State, l: nat)
    requires MessagesOk(s) && CanReceive(s, l) && |s.chans| <= |s'.chans|
    requires forall i :: 0 <= i < |s.chans| ==> s'.chans[i].forChild == s.chans[i].forChild
    requires forall i :: 0 <= i < |s.chans| ==>
      s'.chans[i].buf == if i == s.loops[l].chan then s.chans[i].buf[1..] else s.chans[i].buf
    requires forall i :: |s.chans| <= i < |s'.chans| ==> s'.chans[i].buf == []
    ensures MessagesOk(s')
  {
    forall i | 0 <= i < |s'.chans| ensures BufferOk(s', s'.chans[i]) {
      if i < |s.chans| {
        assert BufferOk(s, s.chans[i]);
        forall m <- s'.chans[i].buf ensures MessageOk(s', m, s'.chans[i].forChild) {
          assert m in s.chans[i].buf;
          assert MessageOk(s, m, s.chans[i].forChild);
        }
      }
    }
  }

  // Loops but for l are as before; l has taken m and acted on it; retry counts
  // changed only for l's item.
  lemma ReceivedLoops(s: State, s': State, l: nat, m: Status)
    requires InBounds(s) && LoopsOk(s) && OneLive(s) && l < |s.loops| && s.loops[l].running
    requires |s.loops| <= |s'.loops| && |s.items| <= |s'.items|
    requires forall i :: 0 <= i < |s.loops| && i != l ==> s'.loops[i] == s.loops[i]
    requires var x := s.loops[l].item;
             && (forall y :: 0 <= y < |s.items| && y != x ==> s'.items[y].retryCount == s.items[y].retryCount)
             && s'.items[x].retryCount == s.items[x].retryCount + One(EffectOf(m, s.items[x].retryCount).NotifyAndRetry?)
             && s'.loops[l] == s.loops[l].(
                  consumed := s.loops[l].consumed + [m],
                  callbacks := s.loops[l].callbacks + match EffectOf(m, s.items[x].retryCount)
                                                      case Notify(st) => [st]
                                                      case NotifyAndRetry(st, _) => [st]
                                                      case _ => [])
    requires forall i :: |s.loops| <= i < |s'.loops| ==> LoopOk(s', s'.loops[i])
    ensures LoopsOk(s')
  {
    var loop := s.loops[l];
    assert LoopOk(s, loop);
    Snoc(loop.consumed, m, loop.start);
    forall i | 0 <= i < |s'.loops| ensures LoopOk(s', s'.loops[i]) {
      if i < |s.loops| && i != l {
        assert LoopOk(s, s.loops[i]);
        assert s.loops[i].running ==> s.loops[i].item != loop.item;
      }
    }
  }

  // Liveness of loops depends on which loops run, for what, and on processing.
  lemma SameLive(s: State, s': State)
    requires InBounds(s) && OneLive(s) && InBounds(s') && |s'.loops| == |s.loops| && |s.items| <= |s'.items|
    requires s'.queue.processing == s.queue.processing
    requires forall i :: 0 <= i < |s.loops| ==> s'.loops[i].item == s.loops[i].item && s'.loops[i].running == s.loops[i].running
    requires forall y :: 0 <= y < |s.items| ==> s'.items[y].child == s.items[y].child
    ensures OneLive(s')
  {
    forall y <- s'.queue.processing
      ensures exists i :: 0 <= i < |s'.loops| && s'.loops[i].running && s'.loops[i].item == y
    {
      var i :| 0 <= i < |s.loops| && s.loops[i].running && s.loops[i].item == y;
      assert s'.loops[i].running && s'.loops[i].item == y;
    }
  }

  lemma SameWorkers(s: State, s': State)
    requires WorkersOk(s) && s'.workers == s.workers
    requires s'.queue.processing == s.queue.processing && s'.queue.drain == s.queue.drain
    requires s'.queue.shuttingDown == s.queue.shuttingDown
    ensures WorkersOk(s')
  {
  }

  lemma TakenItems(s: State, l: nat)
    requires InBounds(s) && KindsAgree(s) && Paid(s) && QueueHoldsInformerItems(s) && CanReceive(s, l)
    ensures var s' := DoTake(s, l); InBounds(s') && KindsAgree(s') && Paid(s') && QueueHoldsInformerItems(s')
  {
    assert InBounds(DoTake(s, l));
  }

  lemma SilentSafe(s: State, l: nat)
    requires Safe(s) && CanReceive(s, l)
    requires EffectOf(s.chans[s.loops[l].chan].buf[0], s.items[s.loops[l].item].retryCount).Silent?
    ensures Safe(DoTake(s, l))
  {
    hide KindsAgree, QueueHoldsInformerItems, MessagesOk, QueueOk, OneLive, Paid, LoopsOk, WorkersOk;
    var s' := DoTake(s, l);
    var m := s.chans[s.loops[l].chan].buf[0];
    SameWorkers(s, s');
    TakenItems(s, l);
    TakenMessages(s, s', l);
    ReceivedLoops(s, s', l, m);
    SameLive(s, s');
  }

  lemma NotifyShape(s: State, s': State, l: nat, st: Status, asked: bool)
    requires CanReceive(s, l) && s' == DoNotify(DoTake(s, l), l, s.loops[l].item, st, asked)
    ensures |s'.items| == |s.items| && |s'.loops| == |s.loops| && |s'.chans| == |s.chans|
    ensures var x := s.loops[l].item;
            (forall y :: 0 <= y < |s.items| && y != x ==> s'.items[y] == s.items[y])
            && s'.items[x] == if asked then s.items[x].(asks := s.items[x].asks + [st], gaveUp := true) else s.items[x]
    ensures forall i :: 0 <= i < |s.chans| ==> s'.chans[i].forChild == s.chans[i].forChild
    ensures forall i :: 0 <= i < |s.chans| ==>
      s'.chans[i].buf == if i == s.loops[l].chan then s.chans[i].buf[1..] else s.chans[i].buf
    ensures forall i :: 0 <= i < |s.loops| && i != l ==> s'.loops[i] == s.loops[i]
    ensures var loop := DoTake(s, l).loops[l]; s'.loops[l] == loop.(callbacks := loop.callbacks + [st])
    ensures s'.queue == s.queue && s'.delayed == s.delayed && s'.producers == s.producers
    ensures s'.workers == s.workers
  {
  }

  lemma NotifyItems(s: State, s': State, l: nat, st: Status, asked: bool)
    requires InBounds(s) && KindsAgree(s) && Paid(s) && QueueHoldsInformerItems(s) && CanReceive(s, l)
    requires s' == DoNotify(DoTake(s, l), l, s.loops[l].item, st, asked)
    ensures InBounds(s') && KindsAgree(s') && Paid(s') && QueueHoldsInformerItems(s')
  {
    NotifyShape(s, s', l, st, asked);
    assert InBounds(s');
    assert Paid(s') by { NotifyPaid(s, s', l, st); }
  }

  lemma NotifyPaid(s: State, s': State, l: nat, st: Status)
    requires Paid(s) && l < |s.loops| && s.loops[l].item < |s.items| && |s'.items| == |s.items|
    requires forall y :: 0 <= y < |s.items| && y != s.loops[l].item ==> s'.items[y] == s.items[y]
    requires var a, b := s.items[s.loops[l].item], s'.items[s.loops[l].item];
             && b.child == a.child && b.dispatched == a.dispatched && b.retryCount == a.retryCount
             && (b.asks == a.asks || b.asks == a.asks + [st])
    requires s'.queue == s.queue && s'.delayed == s.delayed
    ensures Paid(s')
  {
    LargestSnoc(s.items[s.loops[l].item].asks, st);
  }

  lemma NotifySafe(s: State, l: nat)
    requires Safe(s) && CanReceive(s, l)
    requires EffectOf(s.chans[s.loops[l].chan].buf[0], s.items[s.loops[l].item].retryCount).Notify?
    ensures Safe(DoReceive(s, l))
  {
    hide KindsAgree, QueueHoldsInformerItems, MessagesOk, QueueOk, OneLive, Paid, LoopsOk, WorkersOk;
    var s' := DoReceive(s, l);
    var m := s.chans[s.loops[l].chan].buf[0];
    var st := EffectOf(m, s.items[s.loops[l].item].retryCount).status;
    NotifyShape(s, s', l, st, AsksRetry(m));
    NotifyItems(s, s', l, st, AsksRetry(m));
    SameWorkers(s, s');
    TakenMessages(s, s', l);
    ReceivedLoops(s, s', l, m);
    SameLive(s, s');
  }

  lemma RetryShape(s: State, s': State, l: nat, st: Status, later: bool)
    requires CanReceive(s, l) && s' == DoRetry(DoTake(s, l), l, s.loops[l].item, st, later)
    ensures |s'.items| == |s.items| && |s'.loops| == |s.loops| && |s'.chans| == |s.chans| + 1
    ensures var x := s.loops[l].item;
            (forall y :: 0 <= y < |s.items| && y != x ==> s'.items[y] == s.items[y])
            && s'.items[x] == s.items[x].(asks := s.items[x].asks + [st], retryCount := s.items[x].retryCount + 1,
                                          chan := |s.chans|)
    ensures forall i :: 0 <= i < |s.chans| ==> s'.chans[i].forChild == s.chans[i].forChild
    ensures forall i :: 0 <= i < |s.chans| ==>
      s'.chans[i].buf == if i == s.loops[l].chan then s.chans[i].buf[1..] else s.chans[i].buf
    ensures s'.chans[|s.chans|] == NewChan()
    ensures forall i :: 0 <= i < |s.loops| && i != l ==> s'.loops[i] == s.loops[i]
    ensures var loop := DoTake(s, l).loops[l]; s'.loops[l] == loop.(callbacks := loop.callbacks + [st])
    ensures s'.queue == if later then s.queue else Add(s.queue, s.loops[l].item)
    ensures s'.delayed == if later && !s.queue.shuttingDown then s.delayed + {s.loops[l].item} else s.delayed
    ensures s'.producers == s.producers && s'.workers == s.workers
  {
  }

  lemma RetrySafe(s: State, l: nat)
    requires Safe(s) && CanReceive(s, l)
    requires EffectOf(s.chans[s.loops[l].chan].buf[0], s.items[s.loops[l].item].retryCount).NotifyAndRetry?
    ensures Safe(DoReceive(s, l))
  {
    hide KindsAgree, QueueHoldsInformerItems, MessagesOk, QueueOk, OneLive, Paid, LoopsOk, WorkersOk;
    var s' := DoReceive(s, l);
    var m := s.chans[s.loops[l].chan].buf[0];
    var effect := EffectOf(m, s.items[s.loops[l].item].retryCount);
    RetryFromInformer(s, l);
    AddOk(s.queue, s.loops[l].item);
    RetryShape(s, s', l, effect.status, effect.later);
    RetryItems(s, s', l, effect.status, effect.later);
    SameWorkers(s, s');
    TakenMessages(s, s', l);
    ReceivedLoops(s, s', l, m);
    SameLive(s, s');
  }

  // Only an informer item's channel carries a retry request.
  lemma RetryFromInformer(s: State, l: nat)
    requires Safe(s) && CanReceive(s, l)
    requires EffectOf(s.chans[s.loops[l].chan].buf[0], s.items[s.loops[l].item].retryCount).NotifyAndRetry?
    ensures !s.items[s.loops[l].item].child
  {
    var c := s.chans[s.loops[l].chan];
    assert BufferOk(s, c);
    assert c.buf[0] in c.buf;
    assert MessageOk(s, c.buf[0], c.forChild);
  }

  lemma RetryKinds(s: State, s': State, x: nat)
    requires InBounds(s) && KindsAgree(s) && InBounds(s') && x < |s.items| && !s.items[x].child
    requires |s'.items| == |s.items| && |s'.loops| == |s.loops| && |s'.chans| == |s.chans| + 1
    requires forall y :: 0 <= y < |s.items| && y != x ==> s'.items[y] == s.items[y]
    requires s'.items[x].child == s.items[x].child && s'.items[x].chan == |s.chans| && !s'.chans[|s.chans|].forChild
    requires forall i :: 0 <= i < |s.chans| ==> s'.chans[i].forChild == s.chans[i].forChild
    requires forall i :: 0 <= i < |s.loops| ==> s'.loops[i].item == s.loops[i].item && s'.loops[i].chan == s.loops[i].chan
    ensures KindsAgree(s')
  {
  }

  lemma RetryPaid(s: State, s': State, x: nat, st: Status, later: bool)
    requires Paid(s) && x < |s.items| && !s.items[x].child && s.items[x].retryCount < st.maxRetryCount
    requires |s'.items| == |s.items| && forall y :: 0 <= y < |s.items| && y != x ==> s'.items[y] == s.items[y]
    requires s'.items[x].child == s.items[x].child && s'.items[x].dispatched == s.items[x].dispatched
    requires s'.items[x].asks == s.items[x].asks + [st] && s'.items[x].retryCount == s.items[x].retryCount + 1
    requires s'.queue == if later then s.queue else Add(s.queue, x)
    requires s'.delayed == if later && !s.queue.shuttingDown then s.delayed + {x} else s.delayed
    ensures Paid(s')
  {
    LargestSnoc(s.items[x].asks, st);
  }

  lemma RetryQueue(s: State, s': State, x: nat)
    requires QueueHoldsInformerItems(s) && x < |s.items| && !s.items[x].child && |s'.items| == |s.items|
    requires forall y :: 0 <= y < |s.items| ==> s'.items[y].child == s.items[y].child
    requires forall y :: y in s'.queue.dirty || y in s'.queue.processing || y in s'.delayed ==>
      y in s.queue.dirty || y in s.queue.processing || y in s.delayed || y == x
    ensures QueueHoldsInformerItems(s')
  {
  }

  lemma RetryItems(s: State, s': State, l: nat, st: Status, later: bool)
    requires InBounds(s) && KindsAgree(s) && Paid(s) && QueueHoldsInformerItems(s) && CanReceive(s, l)
    requires !s.items[s.loops[l].item].child && s.items[s.loops[l].item].retryCount < st.maxRetryCount
    requires s' == DoRetry(DoTake(s, l), l, s.loops[l].item, st, later)
    ensures InBounds(s') && KindsAgree(s') && Paid(s') && QueueHoldsInformerItems(s')
  {
    hide KindsAgree, Paid, QueueHoldsInformerItems;
    RetryShape(s, s', l, st, later);
    assert InBounds(s');
    RetryKinds(s, s', s.loops[l].item);
    RetryPaid(s, s', s.loops[l].item, st, later);
    RetryQueue(s, s', s.loops[l].item);
  }

  // The announced channel exists and is a child's.
  lemma AdoptedChan(s: State, l: nat)
    requires MessagesOk(s) && CanReceive(s, l)
    requires s.chans[s.loops[l].chan].buf[0].kind == CreateChild
    ensures var m := s.chans[s.loops[l].chan].buf[0];
            m.childChan.Some? && m.childChan.value < |s.chans| && s.chans[m.childChan.value].forChild
  {
    var c := s.chans[s.loops[l].chan];
    assert BufferOk(s, c);
    assert c.buf[0] in c.buf;
    assert MessageOk(s, c.buf[0], c.forChild);
  }

  lemma AdoptShape(s: State, s': State, l: nat, chan: nat)
    requires CanReceive(s, l) && chan < |s.chans| && s' == DoAdopt(DoTake(s, l), s.loops[l].item, chan)
    ensures |s'.items| == |s.items| + 1 && |s'.loops| == |s.loops| + 1 && |s'.chans| == |s.chans|
    ensures forall y :: 0 <= y < |s.items| ==> s'.items[y] == s.items[y]
    ensures forall i :: 0 <= i < |s.chans| ==> s'.chans[i].forChild == s.chans[i].forChild
    ensures forall i :: 0 <= i < |s.chans| ==>
      s'.chans[i].buf == if i == s.loops[l].chan then s.chans[i].buf[1..] else s.chans[i].buf
    ensures forall i :: 0 <= i < |s.loops| && i != l ==> s'.loops[i] == s.loops[i]
    ensures s'.loops[l] == DoTake(s, l).loops[l]
    ensures s'.loops[|s.loops|] == Loop(|s.items|, chan, true, s.items[s.loops[l].item].retryCount, [], [])
    ensures s'.items[|s.items|] == Item(s.items[s.loops[l].item].retryCount, chan, true, 1, [], false, 0)
  {
  }

  lemma AdoptKinds(s: State, s': State, chan: nat)
    requires InBounds(s) && KindsAgree(s) && InBounds(s') && chan < |s.chans| && s.chans[chan].forChild
    requires |s'.items| == |s.items| + 1 && |s'.loops| == |s.loops| + 1 && |s'.chans| == |s.chans|
    requires forall y :: 0 <= y < |s.items| ==> s'.items[y] == s.items[y]
    requires s'.items[|s.items|].child && s'.items[|s.items|].chan == chan
    requires forall i :: 0 <= i < |s.chans| ==> s'.chans[i].forChild == s.chans[i].forChild
    requires forall i :: 0 <= i < |s.loops| ==> s'.loops[i].item == s.loops[i].item && s'.loops[i].chan == s.loops[i].chan
    requires s'.loops[|s.loops|].item == |s.items| && s'.loops[|s.loops|].chan == chan
    ensures KindsAgree(s')
  {
  }

  lemma AdoptPaid(s: State, s': State)
    requires Paid(s) && QueueHoldsInformerItems(s) && |s'.items| == |s.items| + 1
    requires forall y :: 0 <= y < |s.items| ==> s'.items[y] == s.items[y]
    requires s'.items[|s.items|].child && s'.queue == s.queue && s'.delayed == s.delayed
    ensures Paid(s') && QueueHoldsInformerItems(s')
  {
  }

  lemma AdoptItems(s: State, s': State, l: nat, chan: nat)
    requires InBounds(s) && KindsAgree(s) && Paid(s) && QueueHoldsInformerItems(s) && CanReceive(s, l)
    requires chan < |s.chans| && s.chans[chan].forChild && s' == DoAdopt(DoTake(s, l), s.loops[l].item, chan)
    ensures InBounds(s') && KindsAgree(s') && Paid(s') && QueueHoldsInformerItems(s')
  {
    hide KindsAgree, Paid, QueueHoldsInformerItems;
    AdoptShape(s, s', l, chan);
    assert InBounds(s');
    AdoptKinds(s, s', chan);
    AdoptPaid(s, s');
  }

  lemma AdoptSafe(s: State, l: nat)
    requires Safe(s) && CanReceive(s, l)
    requires EffectOf(s.chans[s.loops[l].chan].buf[0], s.items[s.loops[l].item].retryCount).NewChild?
    ensures Safe(DoReceive(s, l))
  {
    hide KindsAgree, QueueHoldsInformerItems, MessagesOk, QueueOk, OneLive, Paid, LoopsOk, WorkersOk;
    var s' := DoReceive(s, l);
    var m := s.chans[s.loops[l].chan].buf[0];
    AdoptedChan(s, l);
    var chan := m.childChan.value;
    AdoptShape(s, s', l, chan);
    AdoptItems(s, s', l, chan);
    TakenMessages(s, s', l);
    ReceivedLoops(s, s', l, m);
    AdoptLive(s, s', l);
    SameWorkers(s, s');
  }

  lemma AdoptLive(s: State, s': State, l: nat)
    requires InBounds(s) && OneLive(s) && CanReceive(s, l) && InBounds(s')
    requires s'.queue == s.queue
    requires |s'.loops| == |s.loops| + 1 && |s'.items| == |s.items| + 1
    requires forall i :: 0 <= i < |s.loops| ==> s'.loops[i].item == s.loops[i].item && s'.loops[i].running == s.loops[i].running
    requires forall y :: 0 <= y < |s.items| ==> s'.items[y].child == s.items[y].child
    requires s'.loops[|s.loops|].item == |s.items| && s'.items[|s.items|].child && s'.loops[|s.loops|].running
    ensures OneLive(s')
  {
    OneMoreLive(s, s', |s.items|, false);
  }

  // ---------- every run ----------

  lemma ReceiveSafe(s: State, l: nat)
    requires Safe(s) && CanReceive(s, l)
    ensures Safe(DoReceive(s, l))
  {
    hide Safe;
    match EffectOf(s.chans[s.loops[l].chan].buf[0], s.items[s.loops[l].item].retryCount) {
      case NewChild(_) => AdoptSafe(s, l);
      case Silent => SilentSafe(s, l);
      case Notify(_) => NotifySafe(s, l);
      case NotifyAndRetry(_, _) => RetrySafe(s, l);
    }
  }

  lemma WorkerSafe(s: State, a: Action)
    requires Safe(s) && Enabled(s, a, Free) && (a.Sync? || a.SyncFails? || a.Release? || a.Quit? || a.Exit?)
    ensures Safe(Step(s, a))
  {
    match a {
      case Sync(w) => WorkerMoves(s, w, Ready, s.queue);
      case SyncFails(w) => WorkerMoves(s, w, Exited, s.queue);
      case Release(w) => WorkerMoves(s, w, Ready, s.queue);
      case Quit(w) => QuitsIdle(s, w);
      case Exit(w) => WorkerMoves(s, w, Exited, s.queue);
    }
  }

  lemma QuitsIdle(s: State, w: nat)
    requires Safe(s) && Enabled(s, Quit(w), Free)
    ensures Safe(Step(s, Quit(w)))
  {
    WorkerMoves(s, w, Draining, ShutDownWithDrain(s.queue));
  }

  lemma StepSafe(s: State, a: Action, contract: Contract)
    requires Safe(s) && Enabled(s, a, contract) && Enabled(s, a, Free)
    ensures Safe(Step(s, a))
  {
    hide Safe, MaySend;
    match a {
      case Inform => InformSafe(s);
      case Dispatch(w) => DispatchSafe(s, w);
      case Send(p, m) => SendSafe(s, p, m, Free);
      case SendChild(p) => SendChildSafe(s, p);
      case Close(p) => CloseSafe(s, p);
      case Receive(l) => ReceiveSafe(s, l);
      case End(l) => EndSafe(s, l);
      case Fire(x) => FireSafe(s, x);
      case ShutDownQueue => ShutDownSafe(s);
      case _ => WorkerSafe(s, a);
    }
  }

  lemma {:induction false} RunSafe(s: State, actions: seq<Action>, contract: Contract)
    requires Safe(s) && AllEnabled(s, actions, contract)
    ensures Safe(Run(s, actions, contract))
    decreases |actions|
  {
    if actions != [] {
      StepSafe(s, actions[0], contract);
      RunSafe(Step(s, actions[0]), actions[1..], contract);
    }
  }

  // ---------- what follows ----------

  // Whatever handlers send, an informer item never has two live attempts, and
  // none at all unless it is in processing.
  lemma AtMostOneLiveAttempt(workers: nat, actions: seq<Action>, contract: Contract, i: nat, j: nat)
    requires AllEnabled(Initial(workers), actions, contract)
    requires var s := Run(Initial(workers), actions, contract);
             i < |s.loops| && j < |s.loops| && s.loops[i].running && s.loops[j].running
             && s.loops[i].item == s.loops[j].item
    ensures i == j
    ensures var s := Run(Initial(workers), actions, contract);
            s.loops[i].item < |s.items| &&
            (!s.items[s.loops[i].item].child ==> s.loops[i].item in s.queue.processing)
  {
    InitialSafe(workers);
    RunSafe(Initial(workers), actions, contract);
  }

  // StopAllControllers waits for every worker of every controller: then nothing
  // is in processing, however late a retry came.
  lemma NothingInProcessingAfterStop(workers: nat, actions: seq<Action>, contract: Contract)
    requires AllEnabled(Initial(workers), actions, contract)
    ensures var s := Run(Initial(workers), actions, contract);
            (forall w :: 0 <= w < |s.workers| ==> s.workers[w].Exited?) ==>
            s.queue.processing == {}
            && forall i :: 0 <= i < |s.loops| && s.loops[i].running && s.loops[i].item < |s.items|
                           ==> s.items[s.loops[i].item].child
  {
    InitialSafe(workers);
    RunSafe(Initial(workers), actions, contract);
  }
}
