// What follows for every calm run of the controller: no attempt has two requests
// granted with one of them for later, and no child asks at all.
module ControllerRuns {
  import opened Wrappers
  import opened WorkQueue
  import opened EventStatus
  import opened Controller
  import opened ControllerSafety
  import opened ControllerWiring
  import opened ControllerCalm

  // ---------- channels ----------

  // No handler ever sends on, or closes, a closed channel.
  lemma NobodyPanics(workers: nat, actions: seq<Action>, p: nat)
    requires AllEnabled(Initial(workers), actions, Calm)
    ensures !Panics(Run(Initial(workers), actions, Calm), p)
  {
    InitialCalm(workers);
    RunCalm(Initial(workers), actions);
  }

  // A retry starts only after the attempts before it have closed their channels,
  // had them drained and called Done; its own channel is open, empty and nobody else's.
  lemma RetryStartsClean(workers: nat, actions: seq<Action>, w: nat)
    requires AllEnabled(Initial(workers), actions, Calm)
    requires Enabled(Run(Initial(workers), actions, Calm), Dispatch(w), Calm)
    ensures var s := Run(Initial(workers), actions, Calm);
            var x := s.queue.items[0];
            var c := s.items[x].chan;
            && x !in s.queue.processing && !s.items[x].child
            && (forall i :: 0 <= i < |s.loops| && s.loops[i].item == x ==>
                  !s.loops[i].running && s.loops[i].chan < |s.chans|
                  && s.chans[s.loops[i].chan].closed && s.chans[s.loops[i].chan].buf == [])
            && !s.chans[c].closed && s.chans[c].sent == []
            && (forall i :: 0 <= i < |s.loops| ==> s.loops[i].chan != c)
            && (forall i :: 0 <= i < |s.producers| ==> s.producers[i].chan != c)
  {
    InitialCalm(workers);
    RunCalm(Initial(workers), actions);
    var s := Run(Initial(workers), actions, Calm);
    var x := s.queue.items[0];
    GetOk(s.queue);
    assert Pending(s, x) && Fresh(s, s.items[x].chan);
    assert ChanOkAt(s, s.items[x].chan);
    LoopsHave(s);
    forall i: nat | i < |s.loops| && s.loops[i].item == x
      ensures !s.loops[i].running && s.loops[i].chan < |s.chans|
              && s.chans[s.loops[i].chan].closed && s.chans[s.loops[i].chan].buf == []
    {
      assert FollowsAt(s, i);
    }
  }

  // Every status is received once, in the order it was sent. The callback gets
  // every reporting status in that order, as it was sent, but for requests, which
  // carry the count and, refused, their other kind.
  lemma ReceivedOnceInOrder(workers: nat, actions: seq<Action>, i: nat)
    requires AllEnabled(Initial(workers), actions, Calm)
    requires i < |Run(Initial(workers), actions, Calm).loops|
    ensures var s := Run(Initial(workers), actions, Calm);
            var l := s.loops[i];
            && l.chan < |s.chans| && s.chans[l.chan].sent == l.consumed + s.chans[l.chan].buf
            && AnsweredInOrder(l.consumed, l.callbacks, l.start)
            && (!l.running ==> s.chans[l.chan].closed && l.consumed == s.chans[l.chan].sent)
  {
    InitialCalm(workers);
    RunCalm(Initial(workers), actions);
    var s := Run(Initial(workers), actions, Calm);
    assert FollowsAt(s, i);
    assert LoopOk(s, s.loops[i]);
    CallbacksAnswer(s.loops[i].consumed, s.loops[i].start);
  }

  predicate Bounded(s: State) { forall c :: 0 <= c < |s.chans| ==> |s.chans[c].buf| <= 5 }

  lemma StepBounded(s: State, a: Action)
    requires Bounded(s) && Enabled(s, a, Free)
    ensures Bounded(Step(s, a))
  {
    match a {
      case Receive(l) => ReceiveBounded(s, l);
      case _ =>
    }
  }

  lemma ReceiveBounded(s: State, l: nat)
    requires Bounded(s) && CanReceive(s, l)
    ensures Bounded(DoReceive(s, l))
  {
    assert Bounded(DoTake(s, l));
  }

  lemma {:induction false} RunBounded(s: State, actions: seq<Action>, contract: Contract)
    requires Bounded(s) && AllEnabled(s, actions, contract)
    ensures Bounded(Run(s, actions, contract))
    decreases |actions|
  {
    hide Enabled, Step, Bounded;
    if actions != [] {
      StepBounded(s, actions[0]);
      RunBounded(Step(s, actions[0]), actions[1..], contract);
    }
  }

  // Whatever handlers send, no channel ever holds more than five statuses.
  lemma NeverOverfull(workers: nat, actions: seq<Action>, contract: Contract, c: nat)
    requires AllEnabled(Initial(workers), actions, contract)
    ensures var s := Run(Initial(workers), actions, contract); c < |s.chans| ==> |s.chans[c].buf| <= 5
  {
    RunBounded(Initial(workers), actions, contract);
  }

  predicate Announces(s: State, p: nat, k: nat, c: nat) {
    p < |s.chans| && k < |s.chans[p].sent| && s.chans[p].sent[k].kind == CreateChild
    && s.chans[p].sent[k].childChan == Some(c)
  }

  // Each announcement names a channel of its own, made for it, and once the
  // announcement has been received exactly one loop ranges over that channel.
  lemma EachChildServedOnce(workers: nat, actions: seq<Action>, p: nat, k: nat)
    requires AllEnabled(Initial(workers), actions, Calm)
    requires var s := Run(Initial(workers), actions, Calm);
             p < |s.chans| && k < |s.chans[p].sent| && s.chans[p].sent[k].kind == CreateChild
    ensures var s := Run(Initial(workers), actions, Calm);
            var m := s.chans[p].sent[k];
            && m.childChan.Some? && p < m.childChan.value < |s.chans| && |s.chans[p].buf| <= |s.chans[p].sent|
            && (forall q: nat, j: nat :: Announces(s, q, j, m.childChan.value) ==> q == p && j == k)
            && ((exists i :: 0 <= i < |s.loops| && s.loops[i].chan == m.childChan.value)
                <==> k < |s.chans[p].sent| - |s.chans[p].buf|)
            && (forall i, j :: 0 <= i < j < |s.loops| ==> s.loops[i].chan != s.loops[j].chan)
  {
    InitialCalm(workers);
    RunCalm(Initial(workers), actions);
    var s := Run(Initial(workers), actions, Calm);
    assert AnnouncesOk(s, p, k) && ChanOkAt(s, p);
    LoopsHave(s);
    var c := s.chans[p].sent[k].childChan;
    forall q: nat, j: nat | Announces(s, q, j, c.value) ensures q == p && j == k { assert AnnouncesOk(s, q, j); }
  }

  // ---------- progress ----------

  // A handler facing a full channel waits for a loop that can move: its own, or
  // the loop of the oldest ancestor whose child has no loop yet.
  lemma {:induction false} FullChannelMoves(s: State, c: nat) returns (l: nat)
    requires CalmInv(s) && c < |s.chans| && s.chans[c].buf != [] && s.chans[c].hasProducer
    ensures CanReceive(s, l)
    decreases c
  {
    assert ChanOkAt(s, c);
    if s.chans[c].hasLoop {
      l :| 0 <= l < |s.loops| && s.loops[l].chan == c;
      assert FollowsAt(s, l);
    } else {
      assert ChildOk(s, c);
      var p, k := s.chans[c].parent, s.chans[c].index;
      assert AnnouncesOk(s, p, k) && ChanOkAt(s, p);
      l := FullChannelMoves(s, p);
    }
  }

  // A running loop has a status to take, or is over, or its handler is still at
  // work and has room to send.
  lemma LoopMoves(s: State, l: nat)
    requires CalmInv(s) && l < |s.loops| && s.loops[l].running
    ensures CanReceive(s, l) || CanEnd(s, l)
            || exists p: nat :: CanSend(s, p) && s.producers[p].chan == s.loops[l].chan
  {
    var c := s.loops[l].chan;
    assert FollowsAt(s, l) && ChanOkAt(s, c);
    if s.chans[c].buf == [] && !s.chans[c].closed {
      var p :| 0 <= p < |s.producers| && s.producers[p].chan == c;
      assert CanSend(s, p);
    }
  }

  // The only steps left are news from outside and handlers closing.
  ghost predicate Stuck(s: State) {
    forall a: Action :: Enabled(s, a, Free) ==> a.Inform? || a.ShutDownQueue? || a.Close?
  }

  lemma StuckLoops(s: State)
    requires CalmInv(s) && Stuck(s)
    ensures forall l: nat :: l < |s.loops| ==> !s.loops[l].running
    ensures forall p: nat :: p < |s.producers| ==> !s.producers[p].open
    ensures s.queue.processing == {}
  {
    forall p: nat ensures !CanSend(s, p) {
      assert CanSend(s, p) ==> Enabled(s, Send(p, WithStatus(NewEventProcessStatus(), Skip)), Free);
    }
    forall l: nat ensures !CanReceive(s, l) && !CanEnd(s, l) {
      assert CanReceive(s, l) ==> Enabled(s, Receive(l), Free);
      assert CanEnd(s, l) ==> Enabled(s, End(l), Free);
    }
    forall l: nat | l < |s.loops| ensures !s.loops[l].running {
      assert !CanReceive(s, l) && !CanEnd(s, l);
      if s.loops[l].running { LoopMoves(s, l); }
    }
    forall p: nat | p < |s.producers| ensures !s.producers[p].open {
      if s.producers[p].open {
        assert !CanSend(s, p);
        var l := FullChannelMoves(s, s.producers[p].chan);
      }
    }
  }

  // A due item and a ready worker make a step, and so do a timer and a worker
  // that waits.
  lemma StuckQueue(s: State)
    requires Safe(s) && Stuck(s) && s.queue.processing == {}
    ensures s.delayed == {}
    ensures s.queue.dirty == {} || forall w :: 0 <= w < |s.workers| ==> s.workers[w].Exited?
  {
    forall x ensures x !in s.delayed { assert x in s.delayed ==> Enabled(s, Fire(x), Free); }
    assert s.queue.dirty != {} ==> s.queue.items != [] by {
      if s.queue.dirty != {} {
        var x :| x in s.queue.dirty;
        assert x in s.queue.items;
      }
    }
    forall w: nat | w < |s.workers| ensures s.workers[w].Exited? || (s.workers[w].Ready? && s.queue.items == []) {
      assert s.queue.items != [] ==> s.queue.items[0] in s.queue.items;
      assert s.workers[w].Syncing? ==> Enabled(s, Sync(w), Free);
      assert s.workers[w].Busy? ==> Enabled(s, Release(w), Free);
      assert s.workers[w].Draining? ==> Enabled(s, Exit(w), Free);
      assert s.workers[w].Ready? && s.queue.items != [] ==> Enabled(s, Dispatch(w), Free);
    }
  }

  // No deadlock: when only news from outside could move anything, every attempt
  // is over, every handler has closed its channel, nothing is in processing,
  // nothing waits for a timer, and nothing is due unless all workers have left.
  lemma StuckMeansFinished(workers: nat, actions: seq<Action>)
    requires AllEnabled(Initial(workers), actions, Calm)
    requires Stuck(Run(Initial(workers), actions, Calm))
    ensures var s := Run(Initial(workers), actions, Calm);
            && (forall p: nat :: p < |s.producers| ==> !s.producers[p].open)
            && (forall l: nat :: l < |s.loops| ==> !s.loops[l].running)
            && s.queue.processing == {} && s.delayed == {}
            && (s.queue.dirty == {} || forall w :: 0 <= w < |s.workers| ==> s.workers[w].Exited?)
  {
    InitialCalm(workers);
    RunCalm(Initial(workers), actions);
    StuckLoops(Run(Initial(workers), actions, Calm));
    StuckQueue(Run(Initial(workers), actions, Calm));
  }
}
