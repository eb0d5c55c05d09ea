// What the callback of an item gets over all its attempts, one after the other.
module ControllerCallbacks {
  import opened Wrappers
  import opened WorkQueue
  import opened EventStatus
  import opened Controller
  import opened ControllerSafety
  import opened ControllerWiring
  import opened ControllerCalm
  import opened ControllerAccounts

  function Requests(ms: seq<Status>): seq<Status> {
    if ms == [] then []
    else Requests(ms[..|ms| - 1]) + if AsksRetry(ms[|ms| - 1]) then [ms[|ms| - 1]] else []
  }

  // The loops' callbacks for item x, in the order the loops were started.
  function CallbacksTo(loops: seq<Loop>, x: nat): seq<Status> {
    if loops == [] then []
    else CallbacksTo(loops[..|loops| - 1], x) + if loops[|loops| - 1].item == x then loops[|loops| - 1].callbacks else []
  }

  // Nothing starts for an item after its running loop.
  predicate RunningIsLast(loops: seq<Loop>) {
    forall i, j :: 0 <= i < j < |loops| && loops[i].running ==> loops[j].item != loops[i].item
  }

  predicate RecordedFor(s: State, x: nat)
    requires x < |s.items|
  {
    Requests(CallbacksTo(s.loops, x)) == s.items[x].asks
  }

  ghost predicate Recorded(s: State) {
    RunningIsLast(s.loops) && forall x: nat :: x < |s.items| ==> RecordedFor(s, x)
  }

  // ---------- how the callbacks of all loops change ----------

  lemma RequestsSnoc(ms: seq<Status>, st: Status)
    ensures Requests(ms + [st]) == Requests(ms) + if AsksRetry(st) then [st] else []
  {
    assert (ms + [st])[..|ms + [st]| - 1] == ms;
  }

  lemma {:induction false} NoLoops(loops: seq<Loop>, x: nat)
    requires forall i :: 0 <= i < |loops| ==> loops[i].item != x
    ensures CallbacksTo(loops, x) == []
    decreases |loops|
  {
    if loops != [] { NoLoops(loops[..|loops| - 1], x); }
  }

  lemma {:induction false} SameCallbacks(loops: seq<Loop>, loops': seq<Loop>, x: nat)
    requires |loops| == |loops'|
    requires forall i :: 0 <= i < |loops| ==>
      loops'[i].item == loops[i].item && (loops[i].item == x ==> loops'[i].callbacks == loops[i].callbacks)
    ensures CallbacksTo(loops', x) == CallbacksTo(loops, x)
    decreases |loops|
  {
    if loops != [] { SameCallbacks(loops[..|loops| - 1], loops'[..|loops| - 1], x); }
  }

  lemma NewLoop(loops: seq<Loop>, l: Loop, x: nat)
    requires l.callbacks == []
    ensures CallbacksTo(loops + [l], x) == CallbacksTo(loops, x)
  {
    assert (loops + [l])[..|loops + [l]| - 1] == loops;
  }

  lemma {:induction false} LastLoopCalls(loops: seq<Loop>, loops': seq<Loop>, l: nat, st: Status)
    requires l < |loops| == |loops'|
    requires forall i :: 0 <= i < |loops| && i != l ==> loops'[i] == loops[i]
    requires loops'[l].item == loops[l].item && loops'[l].callbacks == loops[l].callbacks + [st]
    requires forall j :: l < j < |loops| ==> loops[j].item != loops[l].item
    ensures CallbacksTo(loops', loops[l].item) == CallbacksTo(loops, loops[l].item) + [st]
    decreases |loops|
  {
    var n := |loops| - 1;
    if l == n {
      SameCallbacks(loops[..n], loops'[..n], loops[l].item);
    } else {
      LastLoopCalls(loops[..n], loops'[..n], l, st);
    }
  }

  // ---------- preservation ----------

  // Loops keep their items and callbacks, some may stop.
  predicate Quieter(s: State, s': State) {
    |s'.loops| == |s.loops|
    && forall i :: 0 <= i < |s.loops| ==>
         s'.loops[i].item == s.loops[i].item && s'.loops[i].callbacks == s.loops[i].callbacks
         && (s'.loops[i].running ==> s.loops[i].running)
  }

  lemma QuietRecorded(s: State, s': State)
    requires Recorded(s) && InBounds(s) && Quieter(s, s') && |s.items| <= |s'.items|
    requires forall x :: 0 <= x < |s.items| ==> s'.items[x].asks == s.items[x].asks
    requires forall x :: |s.items| <= x < |s'.items| ==> s'.items[x].asks == []
    ensures Recorded(s')
  {
    forall x: nat | x < |s'.items| ensures RecordedFor(s', x) {
      SameCallbacks(s.loops, s'.loops, x);
      if x < |s.items| { assert RecordedFor(s, x); } else { NoLoops(s.loops, x); }
    }
  }

  // A loop is started, for an item without a running one; items may be added.
  lemma StartRecorded(s: State, s': State, l: Loop)
    requires Recorded(s) && InBounds(s) && l.callbacks == [] && |s.items| <= |s'.items|
    requires |s'.loops| == |s.loops| + 1 && s'.loops[|s.loops|] == l
    requires forall i :: 0 <= i < |s.loops| ==>
      s'.loops[i].item == s.loops[i].item && s'.loops[i].callbacks == s.loops[i].callbacks
      && s'.loops[i].running == s.loops[i].running && (s.loops[i].running ==> s.loops[i].item != l.item)
    requires forall x :: 0 <= x < |s.items| ==> s'.items[x].asks == s.items[x].asks
    requires forall x :: |s.items| <= x < |s'.items| ==> s'.items[x].asks == []
    ensures Recorded(s')
  {
    var before := s'.loops[..|s.loops|];
    assert s'.loops == before + [l];
    forall x: nat | x < |s'.items| ensures RecordedFor(s', x) {
      NewLoop(before, l, x);
      SameCallbacks(s.loops, before, x);
      if x < |s.items| { assert RecordedFor(s, x); } else { NoLoops(s.loops, x); }
    }
  }

  // The running loop l calls back with st, which answers m.
  lemma CallRecorded(s: State, s': State, l: nat, st: Status, asked: bool)
    requires Recorded(s) && InBounds(s) && l < |s.loops| && s.loops[l].running && asked == AsksRetry(st)
    requires |s'.loops| == |s.loops| && |s'.items| == |s.items|
    requires forall i :: 0 <= i < |s.loops| && i != l ==> s'.loops[i] == s.loops[i]
    requires s'.loops[l].item == s.loops[l].item && s'.loops[l].callbacks == s.loops[l].callbacks + [st]
    requires s'.loops[l].running
    requires forall x :: 0 <= x < |s.items| ==>
      s'.items[x].asks == s.items[x].asks + if asked && x == s.loops[l].item then [st] else []
    ensures Recorded(s')
  {
    forall x: nat | x < |s'.items| ensures RecordedFor(s', x) {
      assert RecordedFor(s, x);
      if x == s.loops[l].item {
        LastLoopCalls(s.loops, s'.loops, l, st);
        RequestsSnoc(CallbacksTo(s.loops, x), st);
      } else {
        SameCallbacks(s.loops, s'.loops, x);
      }
    }
  }

  lemma DispatchRecorded(s: State, w: nat)
    requires Safe(s) && Recorded(s) && Enabled(s, Dispatch(w), Free)
    ensures Recorded(DoDispatch(s, w))
  {
    var s' := DoDispatch(s, w);
    DispatchShape(s, s', w);
    GetOk(s.queue);
    assert s.queue.items[0] in s.queue.dirty;
    StartRecorded(s, s', s'.loops[|s.loops|]);
  }

  lemma AdoptRecorded(s: State, l: nat)
    requires Safe(s) && Recorded(s) && CanReceive(s, l)
    requires EffectOf(s.chans[s.loops[l].chan].buf[0], s.items[s.loops[l].item].retryCount).NewChild?
    ensures Recorded(DoReceive(s, l))
  {
    var s' := DoReceive(s, l);
    AdoptedChan(s, l);
    AdoptShape(s, s', l, s.chans[s.loops[l].chan].buf[0].childChan.value);
    StartRecorded(s, s', s'.loops[|s.loops|]);
  }

  lemma ReceiveRecorded(s: State, l: nat)
    requires Safe(s) && Recorded(s) && CanReceive(s, l)
    ensures Recorded(DoReceive(s, l))
  {
    hide KindsAgree, QueueHoldsInformerItems, MessagesOk, QueueOk, OneLive, Paid, LoopsOk, WorkersOk, Recorded;
    var s' := DoReceive(s, l);
    var m := s.chans[s.loops[l].chan].buf[0];
    match EffectOf(m, s.items[s.loops[l].item].retryCount) {
      case NewChild(_) => AdoptRecorded(s, l);
      case Silent => QuietRecorded(s, s');
      case Notify(st) =>
        NotifyShape(s, s', l, st, AsksRetry(m));
        CallRecorded(s, s', l, st, AsksRetry(m));
      case NotifyAndRetry(st, later) =>
        RetryShape(s, s', l, st, later);
        CallRecorded(s, s', l, st, true);
    }
  }

  lemma OthersRecorded(s: State, a: Action)
    requires InBounds(s) && Recorded(s) && Enabled(s, a, Free) && !a.Dispatch? && !a.Receive?
    ensures Recorded(Step(s, a))
  {
    hide Recorded, MaySend;
    if a.End? { EndShape(s, DoEnd(s, a.l), a.l); }
    QuietRecorded(s, Step(s, a));
  }

  lemma StepRecorded(s: State, a: Action)
    requires Safe(s) && Recorded(s) && Enabled(s, a, Free)
    ensures Recorded(Step(s, a))
  {
    hide KindsAgree, QueueHoldsInformerItems, MessagesOk, QueueOk, OneLive, Paid, LoopsOk, WorkersOk, Recorded, MaySend;
    match a {
      case Dispatch(w) => DispatchRecorded(s, w);
      case Receive(l) => ReceiveRecorded(s, l);
      case _ => OthersRecorded(s, a);
    }
  }

  lemma {:induction false} RunRecorded(s: State, actions: seq<Action>, contract: Contract)
    requires Safe(s) && Recorded(s) && AllEnabled(s, actions, contract)
    ensures Recorded(Run(s, actions, contract))
    decreases |actions|
  {
    if actions != [] {
      StepSafe(s, actions[0], contract);
      StepRecorded(s, actions[0]);
      RunRecorded(Step(s, actions[0]), actions[1..], contract);
    }
  }

  // ---------- what the callback got ----------

  // The item is between attempts, with no attempt to come.
  predicate Settled(s: State, x: nat) { x !in s.queue.processing && !Pending(s, x) }

  // Every answer to a retry request of the item, in the order the callback got them.
  function Answers(s: State, x: nat): seq<Status> { Requests(CallbacksTo(s.loops, x)) }

  // Retrying ends, whatever handlers send: attempts never exceed one more than
  // the largest limit among the answers to the item's own requests.
  lemma AttemptsBounded(workers: nat, actions: seq<Action>, contract: Contract, x: nat)
    requires AllEnabled(Initial(workers), actions, contract)
    ensures var s := Run(Initial(workers), actions, contract);
            x < |s.items| && !s.items[x].child ==> s.items[x].dispatched <= 1 + Largest(Answers(s, x))
  {
    InitialSafe(workers);
    RunSafe(Initial(workers), actions, contract);
    RunRecorded(Initial(workers), actions, contract);
    var s := Run(Initial(workers), actions, contract);
    if x < |s.items| { assert RecordedFor(s, x); }
  }

  // ---------- where an answer comes from ----------

  lemma {:induction false} RequestsAmong(ms: seq<Status>, st: Status)
    requires st in Requests(ms)
    ensures st in ms && AsksRetry(st)
    decreases |ms|
  {
    var n := |ms| - 1;
    if st in Requests(ms[..n]) { RequestsAmong(ms[..n], st); }
  }

  lemma {:induction false} CalledByALoop(loops: seq<Loop>, x: nat, st: Status) returns (i: nat)
    requires st in CallbacksTo(loops, x)
    ensures i < |loops| && loops[i].item == x && st in loops[i].callbacks
    decreases |loops|
  {
    var n := |loops| - 1;
    if st in CallbacksTo(loops[..n], x) {
      i := CalledByALoop(loops[..n], x, st);
    } else {
      i := n;
    }
  }

  // A granted request is answered with the kind it was sent with.
  lemma {:induction false} GrantedKeepsKind(ms: seq<Status>, start: nat, st: Status) returns (m: Status)
    requires st in CallbacksOf(ms, start) && AsksRetry(st) && st.retryCount < st.maxRetryCount
    ensures m in ms && AsksRetry(m) && m.kind == st.kind
    decreases |ms|
  {
    var n := |ms| - 1;
    if st in CallbacksOf(ms[..n], start) {
      m := GrantedKeepsKind(ms[..n], start, st);
    } else {
      m := ms[n];
    }
  }

  // No attempt of the item sent a request that says the controller has given up.
  predicate NoneMarked(s: State, x: nat) {
    forall i :: 0 <= i < |s.loops| && s.loops[i].item == x && s.loops[i].chan < |s.chans| ==>
      forall m <- s.chans[s.loops[i].chan].sent :: AsksRetry(m) ==> m.kind != MaxRetryReached
  }

  lemma GrantedUnmarked(s: State, x: nat, k: nat)
    requires Inv(s) && NoneMarked(s, x) && k < |Answers(s, x)|
    requires Answers(s, x)[k].retryCount < Answers(s, x)[k].maxRetryCount
    ensures Answers(s, x)[k].kind != MaxRetryReached
  {
    var st := Answers(s, x)[k];
    RequestsAmong(CallbacksTo(s.loops, x), st);
    var i := CalledByALoop(s.loops, x, st);
    var l := s.loops[i];
    assert LoopOk(s, l) && FollowsAt(s, i);
    var m := GrantedKeepsKind(l.consumed, l.start, st);
    assert m in s.chans[l.chan].sent;
  }

  // ---------- exact accounts ----------

  lemma ReachedAccounts(workers: nat, actions: seq<Action>, x: nat)
    requires AllEnabled(Initial(workers), actions, Once)
    requires var s := Run(Initial(workers), actions, Once); x < |s.items| && !s.items[x].child
    ensures var s := Run(Initial(workers), actions, Once); Inv(s) && ItemOk(s, x) && RecordedFor(s, x)
  {
    InitialInv(workers);
    RunInv(Initial(workers), actions);
    RunRecorded(Initial(workers), actions, Once);
    assert ItemPaid(Run(Initial(workers), actions, Once), x);
  }

  lemma Exactly(s: State, x: nat, M: nat)
    requires x < |s.items| && ItemOk(s, x) && RecordedFor(s, x) && !s.queue.shuttingDown && Settled(s, x)
    requires s.items[x].silent == 0 && forall m <- Answers(s, x) :: m.maxRetryCount == M
    ensures s.items[x].dispatched == M + 1 == |Answers(s, x)|
    ensures forall k :: 0 <= k <= M ==> Answers(s, x)[k].retryCount == k
    ensures Answers(s, x)[M].kind == MaxRetryReached
  {
    var item := s.items[x];
    assert item.gaveUp && item.asks[item.retryCount].maxRetryCount <= item.retryCount;
    assert item.retryCount > 0 ==> item.asks[item.retryCount - 1].maxRetryCount > item.retryCount - 1;
  }

  // If every attempt asks for a retry with limit M and the queue still accepts
  // items, there are exactly M + 1 attempts, and the callback got exactly M + 1
  // answers: retry counts 0 to M in order, the last MaxRetryReached, and only the
  // last, unless a handler marked its own request so.
  lemma ExactRetries(workers: nat, actions: seq<Action>, x: nat, M: nat)
    requires AllEnabled(Initial(workers), actions, Once)
    requires var s := Run(Initial(workers), actions, Once);
             && x < |s.items| && !s.items[x].child && !s.queue.shuttingDown && Settled(s, x)
             && s.items[x].silent == 0
             && forall m <- Answers(s, x) :: m.maxRetryCount == M
    ensures var s := Run(Initial(workers), actions, Once);
            var answers := Answers(s, x);
            && s.items[x].dispatched == M + 1 == |answers|
            && (forall k :: 0 <= k <= M ==> answers[k].retryCount == k)
            && answers[M].kind == MaxRetryReached
            && (NoneMarked(s, x) ==> forall k :: 0 <= k < M ==> answers[k].kind != MaxRetryReached)
  {
    ReachedAccounts(workers, actions, x);
    var s := Run(Initial(workers), actions, Once);
    Exactly(s, x, M);
    if NoneMarked(s, x) {
      forall k | 0 <= k < M ensures Answers(s, x)[k].kind != MaxRetryReached {
        assert Answers(s, x)[k] in Answers(s, x);
        GrantedUnmarked(s, x, k);
      }
    }
  }

  lemma Settling(s: State, x: nat)
    requires x < |s.items| && ItemOk(s, x) && RecordedFor(s, x) && !s.queue.shuttingDown && Settled(s, x)
    ensures var item, answers := s.items[x], Answers(s, x);
            && item.dispatched == 1 + item.retryCount == |answers| + item.silent
            && item.silent + One(item.gaveUp) == 1
            && forall k :: 0 <= k < |answers| ==>
                 answers[k].retryCount == k && (k < answers[k].maxRetryCount <==> k < item.retryCount)
  {
  }

  // Whatever the limits asked for: once settled, each attempt was the first or
  // was granted, each granted request had a limit above its retry count, and the
  // item stopped because an attempt was silent or was refused.
  lemma SettledAccounts(workers: nat, actions: seq<Action>, x: nat)
    requires AllEnabled(Initial(workers), actions, Once)
    requires var s := Run(Initial(workers), actions, Once);
             x < |s.items| && !s.items[x].child && !s.queue.shuttingDown && Settled(s, x)
    ensures var s := Run(Initial(workers), actions, Once);
            var item, answers := s.items[x], Answers(s, x);
            && item.dispatched == 1 + item.retryCount == |answers| + item.silent
            && item.silent + One(item.gaveUp) == 1
            && forall k :: 0 <= k < |answers| ==>
                 answers[k].retryCount == k && (k < answers[k].maxRetryCount <==> k < item.retryCount)
  {
    ReachedAccounts(workers, actions, x);
    Settling(Run(Initial(workers), actions, Once), x);
  }
}
