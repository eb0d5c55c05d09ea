// The accounts of every run in which no attempt asks for a retry twice: how many
// attempts each item makes, and how its requests are answered.
module ControllerAccounts {
  import opened Wrappers
  import opened WorkQueue
  import opened EventStatus
  import opened Controller
  import opened ControllerSafety
  import opened ControllerWiring
  import opened ControllerCalm

  // ---------- what is asked ----------

  // No attempt asks twice.
  predicate AsksOnceAt(s: State, i: nat)
    requires i < |s.chans|
  {
    Asks(s.chans[i].sent) <= 1
  }

  predicate AsksOnce(s: State) { forall i: nat :: i < |s.chans| ==> AsksOnceAt(s, i) }


  lemma PutAsks(s: State, s': State, d: nat, m: Status)
    requires AsksOnce(s) && d < |s.chans| <= |s'.chans| && s'.chans[d].sent == s.chans[d].sent + [m]
    requires AsksRetry(m) ==> Asks(s.chans[d].sent) == 0
    requires forall i :: 0 <= i < |s.chans| && i != d ==> s'.chans[i].sent == s.chans[i].sent
    requires forall i :: |s.chans| <= i < |s'.chans| ==> s'.chans[i].sent == []
    ensures AsksOnce(s')
  {
    forall i: nat | i < |s'.chans| ensures AsksOnceAt(s', i) {
      if i < |s.chans| {
        assert AsksOnceAt(s, i);
        if i == d { AsksAppend(s.chans[d].sent, [m]); }
      }
    }
  }

  lemma SameAsks(s: State, s': State)
    requires AsksOnce(s) && |s.chans| <= |s'.chans|
    requires forall i :: 0 <= i < |s.chans| ==> s'.chans[i].sent == s.chans[i].sent
    requires forall i :: |s.chans| <= i < |s'.chans| ==> s'.chans[i].sent == []
    ensures AsksOnce(s')
  {
    forall i: nat | i < |s'.chans| ensures AsksOnceAt(s', i) { if i < |s.chans| { assert AsksOnceAt(s, i); } }
  }


  // ---------- accounting ----------

  // The k-th request was answered with retry count k; all but a last, refused
  // one were granted.
  predicate AsksOk(i: Item) {
    |i.asks| == i.retryCount + One(i.gaveUp)
    && (forall k :: 0 <= k < |i.asks| ==> i.asks[k].retryCount == k)
    && (forall k :: 0 <= k < i.retryCount ==> k < i.asks[k].maxRetryCount)
    && (i.gaveUp ==> i.asks[i.retryCount].maxRetryCount <= i.retryCount
                     && i.asks[i.retryCount].kind == MaxRetryReached)
  }

  // No attempt after giving up; attempts made and due are 1 + retries granted;
  // between attempts each attempt made has asked or has been silent.
  predicate ItemOk(s: State, x: nat)
    requires x < |s.items|
  {
    var item := s.items[x];
    AsksOk(item)
    && (item.gaveUp ==> !Pending(s, x))
    && (!s.queue.shuttingDown ==> item.dispatched + One(Pending(s, x)) == 1 + item.retryCount)
    && (x !in s.queue.processing ==> item.dispatched == |item.asks| + item.silent)
  }

  predicate ItemPaid(s: State, x: nat)
    requires x < |s.items|
  {
    !s.items[x].child ==> ItemOk(s, x)
  }

  // A running attempt has asked or is still booked apart; it has to ask before
  // its item is due again.
  predicate LoopPaid(s: State, i: nat)
    requires i < |s.loops|
  {
    var l := s.loops[i];
    l.running && l.item < |s.items| && !s.items[l.item].child ==>
      var item := s.items[l.item];
      && item.dispatched == |item.asks| + item.silent + One(Asks(l.consumed) == 0)
      && (item.gaveUp ==> Asks(l.consumed) > 0)
      && (Pending(s, l.item) ==> Asks(l.consumed) > 0)
  }

  predicate ItemsPaid(s: State) { forall x: nat :: x < |s.items| ==> ItemPaid(s, x) }
  predicate LoopsPaid(s: State) { forall i: nat :: i < |s.loops| ==> LoopPaid(s, i) }

  predicate Accounted(s: State) { AsksOnce(s) && ItemsPaid(s) && LoopsPaid(s) }

  ghost predicate Inv(s: State) { CalmInv(s) && Accounted(s) }

  lemma InitialInv(workers: nat)
    ensures Inv(Initial(workers))
  {
    InitialCalm(workers);
  }

  // Asking once is calm.
  lemma OnceIsCalm(s: State, a: Action)
    requires Inv(s) && Enabled(s, a, Once)
    ensures Enabled(s, a, Calm) && Enabled(s, a, Free)
  {
    if a.Send? {
      var c := s.producers[a.p].chan;
      assert AsksOnceAt(s, c);
      AsksSnoc(s.chans[c].sent, a.m);
      GrantsAreAsked(s.chans[c].sent + [a.m], s.chans[c].start);
    }
  }

  lemma AsksSnoc(ms: seq<Status>, m: Status)
    ensures Asks(ms + [m]) == Asks(ms) + One(AsksRetry(m))
  {
    assert (ms + [m])[..|ms + [m]| - 1] == ms;
  }

  // ---------- queue, workers, handlers ----------

  // Nothing becomes due, and while adding works nothing stops being due.
  lemma StillPaid(s: State, s': State)
    requires ItemsPaid(s) && LoopsPaid(s)
    requires s'.items == s.items && s'.loops == s.loops && s'.queue.processing == s.queue.processing
    requires forall x :: Pending(s', x) ==> Pending(s, x)
    requires !s'.queue.shuttingDown ==> !s.queue.shuttingDown && forall x :: Pending(s, x) ==> Pending(s', x)
    ensures ItemsPaid(s') && LoopsPaid(s')
  {
    forall x: nat | x < |s'.items| ensures ItemPaid(s', x) { assert ItemPaid(s, x); }
    forall i: nat | i < |s'.loops| ensures LoopPaid(s', i) { assert LoopPaid(s, i); }
  }

  lemma InformPaid(s: State)
    requires Safe(s) && ItemsPaid(s) && LoopsPaid(s)
    ensures ItemsPaid(DoInform(s)) && LoopsPaid(DoInform(s))
  {
    var s' := DoInform(s);
    var n := |s.items|;
    assert forall x: nat :: x < n ==> s'.items[x] == s.items[x] && Pending(s', x) == Pending(s, x);
    assert !Pending(s, n) && n !in s.queue.processing;
    forall x: nat | x < |s'.items| ensures ItemPaid(s', x) { if x < n { assert ItemPaid(s, x); } }
    forall i: nat | i < |s'.loops| ensures LoopPaid(s', i) { assert LoopPaid(s, i); }
  }

  lemma HandlerAccounted(s: State, a: Action)
    requires Inv(s) && Enabled(s, a, Once) && Enabled(s, a, Free) && (a.Send? || a.SendChild? || a.Close?)
    ensures Accounted(Step(s, a))
  {
    hide CalmInv, ItemsPaid, LoopsPaid;
    var s' := Step(s, a);
    HandlerShape(s, a);
    assert ItemsPaid(s') && LoopsPaid(s') by { StillPaid(s, s'); }
    assert AsksOnce(s') by {
      match a {
        case Send(p, m) => PutAsks(s, s', s.producers[p].chan, m);
        case SendChild(p) => PutAsks(s, s', s.producers[p].chan, ChildStatus(|s.chans|));
        case Close(p) => SameAsks(s, s');
      }
    }
  }

  // ---------- an attempt starts ----------

  lemma DispatchPaid(s: State, s': State, w: nat)
    requires InBounds(s) && OneLive(s) && QueueOk(s.queue) && QueueHoldsInformerItems(s) && DueOnce(s)
    requires ItemsPaid(s) && LoopsPaid(s) && Enabled(s, Dispatch(w), Free) && s' == DoDispatch(s, w)
    ensures ItemsPaid(s') && LoopsPaid(s')
  {
    var x := s.queue.items[0];
    GetOk(s.queue);
    DispatchShape(s, s', w);
    assert !Pending(s', x) && Pending(s, x) && ItemPaid(s, x);
    assert forall y: nat :: y != x ==> Pending(s', y) == Pending(s, y);
    assert forall i: nat :: i < |s.loops| && s.loops[i].running ==> s.loops[i].item != x;
    forall y: nat | y < |s'.items| ensures ItemPaid(s', y) { assert ItemPaid(s, y); }
    forall i: nat | i < |s'.loops| ensures LoopPaid(s', i) { if i < |s.loops| { assert LoopPaid(s, i); } }
  }

  // ---------- an attempt ends ----------

  lemma EndPaid(s: State, s': State, l: nat)
    requires InBounds(s) && OneLive(s) && ItemsPaid(s) && LoopsPaid(s) && CanEnd(s, l) && s' == DoEnd(s, l)
    ensures ItemsPaid(s') && LoopsPaid(s')
  {
    EndShape(s, s', l);
    assert LoopPaid(s, l);
    assert forall i :: 0 <= i < |s.loops| && s'.loops[i].running ==> s.loops[i].item != s.loops[l].item;
    assert LiveProcessed(s);
    hide OneLive, LiveApart, ProcessedLive;
    forall y: nat | y < |s'.items| ensures ItemPaid(s', y) { assert ItemPaid(s, y); }
    forall i: nat | i < |s'.loops| ensures LoopPaid(s', i) { assert LoopPaid(s, i); }
  }

  // ---------- the status loop ----------

  // A status that asks for nothing is taken; children may be added.
  lemma QuietPaid(s: State, s': State, l: nat, m: Status)
    requires InBounds(s) && ItemsPaid(s) && LoopsPaid(s) && l < |s.loops| && !AsksRetry(m)
    requires s'.queue == s.queue && s'.delayed == s.delayed
    requires |s.items| <= |s'.items| && forall x :: 0 <= x < |s.items| ==> s'.items[x] == s.items[x]
    requires forall x :: |s.items| <= x < |s'.items| ==> s'.items[x].child
    requires |s.loops| <= |s'.loops| && forall i :: 0 <= i < |s.loops| && i != l ==> s'.loops[i] == s.loops[i]
    requires s'.loops[l].item == s.loops[l].item && s'.loops[l].running == s.loops[l].running
    requires s'.loops[l].consumed == s.loops[l].consumed + [m]
    requires forall i :: |s.loops| <= i < |s'.loops| ==> |s.items| <= s'.loops[i].item < |s'.items|
    ensures ItemsPaid(s') && LoopsPaid(s')
  {
    AsksSnoc(s.loops[l].consumed, m);
    forall x: nat | x < |s'.items| ensures ItemPaid(s', x) { if x < |s.items| { assert ItemPaid(s, x); } }
    forall i: nat | i < |s'.loops| ensures LoopPaid(s', i) { if i < |s.loops| { assert LoopPaid(s, i); } }
  }

  // The status about to be taken is the first request of its attempt.
  lemma FirstAsk(s: State, l: nat)
    requires Safe(s) && Wired(s) && AsksOnce(s) && CanReceive(s, l) && AsksRetry(s.chans[s.loops[l].chan].buf[0])
    ensures Asks(s.loops[l].consumed) == 0 && !s.items[s.loops[l].item].child
  {
    var d := s.loops[l].chan;
    var c := s.chans[d];
    assert FollowsAt(s, l) && AsksOnceAt(s, d);
    assert c.buf == [c.buf[0]] + c.buf[1..];
    AsksAppend(s.loops[l].consumed, c.buf);
    AsksAppend([c.buf[0]], c.buf[1..]);
    AsksSnoc([], c.buf[0]);
    assert [] + [c.buf[0]] == [c.buf[0]];
    assert BufferOk(s, c) && c.buf[0] in c.buf;
    assert MessageOk(s, c.buf[0], c.forChild);
  }

  // Loop l has taken the request m, answered with st: refused for good, or granted.
  predicate Answered(s: State, s': State, l: nat, m: Status, st: Status, granted: bool) {
    && l < |s.loops| && s.loops[l].item < |s.items|
    && s'.queue.processing == s.queue.processing && s'.queue.shuttingDown == s.queue.shuttingDown
    && |s'.items| == |s.items| && |s'.loops| == |s.loops|
    && (forall i :: 0 <= i < |s.loops| && i != l ==> s'.loops[i] == s.loops[i])
    && s'.loops[l].item == s.loops[l].item && s'.loops[l].running && s'.loops[l].consumed == s.loops[l].consumed + [m]
    && var x := s.loops[l].item;
       && (forall y: nat :: y < |s.items| && y != x ==> s'.items[y] == s.items[y])
       && s'.items[x].asks == s.items[x].asks + [st] && s'.items[x].child == s.items[x].child
       && s'.items[x].retryCount == s.items[x].retryCount + One(granted)
       && s'.items[x].gaveUp == (!granted || s.items[x].gaveUp)
       && s'.items[x].dispatched == s.items[x].dispatched && s'.items[x].silent == s.items[x].silent
  }

  // Only a granted request makes its item due.
  ghost predicate DueAgain(s: State, s': State, x: nat, granted: bool) {
    && (forall y: nat :: y != x ==> Pending(s', y) == Pending(s, y))
    && (Pending(s', x) ==> granted) && (granted && !s.queue.shuttingDown ==> Pending(s', x))
  }

  lemma AnswerPaid(s: State, s': State, l: nat, m: Status, st: Status, granted: bool)
    requires ItemsPaid(s) && LoopsPaid(s) && InBounds(s) && OneLive(s)
    requires Answered(s, s', l, m, st, granted) && DueAgain(s, s', s.loops[l].item, granted)
    requires s.loops[l].running && AsksRetry(m)
    requires Asks(s.loops[l].consumed) == 0 && !s.items[s.loops[l].item].child
    requires st.retryCount == s.items[s.loops[l].item].retryCount
    requires granted ==> st.retryCount < st.maxRetryCount
    requires !granted ==> st.maxRetryCount <= st.retryCount && st.kind == MaxRetryReached
    ensures ItemsPaid(s') && LoopsPaid(s')
  {
    var x := s.loops[l].item;
    AsksSnoc(s.loops[l].consumed, m);
    assert ItemPaid(s, x) && LoopPaid(s, l);
    assert ItemPaid(s', x);
    forall y: nat | y < |s'.items| ensures ItemPaid(s', y) { if y != x { assert ItemPaid(s, y); } }
    forall i: nat | i < |s'.loops| ensures LoopPaid(s', i) {
      assert LoopPaid(s, i);
      assert i != l && s.loops[i].running ==> s.loops[i].item != x;
    }
  }

  lemma SilentPaid(s: State, l: nat)
    requires Inv(s) && CanReceive(s, l)
    requires EffectOf(s.chans[s.loops[l].chan].buf[0], s.items[s.loops[l].item].retryCount).Silent?
    ensures ItemsPaid(DoTake(s, l)) && LoopsPaid(DoTake(s, l))
  {
    QuietPaid(s, DoTake(s, l), l, s.chans[s.loops[l].chan].buf[0]);
  }

  lemma RefusalAnswers(s: State, s': State, l: nat, m: Status, st: Status)
    requires CanReceive(s, l) && m == s.chans[s.loops[l].chan].buf[0] && s' == DoReceive(s, l)
    requires EffectOf(m, s.items[s.loops[l].item].retryCount) == Notify(st) && AsksRetry(m)
    requires !Pending(s, s.loops[l].item)
    ensures Answered(s, s', l, m, st, false) && DueAgain(s, s', s.loops[l].item, false)
  {
    NotifyShape(s, s', l, st, true);
  }

  lemma NotifyPaid(s: State, l: nat)
    requires Inv(s) && CanReceive(s, l)
    requires EffectOf(s.chans[s.loops[l].chan].buf[0], s.items[s.loops[l].item].retryCount).Notify?
    ensures ItemsPaid(DoReceive(s, l)) && LoopsPaid(DoReceive(s, l))
  {
    var s' := DoReceive(s, l);
    var m := s.chans[s.loops[l].chan].buf[0];
    var st := EffectOf(m, s.items[s.loops[l].item].retryCount).status;
    if AsksRetry(m) { FirstAsk(s, l); }
    assert LoopPaid(s, l);
    hide Connected, DueOnce, AllHarmless, AttemptsOk, AsksOnce, ItemsPaid, LoopsPaid;
    hide KindsAgree, QueueHoldsInformerItems, MessagesOk, QueueOk, OneLive, Paid, LoopsOk, WorkersOk;
    if AsksRetry(m) {
      RefusalAnswers(s, s', l, m, st);
      AnswerPaid(s, s', l, m, st, false);
    } else {
      NotifyShape(s, s', l, st, false);
      QuietPaid(s, s', l, m);
    }
  }

  lemma RetryAnswers(s: State, s': State, l: nat, m: Status, st: Status, later: bool)
    requires CanReceive(s, l) && m == s.chans[s.loops[l].chan].buf[0] && s' == DoReceive(s, l)
    requires EffectOf(m, s.items[s.loops[l].item].retryCount) == NotifyAndRetry(st, later)
    ensures Answered(s, s', l, m, st, true) && DueAgain(s, s', s.loops[l].item, true)
  {
    RetryShape(s, s', l, st, later);
  }

  lemma RetryPaid(s: State, l: nat)
    requires Inv(s) && CanReceive(s, l)
    requires EffectOf(s.chans[s.loops[l].chan].buf[0], s.items[s.loops[l].item].retryCount).NotifyAndRetry?
    ensures ItemsPaid(DoReceive(s, l)) && LoopsPaid(DoReceive(s, l))
  {
    var s' := DoReceive(s, l);
    var m := s.chans[s.loops[l].chan].buf[0];
    var effect := EffectOf(m, s.items[s.loops[l].item].retryCount);
    FirstAsk(s, l);
    assert LoopPaid(s, l);
    hide Connected, DueOnce, AllHarmless, AttemptsOk, AsksOnce, ItemsPaid, LoopsPaid;
    hide KindsAgree, QueueHoldsInformerItems, MessagesOk, QueueOk, OneLive, Paid, LoopsOk, WorkersOk;
    RetryAnswers(s, s', l, m, effect.status, effect.later);
    AnswerPaid(s, s', l, m, effect.status, true);
  }

  lemma AdoptPaid(s: State, l: nat)
    requires Inv(s) && CanReceive(s, l)
    requires EffectOf(s.chans[s.loops[l].chan].buf[0], s.items[s.loops[l].item].retryCount).NewChild?
    ensures ItemsPaid(DoReceive(s, l)) && LoopsPaid(DoReceive(s, l))
  {
    var s' := DoReceive(s, l);
    var m := s.chans[s.loops[l].chan].buf[0];
    AdoptedWaits(s, l);
    AdoptShape(s, s', l, m.childChan.value);
    QuietPaid(s, s', l, m);
  }

  lemma ReceiveAccounted(s: State, l: nat)
    requires Inv(s) && CanReceive(s, l)
    ensures Accounted(DoReceive(s, l))
  {
    assert AsksOnce(DoReceive(s, l)) by {
      ReceivedChans(s, l);
      SameAsks(s, DoReceive(s, l));
    }
    match EffectOf(s.chans[s.loops[l].chan].buf[0], s.items[s.loops[l].item].retryCount) {
      case NewChild(_) => AdoptPaid(s, l);
      case Silent => SilentPaid(s, l);
      case Notify(_) => NotifyPaid(s, l);
      case NotifyAndRetry(_, _) => RetryPaid(s, l);
    }
  }

  // ---------- every run ----------

  lemma DispatchAccounted(s: State, w: nat)
    requires Inv(s) && Enabled(s, Dispatch(w), Free)
    ensures Accounted(DoDispatch(s, w))
  {
    DispatchShape(s, DoDispatch(s, w), w);
    assert AsksOnce(DoDispatch(s, w)) by { SameAsks(s, DoDispatch(s, w)); }
    DispatchPaid(s, DoDispatch(s, w), w);
  }

  lemma EndAccounted(s: State, l: nat)
    requires Inv(s) && CanEnd(s, l)
    ensures Accounted(DoEnd(s, l))
  {
    EndShape(s, DoEnd(s, l), l);
    assert AsksOnce(DoEnd(s, l)) by { SameAsks(s, DoEnd(s, l)); }
    EndPaid(s, DoEnd(s, l), l);
  }

  lemma InformAccounted(s: State)
    requires Inv(s)
    ensures Accounted(DoInform(s))
  {
    assert AsksOnce(DoInform(s)) by { SameAsks(s, DoInform(s)); }
    InformPaid(s);
  }

  // Workers and timers.
  lemma QueueAccounted(s: State, s': State)
    requires Inv(s) && s' == s.(queue := s'.queue, workers := s'.workers, delayed := s'.delayed)
    requires s'.queue.processing == s.queue.processing
    requires forall x :: Pending(s', x) ==> Pending(s, x)
    requires !s'.queue.shuttingDown ==> !s.queue.shuttingDown && forall x :: Pending(s, x) ==> Pending(s', x)
    ensures Accounted(s')
  {
    assert AsksOnce(s') by { SameAsks(s, s'); }
    StillPaid(s, s');
  }

  lemma WorkerAccounted(s: State, a: Action)
    requires Inv(s) && Enabled(s, a, Free)
    requires !a.Inform? && !a.Dispatch? && !a.Receive? && !a.End? && !a.Send? && !a.SendChild? && !a.Close?
    ensures Accounted(Step(s, a))
  {
    hide CalmInv, Accounted;
    QueueAccounted(s, Step(s, a));
  }

  lemma StepAccounted(s: State, a: Action)
    requires Inv(s) && Enabled(s, a, Once)
    ensures Accounted(Step(s, a))
  {
    hide CalmInv, Accounted;
    OnceIsCalm(s, a);
    match a {
      case Inform => InformAccounted(s);
      case Dispatch(w) => DispatchAccounted(s, w);
      case Receive(l) => ReceiveAccounted(s, l);
      case End(l) => EndAccounted(s, l);
      case Send(_, _) => HandlerAccounted(s, a);
      case SendChild(_) => HandlerAccounted(s, a);
      case Close(_) => HandlerAccounted(s, a);
      case _ => WorkerAccounted(s, a);
    }
  }

  lemma {:induction false} RunInv(s: State, actions: seq<Action>)
    requires Inv(s) && AllEnabled(s, actions, Once)
    ensures Inv(Run(s, actions, Once))
    decreases |actions|
  {
    if actions != [] {
      OnceIsCalm(s, actions[0]);
      StepCalm(s, actions[0]);
      StepAccounted(s, actions[0]);
      RunInv(Step(s, actions[0]), actions[1..]);
    }
  }

  // So the run is calm as well.
  lemma {:induction false} OnceRunsCalm(s: State, actions: seq<Action>)
    requires Inv(s) && AllEnabled(s, actions, Once)
    ensures AllEnabled(s, actions, Calm) && Run(s, actions, Calm) == Run(s, actions, Once)
    decreases |actions|
  {
    if actions != [] {
      OnceIsCalm(s, actions[0]);
      StepCalm(s, actions[0]);
      StepAccounted(s, actions[0]);
      OnceRunsCalm(Step(s, actions[0]), actions[1..]);
    }
  }
}
